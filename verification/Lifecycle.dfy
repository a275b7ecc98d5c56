/** The operator's finalizer on an object, and the reconcile loop that guards external resources with it. */
module Finalizers {

  /** `Ours` is the new key, `Legacy` the one written today; the rest belong to others. */
  datatype Finalizer = Ours | Legacy | Foreign(key: string)

  predicate HasFinalizer(fs: seq<Finalizer>) {
    Ours in fs || Legacy in fs
  }

  /** Adding writes the legacy key only, so that an older operator can still remove it. */
  function AddFinalizer(fs: seq<Finalizer>): (r: seq<Finalizer>)
    ensures HasFinalizer(r) && (forall key :: Foreign(key) in r <==> Foreign(key) in fs)
    ensures Legacy in r && (r == fs <==> Legacy in fs) && (Ours in r <==> Ours in fs)
  {
    if Legacy in fs then fs else fs + [Legacy]
  }

  function Without(fs: seq<Finalizer>, f: Finalizer): (r: seq<Finalizer>)
    ensures f !in r && (forall g :: g != f ==> (g in r <==> g in fs))
    ensures r == fs <==> f !in fs
  {
    if fs == [] then []
    else if fs[0] == f then Without(fs[1..], f)
    else [fs[0]] + Without(fs[1..], f)
  }

  /** Removing takes both keys off, and no others. */
  function RemoveFinalizer(fs: seq<Finalizer>): (r: seq<Finalizer>)
    ensures !HasFinalizer(r) && (forall key :: Foreign(key) in r <==> Foreign(key) in fs)
    ensures r == fs <==> !HasFinalizer(fs)
  {
    Without(Without(fs, Ours), Legacy)
  }
}

module Lifecycle {
  import opened Options
  import opened Finalizers

  /** `id` is the external resource recorded in the object's status. */
  datatype Object = Object(uid: nat, finalizers: seq<Finalizer>, deleting: bool, id: Option<nat>)

  type Objects = map<string, Object>

  /** `external` are the resources that exist in the ngrok API, `draining` is the cached drain flag and `condition`
      what the KubernetesOperator's status says. `inFlight` are the objects as the reconciles in progress read them,
      one for a name at most. `stripped` are the UIDs of objects from which the drainer took the finalizer. */
  datatype World = World(
    objects: Objects,
    external: set<nat>,
    draining: bool,
    condition: bool,
    nextUid: nat,
    inFlight: map<string, Object>,
    stripped: set<nat>)

  predicate Has(objects: Objects, n: string) {
    n in objects && HasFinalizer(objects[n].finalizers)
  }

  /** A deleted object goes away with its last finalizer. */
  function Collected(objects: Objects, n: string): Objects {
    if n in objects && objects[n].deleting && objects[n].finalizers == [] then objects - {n} else objects
  }

  function WithFinalizers(objects: Objects, n: string, fs: seq<Finalizer>): Objects {
    if n in objects then Collected(objects[n := objects[n].(finalizers := fs)], n) else objects
  }

  // ----- what a reconcile may do

  /** The first half of a reconcile: the object is read, and the drain looked up. A live object goes on only if the
      drain was not seen. */
  ghost predicate LookedUp(s: World, s': World, n: string) {
    && n in s.objects && n !in s.inFlight
    && (s.draining ==> s'.draining) && (s'.draining ==> s.draining || s.condition)
    && (s.objects[n].deleting || !s'.draining)
    && s' == s.(draining := s'.draining, inFlight := s.inFlight[n := s.objects[n]])
  }

  /** The finalizer is registered by a patch that replaces the list, with no regard to what happened since the
      object was read; the API refuses new finalizers on a deleted object. */
  ghost predicate Registered(before: Objects, after: Objects, n: string, o: Object) {
    if Legacy in o.finalizers then after == before
    else
      && n in before && (!before[n].deleting || Legacy in before[n].finalizers)
      && after == before[n := before[n].(finalizers := AddFinalizer(o.finalizers))]
  }

  /** A status write that records or forgets a resource; it fails if the object is not the one that was read. */
  ghost predicate Recorded(before: Objects, after: Objects, n: string, o: Object) {
    || after == before
    || (n in before && n in after && before[n].uid == o.uid && after == before[n := before[n].(id := after[n].id)])
  }

  /** The second half for a live object: nothing, or a registered finalizer and then a resource created or changed
      and recorded. */
  ghost predicate LiveActed(s: World, s': World, n: string, o: Object) {
    || (s'.objects == s.objects && s'.external == s.external)
    || (&& (exists mid :: Registered(s.objects, mid, n, o) && Recorded(mid, s'.objects, n, o))
        && s.external <= s'.external
        && forall x <- s'.external - s.external, m <- s.objects :: s.objects[m].id != Some(x))
  }

  /** The second half for a deleted object: the finalizers come off only once the recorded resource is gone. */
  ghost predicate DeletedActed(s: World, s': World, n: string, o: Object) {
    && (s'.external == s.external || (o.id.Some? && s'.external == s.external - {o.id.value}))
    && (|| s'.objects == s.objects
        || (&& HasFinalizer(o.finalizers) && (o.id.Some? ==> o.id.value !in s'.external)
            && s'.objects == WithFinalizers(s.objects, n, RemoveFinalizer(o.finalizers))))
  }

  ghost predicate Acted(s: World, s': World, n: string) {
    && n in s.inFlight
    && s' == s.(objects := s'.objects, external := s'.external, inFlight := s.inFlight - {n})
    && var o := s.inFlight[n];
       if o.deleting then DeletedActed(s, s', n, o) else LiveActed(s, s', n, o)
  }

  ghost predicate UserCreates(s: World, s': World, n: string) {
    && n !in s.objects && n in s'.objects && s'.objects == s.objects[n := s'.objects[n]]
    && !Has(s'.objects, n) && s'.objects[n].id.None? && s'.objects[n].uid == s.nextUid
    && s'.nextUid == s.nextUid + 1 && s'.stripped == s.stripped
  }

  ghost predicate UserDeletes(s: World, s': World, n: string) {
    && n in s.objects && s'.nextUid == s.nextUid && s'.stripped == s.stripped
    && s'.objects == Collected(s.objects[n := s.objects[n].(deleting := true)], n)
  }

  ghost predicate Refinalized(s: World, s': World, n: string) {
    && n in s.objects && s'.nextUid == s.nextUid
    && exists fs :: s'.objects == WithFinalizers(s.objects, n, fs) && Foreigns(s, s', n, fs)
  }

  /** Others create and delete objects and change foreign finalizers; the drainer strips ours; the drain flag is only
      ever set. */
  ghost predicate OthersAllowed(s: World, s': World, n: string) {
    && s'.external == s.external && s'.inFlight == s.inFlight && (s.draining ==> s'.draining)
    && (|| (s'.objects == s.objects && s'.nextUid == s.nextUid && s'.stripped == s.stripped)
        || UserCreates(s, s', n) || UserDeletes(s, s', n) || Refinalized(s, s', n))
  }

  /** Our finalizer stays as it was, or the drainer took it off. */
  ghost predicate Foreigns(s: World, s': World, n: string, fs: seq<Finalizer>)
    requires n in s.objects
  {
    || (s'.stripped == s.stripped && (HasFinalizer(fs) <==> Has(s.objects, n)))
    || (s'.stripped == s.stripped + {s.objects[n].uid} && !HasFinalizer(fs))
  }

  ghost predicate Next(s: World, s': World) {
    exists n :: LookedUp(s, s', n) || Acted(s, s', n) || OthersAllowed(s, s', n)
  }

  ghost predicate IsRun(run: seq<World>) {
    forall i | 0 < i < |run| :: Next(run[i - 1], run[i])
  }

  // ----- the code

  /** The longer history goes on where the shorter one ended. */
  ghost predicate Continues(before: seq<World>, after: seq<World>) {
    && 0 < |before| <= |after| && before == after[..|before|]
    && forall t | |before| <= t < |after| :: Next(after[t - 1], after[t])
  }

  lemma ContinuesTwice(a: seq<World>, b: seq<World>, c: seq<World>)
    requires Continues(a, b) && Continues(b, c)
    ensures Continues(a, c)
  {
    hide Next;
    forall t | |a| <= t < |c|
      ensures Next(c[t - 1], c[t])
    {
      if t < |b| {
        assert b[t] == c[t] && b[t - 1] == c[t - 1];
      }
    }
  }

  lemma ContinuesBy(history: seq<World>, s': World)
    requires |history| > 0 && Next(history[|history| - 1], s')
    ensures Continues(history, history + [s'])
  {
  }

  lemma ContinuesKeeps(before: seq<World>, after: seq<World>)
    requires Continues(before, after)
    ensures before <= after
  {
  }

  lemma ContinuesAsIs(history: seq<World>)
    requires |history| > 0
    ensures Continues(history, history)
  {
  }

  datatype Op = CreateOp | UpdateOp | DeleteOp

  /** A call of one of the controller's callbacks, and whether the object carried the finalizer then. */
  datatype Callback = Callback(op: Op, name: string, guarded: bool)

  /** The API server, the ngrok API and the drain flag. Any call may fail: `failures` counts those whose error ends a
      reconcile, `misses` the failed look-ups of the drain, which do not; `calls` are the callbacks called. */
  class Controller {
    var objects: Objects
    var external: set<nat>
    var draining: bool
    var condition: bool
    var nextUid: nat
    ghost var inFlight: map<string, Object>
    ghost var stripped: set<nat>
    ghost var history: seq<World>
    ghost var failures: nat
    ghost var misses: nat
    ghost var calls: seq<Callback>

    ghost function Now(): World
      reads this
    {
      World(objects, external, draining, condition, nextUid, inFlight, stripped)
    }

    ghost predicate Valid()
      reads this
    {
      |history| > 0 && history[|history| - 1] == Now()
    }

    /** Draining is looked up until it is first seen, and then remembered; a failed look-up answers no. */
    method IsDraining() returns (r: bool)
      modifies this`draining, this`misses
      ensures r == draining && misses >= old(misses)
      ensures (old(draining) ==> draining) && (draining ==> old(draining) || condition)
      ensures misses == old(misses) ==> (draining <==> old(draining) || condition)
    {
      if draining {
        return true;
      }
      var failed := *;
      if failed {
        misses := misses + 1;
        return false;
      }
      if condition {
        draining := true;
      }
      return condition;
    }

    method SetDraining()
      modifies this`draining
      ensures draining
    {
      draining := true;
    }

    /** Sends a new finalizer list; on failure nothing changed. */
    method Patch(n: string, fs: seq<Finalizer>) returns (failed: bool)
      modifies this`objects, this`failures
      ensures failed ==> objects == old(objects)
      ensures !failed ==> n in old(objects) && objects == WithFinalizers(old(objects), n, fs)
      ensures !failed ==> !old(objects)[n].deleting || forall f <- fs :: f in old(objects)[n].finalizers
      ensures failures == old(failures) + if failed then 1 else 0
    {
      failed := *;
      if n !in objects || (objects[n].deleting && exists f <- fs :: f !in objects[n].finalizers) {
        failed := true;
      } else if !failed {
        objects := WithFinalizers(objects, n, fs);
      }
      failures := failures + if failed then 1 else 0;
    }

    /** The controller's Create and Update callbacks: they may create a resource, record it or fail halfway. */
    method Upsert(n: string, o: Object, op: Op) returns (failed: bool)
      modifies this`objects, this`external, this`failures, this`calls
      ensures Recorded(old(objects), objects, n, o)
      ensures old(external) <= external
      ensures forall x <- external - old(external), m <- old(objects) :: old(objects)[m].id != Some(x)
      ensures failures == old(failures) + if failed then 1 else 0
      ensures calls == old(calls) + [Callback(op, n, Has(old(objects), n))]
    {
      calls := calls + [Callback(op, n, Has(objects, n))];
      failed := *;
      var creates: bool, records: bool, clears: bool := *, *, *;
      var used := external + set m | m in objects && objects[m].id.Some? :: objects[m].id.value;
      var same := n in objects && objects[n].uid == o.uid;
      if clears && same {
        objects := objects[n := objects[n].(id := None)];
      }
      if creates {
        var x: nat := Unused(used);
        external := external + {x};
        if records && same {
          objects := objects[n := objects[n].(id := Some(x))];
        }
      }
      failures := failures + if failed then 1 else 0;
    }

    /** The Delete callback: success, or "not found", means the resource is gone. */
    method DeleteExternal(n: string, id: nat) returns (failed: bool)
      modifies this`external, this`failures, this`calls
      ensures external == if failed then old(external) else old(external) - {id}
      ensures failures == old(failures) + if failed then 1 else 0
      ensures calls == old(calls) + [Callback(DeleteOp, n, Has(objects, n))]
    {
      calls := calls + [Callback(DeleteOp, n, Has(objects, n))];
      failed := *;
      if !failed {
        external := external - {id};
      }
      failures := failures + if failed then 1 else 0;
    }

    /** Reads the object and looks up the drain; goes on with what was read if it is deleted or no drain was seen. */
    method LookUp(n: string) returns (failed: bool, go: bool, o: Object)
      requires Valid() && n !in inFlight
      modifies this`draining, this`inFlight, this`history, this`failures, this`misses
      ensures Valid() && Continues(old(history), history) && history == old(history) + [Now()]
      ensures failures == old(failures) + if failed then 1 else 0
      ensures go <==> !failed && n in objects && (objects[n].deleting || !draining)
      ensures go ==> o == objects[n] && inFlight == old(inFlight)[n := o] && LookedUp(old(Now()), Now(), n)
      ensures !go ==> inFlight == old(inFlight)
      ensures misses >= old(misses)
      ensures misses == old(misses) && !failed && n in objects ==> (draining <==> old(draining) || condition)
    {
      go, o := false, Object(0, [], false, None);
      failed := *;
      ghost var before := Now();
      if !failed && n in objects {
        o := objects[n];
        var drains := IsDraining();
        go := o.deleting || !drains;
      }
      if go {
        inFlight := inFlight[n := o];
        assert LookedUp(before, Now(), n);
      } else {
        assert OthersAllowed(before, Now(), n);
      }
      failures := failures + if failed then 1 else 0;
      Record();
    }

    /** The rest of the reconcile, on the object as it was read. It fails exactly if one of its calls does. A live
        object has the finalizer registered, and then Create or Update called; a deleted one that was read with the
        finalizer has Delete called if a resource is recorded, and then the finalizer taken off. */
    method Act(n: string, o: Object) returns (failed: bool)
      requires Valid() && n in inFlight && inFlight[n] == o
      modifies this`objects, this`external, this`inFlight, this`history, this`failures, this`calls
      ensures Valid() && Continues(old(history), history) && inFlight == old(inFlight) - {n}
      ensures Acted(old(Now()), Now(), n)
      ensures failed <==> failures > old(failures)
      ensures failures >= old(failures)
      ensures if o.deleting then DeletedDone(old(objects), objects, old(calls), calls, n, o, failed)
              else LiveDone(old(objects), objects, old(calls), calls, n, o, failed)
    {
      ghost var before := Now();
      if !o.deleting {
        failed := ActLive(n, o);
      } else {
        failed := ActDeleted(n, o);
      }
      inFlight := inFlight - {n};
      assert Acted(before, Now(), n) by {
        hide LiveDone, DeletedDone;
      }
      Record();
    }

    method ActLive(n: string, o: Object) returns (failed: bool)
      modifies this`objects, this`external, this`failures, this`calls
      ensures LiveActed(old(Now()), Now(), n, o)
      ensures failures == old(failures) + if failed then 1 else 0
      ensures LiveDone(old(objects), objects, old(calls), calls, n, o, failed)
    {
      if Legacy !in o.finalizers {
        failed := Patch(n, AddFinalizer(o.finalizers));
        if failed {
          return;
        }
        PatchRegisters(old(objects), objects, n, o);
      }
      ghost var mid := objects;
      assert Registered(old(objects), mid, n, o);
      SameIds(old(objects), mid, n, o);
      failed := Upsert(n, o, if o.id.None? then CreateOp else UpdateOp);
      assert Recorded(mid, objects, n, o);
    }

    method ActDeleted(n: string, o: Object) returns (failed: bool)
      modifies this`objects, this`external, this`failures, this`calls
      ensures DeletedActed(old(Now()), Now(), n, o)
      ensures failures == old(failures) + if failed then 1 else 0
      ensures DeletedDone(old(objects), objects, old(calls), calls, n, o, failed)
    {
      failed := false;
      if HasFinalizer(o.finalizers) {
        if o.id.Some? {
          failed := DeleteExternal(n, o.id.value);
          if failed {
            return;
          }
        }
        failed := Patch(n, RemoveFinalizer(o.finalizers));
      }
    }

    method UserCreate(n: string)
      requires Valid() && n !in objects
      modifies this`objects, this`nextUid, this`history
      ensures Valid() && Continues(old(history), history)
    {
      objects := objects[n := Object(nextUid, [], false, None)];
      nextUid := nextUid + 1;
      CreateAllowed(old(Now()), Now(), n);
      Record();
    }

    method UserDelete(n: string)
      requires Valid() && n in objects
      modifies this`objects, this`history
      ensures Valid() && Continues(old(history), history)
    {
      objects := Collected(objects[n := objects[n].(deleting := true)], n);
      DeleteAllowed(old(Now()), Now(), n);
      Record();
    }

    /** The drainer takes our finalizer off. */
    method Strip(n: string)
      requires Valid() && n in objects
      modifies this`objects, this`stripped, this`history
      ensures Valid() && Continues(old(history), history)
    {
      stripped := stripped + {objects[n].uid};
      objects := WithFinalizers(objects, n, RemoveFinalizer(objects[n].finalizers));
      StripAllowed(old(Now()), Now(), n);
      Record();
    }

    /** The drain flag or the condition changes. */
    method Signal(n: string)
      requires Valid()
      modifies this`draining, this`condition, this`history
      ensures Valid() && Continues(old(history), history)
    {
      condition := *;
      var drains := *;
      if drains {
        SetDraining();
      }
      FlagsMayChange(old(Now()), Now(), n);
      Record();
    }

    ghost method Record()
      requires |history| > 0 && Next(history[|history| - 1], Now())
      modifies this`history
      ensures Valid() && Continues(old(history), history) && history == old(history) + [Now()]
    {
      ContinuesBy(history, Now());
      history := history + [Now()];
    }

    /** Something another party does. */
    method Interfere(n: string)
      requires Valid()
      modifies this`objects, this`draining, this`condition, this`nextUid, this`stripped, this`history
      ensures Valid() && Continues(old(history), history)
    {
      hide Continues;
      var creates, deletes, strips := *, *, *;
      if creates && n !in objects {
        UserCreate(n);
      } else if deletes && n in objects {
        UserDelete(n);
      } else if strips && n in objects {
        Strip(n);
      } else {
        Signal(n);
      }
    }

    /** Whatever others do, for a while. */
    method Meanwhile()
      requires Valid()
      modifies this`objects, this`draining, this`condition, this`nextUid, this`stripped, this`history
      ensures Valid() && Continues(old(history), history)
    {
      hide Continues;
      ContinuesAsIs(history);
      var n, k: nat := *, *;
      for i := 0 to k
        invariant Valid() && Continues(old(history), history)
      {
        ghost var before := history;
        Interfere(n);
        ContinuesTwice(old(history), before, history);
        n := *;
      }
    }

    /** One reconcile of the object, as the manager calls it for every event; others act between its two halves. */
    method Reconcile(n: string) returns (failed: bool)
      requires Valid() && n !in inFlight
      modifies this
      ensures Valid() && Continues(old(history), history) && inFlight == old(inFlight) - {n}
      ensures failed <==> failures > old(failures)
      ensures |history| > |old(history)| && failures >= old(failures) && misses >= old(misses)
      ensures var read := history[|old(history)|];
              && (misses == old(misses) && n in old(objects) && !failed ==>
                    (read.draining <==> old(draining) || old(condition)))
              && (!failed ==>
                    (n in read.inFlight <==> n in old(objects) && (old(objects)[n].deleting || !read.draining)))
              && (n in read.inFlight ==> read.inFlight[n] == old(objects)[n])
              && (!failed ==> CallsMade(old(calls), calls, n, read.inFlight))
    {
      hide Continues, LookedUp, Acted, LiveDone, DeletedDone, CallsMade, Has, HasFinalizer;
      var go, o;
      failed, go, o := LookUp(n);
      ghost var read := Now();
      assert history[|old(history)|] == read && (n in read.inFlight <==> go);
      if !go {
        NoCalls(calls, n, read.inFlight);
        return;
      }
      ghost var started, before := history, objects;
      failed, before := Rest(n, o);
      ContinuesKeeps(started, history);
      ContinuesTwice(old(history), started, history);
      if !failed {
        DoneMakesCalls(before, objects, old(calls), calls, n, read.inFlight);
      }
    }

    /** Others act, and then the reconcile goes on; `before` are the objects then. */
    method Rest(n: string, o: Object) returns (failed: bool, ghost before: Objects)
      requires Valid() && n in inFlight && inFlight[n] == o
      modifies this
      ensures Valid() && Continues(old(history), history) && inFlight == old(inFlight) - {n}
      ensures (failed <==> failures > old(failures)) && failures >= old(failures) && misses == old(misses)
      ensures if o.deleting then DeletedDone(before, objects, old(calls), calls, n, o, failed)
              else LiveDone(before, objects, old(calls), calls, n, o, failed)
    {
      hide Continues, Acted, LiveDone, DeletedDone;
      Meanwhile();
      before := objects;
      ghost var mid := history;
      failed := Act(n, o);
      ContinuesTwice(old(history), mid, history);
    }
  }

  lemma NoCalls(calls: seq<Callback>, n: string, inFlight: map<string, Object>)
    requires n !in inFlight
    ensures CallsMade(calls, calls, n, inFlight)
  {
  }

  /** The callbacks of a reconcile without failure: Create or Update for a live object that was read, Delete for a
      deleted one with the finalizer and a recorded resource, and none otherwise. */
  ghost predicate CallsMade(earlier: seq<Callback>, calls: seq<Callback>, n: string, inFlight: map<string, Object>) {
    if n !in inFlight then calls == earlier
    else
      var o := inFlight[n];
      if !o.deleting then OneCall(earlier, calls, n, if o.id.None? then CreateOp else UpdateOp)
      else if HasFinalizer(o.finalizers) && o.id.Some? then OneCall(earlier, calls, n, DeleteOp)
      else calls == earlier
  }

  ghost predicate OneCall(earlier: seq<Callback>, calls: seq<Callback>, n: string, op: Op) {
    |calls| == |earlier| + 1 && earlier <= calls && calls[|earlier|].op == op && calls[|earlier|].name == n
  }

  lemma DoneMakesCalls(before: Objects, after: Objects, earlier: seq<Callback>, calls: seq<Callback>, n: string,
                       inFlight: map<string, Object>)
    requires n in inFlight
    requires if inFlight[n].deleting then DeletedDone(before, after, earlier, calls, n, inFlight[n], false)
             else LiveDone(before, after, earlier, calls, n, inFlight[n], false)
    ensures CallsMade(earlier, calls, n, inFlight)
  {
    if inFlight[n].deleting {
      assert inFlight[n].id.None? ==> earlier + [] == earlier;
    }
  }

  /** What acting on a live object comes to: the callback is called once the finalizer is persisted, or was read as
      such, and exactly then unless the registration failed. */
  ghost predicate LiveDone(before: Objects, after: Objects, earlier: seq<Callback>, calls: seq<Callback>, n: string,
                           o: Object, failed: bool)
  {
    var op := if o.id.None? then CreateOp else UpdateOp;
    && (calls == earlier || exists guarded :: calls == earlier + [Callback(op, n, guarded)])
    && (calls == earlier ==> failed && Legacy !in o.finalizers)
    && (calls != earlier && Legacy !in o.finalizers ==> calls == earlier + [Callback(op, n, true)])
    && (calls != earlier && (Legacy !in o.finalizers || (n in before && Legacy in before[n].finalizers)) ==>
          n in after && Legacy in after[n].finalizers)
  }

  /** What acting on a deleted object comes to. */
  ghost predicate DeletedDone(before: Objects, after: Objects, earlier: seq<Callback>, calls: seq<Callback>, n: string,
                              o: Object, failed: bool)
  {
    var deletes := if o.id.Some? then [Callback(DeleteOp, n, Has(before, n))] else [];
    if HasFinalizer(o.finalizers) then calls == earlier + deletes && (!failed ==> !Has(after, n))
    else calls == earlier && after == before && !failed
  }

  /** The worlds agree but for the drain flag, which may be set, and the condition. */
  ghost predicate FlagsOnly(s: World, s': World) {
    (s.draining ==> s'.draining) && s' == s.(draining := s'.draining, condition := s'.condition)
  }

  lemma FlagsMayChange(s: World, s': World, n: string)
    requires FlagsOnly(s, s')
    ensures Next(s, s')
  {
    assert OthersAllowed(s, s', n);
  }

  lemma CreateAllowed(s: World, s': World, n: string)
    requires n !in s.objects && s'.objects == s.objects[n := Object(s.nextUid, [], false, None)]
    requires s'.nextUid == s.nextUid + 1 && FlagsOnly(s, s'.(objects := s.objects, nextUid := s.nextUid))
    ensures Next(s, s')
  {
    assert UserCreates(s, s', n);
    assert OthersAllowed(s, s', n);
  }

  lemma DeleteAllowed(s: World, s': World, n: string)
    requires n in s.objects && s'.objects == Collected(s.objects[n := s.objects[n].(deleting := true)], n)
    requires FlagsOnly(s, s'.(objects := s.objects))
    ensures Next(s, s')
  {
    assert UserDeletes(s, s', n);
    assert OthersAllowed(s, s', n);
  }

  lemma StripAllowed(s: World, s': World, n: string)
    requires n in s.objects && s'.stripped == s.stripped + {s.objects[n].uid}
    requires s'.objects == WithFinalizers(s.objects, n, RemoveFinalizer(s.objects[n].finalizers))
    requires FlagsOnly(s, s'.(objects := s.objects, stripped := s.stripped))
    ensures Next(s, s')
  {
    assert Foreigns(s, s', n, RemoveFinalizer(s.objects[n].finalizers));
    assert Refinalized(s, s', n);
    assert OthersAllowed(s, s', n);
  }

  lemma PatchRegisters(before: Objects, after: Objects, n: string, o: Object)
    requires n in before && Legacy !in o.finalizers
    requires after == WithFinalizers(before, n, AddFinalizer(o.finalizers))
    requires !before[n].deleting || forall f <- AddFinalizer(o.finalizers) :: f in before[n].finalizers
    ensures Registered(before, after, n, o)
  {
    assert AddFinalizer(o.finalizers) == o.finalizers + [Legacy];
    assert Legacy in AddFinalizer(o.finalizers);
  }

  lemma SameIds(before: Objects, after: Objects, n: string, o: Object)
    requires Registered(before, after, n, o)
    ensures before.Keys == after.Keys
    ensures forall m <- before :: after[m].id == before[m].id && after[m].uid == before[m].uid
  {
  }

  // ----- whole runs

  /** UIDs identify objects, those that were read included. */
  ghost predicate UidsOk(s: World) {
    && (forall n <- s.objects :: s.objects[n].uid < s.nextUid)
    && (forall n <- s.objects, m <- s.objects :: s.objects[n].uid == s.objects[m].uid ==> n == m)
    && (forall n <- s.inFlight :: s.inFlight[n].uid < s.nextUid)
  }

  /** A recorded resource that still exists is guarded by the finalizer, unless the drainer took that off. */
  ghost predicate Guarded(s: World) {
    forall n <- s.objects ::
      s.objects[n].id.Some? && s.objects[n].id.value in s.external ==>
        Has(s.objects, n) || s.objects[n].uid in s.stripped
  }

  /** What was read still tells of the object; or the object is a new one, of which no reconcile knows yet. */
  ghost predicate StillTells(s: World, n: string)
    requires n in s.inFlight
  {
    n in s.objects ==>
      var o, c := s.inFlight[n], s.objects[n];
      if c.uid == o.uid then
        && c.id == o.id && (o.deleting ==> c.deleting)
        && (HasFinalizer(o.finalizers) ==> Has(s.objects, n) || c.uid in s.stripped)
      else c.id.None? && !Has(s.objects, n)
  }

  ghost predicate Inv(s: World) {
    UidsOk(s) && Guarded(s) && forall n <- s.inFlight :: StillTells(s, n)
  }

  lemma LookedUpKeepsInv(s: World, s': World, n: string)
    requires Inv(s) && LookedUp(s, s', n)
    ensures Inv(s')
  {
    forall m <- s'.inFlight
      ensures StillTells(s', m)
    {
      assert m != n ==> StillTells(s, m);
    }
  }

  /** What acting on a live object leaves as it is. */
  lemma LiveFrame(s: World, s': World, n: string)
    requires Acted(s, s', n) && !s.inFlight[n].deleting
    ensures s'.objects.Keys == s.objects.Keys
    ensures forall m <- s.objects :: m != n ==> s'.objects[m] == s.objects[m]
    ensures n in s.objects ==>
              && s'.objects[n].uid == s.objects[n].uid && (Has(s.objects, n) ==> Has(s'.objects, n))
              && (s'.objects[n].id != s.objects[n].id ==>
                    && s.objects[n].uid == s.inFlight[n].uid
                    && (Has(s'.objects, n) || Legacy in s.inFlight[n].finalizers))
    ensures s.external <= s'.external
    ensures forall x <- s'.external - s.external, m <- s.objects :: s.objects[m].id != Some(x)
  {
    var o := s.inFlight[n];
    if s'.objects != s.objects || s'.external != s.external {
      var mid :| Registered(s.objects, mid, n, o) && Recorded(mid, s'.objects, n, o);
      SameIds(s.objects, mid, n, o);
    }
  }

  lemma LiveActedKeepsGuarded(s: World, s': World, n: string)
    requires UidsOk(s) && Guarded(s) && Acted(s, s', n) && !s.inFlight[n].deleting && StillTells(s, n)
    ensures UidsOk(s') && Guarded(s')
  {
    LiveFrame(s, s', n);
    assert s'.inFlight == s.inFlight - {n} && s'.nextUid == s.nextUid && s'.stripped == s.stripped;
    hide Acted, HasFinalizer;
    forall m <- s'.objects | s'.objects[m].id.Some? && s'.objects[m].id.value in s'.external
      ensures Has(s'.objects, m) || s'.objects[m].uid in s'.stripped
    {
      if s'.objects[m].id == s.objects[m].id {
        assert s.objects[m].id.value in s.external;
      } else {
        LegacyCounts(s.inFlight[n].finalizers);
      }
    }
  }

  lemma LegacyCounts(fs: seq<Finalizer>)
    ensures Legacy in fs ==> HasFinalizer(fs)
  {
  }

  lemma LiveActedKeepsInv(s: World, s': World, n: string)
    requires Inv(s) && Acted(s, s', n) && !s.inFlight[n].deleting
    ensures Inv(s')
  {
    assert StillTells(s, n);
    LiveActedKeepsGuarded(s, s', n);
    LiveFrame(s, s', n);
    assert s'.inFlight == s.inFlight - {n} && s'.stripped == s.stripped;
    hide Acted, UidsOk, Guarded;
    forall m <- s'.inFlight
      ensures StillTells(s', m)
    {
      assert StillTells(s, m) && m != n;
    }
  }

  lemma DeletedActedKeepsInv(s: World, s': World, n: string)
    requires Inv(s) && Acted(s, s', n) && s.inFlight[n].deleting
    ensures Inv(s')
  {
    assert StillTells(s, n);
    assert forall m <- s'.objects :: m in s.objects && (m != n ==> s'.objects[m] == s.objects[m]);
    forall m <- s'.inFlight
      ensures StillTells(s', m)
    {
      assert StillTells(s, m);
    }
  }

  lemma OthersKeepInv(s: World, s': World, n: string)
    requires Inv(s) && OthersAllowed(s, s', n)
    ensures Inv(s')
  {
    forall m <- s'.inFlight
      ensures StillTells(s', m)
    {
      assert StillTells(s, m);
    }
  }

  lemma NextKeepsInv(s: World, s': World)
    requires Inv(s) && Next(s, s')
    ensures Inv(s')
  {
    hide Inv, LookedUp, OthersAllowed;
    var n :| LookedUp(s, s', n) || Acted(s, s', n) || OthersAllowed(s, s', n);
    if LookedUp(s, s', n) {
      LookedUpKeepsInv(s, s', n);
    } else if OthersAllowed(s, s', n) {
      OthersKeepInv(s, s', n);
    } else if s.inFlight[n].deleting {
      DeletedActedKeepsInv(s, s', n);
    } else {
      LiveActedKeepsInv(s, s', n);
    }
  }

  /** Finalizer lifecycle: in every run of reconciles, interleaved with each other and with what others do, whatever
      fails, an object whose recorded resource still exists carries the finalizer, unless the drainer took it off. */
  lemma {:induction false} RunsStayGuarded(run: seq<World>, i: nat)
    requires IsRun(run) && i < |run| && Inv(run[0])
    ensures Inv(run[i]) && Guarded(run[i])
  {
    hide Next, UidsOk, StillTells;
    if i > 0 {
      RunsStayGuarded(run, i - 1);
      NextKeepsInv(run[i - 1], run[i]);
    }
  }

  /** A reconcile takes the finalizer only off a deleted object, and once its recorded resource is gone. */
  lemma LostOnlyAfterDelete(s: World, s': World, n: string, m: string)
    requires Inv(s) && Acted(s, s', n) && Has(s.objects, m) && !Has(s'.objects, m)
    ensures m == n && s.objects[n].deleting
    ensures s.objects[n].id.Some? ==> s.objects[n].id.value !in s'.external
  {
    assert StillTells(s, n);
    if !s.inFlight[n].deleting {
      var o := s.inFlight[n];
      var mid :| Registered(s.objects, mid, n, o) && Recorded(mid, s'.objects, n, o);
    }
  }

  /** A reconcile records a resource only on an object whose finalizer is persisted, or was until the drainer took it
      off. */
  lemma RecordedOnlyGuarded(s: World, s': World, n: string, m: string)
    requires Inv(s) && Acted(s, s', n) && m in s.objects && m in s'.objects && s'.objects[m].id != s.objects[m].id
    ensures m == n && (Has(s'.objects, n) || s.objects[n].uid in s.stripped)
  {
    assert StillTells(s, n);
    if !s.inFlight[n].deleting {
      var o := s.inFlight[n];
      var mid :| Registered(s.objects, mid, n, o) && Recorded(mid, s'.objects, n, o);
      SameIds(s.objects, mid, n, o);
    }
  }

  // ----- draining

  /** A reconcile under way read a live object without the key, and will write it. */
  predicate Adds(s: World, n: string) {
    n in s.inFlight && !s.inFlight[n].deleting && Legacy !in s.inFlight[n].finalizers
  }

  lemma NextWhileDraining(s: World, s': World, m: string)
    requires Next(s, s') && s.draining
    ensures s'.draining && (Adds(s', m) ==> Adds(s, m))
    ensures Has(s'.objects, m) ==> Has(s.objects, m) || Adds(s, m)
  {
    var n :| LookedUp(s, s', n) || Acted(s, s', n) || OthersAllowed(s, s', n);
    if Acted(s, s', n) && !s.inFlight[n].deleting && s'.objects != s.objects {
      var o := s.inFlight[n];
      var mid :| Registered(s.objects, mid, n, o) && Recorded(mid, s'.objects, n, o);
    }
  }

  /** Once draining, no object gains the finalizer, however long the run goes on, but those for which a reconcile was
      under way that had looked before. */
  lemma {:induction false} DrainingGainsNoFinalizer(run: seq<World>, i: nat, j: nat, m: string)
    requires IsRun(run) && i <= j < |run| && run[i].draining
    ensures run[j].draining && (Adds(run[j], m) ==> Adds(run[i], m))
    ensures Has(run[j].objects, m) ==> Has(run[i].objects, m) || Adds(run[i], m)
    decreases j - i
  {
    hide Next;
    if i < j {
      DrainingGainsNoFinalizer(run, i, j - 1, m);
      NextWhileDraining(run[j - 1], run[j], m);
    }
  }

  /** A live object without the finalizer gets it in some run exactly when this process has not seen the drain, or a
      reconcile of the object is under way that looked before. What the status says is not enough. */
  lemma GainsExactly(s: World, n: string)
    requires n in s.objects && !s.objects[n].deleting && !Has(s.objects, n)
    ensures (exists run: seq<World> :: |run| > 0 && run[0] == s && IsRun(run) && Has(run[|run| - 1].objects, n))
       <==> !s.draining || Adds(s, n)
  {
    if run: seq<World> :| |run| > 0 && run[0] == s && IsRun(run) && Has(run[|run| - 1].objects, n) {
      if s.draining {
        DrainingGainsNoFinalizer(run, 0, |run| - 1, n);
      }
    }
    if Adds(s, n) {
      var run := [s, Patched(s, n)];
      AddsByActing(s, n);
      assert Has(run[|run| - 1].objects, n) && IsRun(run);
    } else if !s.draining {
      var idle := s.(inFlight := s.inFlight - {n});
      var read := idle.(inFlight := idle.inFlight[n := s.objects[n]]);
      assert Next(s, idle) by {
        assert if n in s.inFlight then Acted(s, idle, n) else OthersAllowed(s, idle, n);
      }
      assert Next(idle, read) by {
        assert LookedUp(idle, read, n);
      }
      AddsByActing(read, n);
      var run := [s, idle, read, Patched(read, n)];
      hide Next;
      assert Has(run[|run| - 1].objects, n) && IsRun(run);
    }
  }

  function Patched(s: World, n: string): World {
    if n !in s.objects || n !in s.inFlight then s
    else
      var fs := AddFinalizer(s.inFlight[n].finalizers);
      s.(objects := s.objects[n := s.objects[n].(finalizers := fs)], inFlight := s.inFlight - {n})
  }

  lemma AddsByActing(s: World, n: string)
    requires n in s.objects && !s.objects[n].deleting && Adds(s, n)
    ensures Next(s, Patched(s, n)) && Has(Patched(s, n).objects, n)
  {
    var s', o := Patched(s, n), s.inFlight[n];
    assert Registered(s.objects, s'.objects, n, o) && Recorded(s'.objects, s'.objects, n, o);
    assert Acted(s, s', n);
  }

  /** The race: a reconcile looks, the drain begins, and the finalizer is written all the same. */
  lemma RacingReconcile(s: World, n: string)
    requires n in s.objects && !s.objects[n].deleting && !Has(s.objects, n) && !s.draining && n !in s.inFlight
    ensures var read := s.(inFlight := s.inFlight[n := s.objects[n]]);
            var drains := read.(draining := true);
            && IsRun([s, read, drains, Patched(drains, n)])
            && drains.draining && !Has(drains.objects, n) && Has(Patched(drains, n).objects, n)
  {
    var read := s.(inFlight := s.inFlight[n := s.objects[n]]);
    var drains := read.(draining := true);
    assert LookedUp(s, read, n);
    assert OthersAllowed(read, drains, n);
    AddsByActing(drains, n);
    assert Next(s, read) && Next(read, drains);
    hide Next;
    assert IsRun([s, read, drains, Patched(drains, n)]);
  }

  /** A number above all that are taken. */
  function Unused(used: set<nat>): (x: nat)
    ensures x !in used
  {
    if used == {} then 0
    else
      UnusedExists(used);
      var x: nat :| x !in used && forall y: nat | y < x :: y in used;
      x
  }

  lemma UnusedExists(used: set<nat>)
    ensures exists x: nat :: x !in used && forall y: nat | y < x :: y in used
  {
    var x: nat, below: set<nat> := 0, {};
    while x in used
      invariant below <= used && |below| == x
      invariant forall y: nat :: y in below <==> y < x
      decreases |used - below|
    {
      below, x := below + {x}, x + 1;
    }
  }
}
