/** Making the endpoints in the cluster equal to the desired ones. Agent and cloud endpoints take the same
    steps. */
module Apply {
  import opened Options

  datatype Name = Name(namespace: string, name: string)

  type Labels = map<string, string>

  datatype Content = Content(spec: string, labels: Labels, annotations: Labels)

  /** `deleting` stands for a deletion that waits for finalizers. */
  datatype Object = Object(name: Name, uid: nat, content: Content, ownerKinds: seq<string>, deleting: bool)

  type Objects = map<Name, Object>

  /** An object the driver may write: it carries this controller's labels and no Service owns it. */
  predicate Managed(hasLabels: Labels -> bool, o: Object) {
    hasLabels(o.content.labels) && "Service" !in o.ownerKinds
  }

  /** The object is gone, or marked. */
  ghost predicate Deleted(before: Objects, after: Objects, n: Name) {
    after == before - {n} || (n in before && after == before[n := before[n].(deleting := true)])
  }

  /** The API server's view; `writes` counts the calls that changed something. Any call may fail, and `failures`
      counts those that did, apart from creates that found their name taken. */
  class Cluster {
    var objects: Objects
    var writes: nat
    ghost var failures: nat
    var nextUid: nat

    /** Names identify objects, and so do UIDs. */
    ghost predicate Valid()
      reads this
    {
      && (forall n <- objects :: objects[n].name == n && objects[n].uid < nextUid)
      && (forall n <- objects, m <- objects :: objects[n].uid == objects[m].uid ==> n == m)
    }

    method Update(o: Object) returns (failed: bool)
      requires Valid() && o.name in objects && objects[o.name].uid == o.uid
      modifies this
      ensures Valid() && nextUid == old(nextUid)
      ensures failed ==> objects == old(objects)
      ensures !failed ==> objects == old(objects)[o.name := o]
      ensures writes == old(writes) + if failed then 0 else 1
      ensures failures == old(failures) + if failed then 1 else 0
    {
      failed := *;
      if !failed {
        objects := objects[o.name := o];
        writes := writes + 1;
      }
      failures := failures + if failed then 1 else 0;
    }

    /** A finalizer may keep the object, which is then only marked. Deleting what is gone, or marked already, changes
        nothing and counts as success. */
    method Delete(n: Name) returns (failed: bool)
      requires Valid()
      modifies this
      ensures Valid() && nextUid == old(nextUid)
      ensures failed ==> objects == old(objects)
      ensures !failed ==> Deleted(old(objects), objects, n)
      ensures n in old(objects) && old(objects)[n].deleting ==> objects == old(objects)
      ensures writes == old(writes) + if objects == old(objects) then 0 else 1
      ensures failures == old(failures) + if failed then 1 else 0
    {
      failed := *;
      var kept := *;
      if !failed && n in objects && !objects[n].deleting {
        objects := if kept then objects[n := objects[n].(deleting := true)] else objects - {n};
        writes := writes + 1;
        assert kept ==> objects[n].deleting;
        assert objects != old(objects);
      }
      failures := failures + if failed then 1 else 0;
    }

    /** A name that is taken makes the call fail, too. */
    method Create(n: Name, content: Content) returns (failed: bool)
      requires Valid()
      modifies this
      ensures Valid() && nextUid >= old(nextUid)
      ensures failed <==> failures > old(failures) || n in old(objects)
      ensures failures >= old(failures)
      ensures failed ==> objects == old(objects)
      ensures !failed ==> exists uid :: objects == old(objects)[n := Object(n, uid, content, [], false)]
      ensures writes == old(writes) + if failed then 0 else 1
    {
      var flaked := *;
      failed := flaked || n in objects;
      if !failed {
        objects := objects[n := Object(n, nextUid, content, [], false)];
        assert objects == old(objects)[n := Object(n, nextUid, content, [], false)];
        nextUid, writes := nextUid + 1, writes + 1;
      }
      failures := failures + if flaked then 1 else 0;
    }
  }

  // ----- listing

  function Dedupe(items: seq<Object>, seen: set<nat>): seq<Object> {
    if items == [] then []
    else if items[0].uid in seen then Dedupe(items[1..], seen)
    else [items[0]] + Dedupe(items[1..], seen + {items[0].uid})
  }

  function Concat(lists: seq<seq<Object>>): seq<Object> {
    if lists == [] then [] else lists[0] + Concat(lists[1..])
  }

  /** One listing per label selector, united without repetition. */
  method ListForController(lists: seq<seq<Object>>) returns (out: seq<Object>)
    ensures out == Dedupe(Concat(lists), {})
  {
    var seen: set<nat> := {};
    out := [];
    for i := 0 to |lists|
      invariant out + Dedupe(Concat(lists[i..]), seen) == Dedupe(Concat(lists), {})
    {
      var items := lists[i];
      assert Concat(lists[i..]) == items + Concat(lists[i + 1..]);
      for j := 0 to |items|
        invariant out + Dedupe(items[j..] + Concat(lists[i + 1..]), seen) == Dedupe(Concat(lists), {})
      {
        assert (items[j..] + Concat(lists[i + 1..]))[1..] == items[j + 1..] + Concat(lists[i + 1..]);
        if items[j].uid !in seen {
          seen := seen + {items[j].uid};
          out := out + [items[j]];
        }
      }
      assert items[|items|..] + Concat(lists[i + 1..]) == Concat(lists[i + 1..]);
    }
  }

  ghost predicate HasUid(items: seq<Object>, uid: nat) {
    exists o <- items :: o.uid == uid
  }

  lemma HasUidCons(first: Object, rest: seq<Object>, uid: nat)
    ensures HasUid([first] + rest, uid) <==> first.uid == uid || HasUid(rest, uid)
  {
    assert first in [first] + rest;
    assert forall o <- rest :: o in [first] + rest;
  }

  /** What is kept was listed; every UID listed is kept once. */
  lemma {:induction false} DedupeMeaning(items: seq<Object>, seen: set<nat>)
    ensures forall o <- Dedupe(items, seen) :: o in items && o.uid !in seen
    ensures forall uid :: HasUid(Dedupe(items, seen), uid) <==> HasUid(items, uid) && uid !in seen
    ensures forall i, j | 0 <= i < j < |Dedupe(items, seen)| :: Dedupe(items, seen)[i].uid != Dedupe(items, seen)[j].uid
    decreases |items|
  {
    if items != [] {
      var first, rest := items[0], items[1..];
      assert items == [first] + rest;
      forall uid
        ensures HasUid(items, uid) <==> first.uid == uid || HasUid(rest, uid)
      {
        HasUidCons(first, rest, uid);
      }
      if first.uid in seen {
        DedupeMeaning(rest, seen);
      } else {
        DedupeMeaning(rest, seen + {first.uid});
        forall uid
          ensures HasUid(Dedupe(items, seen), uid)
             <==> first.uid == uid || HasUid(Dedupe(rest, seen + {first.uid}), uid)
        {
          HasUidCons(first, Dedupe(rest, seen + {first.uid}), uid);
        }
      }
    }
  }

  lemma {:induction false} ConcatElements(lists: seq<seq<Object>>, o: Object)
    ensures o in Concat(lists) <==> exists l <- lists :: o in l
  {
    if lists != [] {
      ConcatElements(lists[1..], o);
      assert lists == [lists[0]] + lists[1..];
    }
  }

  /** `current` lists, once each, objects of the cluster, and all the managed ones among them. */
  ghost predicate Lists(current: seq<Object>, objects: Objects, hasLabels: Labels -> bool) {
    && (forall o <- current :: o.name in objects && objects[o.name] == o)
    && (forall i, j | 0 <= i < j < |current| :: current[i].name != current[j].name)
    && (forall n <- objects :: Managed(hasLabels, objects[n]) ==> objects[n] in current)
  }

  /** However the selectors overlap, the union lists every object once. */
  lemma ListingIsDuplicateFree(cluster: Cluster, lists: seq<seq<Object>>, hasLabels: Labels -> bool)
    requires cluster.Valid()
    requires forall l <- lists :: forall o <- l :: o.name in cluster.objects && cluster.objects[o.name] == o
    requires forall n <- cluster.objects :: hasLabels(cluster.objects[n].content.labels) ==>
               exists l <- lists :: cluster.objects[n] in l
    ensures Lists(Dedupe(Concat(lists), {}), cluster.objects, hasLabels)
  {
    var objects, all := cluster.objects, Concat(lists);
    var out := Dedupe(all, {});
    DedupeMeaning(all, {});
    forall o <- all
      ensures o.name in objects && objects[o.name] == o
    {
      ConcatElements(lists, o);
    }
    forall n <- objects | Managed(hasLabels, objects[n])
      ensures objects[n] in out
    {
      ConcatElements(lists, objects[n]);
      assert objects[n] in all && HasUid(all, objects[n].uid);
      var kept :| kept in out && kept.uid == objects[n].uid;
      assert kept in all && objects[kept.name] == kept;
    }
    forall i, j | 0 <= i < j < |out|
      ensures out[i].name != out[j].name
    {
      assert out[i] in out && out[j] in out;
    }
  }

  // ----- applying

  type Desired = map<Name, Content>

  /** No object that the driver must leave alone holds a desired name. */
  ghost predicate NamesFree(objects: Objects, desired: Desired, hasLabels: Labels -> bool) {
    forall n <- desired :: n in objects ==> Managed(hasLabels, objects[n])
  }

  /** The managed objects are exactly the desired ones and those that are being deleted, and the others are as in
      `before`. */
  ghost predicate Converged(before: Objects, after: Objects, desired: Desired, hasLabels: Labels -> bool) {
    && (forall n <- desired ::
          && n in after && after[n].content == desired[n]
          && after[n].ownerKinds == (if n in before then before[n].ownerKinds else [])
          && after[n].deleting == (n in before && before[n].deleting))
    && (forall n <- after :: n in desired || (n in before && Leftover(before[n], after[n], hasLabels)))
    && (forall n <- before :: !Managed(hasLabels, before[n]) ==> n in after && after[n] == before[n])
  }

  /** An object that is not desired was not the driver's to delete, or is being deleted. */
  predicate Leftover(before: Object, after: Object, hasLabels: Labels -> bool) {
    if Managed(hasLabels, before) then after == before.(deleting := true) else after == before
  }

  /** What is left once all finalizers are gone. */
  function Finalized(objects: Objects): Objects {
    map n | n in objects && !objects[n].deleting :: objects[n]
  }

  /** What even a run cut short by errors respects. */
  ghost predicate Untouched(before: Objects, after: Objects, desired: Desired, hasLabels: Labels -> bool) {
    && (forall n <- before :: !Managed(hasLabels, before[n]) ==> n in after && after[n] == before[n])
    && (forall n <- before :: n in desired ==> n in after)
    && (forall n <- after :: n in before || n in desired)
  }

  ghost predicate Settled(objects: Objects, desired: Desired, hasLabels: Labels -> bool) {
    && (forall n <- desired :: n in objects && objects[n].content == desired[n] && Managed(hasLabels, objects[n]))
    && (forall n <- objects :: Managed(hasLabels, objects[n]) ==> n in desired || objects[n].deleting)
  }

  /** One listed object: brought to its desired content, or deleted. */
  method ApplyOne(cluster: Cluster, curr: Object, desired: Desired) returns (failed: bool, rest: Desired)
    requires cluster.Valid() && curr.name in cluster.objects && cluster.objects[curr.name] == curr
    modifies cluster
    ensures cluster.Valid()
    ensures cluster.failures == old(cluster.failures) + if failed then 1 else 0
    ensures failed ==> cluster.objects == old(cluster.objects) && rest == desired
    ensures !failed && curr.name in desired ==>
              cluster.objects == old(cluster.objects)[curr.name := curr.(content := desired[curr.name])]
    ensures !failed && curr.name !in desired ==> Deleted(old(cluster.objects), cluster.objects, curr.name)
    ensures !failed ==> rest == desired - {curr.name}
    ensures (if curr.name in desired then desired[curr.name] == curr.content else curr.deleting) ==>
              cluster.objects == old(cluster.objects) && cluster.writes == old(cluster.writes)
  {
    rest, failed := desired, false;
    if curr.name in desired {
      var wanted := desired[curr.name];
      var updated, needsUpdate := curr, false;
      if wanted.spec != updated.content.spec {
        updated, needsUpdate := updated.(content := updated.content.(spec := wanted.spec)), true;
      }
      if wanted.labels != updated.content.labels {
        updated, needsUpdate := updated.(content := updated.content.(labels := wanted.labels)), true;
      }
      if wanted.annotations != updated.content.annotations {
        updated, needsUpdate := updated.(content := updated.content.(annotations := wanted.annotations)), true;
      }
      if needsUpdate {
        failed := cluster.Update(updated);
        if failed {
          return;
        }
      }
      rest := desired - {curr.name};
    } else {
      failed := cluster.Delete(curr.name);
    }
  }

  /** The first loop went over the managed objects named in `done`. */
  ghost predicate Swept(before: Objects, mid: Objects, desired: Desired, done: set<Name>, hasLabels: Labels -> bool) {
    && (forall n <- done :: n in before && Managed(hasLabels, before[n]))
    && (forall n <- before :: n !in done ==> n in mid && mid[n] == before[n])
    && (forall n <- mid :: n in before && (n in done ==> n in desired || mid[n] == before[n].(deleting := true)))
    && (forall n <- done :: n in desired ==>
          && n in mid && mid[n].content == desired[n]
          && mid[n].ownerKinds == before[n].ownerKinds && mid[n].deleting == before[n].deleting)
  }

  lemma SweptStep(before: Objects, mid: Objects, desired: Desired, done: set<Name>, hasLabels: Labels -> bool,
                  curr: Object, after: Objects)
    requires Swept(before, mid, desired, done, hasLabels)
    requires curr.name !in done && curr.name in before && before[curr.name] == curr && Managed(hasLabels, curr)
    requires if curr.name in desired then after == mid[curr.name := curr.(content := desired[curr.name])]
             else Deleted(mid, after, curr.name)
    ensures Swept(before, after, desired, done + {curr.name}, hasLabels)
  {
  }

  lemma SettledAt(before: Objects, desired: Desired, hasLabels: Labels -> bool, curr: Object)
    requires Settled(before, desired, hasLabels)
    requires curr.name in before && before[curr.name] == curr && Managed(hasLabels, curr)
    ensures if curr.name in desired then desired[curr.name] == curr.content else curr.deleting
  {
  }

  lemma ListedAt(current: seq<Object>, objects: Objects, hasLabels: Labels -> bool, i: nat)
    requires Lists(current, objects, hasLabels) && i < |current|
    ensures current[i].name in objects && objects[current[i].name] == current[i]
  {
    assert current[i] in current;
  }

  lemma AllSwept(current: seq<Object>, objects: Objects, hasLabels: Labels -> bool, done: set<Name>)
    requires Lists(current, objects, hasLabels) && forall n <- objects :: objects[n].name == n
    requires Progress(current, |current|, done, hasLabels)
    ensures forall n <- objects :: Managed(hasLabels, objects[n]) ==> n in done
  {
    forall n <- objects | Managed(hasLabels, objects[n])
      ensures n in done
    {
      var j :| 0 <= j < |current| && current[j] == objects[n];
    }
  }

  /** One managed object of the first loop. */
  method SweepOne(cluster: Cluster, curr: Object, ghost desired: Desired, rest: Desired,
                  ghost hasLabels: Labels -> bool, ghost before: Objects, ghost done: set<Name>)
    returns (failed: bool, rest': Desired)
    requires cluster.Valid() && Swept(before, cluster.objects, desired, done, hasLabels) && rest == desired - done
    requires curr.name !in done && curr.name in before && before[curr.name] == curr && Managed(hasLabels, curr)
    modifies cluster
    ensures cluster.Valid() && cluster.failures == old(cluster.failures) + if failed then 1 else 0
    ensures var more := if failed then done else done + {curr.name};
            Swept(before, cluster.objects, desired, more, hasLabels) && rest' == desired - more
    ensures Settled(before, desired, hasLabels) ==>
              cluster.objects == old(cluster.objects) && cluster.writes == old(cluster.writes)
  {
    hide Managed, Settled, Swept, Deleted;
    if Settled(before, desired, hasLabels) {
      SettledAt(before, desired, hasLabels, curr);
    }
    SweptKeeps(before, cluster.objects, desired, done, hasLabels, curr.name);
    failed, rest' := ApplyOne(cluster, curr, rest);
    if !failed {
      SweptStep(before, old(cluster.objects), desired, done, hasLabels, curr, cluster.objects);
      assert rest' == desired - (done + {curr.name});
    }
  }

  /** The first loop: updates and deletes. */
  method Sweep(cluster: Cluster, desired: Desired, current: seq<Object>, hasLabels: Labels -> bool)
    returns (failed: bool, rest: Desired, ghost done: set<Name>)
    requires cluster.Valid() && Lists(current, cluster.objects, hasLabels)
    modifies cluster
    ensures cluster.Valid()
    ensures Swept(old(cluster.objects), cluster.objects, desired, done, hasLabels)
    ensures rest == desired - done
    ensures cluster.failures == old(cluster.failures) + if failed then 1 else 0
    ensures !failed ==> forall n <- old(cluster.objects) :: Managed(hasLabels, old(cluster.objects)[n]) ==> n in done
    ensures Settled(old(cluster.objects), desired, hasLabels) ==>
              cluster.objects == old(cluster.objects) && cluster.writes == old(cluster.writes)
  {
    hide Managed, Settled, Lists, Swept, Deleted, Progress;
    rest, done, failed := desired, {}, false;
    ghost var before := cluster.objects;
    SweptNothing(before, desired, current, hasLabels);
    for i := 0 to |current|
      invariant cluster.Valid() && cluster.failures == old(cluster.failures)
      invariant Swept(old(cluster.objects), cluster.objects, desired, done, hasLabels)
      invariant rest == desired - done
      invariant Progress(current, i, done, hasLabels)
      invariant Settled(old(cluster.objects), desired, hasLabels) ==>
                  cluster.objects == old(cluster.objects) && cluster.writes == old(cluster.writes)
    {
      var curr := current[i];
      ListedAt(current, before, hasLabels, i);
      ProgressStep(current, before, hasLabels, i, done);
      if !Managed(hasLabels, curr) {
        continue;
      }
      failed, rest := SweepOne(cluster, curr, desired, rest, hasLabels, before, done);
      if failed {
        return;
      }
      done := done + {curr.name};
    }
    AllSwept(current, before, hasLabels, done);
  }

  /** Of the listed objects the first `i` are behind, and the managed ones among them done. */
  ghost predicate Progress(current: seq<Object>, i: nat, done: set<Name>, hasLabels: Labels -> bool) {
    && i <= |current|
    && (forall j | 0 <= j < i :: Managed(hasLabels, current[j]) ==> current[j].name in done)
    && (forall j | i <= j < |current| :: current[j].name !in done)
  }

  lemma ProgressStep(current: seq<Object>, objects: Objects, hasLabels: Labels -> bool, i: nat, done: set<Name>)
    requires Lists(current, objects, hasLabels) && i < |current| && Progress(current, i, done, hasLabels)
    ensures current[i].name !in done
    ensures var more := if Managed(hasLabels, current[i]) then done + {current[i].name} else done;
            Progress(current, i + 1, more, hasLabels)
  {
  }

  lemma SweptNothing(before: Objects, desired: Desired, current: seq<Object>, hasLabels: Labels -> bool)
    ensures Swept(before, before, desired, {}, hasLabels) && Progress(current, 0, {}, hasLabels)
  {
  }

  lemma SweptKeeps(before: Objects, mid: Objects, desired: Desired, done: set<Name>, hasLabels: Labels -> bool, n: Name)
    requires Swept(before, mid, desired, done, hasLabels) && n in before && n !in done
    ensures n in mid && mid[n] == before[n]
  {
  }

  predicate Fresh(o: Object, content: Content) {
    o.content == content && o.ownerKinds == [] && !o.deleting
  }

  /** What the second loop adds to the objects. */
  ghost predicate Created(mid: Objects, after: Objects, rest: Desired) {
    && (forall n <- mid :: n in after && after[n] == mid[n])
    && (forall n <- after :: n in mid || (n in rest && Fresh(after[n], rest[n])))
  }

  /** The second loop: what is still wanted is created, in no particular order. */
  method CreateRest(cluster: Cluster, rest: Desired) returns (failed: bool)
    requires cluster.Valid()
    modifies cluster
    ensures cluster.Valid()
    ensures Created(old(cluster.objects), cluster.objects, rest)
    ensures !failed ==> forall n <- rest :: n in cluster.objects && n !in old(cluster.objects)
    ensures failed <==> cluster.failures > old(cluster.failures) || exists n <- rest :: n in old(cluster.objects)
    ensures cluster.failures >= old(cluster.failures)
    ensures rest == map[] ==> cluster.objects == old(cluster.objects) && cluster.writes == old(cluster.writes)
  {
    var pending := rest.Keys;
    failed := false;
    while pending != {}
      invariant cluster.Valid() && pending <= rest.Keys && !failed && cluster.failures == old(cluster.failures)
      invariant Created(old(cluster.objects), cluster.objects, rest)
      invariant forall n <- pending :: n in cluster.objects ==> n in old(cluster.objects)
      invariant forall n <- rest.Keys - pending :: n in cluster.objects && n !in old(cluster.objects)
      invariant rest == map[] ==> cluster.objects == old(cluster.objects) && cluster.writes == old(cluster.writes)
      decreases pending
    {
      var n :| n in pending;
      pending := pending - {n};
      failed := cluster.Create(n, rest[n]);
      if failed {
        return;
      }
    }
  }

  lemma CreatedConverges(before: Objects, mid: Objects, after: Objects, desired: Desired, done: set<Name>,
                         hasLabels: Labels -> bool)
    requires Swept(before, mid, desired, done, hasLabels) && Created(mid, after, desired - done)
    ensures Untouched(before, after, desired, hasLabels)
    ensures (forall n <- before :: Managed(hasLabels, before[n]) ==> n in done) ==>
              && (NamesFree(before, desired, hasLabels) <==> forall n <- desired - done :: n !in mid)
              && ((forall n <- desired - done :: n in after && n !in mid) ==>
                    Converged(before, after, desired, hasLabels))
  {
  }

  /** Apply converges: it fails exactly if some call failed or an object to be left alone holds a desired name,
      and otherwise the managed endpoints are the desired ones, apart from those that wait for their finalizers;
      unmanaged and Service-owned objects are untouched and no desired object is deleted even when it fails; and
      where all is settled already it writes nothing. */
  method ApplyEndpoints(cluster: Cluster, desired: Desired, current: seq<Object>, hasLabels: Labels -> bool)
    returns (failed: bool)
    requires cluster.Valid() && Lists(current, cluster.objects, hasLabels)
    modifies cluster
    ensures cluster.Valid()
    ensures failed <==> cluster.failures > old(cluster.failures) || !NamesFree(old(cluster.objects), desired, hasLabels)
    ensures Untouched(old(cluster.objects), cluster.objects, desired, hasLabels)
    ensures !failed ==> Converged(old(cluster.objects), cluster.objects, desired, hasLabels)
    ensures !failed ==> forall n <- desired :: n in cluster.objects && cluster.objects[n].content == desired[n]
    ensures forall n <- old(cluster.objects) ::
              !hasLabels(old(cluster.objects)[n].content.labels) || "Service" in old(cluster.objects)[n].ownerKinds ==>
              n in cluster.objects && cluster.objects[n] == old(cluster.objects)[n]
    ensures !failed ==> forall n <- cluster.objects ::
              hasLabels(cluster.objects[n].content.labels) && "Service" !in cluster.objects[n].ownerKinds ==>
              || (n in desired && cluster.objects[n].content == desired[n])
              || cluster.objects[n].deleting
    ensures Settled(old(cluster.objects), desired, hasLabels) ==>
              cluster.objects == old(cluster.objects) && cluster.writes == old(cluster.writes)
  {
    hide Managed, Settled, Converged, NamesFree, Untouched, Lists, Swept;
    ghost var before := cluster.objects;
    var rest;
    ghost var done;
    failed, rest, done := Sweep(cluster, desired, current, hasLabels);
    ghost var mid := cluster.objects;
    if failed {
      assert Untouched(before, mid, desired, hasLabels) by {
        CreatedConverges(before, mid, mid, desired, done, hasLabels);
      }
      SparedByOwner(before, mid, desired, hasLabels);
      return;
    }
    if Settled(before, desired, hasLabels) {
      SettledRest(before, desired, hasLabels, done);
    }
    failed := CreateRest(cluster, rest);
    CreatedConverges(before, mid, cluster.objects, desired, done, hasLabels);
    SparedByOwner(before, cluster.objects, desired, hasLabels);
    if !failed {
      OwnedAreDesired(before, cluster.objects, desired, hasLabels);
    }
  }

  /** What lacks the labels or has a Service for an owner is spared. */
  lemma SparedByOwner(before: Objects, after: Objects, desired: Desired, hasLabels: Labels -> bool)
    requires Untouched(before, after, desired, hasLabels)
    ensures forall n <- before :: !hasLabels(before[n].content.labels) || "Service" in before[n].ownerKinds ==>
              n in after && after[n] == before[n]
  {
    assert forall n <- before :: Managed(hasLabels, before[n])
                            <==> hasLabels(before[n].content.labels) && "Service" !in before[n].ownerKinds;
  }

  /** What has the labels and no such owner is desired, or going. */
  lemma OwnedAreDesired(before: Objects, after: Objects, desired: Desired, hasLabels: Labels -> bool)
    requires Converged(before, after, desired, hasLabels)
    ensures forall n <- desired :: n in after && after[n].content == desired[n]
    ensures forall n <- after :: hasLabels(after[n].content.labels) && "Service" !in after[n].ownerKinds ==>
              (n in desired && after[n].content == desired[n]) || after[n].deleting
  {
  }

  lemma SettledRest(before: Objects, desired: Desired, hasLabels: Labels -> bool, done: set<Name>)
    requires Settled(before, desired, hasLabels)
    requires forall n <- before :: Managed(hasLabels, before[n]) ==> n in done
    ensures desired - done == map[]
  {
  }

  /** A run that ended without error leaves the next one with the same desired endpoints nothing to write, even
      before the finalizers are gone. */
  lemma ConvergedIsSettled(before: Objects, after: Objects, desired: Desired, hasLabels: Labels -> bool)
    requires Converged(before, after, desired, hasLabels) && NamesFree(before, desired, hasLabels)
    requires forall n <- desired :: hasLabels(desired[n].labels)
    ensures Settled(after, desired, hasLabels)
  {
    forall n <- desired
      ensures Managed(hasLabels, after[n])
    {
      assert n in after;
    }
  }

  /** Exactly when every desired endpoint stays once the finalizers are gone: no desired name is held by an object
      that was being deleted already. */
  lemma StaysExactly(before: Objects, after: Objects, desired: Desired, hasLabels: Labels -> bool)
    requires Converged(before, after, desired, hasLabels)
    ensures (forall n <- desired :: n in Finalized(after))
       <==> (forall n <- desired :: n in before ==> !before[n].deleting)
  {
    forall n <- desired
      ensures n in Finalized(after) <==> !(n in before && before[n].deleting)
    {
      assert n in after;
    }
  }

  /** And then the managed objects are exactly the desired ones. */
  lemma FinalizedIsDesired(before: Objects, after: Objects, desired: Desired, hasLabels: Labels -> bool, n: Name)
    requires Converged(before, after, desired, hasLabels) && NamesFree(before, desired, hasLabels)
    requires forall m <- desired :: hasLabels(desired[m].labels) && (m in before ==> !before[m].deleting)
    ensures n in desired <==> n in Finalized(after) && Managed(hasLabels, after[n])
    ensures n in desired ==> Finalized(after)[n].content == desired[n]
  {
    if n in desired {
      assert n in after;
    }
  }

  /** An endpoint that is desired again while it is being deleted: the run finds it as desired, creates nothing,
      writes nothing and succeeds, and then the endpoint goes. */
  lemma DyingEndpointIsLost(n: Name, uid: nat, content: Content, hasLabels: Labels -> bool)
    requires hasLabels(content.labels)
    ensures var objects, desired := map[n := Object(n, uid, content, [], true)], map[n := content];
            && Lists([objects[n]], objects, hasLabels) && NamesFree(objects, desired, hasLabels)
            && Settled(objects, desired, hasLabels) && Converged(objects, objects, desired, hasLabels)
            && n !in Finalized(objects)
  {
  }
}
