/** Draining the operator: taking the finalizer off, or deleting, everything it manages. */
module Drain {
  import opened Finalizers

  datatype Kind =
    | HTTPRoute | TCPRoute | TLSRoute | Ingress | Service | Gateway
    | CloudEndpoint | AgentEndpoint | Domain | IPPolicy | BoundEndpoint

  /** `optional` kinds may not be installed; `owned` kinds are the operator's own resources. */
  datatype Handler = Handler(kind: Kind, optional: bool, owned: bool)

  const HANDLERS := [
    Handler(HTTPRoute, true, false), Handler(TCPRoute, true, false), Handler(TLSRoute, true, false),
    Handler(Ingress, false, false), Handler(Service, false, false), Handler(Gateway, true, false),
    Handler(CloudEndpoint, false, true), Handler(AgentEndpoint, false, true), Handler(Domain, false, true),
    Handler(IPPolicy, false, true), Handler(BoundEndpoint, false, true)]

  /** `OtherPolicy` is any value but the two the schema allows. */
  datatype Policy = DeletePolicy | RetainPolicy | OtherPolicy(text: string)

  datatype Id = Id(kind: Kind, namespace: string, name: string)

  datatype Object = Object(finalizers: seq<Finalizer>, deleting: bool)

  type Objects = map<Id, Object>

  datatype Listing = Items(ids: seq<Id>, snapshot: Objects) | NoMatch | ListError

  /** The object is gone or no longer carries the operator's finalizer. */
  predicate Clear(objects: Objects, id: Id) {
    id in objects ==> !HasFinalizer(objects[id].finalizers)
  }

  /** No object has gained the finalizer. */
  ghost predicate Shrinks(before: Objects, after: Objects) {
    forall id :: Clear(before, id) ==> Clear(after, id)
  }

  /** The operator's own resources. */
  predicate OperatorKind(kind: Kind) {
    kind in {CloudEndpoint, AgentEndpoint, Domain, IPPolicy, BoundEndpoint}
  }

  /** The kinds of the Gateway API, which may not be installed. */
  predicate GatewayKind(kind: Kind) {
    kind in {HTTPRoute, TCPRoute, TLSRoute, Gateway}
  }

  ghost predicate OnlyOwned(ids: set<Id>) {
    forall id <- ids :: OperatorKind(id.kind)
  }

  /** How many of the kinds that were not found should have been. */
  function Unexpected(kinds: seq<Kind>): nat {
    if kinds == [] then 0
    else Unexpected(kinds[..|kinds| - 1]) + if GatewayKind(kinds[|kinds| - 1]) then 0 else 1
  }

  lemma {:induction false} UnexpectedMore(kinds: seq<Kind>, more: seq<Kind>)
    ensures Unexpected(kinds + more) == Unexpected(kinds) + Unexpected(more)
  {
    if more == [] {
      assert kinds + more == kinds;
    } else {
      UnexpectedMore(kinds, more[..|more| - 1]);
      assert (kinds + more)[..|kinds + more| - 1] == kinds + more[..|more| - 1];
    }
  }

  /** The handlers are set up for their kinds. */
  lemma HandlersFit(h: Handler)
    requires h in HANDLERS
    ensures h.owned <==> OperatorKind(h.kind)
    ensures h.optional <==> GatewayKind(h.kind)
  {
  }

  // ----- what the cluster went through

  /** The objects after a change, by the drainer's own call or by others. */
  datatype Moment = Moment(objects: Objects, byOthers: bool)

  type History = seq<Moment>

  /** More moments, in which the drainer itself gave no object the finalizer. */
  ghost predicate Extends(before: History, after: History) {
    && 0 < |before| <= |after| && before == after[..|before|]
    && forall t | |before| <= t < |after| && !after[t].byOthers :: Shrinks(after[t - 1].objects, after[t].objects)
  }

  /** Others gave no object the finalizer either, since the given moment. */
  ghost predicate Calm(history: History, from: nat) {
    forall t | from < t < |history| && history[t].byOthers :: Shrinks(history[t - 1].objects, history[t].objects)
  }

  ghost predicate ClearSince(history: History, from: nat, id: Id) {
    exists t | from <= t < |history| :: Clear(history[t].objects, id)
  }

  /** Each object of the kind was absent or without the finalizer at the given moment or later. */
  ghost predicate DoneAt(history: History, listed: nat, kind: Kind) {
    forall id: Id | id.kind == kind :: ClearSince(history, listed, id)
  }

  /** The kind was listed at some moment since `from`, and its objects were clear then or later. */
  ghost predicate KindDone(history: History, from: nat, kind: Kind) {
    exists listed | from <= listed < |history| :: DoneAt(history, listed, kind)
  }

  ghost predicate PassDone(history: History, from: nat) {
    forall kind :: KindDone(history, from, kind)
  }

  lemma ExtendsTwice(a: History, b: History, c: History)
    requires Extends(a, b) && Extends(b, c)
    ensures Extends(a, c)
  {
    forall t | |a| <= t < |c| && !c[t].byOthers
      ensures Shrinks(c[t - 1].objects, c[t].objects)
    {
      if t < |b| {
        assert b[t] == c[t] && b[t - 1] == c[t - 1];
      }
    }
  }

  lemma ClearSinceStays(before: History, after: History, from: nat, id: Id)
    requires Extends(before, after) && ClearSince(before, from, id)
    ensures ClearSince(after, from, id)
  {
    var t :| from <= t < |before| && Clear(before[t].objects, id);
    assert after[t] == before[t];
  }

  lemma KindStaysDone(before: History, after: History, from: nat, to: nat, kind: Kind)
    requires Extends(before, after) && KindDone(before, from, kind) && to <= from
    ensures KindDone(after, to, kind)
  {
    hide ClearSince, Extends;
    var listed :| from <= listed < |before| && DoneAt(before, listed, kind);
    forall id: Id | id.kind == kind
      ensures ClearSince(after, listed, id)
    {
      ClearSinceStays(before, after, listed, id);
    }
    ExtendsLength(before, after);
    assert DoneAt(after, listed, kind);
  }

  lemma ExtendsLength(before: History, after: History)
    requires Extends(before, after)
    ensures 0 < |before| <= |after|
  {
  }

  /** In calm times what is clear stays clear. */
  lemma {:induction false} CalmKeepsClear(history: History, from: nat, t: nat, last: nat, id: Id)
    requires from < |history| && Extends(history[..from + 1], history) && Calm(history, from)
    requires from <= t <= last < |history| && Clear(history[t].objects, id)
    ensures Clear(history[last].objects, id)
    decreases last - t
  {
    if t < last {
      CalmKeepsClear(history, from, t, last - 1, id);
      assert Shrinks(history[last - 1].objects, history[last].objects);
    }
  }

  /** After a pass without errors nothing carries the finalizer, provided that nobody else handed it out since the
      pass began. */
  lemma CalmPassClears(history: History, from: nat, id: Id)
    requires from < |history| && Extends(history[..from + 1], history) && Calm(history, from)
    requires PassDone(history, from)
    ensures Clear(history[|history| - 1].objects, id)
  {
    assert KindDone(history, from, id.kind);
    var listed :| from <= listed < |history| && DoneAt(history, listed, id.kind);
    assert ClearSince(history, listed, id);
    var t :| listed <= t < |history| && Clear(history[t].objects, id);
    CalmKeepsClear(history, from, t, |history| - 1, id);
  }

  const POLLS: nat := 120

  /** The API server. Any call may fail, and others act between calls, as they please. `deletes` are the objects the
      drainer asked to delete. The ghost fields count the handlers called and how many of them failed, the listings
      that failed, and the kinds that were not found. */
  class Cluster {
    var objects: Objects
    var deletes: set<Id>
    ghost var history: History
    ghost var attempts: nat
    ghost var failures: nat
    ghost var listErrors: nat
    ghost var unmatched: seq<Kind>

    ghost predicate Valid()
      reads this
    {
      |history| > 0 && history[|history| - 1].objects == objects
    }

    method Interfere()
      requires Valid()
      modifies this`objects, this`history
      ensures Valid() && Extends(old(history), history) && |history| > |old(history)|
    {
      objects := *;
      history := history + [Moment(objects, true)];
    }

    /** The drainer's own change. */
    method Change(next: Objects)
      requires Valid() && Shrinks(objects, next)
      modifies this`objects, this`history
      ensures Valid() && Extends(old(history), history) && objects == next
    {
      objects := next;
      history := history + [Moment(next, false)];
    }

    method List(kind: Kind) returns (listing: Listing)
      requires Valid()
      modifies this`objects, this`history, this`listErrors, this`unmatched
      ensures Valid() && Extends(old(history), history) && |history| > |old(history)|
      ensures listing.Items? ==>
                && listing.snapshot == objects
                && (forall id :: id in listing.ids <==> id in objects && id.kind == kind)
      ensures listing.NoMatch? ==> forall id <- objects :: id.kind != kind
      ensures listErrors == old(listErrors) + if listing.ListError? then 1 else 0
      ensures unmatched == old(unmatched) + if listing.NoMatch? then [kind] else []
    {
      Interfere();
      var failed, missing := *, *;
      if failed {
        listErrors := listErrors + 1;
        return ListError;
      }
      if missing && forall id <- objects :: id.kind != kind {
        unmatched := unmatched + [kind];
        return NoMatch;
      }
      var ids: seq<Id> := [];
      var pending := set id | id in objects && id.kind == kind;
      while pending != {}
        invariant forall id :: id in objects && id.kind == kind <==> id in ids || id in pending
        decreases pending
      {
        var id :| id in pending;
        ids, pending := ids + [id], pending - {id};
      }
      return Items(ids, objects);
    }

    /** Replaces the finalizer list; a deleted object goes away with its last finalizer. */
    method Patch(id: Id, fs: seq<Finalizer>) returns (failed: bool)
      requires Valid() && !HasFinalizer(fs)
      modifies this`objects, this`history, this`failures
      ensures Valid() && Extends(old(history), history)
      ensures !failed ==> Clear(objects, id)
      ensures failures == old(failures) + if failed then 1 else 0
    {
      Interfere();
      ghost var mid := history;
      failed := *;
      if id !in objects {
        failed := true;
      } else if !failed {
        var o := objects[id].(finalizers := fs);
        Change(if o.deleting && fs == [] then objects - {id} else objects[id := o]);
        ExtendsTwice(old(history), mid, history);
      }
      failures := failures + if failed then 1 else 0;
    }

    /** `gone` tells that the object had already disappeared. */
    method Delete(id: Id) returns (failed: bool, gone: bool)
      requires Valid()
      modifies this`objects, this`deletes, this`history, this`failures
      ensures Valid() && Extends(old(history), history)
      ensures gone ==> id !in objects && !failed
      ensures deletes == old(deletes) + {id}
      ensures failures == old(failures) + if failed then 1 else 0
    {
      Interfere();
      ghost var mid := history;
      deletes := deletes + {id};
      failed, gone := *, false;
      if failed {
        failures := failures + 1;
        return;
      }
      if id !in objects {
        gone := true;
      } else {
        Change(if objects[id].finalizers == [] then objects - {id}
               else objects[id := objects[id].(deleting := true)]);
        ExtendsTwice(old(history), mid, history);
      }
    }

    method Absent(id: Id) returns (absent: bool)
      requires Valid()
      modifies this`objects, this`history
      ensures Valid() && Extends(old(history), history) && |history| > |old(history)|
      ensures absent ==> id !in objects
    {
      Interfere();
      var failed := *;
      absent := !failed && id !in objects;
    }
  }

  class Drainer {
    const cluster: Cluster
    const policy: Policy

    constructor (cluster: Cluster, policy: Policy)
      ensures this.cluster == cluster && this.policy == policy
    {
      this.cluster, this.policy := cluster, policy;
    }

    method RemoveAndSyncFinalizer(id: Id, o: Object) returns (failed: bool)
      requires cluster.Valid() && HasFinalizer(o.finalizers)
      modifies cluster`objects, cluster`history, cluster`failures
      ensures cluster.Valid() && Extends(old(cluster.history), cluster.history)
      ensures !failed ==> Clear(cluster.objects, id)
      ensures cluster.failures == old(cluster.failures) + if failed then 1 else 0
    {
      failed := cluster.Patch(id, RemoveFinalizer(o.finalizers));
    }

    /** Polls until the object is gone or the time is up. */
    method WaitForDeletion(id: Id) returns (failed: bool)
      requires cluster.Valid()
      modifies cluster`objects, cluster`history, cluster`failures
      ensures cluster.Valid() && Extends(old(cluster.history), cluster.history)
      ensures !failed ==> id !in cluster.objects
      ensures cluster.failures == old(cluster.failures) + if failed then 1 else 0
      ensures failed ==> |cluster.history| >= |old(cluster.history)| + POLLS
    {
      hide Extends;
      failed := true;
      StaysAsIs(cluster.history);
      for i := 0 to POLLS
        invariant cluster.Valid() && failed && Extends(old(cluster.history), cluster.history)
        invariant cluster.failures == old(cluster.failures) && |cluster.history| >= |old(cluster.history)| + i
      {
        ghost var mid := cluster.history;
        var absent := cluster.Absent(id);
        ExtendsTwice(old(cluster.history), mid, cluster.history);
        if absent {
          return false;
        }
      }
      cluster.failures := cluster.failures + 1;
    }

    /** An operator resource is deleted or kept as the policy says; a policy outside the schema does nothing
        and reports success. */
    method DrainOperatorResource(id: Id, o: Object) returns (failed: bool)
      requires cluster.Valid() && HasFinalizer(o.finalizers)
      modifies cluster`objects, cluster`deletes, cluster`history, cluster`failures
      ensures cluster.Valid() && Extends(old(cluster.history), cluster.history)
      ensures !failed && !policy.OtherPolicy? ==> Clear(cluster.objects, id)
      ensures cluster.deletes == if policy.DeletePolicy? then old(cluster.deletes) + {id} else old(cluster.deletes)
      ensures cluster.failures == old(cluster.failures) + if failed then 1 else 0
      ensures policy.OtherPolicy? ==> !failed && cluster.objects == old(cluster.objects)
    {
      hide Extends;
      failed := false;
      StaysAsIs(cluster.history);
      match policy
      case DeletePolicy =>
        var gone;
        failed, gone := cluster.Delete(id);
        if failed || gone {
          return;
        }
        ghost var mid := cluster.history;
        failed := WaitForDeletion(id);
        ExtendsTwice(old(cluster.history), mid, cluster.history);
      case RetainPolicy => failed := RemoveAndSyncFinalizer(id, o);
      case OtherPolicy(_) =>
    }

    /** The handler of one object: of a user's resource only the finalizer is taken off. */
    method DrainOne(h: Handler, id: Id, o: Object) returns (failed: bool)
      requires cluster.Valid() && h in HANDLERS && id.kind == h.kind && HasFinalizer(o.finalizers)
      modifies cluster`objects, cluster`deletes, cluster`history, cluster`failures, cluster`attempts
      ensures cluster.Valid() && Extends(old(cluster.history), cluster.history)
      ensures !failed && (!policy.OtherPolicy? || !h.owned) ==> Clear(cluster.objects, id)
      ensures cluster.failures == old(cluster.failures) + if failed then 1 else 0
      ensures cluster.attempts == old(cluster.attempts) + 1
      ensures OnlyOwned(cluster.deletes - old(cluster.deletes))
      ensures !policy.DeletePolicy? ==> cluster.deletes == old(cluster.deletes)
    {
      hide Extends, OnlyOwned, HasFinalizer, HANDLERS, OperatorKind;
      NothingDeleted(cluster.deletes);
      HandlersFit(h);
      cluster.attempts := cluster.attempts + 1;
      if h.owned {
        OwnedBy(id, cluster.deletes);
        failed := DrainOperatorResource(id, o);
      } else {
        failed := RemoveAndSyncFinalizer(id, o);
      }
    }

    /** Drains one kind; an optional kind that is not installed has nothing to drain. */
    method DrainList(h: Handler) returns (completed: nat, total: nat, failed: nat, errors: nat)
      requires cluster.Valid() && h in HANDLERS
      modifies cluster`objects, cluster`deletes, cluster`history
      modifies cluster`attempts, cluster`failures, cluster`listErrors, cluster`unmatched
      ensures cluster.Valid() && Extends(old(cluster.history), cluster.history)
      ensures total == completed + failed && total == cluster.attempts - old(cluster.attempts)
      ensures failed == cluster.failures - old(cluster.failures)
      ensures cluster.unmatched == old(cluster.unmatched) || cluster.unmatched == old(cluster.unmatched) + [h.kind]
      ensures cluster.listErrors >= old(cluster.listErrors)
      ensures var missing := cluster.unmatched[|old(cluster.unmatched)|..];
              errors == failed + (cluster.listErrors - old(cluster.listErrors)) + Unexpected(missing)
      ensures errors == 0 && (!policy.OtherPolicy? || !h.owned) ==>
                KindDone(cluster.history, |old(cluster.history)|, h.kind)
      ensures OnlyOwned(cluster.deletes - old(cluster.deletes))
      ensures !policy.DeletePolicy? ==> cluster.deletes == old(cluster.deletes)
    {
      hide Extends, KindDone, ClearSince, OnlyOwned, HasFinalizer, HANDLERS, Unexpected, GatewayKind, OperatorKind;
      completed, total, failed, errors := 0, 0, 0, 0;
      ghost var started := cluster.history;
      NothingDeleted(cluster.deletes);
      var listing := cluster.List(h.kind);
      ghost var listed := |cluster.history| - 1;
      ListedLater(started, cluster.history);
      HandlersFit(h);
      OneMissing(h.kind, old(cluster.unmatched), cluster.unmatched);
      if listing.ListError? || (listing.NoMatch? && !h.optional) {
        errors := 1;
        return;
      }
      if listing.NoMatch? {
        NoneListed(cluster.history, |started|, h.kind);
        return;
      }
      var ids := listing.ids;
      for i := 0 to |ids|
        invariant cluster.Valid() && Extends(started, cluster.history)
        invariant listed < |cluster.history| && cluster.history[listed].objects == listing.snapshot
        invariant total == completed + failed && total == cluster.attempts - old(cluster.attempts)
        invariant failed == cluster.failures - old(cluster.failures) && errors == failed
        invariant cluster.unmatched == old(cluster.unmatched) && cluster.listErrors == old(cluster.listErrors)
        invariant errors == 0 && (!policy.OtherPolicy? || !h.owned) ==>
                    forall j | 0 <= j < i :: ClearSince(cluster.history, listed, ids[j])
        invariant OnlyOwned(cluster.deletes - old(cluster.deletes))
        invariant !policy.DeletePolicy? ==> cluster.deletes == old(cluster.deletes)
      {
        var id := ids[i];
        assert id in listing.ids;
        var o := listing.snapshot[id];
        if !HasFinalizer(o.finalizers) {
          ClearAt(cluster.history, listed, listed, id);
          continue;
        }
        total := total + 1;
        ghost var before := cluster.history;
        ghost var deletes := cluster.deletes;
        var bad := DrainOne(h, id, o);
        OwnedUnion(cluster.deletes, deletes, old(cluster.deletes));
        ghost var after := cluster.history;
        ItemDone(started, before, after, listed, ids[..i]);
        assert errors == 0 && (!policy.OtherPolicy? || !h.owned) ==>
            forall j | 0 <= j < i :: ClearSince(after, listed, ids[j]) by {
          assert forall j | 0 <= j < i :: ids[..i][j] == ids[j];
        }
        if bad {
          failed, errors := failed + 1, errors + 1;
        } else {
          completed := completed + 1;
          if !policy.OtherPolicy? || !h.owned {
            ClearAt(after, listed, |after| - 1, id);
          }
        }
      }
      if errors == 0 && (!policy.OtherPolicy? || !h.owned) {
        AllListedDone(cluster.history, |started|, listed, h.kind, ids);
      }
    }

    /** One pass over all kinds: user resources first, then the operator's own. Whatever others do meanwhile, a pass
        without errors listed every kind and saw each of its objects without the finalizer afterwards. */
    method DrainAll() returns (result: DrainResult)
      requires cluster.Valid()
      modifies cluster`objects, cluster`deletes, cluster`history
      modifies cluster`attempts, cluster`failures, cluster`listErrors, cluster`unmatched
      ensures cluster.Valid() && Extends(old(cluster.history), cluster.history)
      ensures result.total == result.completed + result.failed
      ensures result.total == cluster.attempts - old(cluster.attempts)
      ensures result.failed == cluster.failures - old(cluster.failures)
      ensures Accounted(result.errors, cluster.failures - old(cluster.failures),
                        cluster.listErrors - old(cluster.listErrors), old(cluster.unmatched), cluster.unmatched)
      ensures result.errors == 0 && !policy.OtherPolicy? ==> PassDone(cluster.history, |old(cluster.history)|)
      ensures OnlyOwned(cluster.deletes - old(cluster.deletes))
      ensures !policy.DeletePolicy? ==> cluster.deletes == old(cluster.deletes)
    {
      hide Extends, KindDone, OnlyOwned, Accounted, Unexpected;
      result := DrainResult(0, 0, 0, 0);
      ghost var started, drained: set<Kind> := cluster.history, {};
      StaysAsIs(started);
      NothingDeleted(cluster.deletes);
      NothingToAccount(cluster.unmatched);
      for i := 0 to |HANDLERS|
        invariant cluster.Valid() && Extends(started, cluster.history)
        invariant result.total == result.completed + result.failed
        invariant result.total == cluster.attempts - old(cluster.attempts)
        invariant result.failed == cluster.failures - old(cluster.failures)
        invariant Accounted(result.errors, cluster.failures - old(cluster.failures),
                            cluster.listErrors - old(cluster.listErrors), old(cluster.unmatched), cluster.unmatched)
        invariant forall j | 0 <= j < i :: HANDLERS[j].kind in drained
        invariant result.errors == 0 && !policy.OtherPolicy? ==>
                    forall kind <- drained :: KindDone(cluster.history, |started|, kind)
        invariant OnlyOwned(cluster.deletes - old(cluster.deletes))
        invariant !policy.DeletePolicy? ==> cluster.deletes == old(cluster.deletes)
      {
        ghost var before, deletes, unmatched := cluster.history, cluster.deletes, cluster.unmatched;
        ghost var failures, listErrors := cluster.failures, cluster.listErrors;
        var h := HANDLERS[i];
        assert h in HANDLERS;
        var completed, total, failed, errors := DrainList(h);
        KindsStayDone(started, before, cluster.history, drained);
        AccountedMore(result.errors, failures - old(cluster.failures), listErrors - old(cluster.listErrors),
                      old(cluster.unmatched), unmatched, errors, failed, cluster.listErrors - listErrors,
                      cluster.unmatched);
        if result.errors == 0 && errors == 0 && !policy.OtherPolicy? {
          KindStaysDone(cluster.history, cluster.history, |before|, |started|, h.kind) by {
            StaysAsIs(cluster.history);
            ExtendsLength(started, before);
          }
        }
        OwnedUnion(cluster.deletes, deletes, old(cluster.deletes));
        drained := drained + {h.kind};
        result := DrainResult(result.total + total, result.completed + completed, result.failed + failed,
                              result.errors + errors);
      }
      EveryKindDrained(drained);
    }
  }

  datatype DrainResult = DrainResult(total: nat, completed: nat, failed: nat, errors: nat) {
    predicate HasErrors() {
      errors > 0
    }
  }

  lemma StaysAsIs(history: History)
    requires |history| > 0
    ensures Extends(history, history)
  {
  }

  lemma ListedLater(before: History, after: History)
    requires Extends(before, after)
    ensures |after| > 0 && before <= after
  {
  }

  lemma ClearAt(history: History, listed: nat, t: nat, id: Id)
    requires listed <= t < |history| && Clear(history[t].objects, id)
    ensures ClearSince(history, listed, id)
  {
  }

  lemma NoneListed(history: History, from: nat, kind: Kind)
    requires 0 < |history| && from <= |history| - 1
    requires forall id <- history[|history| - 1].objects :: id.kind != kind
    ensures KindDone(history, from, kind)
  {
    var listed := |history| - 1;
    forall id: Id | id.kind == kind
      ensures ClearSince(history, listed, id)
    {
      ClearAt(history, listed, listed, id);
    }
    assert DoneAt(history, listed, kind);
  }

  /** One more object was handled. */
  lemma ItemDone(started: History, before: History, after: History, listed: nat, ids: seq<Id>)
    requires Extends(started, before) && Extends(before, after) && listed < |before|
    ensures Extends(started, after) && listed < |after| && after[listed] == before[listed]
    ensures (forall j | 0 <= j < |ids| :: ClearSince(before, listed, ids[j])) ==>
              forall j | 0 <= j < |ids| :: ClearSince(after, listed, ids[j])
  {
    hide ClearSince;
    ExtendsTwice(started, before, after);
    if forall j | 0 <= j < |ids| :: ClearSince(before, listed, ids[j]) {
      forall j | 0 <= j < |ids|
        ensures ClearSince(after, listed, ids[j])
      {
        ClearSinceStays(before, after, listed, ids[j]);
      }
    }
  }

  lemma AllListedDone(history: History, from: nat, listed: nat, kind: Kind, ids: seq<Id>)
    requires from <= listed < |history|
    requires forall id :: id in history[listed].objects && id.kind == kind ==> id in ids
    requires forall j | 0 <= j < |ids| :: ClearSince(history, listed, ids[j])
    ensures KindDone(history, from, kind)
  {
    hide ClearSince;
    forall id: Id | id.kind == kind
      ensures ClearSince(history, listed, id)
    {
      if id !in history[listed].objects {
        ClearAt(history, listed, listed, id);
      }
    }
    assert DoneAt(history, listed, kind);
  }

  lemma KindsStayDone(started: History, before: History, after: History, drained: set<Kind>)
    requires Extends(started, before) && Extends(before, after)
    ensures Extends(started, after)
    ensures (forall kind <- drained :: KindDone(before, |started|, kind)) ==>
              forall kind <- drained :: KindDone(after, |started|, kind)
  {
    hide KindDone;
    ExtendsTwice(started, before, after);
    forall kind <- drained | KindDone(before, |started|, kind)
      ensures KindDone(after, |started|, kind)
    {
      KindStaysDone(before, after, |started|, |started|, kind);
    }
  }

  lemma NothingDeleted(deletes: set<Id>)
    ensures OnlyOwned(deletes - deletes)
  {
  }

  /** The errors of a pass: every handler and every listing that failed, and every kind that is missing although it is
      not of the Gateway API. */
  ghost predicate Accounted(errors: int, failures: int, listErrors: int, before: seq<Kind>, after: seq<Kind>) {
    && before <= after && failures >= 0 && listErrors >= 0
    && errors == failures + listErrors + Unexpected(after[|before|..])
  }

  lemma NothingToAccount(kinds: seq<Kind>)
    ensures Accounted(0, 0, 0, kinds, kinds)
  {
    assert kinds[|kinds|..] == [];
  }

  lemma AccountedMore(errors: int, failures: int, listErrors: int, before: seq<Kind>, mid: seq<Kind>,
                      more: int, failed: int, lists: int, after: seq<Kind>)
    requires Accounted(errors, failures, listErrors, before, mid) && mid <= after && failed >= 0 && lists >= 0
    requires more == failed + lists + Unexpected(after[|mid|..])
    ensures Accounted(errors + more, failures + failed, listErrors + lists, before, after)
  {
    UnexpectedMore(mid[|before|..], after[|mid|..]);
    assert after[|before|..] == mid[|before|..] + after[|mid|..];
  }

  lemma OneMissing(kind: Kind, before: seq<Kind>, after: seq<Kind>)
    requires after == before || after == before + [kind]
    ensures Unexpected(after[|before|..]) == if after == before || GatewayKind(kind) then 0 else 1
  {
    if after != before {
      assert after[|before|..] == [kind] && [kind][..0] == [];
      assert Unexpected([]) == 0;
    }
  }

  lemma OwnedBy(id: Id, deletes: set<Id>)
    requires OperatorKind(id.kind)
    ensures OnlyOwned(deletes + {id} - deletes)
  {
    assert forall other <- deletes + {id} - deletes :: other == id;
  }

  lemma OwnedUnion(after: set<Id>, mid: set<Id>, before: set<Id>)
    requires OnlyOwned(after - mid) && OnlyOwned(mid - before)
    ensures OnlyOwned(after - before)
  {
  }

  /** The handlers cover every kind. */
  lemma EveryKindDrained(drained: set<Kind>)
    requires forall j | 0 <= j < |HANDLERS| :: HANDLERS[j].kind in drained
    ensures forall kind: Kind :: kind in drained
  {
    assert HANDLERS[0].kind in drained && HANDLERS[1].kind in drained && HANDLERS[2].kind in drained;
    assert HANDLERS[3].kind in drained && HANDLERS[4].kind in drained && HANDLERS[5].kind in drained;
    assert HANDLERS[6].kind in drained && HANDLERS[7].kind in drained && HANDLERS[8].kind in drained;
    assert HANDLERS[9].kind in drained && HANDLERS[10].kind in drained;
    forall kind: Kind
      ensures kind in drained
    {
      match kind
      case HTTPRoute => case TCPRoute => case TLSRoute => case Ingress => case Service => case Gateway =>
      case CloudEndpoint => case AgentEndpoint => case Domain => case IPPolicy => case BoundEndpoint =>
    }
  }

  // ----- the orchestrator

  /** The Draining condition persisted in the KubernetesOperator's status. */
  datatype Condition = Unset | InProgress | DrainFailed | DrainCompleted

  datatype Outcome = Retry | Complete | Failed

  class Orchestrator {
    const cluster: Cluster
    const policy: Policy
    var draining: bool
    var condition: Condition
    var registered: bool
    ghost var passStart: nat
    ghost var statusFailures: nat
    ghost var apiFailures: nat

    /** Behind a persisted completion there is a pass, begun at `passStart`, that saw every object clear. */
    ghost predicate Valid()
      reads this, cluster
    {
      && cluster.Valid()
      && (condition == DrainCompleted && !policy.OtherPolicy? ==>
            && 0 < passStart <= |cluster.history| && Extends(cluster.history[..passStart], cluster.history)
            && PassDone(cluster.history, passStart))
    }

    constructor (cluster: Cluster, policy: Policy)
      requires cluster.Valid()
      ensures this.cluster == cluster && this.policy == policy && condition == Unset && registered && Valid()
    {
      this.cluster, this.policy, draining, condition, registered := cluster, policy, false, Unset, true;
      passStart := 0;
    }

    method UpdateStatus(c: Condition) returns (failed: bool)
      modifies this`condition, this`statusFailures
      ensures condition == if failed then old(condition) else c
      ensures statusFailures == old(statusFailures) + if failed then 1 else 0
    {
      failed := *;
      if !failed {
        condition := c;
      }
      statusFailures := statusFailures + if failed then 1 else 0;
    }

    /** Runs one pass, unless an earlier one completed. */
    method HandleDrain() returns (outcome: Outcome)
      requires Valid()
      modifies this`draining, this`condition, this`passStart, this`statusFailures, cluster
      ensures Valid() && draining && Extends(old(cluster.history), cluster.history)
      ensures outcome == Complete <==> condition == DrainCompleted
      ensures old(condition) == DrainCompleted ==>
                && passStart == old(passStart) && cluster.history == old(cluster.history)
                && cluster.objects == old(cluster.objects) && cluster.deletes == old(cluster.deletes)
      ensures old(condition) != DrainCompleted ==> passStart == |old(cluster.history)|
      ensures old(condition) == DrainCompleted ==> outcome == Complete && statusFailures == old(statusFailures)
      ensures old(cluster.unmatched) <= cluster.unmatched
      ensures old(condition) != DrainCompleted ==>
                var errors := cluster.failures - old(cluster.failures) + cluster.listErrors - old(cluster.listErrors)
                              + Unexpected(cluster.unmatched[|old(cluster.unmatched)|..]);
                && (outcome == Retry <==> errors > 0)
                && (outcome == Failed <==> errors == 0 && statusFailures > old(statusFailures))
                && (outcome == Retry && statusFailures == old(statusFailures) ==> condition == DrainFailed)
      ensures OnlyOwned(cluster.deletes - old(cluster.deletes))
      ensures !policy.DeletePolicy? ==> cluster.deletes == old(cluster.deletes)
    {
      hide PassDone;
      draining := true;
      StaysAsIs(cluster.history);
      if condition == DrainCompleted {
        return Complete;
      }
      passStart := |cluster.history|;
      var drainer := new Drainer(cluster, policy);
      var result := drainer.DrainAll();
      if result.HasErrors() {
        var _ := UpdateStatus(DrainFailed);
        return Retry;
      }
      var failed := UpdateStatus(DrainCompleted);
      return if failed then Failed else Complete;
    }

    /** Deleting the KubernetesOperator: it is deregistered only behind a completed drain. */
    method Delete() returns (failed: bool)
      requires Valid()
      modifies this, cluster
      ensures Valid() && Extends(old(cluster.history), cluster.history)
      ensures !registered && old(registered) ==> condition == DrainCompleted
      ensures !failed ==> condition == DrainCompleted && !registered
      ensures old(cluster.unmatched) <= cluster.unmatched
      ensures apiFailures >= old(apiFailures) && (apiFailures > old(apiFailures) ==> failed)
      ensures failed ==>
                || statusFailures > old(statusFailures) || apiFailures > old(apiFailures)
                || cluster.failures > old(cluster.failures) || cluster.listErrors > old(cluster.listErrors)
                || Unexpected(cluster.unmatched[|old(cluster.unmatched)|..]) > 0
      ensures old(condition) == DrainCompleted ==>
                && condition == DrainCompleted && cluster.history == old(cluster.history)
                && cluster.objects == old(cluster.objects) && cluster.deletes == old(cluster.deletes)
    {
      hide PassDone;
      StaysAsIs(cluster.history);
      if condition == Unset {
        failed := UpdateStatus(InProgress);
        if failed {
          return;
        }
      }
      if condition != DrainCompleted {
        var outcome := HandleDrain();
        assert old(cluster.unmatched) <= cluster.unmatched;
        if outcome != Complete {
          return true;
        }
      }
      failed := *;
      if failed {
        apiFailures := apiFailures + 1;
      } else {
        registered := false;
      }
    }
  }

  /** Once the completion is persisted, nothing carries the finalizer as long as nobody hands it out. */
  lemma CompletionHolds(o: Orchestrator, id: Id)
    requires o.Valid() && o.condition == DrainCompleted && !o.policy.OtherPolicy?
    requires Calm(o.cluster.history, o.passStart)
    ensures Clear(o.cluster.objects, id)
  {
    var history := o.cluster.history;
    assert KindDone(history, o.passStart, id.kind);
    assert Extends(history[..o.passStart + 1], history);
    CalmPassClears(history, o.passStart, id);
  }

  /** Without calm the completion says nothing about now: the finalizer can come back behind the pass. */
  lemma FinalizerComesBack(id: Id)
    ensures var back := map[id := Object([Legacy], false)];
            var history := [Moment(map[], false), Moment(map[], true), Moment(back, true)];
            && Extends(history[..1], history) && PassDone(history, 1)
            && !Calm(history, 1) && !Clear(history[2].objects, id)
  {
    var history := [Moment(map[], false), Moment(map[], true), Moment(map[id := Object([Legacy], false)], true)];
    forall kind
      ensures KindDone(history, 1, kind)
    {
      forall other: Id | other.kind == kind
        ensures ClearSince(history, 1, other)
      {
        ClearAt(history, 1, 1, other);
      }
      assert DoneAt(history, 1, kind);
    }
    assert Clear(history[1].objects, id) && !Shrinks(history[1].objects, history[2].objects);
  }
}
