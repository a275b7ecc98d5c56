/** The bindings poller: a plan of creates, updates and deletes, run by three goroutines until it is done. */
module Poller {
  import opened Texts

  type Url = string
  type Name = string

  datatype Ref = Ref(id: string, uri: string)

  /** The part of a status that the poller owns. */
  datatype Status = Status(hashedName: Name, endpoints: seq<Ref>, summary: string)

  /** A bound endpoint: `spec` stands for its scheme and its target, `deleting` for a deletion that waits for
      finalizers. */
  datatype Bound = Bound(name: Name, url: Url, spec: string, status: Status, deleting: bool)

  /** What a URL should have: a spec, and the endpoints behind it. */
  datatype Want = Want(spec: string, endpoints: seq<Ref>)

  type Desired = map<Url, Want>

  /** The name derived from a URL; distinct URLs have distinct names. */
  ghost predicate Injective(hash: Url -> Name) {
    forall u, v :: hash(u) == hash(v) ==> u == v
  }

  /** Object names are unique in a namespace. */
  ghost predicate DistinctNames(existing: seq<Bound>) {
    forall i, j | 0 <= i < j < |existing| :: existing[i].name != existing[j].name
  }

  ghost predicate NoRepeats<T>(s: seq<T>) {
    forall i, j | 0 <= i < j < |s| :: s[i] != s[j]
  }

  /** The first listed object with its URL. */
  ghost predicate First(existing: seq<Bound>, i: nat)
    requires i < |existing|
  {
    forall j | 0 <= j < i :: existing[j].url != existing[i].url
  }

  /** The object is the one a desired URL should have. */
  ghost predicate Kept(existing: seq<Bound>, i: nat, desired: Desired, hash: Url -> Name)
    requires i < |existing|
  {
    First(existing, i) && existing[i].url in desired && existing[i].name == hash(existing[i].url)
  }

  /** The plan: each desired URL is either updated or created, once; each existing object is either kept by an
      update or deleted. */
  ghost predicate IsPlan(existing: seq<Bound>, desired: Desired, hash: Url -> Name,
                         toCreate: seq<Url>, toUpdate: seq<Url>, toDelete: seq<Bound>)
  {
    && UpdatesOk(existing, |existing|, desired, hash, toUpdate)
    && (forall u :: u in toCreate <==> u in desired && u !in toUpdate)
    && DeletesOk(existing, |existing|, desired, hash, toDelete)
    && NoRepeats(toCreate)
    && |toUpdate| + |toDelete| == |existing|
  }

  // ----- the lists after the first k objects were looked at

  ghost predicate UpdatesOk(existing: seq<Bound>, k: nat, desired: Desired, hash: Url -> Name, toUpdate: seq<Url>)
    requires k <= |existing|
  {
    && (forall u :: u in toUpdate <==>
          exists i | 0 <= i < k :: existing[i].url == u && Kept(existing, i, desired, hash))
    && NoRepeats(toUpdate)
  }

  ghost predicate DeletesOk(existing: seq<Bound>, k: nat, desired: Desired, hash: Url -> Name, toDelete: seq<Bound>)
    requires k <= |existing|
  {
    forall e :: e in toDelete <==> exists i | 0 <= i < k :: existing[i] == e && !Kept(existing, i, desired, hash)
  }

  /** A URL is behind us once an object has it; then it is to be created or to be updated. */
  ghost predicate Seen(existing: seq<Bound>, k: nat, u: Url)
    requires k <= |existing|
  {
    exists i | 0 <= i < k :: existing[i].url == u
  }

  ghost predicate SplitOk(existing: seq<Bound>, k: nat, desired: Desired, rest: Desired,
                          toCreate: seq<Url>, toUpdate: seq<Url>)
    requires k <= |existing|
  {
    && (forall u :: u in rest <==> u in desired && !Seen(existing, k, u))
    && (forall u :: u in toCreate <==> u in desired && Seen(existing, k, u) && u !in toUpdate)
    && (forall u <- toUpdate :: u in desired && Seen(existing, k, u))
    && NoRepeats(toCreate)
  }

  lemma SeenNext(existing: seq<Bound>, k: nat)
    requires k < |existing|
    ensures forall u :: Seen(existing, k + 1, u) <==> Seen(existing, k, u) || u == existing[k].url
    ensures First(existing, k) <==> !Seen(existing, k, existing[k].url)
  {
    forall u
      ensures Seen(existing, k + 1, u) <==> Seen(existing, k, u) || u == existing[k].url
    {
      if Seen(existing, k, u) {
        var i :| 0 <= i < k && existing[i].url == u;
        assert existing[i].url == u && i < k + 1;
      }
      assert existing[k].url == existing[k].url && k < k + 1;
    }
  }

  lemma SplitStep(existing: seq<Bound>, k: nat, desired: Desired, rest: Desired, toCreate: seq<Url>, toUpdate: seq<Url>)
    requires k < |existing| && SplitOk(existing, k, desired, rest, toCreate, toUpdate)
    ensures var u := existing[k].url;
            && (u in rest <==> u in desired && First(existing, k))
            && (u in rest ==> SplitOk(existing, k + 1, desired, rest - {u}, toCreate, toUpdate + [u]))
            && (u in rest ==> SplitOk(existing, k + 1, desired, rest - {u}, toCreate + [u], toUpdate))
            && (u !in rest ==> SplitOk(existing, k + 1, desired, rest - {u}, toCreate, toUpdate))
  {
    SeenNext(existing, k);
    hide Seen;
  }

  lemma UpdatesStep(existing: seq<Bound>, k: nat, desired: Desired, hash: Url -> Name, toUpdate: seq<Url>)
    requires k < |existing| && UpdatesOk(existing, k, desired, hash, toUpdate)
    ensures UpdatesOk(existing, k + 1, desired, hash,
                      if Kept(existing, k, desired, hash) then toUpdate + [existing[k].url] else toUpdate)
  {
    assert Kept(existing, k, desired, hash) ==> existing[k].url !in toUpdate;
    var more := if Kept(existing, k, desired, hash) then toUpdate + [existing[k].url] else toUpdate;
    forall u
      ensures u in more <==> exists i | 0 <= i < k + 1 :: existing[i].url == u && Kept(existing, i, desired, hash)
    {
      if u in toUpdate {
        var i :| 0 <= i < k && existing[i].url == u && Kept(existing, i, desired, hash);
        assert i < k + 1;
      }
    }
  }

  lemma DeletesStep(existing: seq<Bound>, k: nat, desired: Desired, hash: Url -> Name, toDelete: seq<Bound>)
    requires k < |existing| && DeletesOk(existing, k, desired, hash, toDelete)
    ensures DeletesOk(existing, k + 1, desired, hash,
                      if Kept(existing, k, desired, hash) then toDelete else toDelete + [existing[k]])
  {
    var more := if Kept(existing, k, desired, hash) then toDelete else toDelete + [existing[k]];
    forall e
      ensures e in more <==> exists i | 0 <= i < k + 1 :: existing[i] == e && !Kept(existing, i, desired, hash)
    {
      if e in toDelete {
        var i :| 0 <= i < k && existing[i] == e && !Kept(existing, i, desired, hash);
        assert i < k + 1;
      }
    }
  }

  lemma NothingFiltered(existing: seq<Bound>, desired: Desired, hash: Url -> Name)
    ensures UpdatesOk(existing, 0, desired, hash, []) && DeletesOk(existing, 0, desired, hash, [])
    ensures SplitOk(existing, 0, desired, desired, [], [])
  {
  }

  method FilterActions(existing: seq<Bound>, desired: Desired, hash: Url -> Name)
    returns (toCreate: seq<Url>, toUpdate: seq<Url>, toDelete: seq<Bound>)
    ensures IsPlan(existing, desired, hash, toCreate, toUpdate, toDelete)
  {
    hide UpdatesOk, DeletesOk, SplitOk, First;
    toCreate, toUpdate, toDelete := [], [], [];
    var rest := desired;
    NothingFiltered(existing, desired, hash);
    for k := 0 to |existing|
      invariant SplitOk(existing, k, desired, rest, toCreate, toUpdate)
      invariant UpdatesOk(existing, k, desired, hash, toUpdate)
      invariant DeletesOk(existing, k, desired, hash, toDelete)
      invariant |toUpdate| + |toDelete| == k
    {
      var e := existing[k];
      SplitStep(existing, k, desired, rest, toCreate, toUpdate);
      UpdatesStep(existing, k, desired, hash, toUpdate);
      DeletesStep(existing, k, desired, hash, toDelete);
      if e.url in rest {
        if e.name == hash(e.url) {
          toUpdate := toUpdate + [e.url];
        } else {
          toDelete := toDelete + [e];
          toCreate := toCreate + [e.url];
        }
      } else {
        toDelete := toDelete + [e];
      }
      rest := rest - {e.url};
    }
    toCreate := AppendNew(toCreate, rest, existing, desired, toUpdate);
  }

  /** The last loop: the URLs no existing object has. */
  method AppendNew(misnamed: seq<Url>, rest: Desired, ghost existing: seq<Bound>, ghost desired: Desired,
                   ghost toUpdate: seq<Url>) returns (toCreate: seq<Url>)
    requires SplitOk(existing, |existing|, desired, rest, misnamed, toUpdate)
    ensures forall u :: u in toCreate <==> u in desired && u !in toUpdate
    ensures NoRepeats(toCreate)
  {
    toCreate := misnamed;
    var pending := rest.Keys;
    while pending != {}
      invariant pending <= rest.Keys && NoRepeats(toCreate)
      invariant forall u :: u in toCreate <==> u in misnamed || u in rest.Keys - pending
      decreases pending
    {
      var u :| u in pending;
      assert u !in toCreate;
      toCreate, pending := toCreate + [u], pending - {u};
    }
  }

  // ----- running the plan

  datatype Action = Create(url: Url) | Update(url: Url) | Delete(name: Name)

  /** The objects in the cluster, what is left of the plan, and the URLs for which an attempt has made its first
      write and is about to write the status. */
  datatype State = State(objects: map<Name, Bound>, pending: set<Action>, writing: set<Url>)

  const NOTHING := Status("", [], "")

  function Summary(count: nat): string {
    if count == 1 then "1 endpoint" else Digits(count) + " endpoints"
  }

  function Filled(name: Name, want: Want): Status {
    Status(name, want.endpoints, Summary(|want.endpoints|))
  }

  /** The comparison of endpoints looks at their number and at their IDs. */
  predicate EndpointsDiffer(status: Status, want: Want) {
    || |status.endpoints| != |want.endpoints|
    || exists r <- want.endpoints :: forall q <- status.endpoints :: q.id != r.id
  }

  /** What lets an update be skipped. */
  predicate NeedsUpdate(e: Bound, u: Url, want: Want) {
    e.url != u || e.spec != want.spec || EndpointsDiffer(e.status, want)
  }

  function Created(s: State, u: Url, want: Want, name: Name): State {
    s.(objects := s.objects[name := Bound(name, u, want.spec, NOTHING, false)])
  }

  function Updated(s: State, u: Url, want: Want, name: Name): State
    requires name in s.objects
  {
    s.(objects := s.objects[name := s.objects[name].(url := u, spec := want.spec)])
  }

  function Written(s: State, want: Want, name: Name): State
    requires name in s.objects
  {
    s.(objects := s.objects[name := s.objects[name].(status := Filled(name, want))])
  }

  /** An object `kept` by a finalizer is only marked. */
  function Removed(s: State, name: Name, kept: bool): State
    requires name in s.objects
  {
    s.(objects := if kept then s.objects[name := s.objects[name].(deleting := true)] else s.objects - {name})
  }

  function Retired(s: State, u: Url): State {
    s.(pending := s.pending - {Create(u), Update(u)}, writing := s.writing - {u})
  }

  /** Creating: the object is made, with or without the answer arriving; or the name is taken, and the attempt
      goes on to the status, or gives up with success because it cannot read the object. */
  ghost predicate CreateStep(s: State, s': State, u: Url, desired: Desired, hash: Url -> Name) {
    && Create(u) in s.pending && u in desired && u !in s.writing
    && if hash(u) !in s.objects then
         var made := Created(s, u, desired[u], hash(u));
         s' == made || s' == made.(writing := s.writing + {u})
       else s' == s.(writing := s.writing + {u}) || s' == Retired(s, u)
  }

  /** Updating: done at once if the object is gone or needs no update, else a write of the spec. */
  ghost predicate UpdateStep(s: State, s': State, u: Url, desired: Desired, hash: Url -> Name) {
    && Update(u) in s.pending && u in desired && u !in s.writing
    && if hash(u) !in s.objects || !NeedsUpdate(s.objects[hash(u)], u, desired[u]) then s' == Retired(s, u)
       else
         var written := Updated(s, u, desired[u], hash(u));
         s' == written || s' == written.(writing := s.writing + {u})
  }

  /** The status write of an attempt: it fails, with or without effect, or it succeeds and the action is done. */
  ghost predicate StatusStep(s: State, s': State, u: Url, desired: Desired, hash: Url -> Name) {
    && u in s.writing && u in desired
    && (|| s' == s.(writing := s.writing - {u})
        || (&& hash(u) in s.objects
            && var written := Written(s, desired[u], hash(u));
               s' == written.(writing := s.writing - {u}) || s' == Retired(written, u)))
  }

  ghost predicate DeleteStep(s: State, s': State, n: Name) {
    && Delete(n) in s.pending && n in s.objects
    && exists kept: bool :: s' == Removed(s, n, kept) || s' == Removed(s, n, kept).(pending := s.pending - {Delete(n)})
  }

  /** The last finalizer of an object that is being deleted goes. */
  ghost predicate FinalizeStep(s: State, s': State, n: Name) {
    n in s.objects && s.objects[n].deleting && s' == s.(objects := s.objects - {n})
  }

  /** A call of an attempt to create or update. */
  ghost predicate AboutUrl(s: State, s': State, u: Url, desired: Desired, hash: Url -> Name) {
    CreateStep(s, s', u, desired, hash) || UpdateStep(s, s', u, desired, hash) || StatusStep(s, s', u, desired, hash)
  }

  /** One API call of some attempt, or a failure without effect. */
  ghost predicate Step(s: State, s': State, desired: Desired, hash: Url -> Name) {
    || s' == s
    || (exists u :: AboutUrl(s, s', u, desired, hash))
    || (exists n :: DeleteStep(s, s', n) || FinalizeStep(s, s', n))
  }

  ghost predicate IsRun(run: seq<State>, desired: Desired, hash: Url -> Name) {
    forall i | 0 < i < |run| :: Step(run[i - 1], run[i], desired, hash)
  }

  ghost predicate Starts(s: State, existing: seq<Bound>, toCreate: seq<Url>, toUpdate: seq<Url>, toDelete: seq<Bound>) {
    && DistinctNames(existing) && s.writing == {}
    && (forall n :: n in s.objects <==> exists e <- existing :: e.name == n)
    && (forall e <- existing :: e.name in s.objects && s.objects[e.name] == e)
    && (forall u :: Create(u) in s.pending <==> u in toCreate)
    && (forall u :: Update(u) in s.pending <==> u in toUpdate)
    && (forall n :: Delete(n) in s.pending <==> exists e <- toDelete :: e.name == n)
  }

  // ----- names and specs

  /** The URL has its object, not about to go. */
  ghost predicate Present(s: State, n: Name) {
    n in s.objects && !s.objects[n].deleting
  }

  ghost predicate HasSpec(s: State, u: Url, want: Want, n: Name) {
    Present(s, n) && s.objects[n].url == u && s.objects[n].spec == want.spec
  }

  /** The URL has its object with its spec, or a pending action that will give it one. */
  ghost predicate Covered(s: State, u: Url, desired: Desired, hash: Url -> Name)
    requires u in desired
  {
    || HasSpec(s, u, desired[u], hash(u))
    || (Update(u) in s.pending && Create(u) !in s.pending && u !in s.writing && Present(s, hash(u)))
    || (Create(u) in s.pending && Update(u) !in s.pending && u !in s.writing && hash(u) !in s.objects)
  }

  /** Every desired URL is covered and no delete is meant for it; every other object is going or to be deleted. */
  ghost predicate OnTrack(s: State, desired: Desired, hash: Url -> Name) {
    && (forall u <- desired :: Covered(s, u, desired, hash) && Delete(hash(u)) !in s.pending)
    && (forall n <- s.objects :: s.objects[n].deleting || Delete(n) in s.pending || exists u <- desired :: n == hash(u))
  }

  /** A step that concerns another name leaves the URL covered. */
  ghost predicate Elsewhere(s: State, s': State, u: Url, hash: Url -> Name) {
    && (hash(u) in s.objects <==> hash(u) in s'.objects)
    && (hash(u) in s.objects ==> s'.objects[hash(u)] == s.objects[hash(u)])
    && (Create(u) in s.pending <==> Create(u) in s'.pending) && (Update(u) in s.pending <==> Update(u) in s'.pending)
    && (u in s.writing <==> u in s'.writing)
  }

  lemma ElsewhereIsKept(s: State, s': State, u: Url, v: Url, desired: Desired, hash: Url -> Name)
    requires Injective(hash) && AboutUrl(s, s', u, desired, hash) && v != u
    ensures Elsewhere(s, s', v, hash)
  {
    assert hash(u) != hash(v);
  }

  lemma AboutUrlKeepsCovered(s: State, s': State, u: Url, desired: Desired, hash: Url -> Name)
    requires u in desired && AboutUrl(s, s', u, desired, hash) && Covered(s, u, desired, hash)
    ensures Covered(s', u, desired, hash)
  {
  }

  /** Such a step adds no object but the URL's own, marks none, and touches no delete. */
  lemma AboutUrlFrame(s: State, s': State, u: Url, desired: Desired, hash: Url -> Name)
    requires AboutUrl(s, s', u, desired, hash)
    ensures u in desired
    ensures forall n <- s'.objects :: n == hash(u) || (n in s.objects && s'.objects[n] == s.objects[n])
    ensures forall n :: Delete(n) in s.pending <==> Delete(n) in s'.pending
  {
  }

  lemma AboutUrlKeepsTrack(s: State, s': State, u: Url, desired: Desired, hash: Url -> Name)
    requires Injective(hash) && OnTrack(s, desired, hash) && AboutUrl(s, s', u, desired, hash)
    ensures OnTrack(s', desired, hash)
  {
    hide AboutUrl;
    AboutUrlFrame(s, s', u, desired, hash);
    forall v <- desired
      ensures Covered(s', v, desired, hash)
    {
      if v == u {
        AboutUrlKeepsCovered(s, s', u, desired, hash);
      } else {
        ElsewhereIsKept(s, s', u, v, desired, hash);
      }
    }
  }

  lemma DeleteKeepsTrack(s: State, s': State, n: Name, desired: Desired, hash: Url -> Name)
    requires OnTrack(s, desired, hash) && (DeleteStep(s, s', n) || FinalizeStep(s, s', n))
    ensures OnTrack(s', desired, hash)
  {
    forall u <- desired
      ensures Covered(s', u, desired, hash)
    {
      assert Covered(s, u, desired, hash);
    }
  }

  lemma StepKeepsTrack(s: State, s': State, desired: Desired, hash: Url -> Name)
    requires Injective(hash) && OnTrack(s, desired, hash) && Step(s, s', desired, hash)
    ensures OnTrack(s', desired, hash)
  {
    hide Injective, OnTrack, AboutUrl, DeleteStep, FinalizeStep;
    if u :| AboutUrl(s, s', u, desired, hash) {
      AboutUrlKeepsTrack(s, s', u, desired, hash);
    } else if s' != s {
      var n :| DeleteStep(s, s', n) || FinalizeStep(s, s', n);
      DeleteKeepsTrack(s, s', n, desired, hash);
    }
  }

  /** The existing object holds the name derived from a desired URL, but the plan does not keep it, or it is being
      deleted already. */
  ghost predicate Squats(existing: seq<Bound>, i: nat, desired: Desired, hash: Url -> Name, u: Url)
    requires i < |existing|
  {
    u in desired && existing[i].name == hash(u) && (existing[i].deleting || !Kept(existing, i, desired, hash))
  }

  ghost predicate NoSquatters(existing: seq<Bound>, desired: Desired, hash: Url -> Name) {
    forall i, u | 0 <= i < |existing| :: !Squats(existing, i, desired, hash, u)
  }

  /** Without squatters, whatever has the name of a desired URL is that URL's own object, and is kept. */
  lemma NamesOfDesired(existing: seq<Bound>, desired: Desired, hash: Url -> Name, u: Url)
    requires Injective(hash) && NoSquatters(existing, desired, hash) && u in desired
    ensures forall i | 0 <= i < |existing| && existing[i].name == hash(u) ::
              existing[i].url == u && Kept(existing, i, desired, hash) && !existing[i].deleting
  {
    forall i | 0 <= i < |existing| && existing[i].name == hash(u)
      ensures existing[i].url == u && Kept(existing, i, desired, hash) && !existing[i].deleting
    {
      assert !Squats(existing, i, desired, hash, u);
    }
  }

  lemma PlanIsOnTrack(s: State, existing: seq<Bound>, desired: Desired, hash: Url -> Name,
                      toCreate: seq<Url>, toUpdate: seq<Url>, toDelete: seq<Bound>)
    requires Injective(hash) && IsPlan(existing, desired, hash, toCreate, toUpdate, toDelete)
    requires NoSquatters(existing, desired, hash)
    requires Starts(s, existing, toCreate, toUpdate, toDelete)
    ensures OnTrack(s, desired, hash)
  {
    forall u <- desired
      ensures Covered(s, u, desired, hash) && Delete(hash(u)) !in s.pending
    {
      NamesOfDesired(existing, desired, hash, u);
      if u in toUpdate {
        var i :| 0 <= i < |existing| && existing[i].url == u && Kept(existing, i, desired, hash);
        assert existing[i] in existing;
      }
    }
    forall n <- s.objects
      ensures Delete(n) in s.pending || exists u <- desired :: n == hash(u)
    {
      var e :| e in existing && e.name == n;
      var i :| 0 <= i < |existing| && existing[i] == e;
      if !Kept(existing, i, desired, hash) {
        assert e in toDelete;
      }
    }
  }

  lemma {:induction false} RunsStayOnTrack(run: seq<State>, desired: Desired, hash: Url -> Name, i: nat)
    requires Injective(hash) && IsRun(run, desired, hash) && i < |run| && OnTrack(run[0], desired, hash)
    ensures OnTrack(run[i], desired, hash)
  {
    hide OnTrack, Step;
    if i > 0 {
      RunsStayOnTrack(run, desired, hash, i - 1);
      StepKeepsTrack(run[i - 1], run[i], desired, hash);
    }
  }

  /** Of the objects that are not being deleted, exactly one per desired URL, with its name, URL and spec. */
  ghost predicate Converged(s: State, desired: Desired, hash: Url -> Name) {
    && (forall n :: Present(s, n) <==> exists u <- desired :: n == hash(u))
    && (forall u <- desired :: HasSpec(s, u, desired[u], hash(u)))
  }

  /** The plan converges: once every action of the plan succeeded, in whatever interleaving of their calls and
      after whatever failed attempts, names and specs are as desired. */
  lemma PlanConverges(run: seq<State>, existing: seq<Bound>, desired: Desired, hash: Url -> Name,
                      toCreate: seq<Url>, toUpdate: seq<Url>, toDelete: seq<Bound>)
    requires Injective(hash) && NoSquatters(existing, desired, hash)
    requires IsPlan(existing, desired, hash, toCreate, toUpdate, toDelete)
    requires |run| > 0 && IsRun(run, desired, hash) && Starts(run[0], existing, toCreate, toUpdate, toDelete)
    requires run[|run| - 1].pending == {}
    ensures Converged(run[|run| - 1], desired, hash)
  {
    hide IsPlan, Starts, NoSquatters, IsRun, Injective;
    PlanIsOnTrack(run[0], existing, desired, hash, toCreate, toUpdate, toDelete);
    RunsStayOnTrack(run, desired, hash, |run| - 1);
  }

  // ----- bringing a plan to its end

  /** No attempt is half done, every pending delete has its object, and every other action is for a desired URL. */
  ghost predicate Ready(s: State, desired: Desired) {
    && s.writing == {}
    && (forall n :: Delete(n) in s.pending ==> n in s.objects)
    && (forall v :: Working(s, v) ==> v in desired)
  }

  ghost predicate Working(s: State, u: Url) {
    Create(u) in s.pending || Update(u) in s.pending
  }

  ghost predicate SameAt(s: State, s': State, n: Name) {
    (n in s.objects <==> n in s'.objects) && (n in s.objects ==> s'.objects[n] == s.objects[n])
  }

  lemma RunsGlue(first: seq<State>, second: seq<State>, desired: Desired, hash: Url -> Name)
    requires first != [] && second != [] && first[|first| - 1] == second[0]
    requires IsRun(first, desired, hash) && IsRun(second, desired, hash)
    ensures IsRun(first + second[1..], desired, hash)
  {
    hide Step;
    var run := first + second[1..];
    forall i | 0 < i < |run|
      ensures Step(run[i - 1], run[i], desired, hash)
    {
      if i >= |first| {
        assert run[i] == second[i - |first| + 1] && run[i - 1] == second[i - |first|];
      }
    }
  }

  lemma TwoCalls(s: State, mid: State, end: State, v: Url, desired: Desired, hash: Url -> Name)
    requires AboutUrl(s, mid, v, desired, hash) && AboutUrl(mid, end, v, desired, hash)
    ensures IsRun([s, mid, end], desired, hash)
  {
    hide AboutUrl;
    assert Step(s, mid, desired, hash) && Step(mid, end, desired, hash);
  }

  lemma OneCall(s: State, end: State, v: Url, desired: Desired, hash: Url -> Name)
    requires AboutUrl(s, end, v, desired, hash)
    ensures IsRun([s, end], desired, hash)
  {
    hide AboutUrl;
    assert Step(s, end, desired, hash);
  }

  /** Some way for a pending action to end, without a trace elsewhere. */
  lemma RetireUrl(s: State, v: Url, desired: Desired, hash: Url -> Name) returns (run: seq<State>)
    requires Ready(s, desired) && Working(s, v)
    ensures |run| > 0 && run[0] == s && IsRun(run, desired, hash)
    ensures var end := run[|run| - 1];
            && Ready(end, desired) && end.pending == s.pending - {Create(v), Update(v)}
            && forall n | n != hash(v) :: SameAt(s, end, n)
  {
    assert v in desired;
    var mid := s;
    if Create(v) in s.pending && hash(v) !in s.objects {
      mid := Created(s, v, desired[v], hash(v)).(writing := s.writing + {v});
      assert CreateStep(s, mid, v, desired, hash);
    } else if Create(v) !in s.pending && hash(v) in s.objects && NeedsUpdate(s.objects[hash(v)], v, desired[v]) {
      mid := Updated(s, v, desired[v], hash(v)).(writing := s.writing + {v});
      assert UpdateStep(s, mid, v, desired, hash);
    } else {
      assert CreateStep(s, Retired(s, v), v, desired, hash) || UpdateStep(s, Retired(s, v), v, desired, hash);
      OneCall(s, Retired(s, v), v, desired, hash);
      return [s, Retired(s, v)];
    }
    var end := Retired(Written(mid, desired[v], hash(v)), v);
    assert StatusStep(mid, end, v, desired, hash);
    TwoCalls(s, mid, end, v, desired, hash);
    run := [s, mid, end];
  }

  lemma RetireDelete(s: State, n: Name, desired: Desired, hash: Url -> Name) returns (run: seq<State>)
    requires Ready(s, desired) && Delete(n) in s.pending
    ensures |run| > 0 && run[0] == s && IsRun(run, desired, hash)
    ensures var end := run[|run| - 1];
            && Ready(end, desired) && end.pending == s.pending - {Delete(n)}
            && n !in end.objects && forall m | m != n :: SameAt(s, end, m)
  {
    var end := Removed(s, n, false).(pending := s.pending - {Delete(n)});
    assert DeleteStep(s, end, n);
    assert Step(s, end, desired, hash);
    run := [s, end];
  }

  /** The plan can always be brought to its end; what happens to a URL without an action of its own is only what a
      delete does. */
  lemma {:induction false} FinishRun(s: State, desired: Desired, hash: Url -> Name, u: Url) returns (run: seq<State>)
    requires Injective(hash) && Ready(s, desired) && !Working(s, u)
    ensures |run| > 0 && run[0] == s && IsRun(run, desired, hash) && run[|run| - 1].pending == {}
    ensures var end := run[|run| - 1];
            if Delete(hash(u)) in s.pending then hash(u) !in end.objects else SameAt(s, end, hash(u))
    decreases |s.pending|
  {
    hide Step;
    if s.pending == {} {
      run := [s];
    } else {
      var a :| a in s.pending;
      var first;
      if a.Delete? {
        first := RetireDelete(s, a.name, desired, hash);
      } else {
        assert Working(s, a.url) && hash(a.url) != hash(u);
        first := RetireUrl(s, a.url, desired, hash);
      }
      var mid := first[|first| - 1];
      assert mid.pending < s.pending by { assert a !in mid.pending; }
      Smaller(mid.pending, s.pending);
      assert !Working(mid, u);
      assert a == Delete(hash(u)) || SameAt(s, mid, hash(u));
      assert a != Delete(hash(u)) ==> (Delete(hash(u)) in mid.pending <==> Delete(hash(u)) in s.pending);
      hide Ready, Working, Injective;
      var second := FinishRun(mid, desired, hash, u);
      RunsGlue(first, second, desired, hash);
      run := first + second[1..];
      assert run[|run| - 1] == second[|second| - 1];
    }
  }

  lemma Smaller<T>(a: set<T>, b: set<T>)
    requires a < b
    ensures |a| < |b|
  {
    assert b == a + (b - a);
    assert |b - a| > 0;
  }

  lemma StartsReady(s: State, existing: seq<Bound>, desired: Desired, hash: Url -> Name,
                    toCreate: seq<Url>, toUpdate: seq<Url>, toDelete: seq<Bound>)
    requires IsPlan(existing, desired, hash, toCreate, toUpdate, toDelete)
    requires Starts(s, existing, toCreate, toUpdate, toDelete)
    ensures Ready(s, desired)
  {
    PlannedAreDesired(s, existing, desired, hash, toCreate, toUpdate, toDelete);
    DeletesArePresent(s, existing, desired, hash, toCreate, toUpdate, toDelete);
  }

  // ----- the converse: a squatter can win

  /** Whenever an existing object squats on a desired name, some run of the plan ends, every action having
      succeeded, without an object for that URL: a create finds the name taken and is done, and the object is
      deleted after all; or the object to be updated goes away. */
  lemma SquatterDefeatsPlan(s: State, existing: seq<Bound>, desired: Desired, hash: Url -> Name,
                            toCreate: seq<Url>, toUpdate: seq<Url>, toDelete: seq<Bound>, i: nat, u: Url)
    returns (run: seq<State>)
    requires Injective(hash) && IsPlan(existing, desired, hash, toCreate, toUpdate, toDelete)
    requires Starts(s, existing, toCreate, toUpdate, toDelete)
    requires i < |existing| && Squats(existing, i, desired, hash, u)
    ensures |run| > 0 && run[0] == s && IsRun(run, desired, hash)
    ensures run[|run| - 1].pending == {} && !Converged(run[|run| - 1], desired, hash)
  {
    StartsReady(s, existing, desired, hash, toCreate, toUpdate, toDelete);
    assert existing[i] in existing && hash(u) in s.objects && s.objects[hash(u)] == existing[i];
    if !Kept(existing, i, desired, hash) {
      assert existing[i] in toDelete;
      SquatterIsCreated(existing, desired, hash, toUpdate, i, u);
      assert Create(u) in s.pending && Delete(hash(u)) in s.pending;
      hide Starts, IsPlan, Kept;
      run := CreateGivesUp(s, desired, hash, u);
    } else {
      KeptIsNotDeleted(s, existing, desired, hash, toCreate, toUpdate, toDelete, i);
      assert existing[i].url == u && u in toUpdate && Update(u) in s.pending;
      hide Starts, IsPlan, Kept;
      run := ObjectGoes(s, desired, hash, u);
    }
    assert !HasSpec(run[|run| - 1], u, desired[u], hash(u));
  }

  lemma CreateGivesUp(s: State, desired: Desired, hash: Url -> Name, u: Url) returns (run: seq<State>)
    requires Injective(hash) && Ready(s, desired)
    requires hash(u) in s.objects && Create(u) in s.pending && Delete(hash(u)) in s.pending
    ensures |run| > 0 && run[0] == s && IsRun(run, desired, hash)
    ensures run[|run| - 1].pending == {} && hash(u) !in run[|run| - 1].objects
  {
    var mid := Retired(s, u);
    assert u in desired by { assert Working(s, u); }
    assert CreateStep(s, mid, u, desired, hash);
    OneCall(s, mid, u, desired, hash);
    run := ThenFinish([s, mid], desired, hash, u);
  }

  lemma ObjectGoes(s: State, desired: Desired, hash: Url -> Name, u: Url) returns (run: seq<State>)
    requires Injective(hash) && Ready(s, desired) && hash(u) in s.objects && s.objects[hash(u)].deleting
    requires Update(u) in s.pending && Delete(hash(u)) !in s.pending
    ensures |run| > 0 && run[0] == s && IsRun(run, desired, hash)
    ensures run[|run| - 1].pending == {} && hash(u) !in run[|run| - 1].objects
  {
    var mid := s.(objects := s.objects - {hash(u)});
    assert u in desired by { assert Working(s, u); }
    assert FinalizeStep(s, mid, hash(u));
    assert Step(s, mid, desired, hash);
    assert UpdateStep(mid, Retired(mid, u), u, desired, hash);
    OneCall(mid, Retired(mid, u), u, desired, hash);
    var tail := [mid, Retired(mid, u)];
    assert IsRun([s, mid], desired, hash) && [s, mid][1] == tail[0];
    RunsGlue([s, mid], tail, desired, hash);
    run := ThenFinish([s, mid] + tail[1..], desired, hash, u);
  }

  /** A run that has dealt with a URL, continued to the end of the plan. */
  lemma ThenFinish(first: seq<State>, desired: Desired, hash: Url -> Name, u: Url) returns (run: seq<State>)
    requires |first| > 0 && IsRun(first, desired, hash) && Injective(hash)
    requires Ready(first[|first| - 1], desired) && !Working(first[|first| - 1], u)
    ensures |run| > 0 && run[0] == first[0] && IsRun(run, desired, hash) && run[|run| - 1].pending == {}
    ensures var s, end := first[|first| - 1], run[|run| - 1];
            if Delete(hash(u)) in s.pending then hash(u) !in end.objects else SameAt(s, end, hash(u))
  {
    hide Step, Ready, Working, Injective;
    var second := FinishRun(first[|first| - 1], desired, hash, u);
    RunsGlue(first, second, desired, hash);
    run := first + second[1..];
    assert run[|run| - 1] == second[|second| - 1];
  }

  lemma PlannedAreDesired(s: State, existing: seq<Bound>, desired: Desired, hash: Url -> Name,
                          toCreate: seq<Url>, toUpdate: seq<Url>, toDelete: seq<Bound>)
    requires IsPlan(existing, desired, hash, toCreate, toUpdate, toDelete)
    requires Starts(s, existing, toCreate, toUpdate, toDelete)
    ensures forall v :: Working(s, v) ==> v in desired
  {
    forall v | v in toUpdate
      ensures v in desired
    {
      var i :| 0 <= i < |existing| && existing[i].url == v && Kept(existing, i, desired, hash);
    }
  }

  lemma KeptIsNotDeleted(s: State, existing: seq<Bound>, desired: Desired, hash: Url -> Name,
                         toCreate: seq<Url>, toUpdate: seq<Url>, toDelete: seq<Bound>, i: nat)
    requires DeletesOk(existing, |existing|, desired, hash, toDelete)
    requires Starts(s, existing, toCreate, toUpdate, toDelete)
    requires i < |existing| && Kept(existing, i, desired, hash)
    ensures Delete(existing[i].name) !in s.pending
  {
    forall e <- toDelete
      ensures e.name != existing[i].name
    {
      var j :| 0 <= j < |existing| && existing[j] == e && !Kept(existing, j, desired, hash);
      assert i != j;
    }
  }

  lemma SquatterIsCreated(existing: seq<Bound>, desired: Desired, hash: Url -> Name, toUpdate: seq<Url>, i: nat, u: Url)
    requires DistinctNames(existing) && UpdatesOk(existing, |existing|, desired, hash, toUpdate)
    requires i < |existing| && existing[i].name == hash(u) && !Kept(existing, i, desired, hash)
    ensures u !in toUpdate
  {
    forall j | 0 <= j < |existing| && existing[j].url == u
      ensures !Kept(existing, j, desired, hash)
    {
      assert existing[j].name == hash(u) ==> i == j;
    }
  }

  lemma DeletesArePresent(s: State, existing: seq<Bound>, desired: Desired, hash: Url -> Name,
                          toCreate: seq<Url>, toUpdate: seq<Url>, toDelete: seq<Bound>)
    requires DeletesOk(existing, |existing|, desired, hash, toDelete)
    requires Starts(s, existing, toCreate, toUpdate, toDelete)
    ensures forall n :: Delete(n) in s.pending ==> n in s.objects
  {
    forall n | Delete(n) in s.pending
      ensures n in s.objects
    {
      var e :| e in toDelete && e.name == n;
      assert e in existing;
    }
  }

  // ----- statuses

  ghost predicate HasStatus(s: State, u: Url, desired: Desired, hash: Url -> Name)
    requires u in desired
  {
    && hash(u) in s.objects
    && var endpoints := desired[u].endpoints;
       var summary := if |endpoints| == 1 then "1 endpoint" else Digits(|endpoints|) + " endpoints";
       s.objects[hash(u)].status == Status(hash(u), endpoints, summary)
  }

  /** The URL has an object to be updated, whose status is as wanted already or differs in what the comparison looks
      at. */
  ghost predicate SureOfStatus(existing: seq<Bound>, desired: Desired, hash: Url -> Name, u: Url)
    requires u in desired
  {
    exists i | 0 <= i < |existing| ::
      && existing[i].url == u && Kept(existing, i, desired, hash)
      && WillBeFilled(existing[i].status, hash(u), desired[u].endpoints)
  }

  /** The status is as wanted, or shows another number of endpoints or lacks one by its ID. */
  predicate WillBeFilled(status: Status, name: Name, wanted: seq<Ref>) {
    var summary := if |wanted| == 1 then "1 endpoint" else Digits(|wanted|) + " endpoints";
    || status == Status(name, wanted, summary)
    || |status.endpoints| != |wanted|
    || exists r <- wanted :: forall q <- status.endpoints :: q.id != r.id
  }

  lemma ComparisonShows(status: Status, name: Name, want: Want)
    ensures WillBeFilled(status, name, want.endpoints)
       <==> status == Filled(name, want) || EndpointsDiffer(status, want)
  {
  }

  lemma StatusShows(s: State, u: Url, desired: Desired, hash: Url -> Name)
    requires u in desired
    ensures HasStatus(s, u, desired, hash)
       <==> hash(u) in s.objects && s.objects[hash(u)].status == Filled(hash(u), desired[u])
  {
  }

  /** The status is filled, or the update that will fill it cannot be skipped. */
  ghost predicate OnStatus(s: State, u: Url, desired: Desired, hash: Url -> Name)
    requires u in desired
  {
    && Create(u) !in s.pending && hash(u) in s.objects
    && (|| s.objects[hash(u)].status == Filled(hash(u), desired[u])
        || (Update(u) in s.pending && EndpointsDiffer(s.objects[hash(u)].status, desired[u])))
  }

  lemma AboutUrlKeepsStatus(s: State, s': State, v: Url, u: Url, desired: Desired, hash: Url -> Name)
    requires Injective(hash) && AboutUrl(s, s', v, desired, hash) && u in desired && OnStatus(s, u, desired, hash)
    ensures OnStatus(s', u, desired, hash)
  {
    hide EndpointsDiffer;
    if v != u {
      ElsewhereIsKept(s, s', v, u, desired, hash);
    }
  }

  lemma StepKeepsStatus(s: State, s': State, u: Url, desired: Desired, hash: Url -> Name)
    requires Injective(hash) && OnTrack(s, desired, hash) && Step(s, s', desired, hash)
    requires u in desired && OnStatus(s, u, desired, hash)
    ensures OnStatus(s', u, desired, hash)
  {
    hide Injective, AboutUrl, EndpointsDiffer;
    if v :| AboutUrl(s, s', v, desired, hash) {
      AboutUrlKeepsStatus(s, s', v, u, desired, hash);
    } else {
      assert Covered(s, u, desired, hash) && Delete(hash(u)) !in s.pending;
    }
  }

  lemma {:induction false} RunsKeepStatus(run: seq<State>, desired: Desired, hash: Url -> Name, u: Url, k: nat)
    requires Injective(hash) && IsRun(run, desired, hash) && k < |run| && u in desired
    requires OnTrack(run[0], desired, hash) && OnStatus(run[0], u, desired, hash)
    ensures OnStatus(run[k], u, desired, hash)
  {
    hide OnTrack, Step, Injective, OnStatus;
    if k > 0 {
      RunsKeepStatus(run, desired, hash, u, k - 1);
      RunsStayOnTrack(run, desired, hash, k - 1);
      StepKeepsStatus(run[k - 1], run[k], u, desired, hash);
    }
  }

  /** A run of the plan in which every action succeeded. */
  ghost predicate Completes(run: seq<State>, s: State, desired: Desired, hash: Url -> Name) {
    |run| > 0 && run[0] == s && IsRun(run, desired, hash) && run[|run| - 1].pending == {}
  }

  lemma SureIsFilled(run: seq<State>, s: State, existing: seq<Bound>, desired: Desired, hash: Url -> Name,
                     toCreate: seq<Url>, toUpdate: seq<Url>, toDelete: seq<Bound>, u: Url)
    requires Injective(hash) && NoSquatters(existing, desired, hash) && u in desired
    requires IsPlan(existing, desired, hash, toCreate, toUpdate, toDelete)
    requires Starts(s, existing, toCreate, toUpdate, toDelete) && Completes(run, s, desired, hash)
    requires SureOfStatus(existing, desired, hash, u)
    ensures HasStatus(run[|run| - 1], u, desired, hash)
  {
    hide NoSquatters, IsRun, Injective, OnTrack, IsPlan, Starts, SureOfStatus;
    PlanIsOnTrack(s, existing, desired, hash, toCreate, toUpdate, toDelete);
    SureStarts(s, existing, desired, hash, toCreate, toUpdate, toDelete, u);
    RunsKeepStatus(run, desired, hash, u, |run| - 1);
  }

  lemma SureStarts(s: State, existing: seq<Bound>, desired: Desired, hash: Url -> Name,
                   toCreate: seq<Url>, toUpdate: seq<Url>, toDelete: seq<Bound>, u: Url)
    requires u in desired && IsPlan(existing, desired, hash, toCreate, toUpdate, toDelete)
    requires Starts(s, existing, toCreate, toUpdate, toDelete) && SureOfStatus(existing, desired, hash, u)
    ensures OnStatus(s, u, desired, hash)
  {
    hide EndpointsDiffer, WillBeFilled, Filled;
    var i :| 0 <= i < |existing| && existing[i].url == u && Kept(existing, i, desired, hash)
          && WillBeFilled(existing[i].status, hash(u), desired[u].endpoints);
    ComparisonShows(existing[i].status, hash(u), desired[u]);
    assert existing[i] in existing && u in toUpdate;
  }

  /** Creating: the object is made, its status write fails, and the next attempt finds the name taken but cannot
      read the object. */
  lemma CreateLeavesUnfilled(s: State, desired: Desired, hash: Url -> Name, u: Url) returns (run: seq<State>)
    requires Injective(hash) && Ready(s, desired) && Create(u) in s.pending
    requires hash(u) !in s.objects && Delete(hash(u)) !in s.pending
    ensures u in desired && Completes(run, s, desired, hash) && !HasStatus(run[|run| - 1], u, desired, hash)
  {
    assert u in desired by { assert Working(s, u); }
    var s1 := Created(s, u, desired[u], hash(u)).(writing := s.writing + {u});
    var s2 := s1.(writing := s1.writing - {u});
    var s3 := Retired(s2, u);
    assert CreateStep(s, s1, u, desired, hash) && StatusStep(s1, s2, u, desired, hash);
    TwoCalls(s, s1, s2, u, desired, hash);
    assert CreateStep(s2, s3, u, desired, hash);
    OneCall(s2, s3, u, desired, hash);
    RunsGlue([s, s1, s2], [s2, s3], desired, hash);
    var first := [s, s1, s2] + [s2, s3][1..];
    assert first[|first| - 1] == s3;
    assert NOTHING != Filled(hash(u), desired[u]) by {
      assert |Filled(hash(u), desired[u]).summary| > 0;
    }
    run := ThenFinish(first, desired, hash, u);
  }

  /** Updating: the spec is written if it has to be, the answer is lost, and the next attempt finds nothing to do. */
  lemma UpdateLeavesUnfilled(s: State, desired: Desired, hash: Url -> Name, u: Url) returns (run: seq<State>)
    requires Injective(hash) && Ready(s, desired) && Update(u) in s.pending
    requires u in desired && hash(u) in s.objects && Delete(hash(u)) !in s.pending
    requires !HasStatus(s, u, desired, hash) && !EndpointsDiffer(s.objects[hash(u)].status, desired[u])
    ensures Completes(run, s, desired, hash) && !HasStatus(run[|run| - 1], u, desired, hash)
  {
    hide EndpointsDiffer;
    var s1 := Updated(s, u, desired[u], hash(u));
    var s2 := Retired(s1, u);
    assert UpdateStep(s1, s2, u, desired, hash);
    if NeedsUpdate(s.objects[hash(u)], u, desired[u]) {
      assert UpdateStep(s, s1, u, desired, hash);
      TwoCalls(s, s1, s2, u, desired, hash);
      run := ThenFinish([s, s1, s2], desired, hash, u);
    } else {
      assert UpdateStep(s, Retired(s, u), u, desired, hash);
      OneCall(s, Retired(s, u), u, desired, hash);
      run := ThenFinish([s, Retired(s, u)], desired, hash, u);
    }
  }

  lemma UnsureCanMiss(s: State, existing: seq<Bound>, desired: Desired, hash: Url -> Name,
                      toCreate: seq<Url>, toUpdate: seq<Url>, toDelete: seq<Bound>, u: Url) returns (run: seq<State>)
    requires Injective(hash) && NoSquatters(existing, desired, hash) && u in desired
    requires IsPlan(existing, desired, hash, toCreate, toUpdate, toDelete)
    requires Starts(s, existing, toCreate, toUpdate, toDelete) && !SureOfStatus(existing, desired, hash, u)
    ensures Completes(run, s, desired, hash) && !HasStatus(run[|run| - 1], u, desired, hash)
  {
    hide NoSquatters, IsRun, EndpointsDiffer, Injective, WillBeFilled, Filled, HasStatus, Ready;
    StartsReady(s, existing, desired, hash, toCreate, toUpdate, toDelete);
    PlanIsOnTrack(s, existing, desired, hash, toCreate, toUpdate, toDelete);
    assert Covered(s, u, desired, hash) && Delete(hash(u)) !in s.pending;
    if u in toUpdate {
      var i :| 0 <= i < |existing| && existing[i].url == u && Kept(existing, i, desired, hash);
      assert existing[i] in existing && s.objects[hash(u)] == existing[i];
      ComparisonShows(existing[i].status, hash(u), desired[u]);
      StatusShows(s, u, desired, hash);
      run := UpdateLeavesUnfilled(s, desired, hash, u);
    } else {
      NamesOfDesired(existing, desired, hash, u);
      assert hash(u) !in s.objects;
      run := CreateLeavesUnfilled(s, desired, hash, u);
    }
  }

  /** Exactly when a URL is sure to end with its status filled, however its plan runs: it has an object to be
      updated, whose status is as wanted already or differs in the number of endpoints or by a missing ID. In
      particular never when the object is still to be created. */
  lemma FilledExactly(s: State, existing: seq<Bound>, desired: Desired, hash: Url -> Name,
                      toCreate: seq<Url>, toUpdate: seq<Url>, toDelete: seq<Bound>, u: Url)
    requires Injective(hash) && NoSquatters(existing, desired, hash) && u in desired
    requires IsPlan(existing, desired, hash, toCreate, toUpdate, toDelete)
    requires Starts(s, existing, toCreate, toUpdate, toDelete)
    ensures (forall run :: Completes(run, s, desired, hash) ==> HasStatus(run[|run| - 1], u, desired, hash))
       <==> SureOfStatus(existing, desired, hash, u)
  {
    hide Injective, NoSquatters, IsPlan, Starts, HasStatus, SureOfStatus;
    if SureOfStatus(existing, desired, hash, u) {
      forall run | Completes(run, s, desired, hash)
        ensures HasStatus(run[|run| - 1], u, desired, hash)
      {
        SureIsFilled(run, s, existing, desired, hash, toCreate, toUpdate, toDelete, u);
      }
    } else {
      var run := UnsureCanMiss(s, existing, desired, hash, toCreate, toUpdate, toDelete, u);
    }
  }
}
