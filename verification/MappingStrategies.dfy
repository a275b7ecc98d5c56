/** Which virtual hosts collapse, and into which of their services. */
module MappingStrategies {
  import opened Options
  import opened IR
  import opened ServiceKeys
  import opened Translator

  /** A virtual host as the translator holds it: only the collapse choice is written. */
  class HostRecord {
    const host: VirtualHost
    var collapseInto: Option<ServiceKey>

    constructor (host: VirtualHost)
      ensures this.host == host && collapseInto == None
    {
      this.host := host;
      collapseInto := None;
    }
  }

  function Keys(services: seq<Service>): seq<ServiceKey> {
    seq(|services|, i requires 0 <= i < |services| => Key(services[i]))
  }

  /** The services the host routes to, in the order the compiler meets them, the default one last. */
  function Services(host: VirtualHost): seq<Service> {
    RouteUpstreams(host.routes) + DefaultUpstreams(host.defaultDestination)
  }

  predicate Uses(host: VirtualHost, k: ServiceKey) {
    k in Keys(Services(host))
  }

  ghost predicate Distinct(records: seq<HostRecord>) {
    forall i, j | 0 <= i < j < |records| :: records[i] != records[j]
  }

  /** The service is used by one host only, and that host wants to collapse. */
  ghost predicate Collapsable(records: seq<HostRecord>, k: ServiceKey) {
    exists r <- records ::
      && r.host.strategy == EndpointsCollapsed && Uses(r.host, k)
      && forall other <- records :: Uses(other.host, k) ==> other == r
  }

  /** The last collapsable service of the list, in list order. */
  function LastIn(keys: seq<ServiceKey>, collapsable: set<ServiceKey>): Option<ServiceKey> {
    if keys == [] then None
    else if keys[|keys| - 1] in collapsable then Some(keys[|keys| - 1])
    else LastIn(keys[..|keys| - 1], collapsable)
  }

  predicate DefaultCollapses(host: VirtualHost, collapsable: set<ServiceKey>) {
    && host.strategy == EndpointsCollapsed
    && exists k <- Keys(DefaultUpstreams(host.defaultDestination)) :: k in collapsable
  }

  function Choice(host: VirtualHost, collapsable: set<ServiceKey>): Option<ServiceKey> {
    if host.strategy != EndpointsCollapsed then None else LastIn(Keys(Services(host)), collapsable)
  }

  /** Where the scan over the hosts ends: right after the first host whose default service collapses. */
  ghost predicate ScanEnds(records: seq<HostRecord>, collapsable: set<ServiceKey>, n: nat) {
    && n <= |records|
    && (forall i | 0 <= i < n - 1 :: !DefaultCollapses(records[i].host, collapsable))
    && (n < |records| ==> 0 < n && DefaultCollapses(records[n - 1].host, collapsable))
  }

  /** The whole effect of the scan: hosts before its end got their choice, the others none. */
  ghost predicate Scanned(records: seq<HostRecord>, collapsable: set<ServiceKey>, n: nat)
    reads records
  {
    && (forall k :: k in collapsable <==> Collapsable(records, k))
    && ScanEnds(records, collapsable, n)
    && forall i | 0 <= i < |records| ::
         records[i].collapseInto == if i < n then Choice(records[i].host, collapsable) else None
  }

  lemma {:induction false} LastInIsMember(keys: seq<ServiceKey>, collapsable: set<ServiceKey>)
    ensures var k := LastIn(keys, collapsable); k.Some? ==> k.value in keys && k.value in collapsable
    ensures LastIn(keys, collapsable).None? ==> forall k <- keys :: k !in collapsable
  {
    if keys != [] {
      LastInIsMember(keys[..|keys| - 1], collapsable);
      assert keys == keys[..|keys| - 1] + [keys[|keys| - 1]];
    }
  }

  lemma LastInSnoc(keys: seq<ServiceKey>, k: ServiceKey, collapsable: set<ServiceKey>)
    ensures LastIn(keys + [k], collapsable) == if k in collapsable then Some(k) else LastIn(keys, collapsable)
  {
    assert (keys + [k])[..|keys|] == keys;
  }

  function UsersOf(users: map<ServiceKey, set<HostRecord>>, k: ServiceKey): set<HostRecord> {
    if k in users then users[k] else {}
  }

  /** First pass: who uses each service. */
  method HostsByService(records: seq<HostRecord>) returns (users: map<ServiceKey, set<HostRecord>>)
    ensures forall k, r :: r in UsersOf(users, k) <==> r in records && Uses(r.host, k)
    ensures forall k <- users :: users[k] != {}
  {
    users := map[];
    for i := 0 to |records|
      invariant forall k, r :: r in UsersOf(users, k) <==> r in records[..i] && Uses(r.host, k)
      invariant forall k <- users :: users[k] != {}
    {
      users := AddHost(users, records[i]);
      assert forall r :: r in records[..i + 1] <==> r in records[..i] || r == records[i];
    }
  }

  method AddHost(before: map<ServiceKey, set<HostRecord>>, record: HostRecord)
    returns (users: map<ServiceKey, set<HostRecord>>)
    requires forall k <- before :: before[k] != {}
    ensures forall k, r :: r in UsersOf(users, k) <==> r in UsersOf(before, k) || (r == record && Uses(record.host, k))
    ensures forall k <- users :: users[k] != {}
  {
    users := before;
    var keys := Keys(Services(record.host));
    for j := 0 to |keys|
      invariant forall k, r :: r in UsersOf(users, k) <==> r in UsersOf(before, k) || (r == record && k in keys[..j])
      invariant forall k <- users :: users[k] != {}
    {
      users := users[keys[j] := UsersOf(users, keys[j]) + {record}];
    }
  }

  /** Second pass: the services that may become public listeners. */
  method CollapsableServices(records: seq<HostRecord>) returns (collapsable: set<ServiceKey>)
    ensures forall k :: k in collapsable <==> Collapsable(records, k)
  {
    var users := HostsByService(records);
    collapsable := {};
    var pending := users.Keys;
    while pending != {}
      invariant pending <= users.Keys
      invariant forall k :: k in collapsable <==> k in users && k !in pending && Collapsable(records, k)
      decreases pending
    {
      var k :| k in pending;
      pending := pending - {k};
      var only: HostRecord :| only in users[k];
      if users[k] == {only} && only.host.strategy == EndpointsCollapsed {
        collapsable := collapsable + {k};
      }
      assert UsersOf(users, k) == users[k];
      OnlyUser(records, k, users[k], only);
    }
    forall k | Collapsable(records, k)
      ensures k in users
    {
      var r :| r in records && Uses(r.host, k);
      assert r in UsersOf(users, k);
    }
  }

  lemma OnlyUser(records: seq<HostRecord>, k: ServiceKey, users: set<HostRecord>, only: HostRecord)
    requires forall r :: r in users <==> r in records && Uses(r.host, k)
    requires only in users
    ensures Collapsable(records, k) <==> users == {only} && only.host.strategy == EndpointsCollapsed
  {
  }

  /** Decides for every host whether, and into which service, it collapses. */
  method ValidateMappingStrategies(records: seq<HostRecord>)
    requires Distinct(records)
    requires forall r <- records :: r.collapseInto == None
    modifies records
    ensures exists collapsable: set<ServiceKey>, n: nat :: Scanned(records, collapsable, n)
  {
    hide Choice, DefaultCollapses, Collapsable;
    var collapsable := CollapsableServices(records);
    for i := 0 to |records|
      invariant forall j | 0 <= j < i :: !DefaultCollapses(records[j].host, collapsable)
      invariant forall j | 0 <= j < |records| ::
        records[j].collapseInto == if j < i then Choice(records[j].host, collapsable) else None
    {
      var stop := ChooseFor(records[i], collapsable);
      if stop {
        assert Scanned(records, collapsable, i + 1);
        return;
      }
    }
    assert Scanned(records, collapsable, |records|);
  }

  /** One host of the scan: a later collapsable service overrides an earlier one, and the default service
      overrides them all and ends the scan. */
  method ChooseFor(record: HostRecord, collapsable: set<ServiceKey>) returns (stop: bool)
    requires record.collapseInto == None
    modifies record
    ensures record.collapseInto == Choice(record.host, collapsable)
    ensures stop == DefaultCollapses(record.host, collapsable)
  {
    stop := false;
    if record.host.strategy != EndpointsCollapsed {
      return;
    }
    var onRoutes := Keys(RouteUpstreams(record.host.routes));
    var onDefault := Keys(DefaultUpstreams(record.host.defaultDestination));
    assert Keys(Services(record.host)) == onRoutes + onDefault;
    if |onRoutes| + |onDefault| == 0 {
      return;
    }
    for j := 0 to |onRoutes|
      invariant record.collapseInto == LastIn(onRoutes[..j], collapsable)
    {
      assert onRoutes[..j + 1] == onRoutes[..j] + [onRoutes[j]];
      LastInSnoc(onRoutes[..j], onRoutes[j], collapsable);
      if onRoutes[j] in collapsable {
        record.collapseInto := Some(onRoutes[j]);
      }
    }
    assert onRoutes[..|onRoutes|] == onRoutes;
    if |onDefault| > 0 {
      assert onDefault == [onDefault[0]];
      LastInSnoc(onRoutes, onDefault[0], collapsable);
      if onDefault[0] in collapsable {
        record.collapseInto := Some(onDefault[0]);
        return true;
      }
    } else {
      assert onRoutes + onDefault == onRoutes;
    }
  }

  /** Collapse safety: a chosen service is routed to by the host that chose it, and by no other host. */
  ghost predicate SafeChoices(records: seq<HostRecord>)
    reads records
  {
    forall r <- records :: r.collapseInto.Some? ==>
      && Uses(r.host, r.collapseInto.value)
      && forall other <- records :: Uses(other.host, r.collapseInto.value) ==> other == r
  }

  lemma ChoicesAreSafe(records: seq<HostRecord>, collapsable: set<ServiceKey>, n: nat)
    requires Scanned(records, collapsable, n)
    ensures SafeChoices(records)
  {
    forall r | r in records && r.collapseInto.Some?
      ensures Uses(r.host, r.collapseInto.value)
      ensures forall other <- records :: Uses(other.host, r.collapseInto.value) ==> other == r
    {
      LastInIsMember(Keys(Services(r.host)), collapsable);
      assert Collapsable(records, r.collapseInto.value);
    }
  }

  /** Exactly when a host that wants to collapse stays verbose: it shares every service it routes to, or an
      earlier host's default service collapses, which ends the scan. */
  lemma StaysVerboseExactly(records: seq<HostRecord>, collapsable: set<ServiceKey>, n: nat, j: nat)
    requires Scanned(records, collapsable, n)
    requires j < |records| && records[j].host.strategy == EndpointsCollapsed
    ensures records[j].collapseInto.None?
       <==> || (forall k :: Uses(records[j].host, k) ==> !Collapsable(records, k))
            || exists i | 0 <= i < j :: DefaultCollapses(records[i].host, collapsable)
  {
    hide DefaultCollapses, Collapsable;
    LastInIsMember(Keys(Services(records[j].host)), collapsable);
    if n <= j {
      assert DefaultCollapses(records[n - 1].host, collapsable);
    }
  }

  lemma {:induction false} LastInIsLast(keys: seq<ServiceKey>, collapsable: set<ServiceKey>) returns (t: nat)
    requires LastIn(keys, collapsable).Some?
    ensures t < |keys| && LastIn(keys, collapsable) == Some(keys[t]) && keys[t] in collapsable
    ensures forall u | t < u < |keys| :: keys[u] !in collapsable
  {
    var n := |keys| - 1;
    if keys[n] in collapsable {
      t := n;
    } else {
      t := LastInIsLast(keys[..n], collapsable);
    }
  }

  /** The key is that of the last of the services that may collapse. */
  ghost predicate LastToCollapse(records: seq<HostRecord>, services: seq<Service>, k: ServiceKey) {
    exists t | 0 <= t < |services| ::
      && Key(services[t]) == k && Collapsable(records, k)
      && forall u | t < u < |services| :: !Collapsable(records, Key(services[u]))
  }

  /** Which service a host collapses into: its default service if that may collapse, and otherwise the last one on its
      routes that may. */
  lemma ChosenExactly(records: seq<HostRecord>, collapsable: set<ServiceKey>, n: nat, i: nat)
    requires Scanned(records, collapsable, n) && i < |records| && records[i].collapseInto.Some?
    ensures var host, k := records[i].host, records[i].collapseInto.value;
            var byDefault := host.defaultDestination.Some? && host.defaultDestination.value.upstream.Some?
                             && Collapsable(records, Key(host.defaultDestination.value.upstream.value));
            if byDefault then k == Key(host.defaultDestination.value.upstream.value)
            else LastToCollapse(records, RouteUpstreams(host.routes), k)
  {
    hide Collapsable, RouteUpstreams;
    var host := records[i].host;
    var keys, onRoutes := Keys(Services(host)), Keys(RouteUpstreams(host.routes));
    assert keys == onRoutes + Keys(DefaultUpstreams(host.defaultDestination));
    var t := LastInIsLast(keys, collapsable);
    if host.defaultDestination.Some? && host.defaultDestination.value.upstream.Some? {
      var s := host.defaultDestination.value.upstream.value;
      assert keys == onRoutes + [Key(s)] && keys[|onRoutes|] == Key(s);
      if Key(s) !in collapsable {
        assert t < |onRoutes|;
      }
    } else {
      assert keys == onRoutes;
    }
    if t < |onRoutes| {
      var services := RouteUpstreams(host.routes);
      assert Key(services[t]) == keys[t];
      forall u | t < u < |services|
        ensures !Collapsable(records, Key(services[u]))
      {
        assert keys[u] == Key(services[u]);
      }
      assert Key(services[t]) == records[i].collapseInto.value && Collapsable(records, Key(services[t]));
      assert LastToCollapse(records, services, records[i].collapseInto.value);
    }
  }

  function To(s: Service): Destination {
    Destination(None, Some(s), [])
  }

  lemma OneService(host: VirtualHost, s: Service, k: ServiceKey)
    requires (host.routes == [] && host.defaultDestination == Some(To(s)))
          || (host.routes == [Route(None, [], [To(s)])] && host.defaultDestination == None)
    ensures Services(host) == [s] && (Uses(host, k) <==> k == Key(s))
  {
    if host.routes != [] {
      assert host.routes[1..] == [] && [To(s)][1..] == [];
      assert Upstreams([To(s)]) == [s] && RouteUpstreams(host.routes) == [s];
    }
    assert Services(host) == [s] && Keys([s]) == [Key(s)];
  }

  /** Two hosts, each with a service of its own, that both want to collapse: the first one's is its default
      service, so the second host stays verbose although its service may collapse. */
  lemma EarlyEndSkipsHosts(a: HostRecord, b: HostRecord, s: Service, t: Service, collapsable: set<ServiceKey>, n: nat)
    requires a != b && Key(s) != Key(t) && Scanned([a, b], collapsable, n)
    requires a.host.strategy == EndpointsCollapsed && b.host.strategy == EndpointsCollapsed
    requires a.host.policy.Some? && a.host.routes == [] && a.host.defaultDestination == Some(To(s))
    requires b.host.routes == [Route(None, [], [To(t)])] && b.host.defaultDestination == None
    ensures a.collapseInto == Some(Key(s))
    ensures Uses(b.host, Key(t)) && Collapsable([a, b], Key(t)) && b.collapseInto.None?
  {
    hide Uses, Scanned, DefaultCollapses, Services;
    var records := [a, b];
    OneService(a.host, s, Key(s));
    OneService(a.host, s, Key(t));
    OneService(b.host, t, Key(s));
    OneService(b.host, t, Key(t));
    assert a in records && b in records;
    assert Collapsable(records, Key(s)) && Collapsable(records, Key(t));
    assert DefaultCollapses(records[0].host, collapsable) by {
      DefaultServiceCollapses(records, collapsable, n, s);
    }
    StaysVerboseExactly(records, collapsable, n, 1);
    ChoiceOfOne(records, collapsable, n, s);
  }

  lemma DefaultServiceCollapses(records: seq<HostRecord>, collapsable: set<ServiceKey>, n: nat, s: Service)
    requires |records| > 0 && Scanned(records, collapsable, n) && Collapsable(records, Key(s))
    requires records[0].host.strategy == EndpointsCollapsed && records[0].host.defaultDestination == Some(To(s))
    ensures DefaultCollapses(records[0].host, collapsable)
  {
    assert Keys(DefaultUpstreams(records[0].host.defaultDestination)) == [Key(s)];
    assert Key(s) in [Key(s)];
  }

  lemma ChoiceOfOne(records: seq<HostRecord>, collapsable: set<ServiceKey>, n: nat, s: Service)
    requires |records| > 0 && Scanned(records, collapsable, n) && Collapsable(records, Key(s))
    requires records[0].host.strategy == EndpointsCollapsed && Services(records[0].host) == [s]
    ensures records[0].collapseInto == Some(Key(s))
  {
    assert Keys([s]) == [Key(s)];
    assert n > 0;
  }
}
