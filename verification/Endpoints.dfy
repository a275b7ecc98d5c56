/** From virtual hosts to endpoints: every host gets one public listener, and rules forward to internal
    endpoints only. */
module Endpoints {
  import opened Options
  import opened Urls
  import opened TrafficPolicy
  import opened IR
  import opened ServiceKeys
  import opened Routing
  import opened Translator
  import opened MappingStrategies
  import opened UserPolicies
  import opened Compiler
  import opened Collapse

  datatype CloudEndpoint = CloudEndpoint(url: Url, policy: Policy)

  datatype Name = Name(namespace: string, name: string)

  /** A host with neither a policy nor routes generates nothing. */
  predicate Generates(host: VirtualHost) {
    (host.policy.Some? || host.routes != []) && host.listener.protocol != Unsupported
  }

  function BasePolicy(host: VirtualHost): Policy {
    if host.policy.Some? then host.policy.value else []
  }

  /** The whole request-phase policy of an HTTP(S) listener; connection-phase rules are not modelled. */
  function ListenerPolicy(host: VirtualHost, collapse: Option<ServiceKey>, urls: UrlTable): Policy {
    if IsHttp(host.listener.protocol) then BasePolicy(host) + Compiled(host, collapse, urls) else BasePolicy(host)
  }

  // ----- what one host adds to the cache

  /** An internal URL carries what tells its service from the others. */
  predicate NamesService(url: Url, k: ServiceKey) {
    url.Internal? ==>
      && url.uid == k.uid && url.namespace == k.namespace && url.service == k.name
      && url.port == k.port && url.certs == k.certs
  }

  lemma {:induction false} CachedAllNew(entries: Entries, host: VirtualHost, collapse: Option<ServiceKey>,
                                        services: seq<Service>)
    ensures forall k <- entries :: k in CachedAll(entries, host, collapse, services)
    ensures var after := CachedAll(entries, host, collapse, services);
            forall k <- after ::
              if k in entries then after[k] == entries[k]
              else
                && k in Keys(services) && after[k].policy == None
                && Key(after[k].upstream) == k && NamesService(after[k].url, k)
                && if collapse == Some(k) then after[k].url == PublicUrl(host) else after[k].url.Internal?
    decreases |services|
  {
    if services != [] {
      CachedAllNew(Cached(entries, host, collapse, services[0]), host, collapse, services[1..]);
      assert Keys(services) == [Key(services[0])] + Keys(services[1..]);
    }
  }

  method CacheServices(host: VirtualHost, collapse: Option<ServiceKey>, services: seq<Service>, cache: EndpointCache)
    modifies cache
    ensures cache.entries == CachedAll(old(cache.entries), host, collapse, services)
  {
    for i := 0 to |services|
      invariant CachedAll(cache.entries, host, collapse, services[i..])
             == CachedAll(old(cache.entries), host, collapse, services)
    {
      var _ := cache.Ensure(host, collapse, services[i]);
      assert services[i..][1..] == services[i + 1..];
    }
  }

  lemma ServicesCached(host: VirtualHost, collapse: Option<ServiceKey>, start: Entries)
    requires host.listener.protocol != Unsupported
    ensures var mid := CachedAll(start, host, collapse, RouteUpstreams(host.routes));
            var after := CachedAll(mid, host, collapse, DefaultUpstreams(host.defaultDestination));
            && after == CachedAll(start, host, collapse, Services(host))
            && Grows(UrlsOf(start), UrlsOf(after)) && AllCached(Services(host), after)
            && RoutingRules(host.routes, collapse, UrlsOf(mid)) == RoutingRules(host.routes, collapse, UrlsOf(after))
  {
    hide AllRouteRules;
    var mid := CachedAll(start, host, collapse, RouteUpstreams(host.routes));
    var after := CachedAll(mid, host, collapse, DefaultUpstreams(host.defaultDestination));
    CachedAllSplit(start, host, collapse, RouteUpstreams(host.routes), DefaultUpstreams(host.defaultDestination));
    CachedAllGrows(start, host, collapse, RouteUpstreams(host.routes));
    CachedAllGrows(mid, host, collapse, DefaultUpstreams(host.defaultDestination));
    CachedAllGrows(start, host, collapse, Services(host));
    RoutesStable(host.routes, NeedsCapture(host.routes), collapse, mid, after);
  }

  /** The rules of a host for which every service is cached stay the same while the cache grows. */
  lemma CompiledStable(host: VirtualHost, collapse: Option<ServiceKey>, before: Entries, after: Entries)
    requires AllCached(Services(host), before) && Grows(UrlsOf(before), UrlsOf(after))
    ensures Compiled(host, collapse, UrlsOf(before)) == Compiled(host, collapse, UrlsOf(after))
  {
    hide AllRouteRules;
    assert forall s <- RouteUpstreams(host.routes) :: s in Services(host);
    RoutesStable(host.routes, NeedsCapture(host.routes), collapse, before, after);
    assert forall s <- DefaultUpstreams(host.defaultDestination) :: s in Services(host) && Key(s) in UrlsOf(before);
    assert DefaultServiceRules(host.defaultDestination, collapse, UrlsOf(before))
        == DefaultServiceRules(host.defaultDestination, collapse, UrlsOf(after)) by {
      if host.defaultDestination.Some? && host.defaultDestination.value.upstream.Some? {
        assert host.defaultDestination.value.upstream.value in DefaultUpstreams(host.defaultDestination);
      }
    }
  }

  // ----- one host

  /** The policy for the host's listener, and the cache with the host's services. */
  method BuildListenerPolicy(host: VirtualHost, collapse: Option<ServiceKey>, cache: EndpointCache)
    returns (policy: Policy)
    requires Generates(host)
    modifies cache
    ensures cache.entries == CachedAll(old(cache.entries), host, collapse, Services(host))
    ensures policy == ListenerPolicy(host, collapse, UrlsOf(cache.entries))
  {
    hide RoutingRules, DefaultPolicyRules, DefaultServiceRules;
    policy := BasePolicy(host);
    ServicesCached(host, collapse, cache.entries);
    if IsHttp(host.listener.protocol) {
      var routing := BuildRoutingPolicy(host, collapse, cache);
      var otherwise, failed := BuildDefaultDestinationPolicy(host, collapse, cache);
      assert !failed by {
        assert forall s <- DefaultUpstreams(host.defaultDestination) :: s in Services(host);
      }
      var notFound := NotFoundRule(None);
      if collapse.Some? {
        notFound := notFound.(exprs := LOCALLY);
      }
      policy := policy + (routing + otherwise + [notFound]);
    } else {
      CacheServices(host, collapse, Services(host), cache);
    }
  }

  /** The host's public listener exists, under the public URL and with the host's policy. */
  ghost predicate Listens(host: VirtualHost, collapse: Option<ServiceKey>, clouds: map<Name, CloudEndpoint>,
                          entries: Entries, name: VirtualHost -> Name)
  {
    var policy := ListenerPolicy(host, collapse, UrlsOf(entries));
    var url := Public(host.listener.protocol, host.listener.hostname, host.listener.port);
    match collapse
    case Some(k) =>
      k in entries && entries[k].url == url
      && entries[k].policy == if policy == [] then None else Some(policy)
    case None => name(host) in clouds && clouds[name(host)] == CloudEndpoint(url, policy)
  }

  ghost predicate SameUpstreams(a: Entries, b: Entries) {
    forall k <- a :: k in b ==> a[k].upstream == b[k].upstream
  }

  method TranslateHost(host: VirtualHost, collapse: Option<ServiceKey>, before: map<Name, CloudEndpoint>,
                       cache: EndpointCache, name: VirtualHost -> Name) returns (clouds: map<Name, CloudEndpoint>)
    requires collapse.Some? ==> Uses(host, collapse.value) && collapse.value !in cache.entries
    requires Generates(host)
    modifies cache
    ensures UrlsOf(cache.entries) == UrlsOf(CachedAll(old(cache.entries), host, collapse, Services(host)))
    ensures forall k <- old(cache.entries) :: k in cache.entries && cache.entries[k] == old(cache.entries)[k]
    ensures SameUpstreams(cache.entries, CachedAll(old(cache.entries), host, collapse, Services(host)))
    ensures collapse.Some? ==> clouds == before
    ensures collapse.None? ==> name(host) in clouds && clouds == before[name(host) := clouds[name(host)]]
    ensures Listens(host, collapse, clouds, cache.entries, name)
  {
    hide ListenerPolicy, CachedAll;
    clouds := before;
    ghost var start := cache.entries;
    var policy := BuildListenerPolicy(host, collapse, cache);
    ghost var full := cache.entries;
    CachedAllNew(start, host, collapse, Services(host));
    ServicesCached(host, collapse, start);
    if collapse.Some? {
      var k := collapse.value;
      assert k in cache.entries;
      if policy != [] {
        cache.entries := cache.entries[k := cache.entries[k].(policy := Some(policy))];
      }
      assert UrlsOf(cache.entries) == UrlsOf(full);
    } else {
      clouds := clouds[name(host) := CloudEndpoint(PublicUrl(host), policy)];
    }
  }

  // ----- all hosts

  /** The name of a host's cloud endpoint: from its prefix and its hostname, whatever its port and protocol. */
  function CloudName(host: VirtualHost, sanitize: string -> string): Name {
    var prefix := if host.namePrefix.Some? then host.namePrefix.value + "-" else "";
    Name(host.namespace, sanitize(prefix + host.listener.hostname))
  }

  /** Prefixes keep the names of Gateways with the same hostname apart, as far as sanitising does. */
  lemma PrefixesTellNames(a: VirtualHost, b: VirtualHost, sanitize: string -> string)
    requires forall s, t :: sanitize(s) == sanitize(t) ==> s == t
    requires a.namePrefix.Some? && b.namePrefix.Some? && a.listener.hostname == b.listener.hostname
    ensures CloudName(a, sanitize) == CloudName(b, sanitize)
       <==> a.namespace == b.namespace && a.namePrefix == b.namePrefix
  {
    var p, q, h := a.namePrefix.value, b.namePrefix.value, a.listener.hostname;
    if p + "-" + h == q + "-" + h {
      assert |p| == |q|;
      assert p == (p + "-" + h)[..|p|] && q == (q + "-" + h)[..|q|];
    }
  }

  /** A later host writes its cloud endpoint under the same name. */
  ghost predicate Overwritten(records: seq<HostRecord>, i: nat, name: VirtualHost -> Name)
    requires i < |records|
    reads records
  {
    && records[i].collapseInto.None?
    && exists j | i < j < |records| :: Verbose(records[j]) && name(records[j].host) == name(records[i].host)
  }

  ghost predicate Verbose(record: HostRecord)
    reads record
  {
    Generates(record.host) && record.collapseInto.None?
  }

  /** What holds of the cache once the given hosts are translated. */
  ghost predicate CacheOk(done: seq<HostRecord>, entries: Entries)
    reads done
  {
    && (forall k <- entries :: exists r <- done :: Generates(r.host) && Uses(r.host, k))
    && (forall k <- entries :: entries[k].url.Public? ==> exists r <- done :: r.collapseInto == Some(k))
    && (forall k <- entries :: Key(entries[k].upstream) == k && NamesService(entries[k].url, k))
    && (forall r <- done :: Generates(r.host) ==> AllCached(Services(r.host), entries))
  }

  ghost predicate ListenersOk(done: seq<HostRecord>, clouds: map<Name, CloudEndpoint>, entries: Entries,
                              name: VirtualHost -> Name)
    reads done
  {
    && (forall i | 0 <= i < |done| && Generates(done[i].host) && !Overwritten(done, i, name) ::
          Listens(done[i].host, done[i].collapseInto, clouds, entries, name))
    && (forall n <- clouds :: exists r <- done :: Verbose(r) && n == name(r.host))
  }

  /** A service that only one host uses is not cached before that host is translated. */
  lemma ChosenIsNew(records: seq<HostRecord>, i: nat, entries: Entries)
    requires i < |records| && Distinct(records) && SafeChoices(records)
    requires CacheOk(records[..i], entries)
    requires records[i].collapseInto.Some?
    ensures Uses(records[i].host, records[i].collapseInto.value)
    ensures records[i].collapseInto.value !in entries
  {
    var record := records[i];
    assert record in records;
    forall r <- records[..i]
      ensures !Uses(r.host, record.collapseInto.value)
    {
      assert r in records && r != record;
    }
  }

  lemma SameUrls(a: Entries, b: Entries)
    requires UrlsOf(a) == UrlsOf(b)
    ensures a.Keys == b.Keys
    ensures forall k <- a :: a[k].url == b[k].url
  {
    assert a.Keys == UrlsOf(a).Keys && b.Keys == UrlsOf(b).Keys;
    assert forall k <- a :: UrlsOf(a)[k] == a[k].url;
  }

  lemma CacheStep(done: seq<HostRecord>, record: HostRecord, before: Entries, after: Entries)
    requires CacheOk(done, before) && Generates(record.host)
    requires UrlsOf(after) == UrlsOf(CachedAll(before, record.host, record.collapseInto, Services(record.host)))
    requires SameUpstreams(after, CachedAll(before, record.host, record.collapseInto, Services(record.host)))
    ensures CacheOk(done + [record], after)
    ensures Grows(UrlsOf(before), UrlsOf(after))
  {
    hide CachedAll, Uses, Generates, UrlsOf, Services;
    var host, collapse, all := record.host, record.collapseInto, done + [record];
    var full := CachedAll(before, host, collapse, Services(host));
    CachedAllNew(before, host, collapse, Services(host));
    assert host.listener.protocol != Unsupported by {
      GeneratesSupported(host);
    }
    CachedAllGrows(before, host, collapse, Services(host));
    SameUrls(after, full);
    assert record in all && forall r <- done :: r in all;
    forall k <- after
      ensures exists r <- all :: Generates(r.host) && Uses(r.host, k)
    {
      if k !in before {
        NewIsUsed(host, k);
      }
    }
    assert forall k <- after :: after[k].url.Public? ==> exists r <- all :: r.collapseInto == Some(k);
    assert forall k <- after :: Key(after[k].upstream) == k && NamesService(after[k].url, k);
    forall r <- all | Generates(r.host)
      ensures AllCached(Services(r.host), after)
    {
      if r in done {
        assert AllCached(Services(r.host), before);
      }
    }
  }

  lemma NothingTranslated(name: VirtualHost -> Name)
    ensures CacheOk([], map[]) && ListenersOk([], map[], map[], name)
  {
  }

  lemma CacheSkip(done: seq<HostRecord>, record: HostRecord, entries: Entries)
    requires CacheOk(done, entries) && !Generates(record.host)
    ensures CacheOk(done + [record], entries)
  {
    hide Generates, Uses, AllCached;
    assert forall r <- done :: r in done + [record];
  }

  lemma GeneratesSupported(host: VirtualHost)
    requires Generates(host)
    ensures host.listener.protocol != Unsupported
  {
  }

  lemma NewIsUsed(host: VirtualHost, k: ServiceKey)
    requires k in Keys(Services(host))
    ensures Uses(host, k)
  {
  }

  /** A listener already in place is not disturbed by the hosts that follow. */
  lemma ListensStable(host: VirtualHost, collapse: Option<ServiceKey>, name: VirtualHost -> Name,
                      clouds: map<Name, CloudEndpoint>, before: Entries,
                      clouds': map<Name, CloudEndpoint>, after: Entries)
    requires Listens(host, collapse, clouds, before, name)
    requires AllCached(Services(host), before) && Grows(UrlsOf(before), UrlsOf(after))
    requires forall k <- before :: k in after && after[k] == before[k]
    requires collapse.None? ==> name(host) in clouds' && clouds'[name(host)] == clouds[name(host)]
    ensures Listens(host, collapse, clouds', after, name)
  {
    hide Compiled;
    CompiledStable(host, collapse, before, after);
  }

  /** One more host takes listeners away only by its name. */
  lemma OverwrittenStep(done: seq<HostRecord>, record: HostRecord, i: nat, name: VirtualHost -> Name)
    requires i < |done|
    ensures Overwritten(done + [record], i, name)
       <==> || Overwritten(done, i, name)
            || (done[i].collapseInto.None? && Verbose(record) && name(record.host) == name(done[i].host))
  {
    var all := done + [record];
    assert all[|done|] == record && all[i] == done[i];
    if Overwritten(done, i, name) {
      var j :| i < j < |done| && Verbose(done[j]) && name(done[j].host) == name(done[i].host);
      assert all[j] == done[j];
    }
  }

  lemma ListenersStep(done: seq<HostRecord>, record: HostRecord, name: VirtualHost -> Name,
                      clouds: map<Name, CloudEndpoint>, before: Entries,
                      clouds': map<Name, CloudEndpoint>, after: Entries)
    requires CacheOk(done, before) && ListenersOk(done, clouds, before, name)
    requires Generates(record.host) && Listens(record.host, record.collapseInto, clouds', after, name)
    requires Grows(UrlsOf(before), UrlsOf(after))
    requires forall k <- before :: k in after && after[k] == before[k]
    requires record.collapseInto.Some? ==> clouds' == clouds
    requires record.collapseInto.None? ==>
               name(record.host) in clouds' && clouds' == clouds[name(record.host) := clouds'[name(record.host)]]
    ensures ListenersOk(done + [record], clouds', after, name)
  {
    hide Listens, AllCached, Generates, Grows, Overwritten;
    var all := done + [record];
    assert record in all && forall r <- done :: r in all;
    forall i | 0 <= i < |all| && Generates(all[i].host) && !Overwritten(all, i, name)
      ensures Listens(all[i].host, all[i].collapseInto, clouds', after, name)
    {
      if i < |done| {
        var r := done[i];
        assert all[i] == r && r in done;
        OverwrittenStep(done, record, i, name);
        if r.collapseInto.None? {
          ListensByName(r.host, clouds, before, name);
        }
        ListensStable(r.host, r.collapseInto, name, clouds, before, clouds', after);
      }
    }
  }

  /** A host that generates nothing changes nothing. */
  lemma ListenersSkip(done: seq<HostRecord>, record: HostRecord, name: VirtualHost -> Name,
                      clouds: map<Name, CloudEndpoint>, entries: Entries)
    requires ListenersOk(done, clouds, entries, name) && !Generates(record.host)
    ensures ListenersOk(done + [record], clouds, entries, name)
  {
    hide Listens, Generates, Overwritten;
    var all := done + [record];
    assert forall r <- done :: r in all;
    forall i | 0 <= i < |all| && Generates(all[i].host) && !Overwritten(all, i, name)
      ensures Listens(all[i].host, all[i].collapseInto, clouds, entries, name)
    {
      assert i < |done| && all[i] == done[i];
      OverwrittenStep(done, record, i, name);
    }
  }

  lemma ListensByName(host: VirtualHost, clouds: map<Name, CloudEndpoint>, entries: Entries, name: VirtualHost -> Name)
    requires Listens(host, None, clouds, entries, name)
    ensures name(host) in clouds
  {
  }

  /** The translation of all hosts: every host that generates anything ends with its public listener, unless a
      later host overwrites its cloud endpoint, and the cache of agent endpoints is consistent with the collapse
      choices. */
  method IRToEndpoints(records: seq<HostRecord>, name: VirtualHost -> Name)
    returns (clouds: map<Name, CloudEndpoint>, entries: Entries)
    requires Distinct(records)
    requires forall r <- records :: r.collapseInto == None
    modifies records
    ensures exists collapsable: set<ServiceKey>, n: nat :: Scanned(records, collapsable, n)
    ensures SafeChoices(records)
    ensures CacheOk(records, entries) && UrlsTellServices(entries)
    ensures ListenersOk(records, clouds, entries, name)
    ensures forall i | 0 <= i < |records| && Nonempty(records[i].host) && !Overwritten(records, i, name) ::
              Listens(records[i].host, records[i].collapseInto, clouds, entries, name)
    ensures (forall n <- clouds :: exists r <- records :: Nonempty(r.host) && n == name(r.host))
         && (forall k <- entries :: exists r <- records :: Nonempty(r.host) && Uses(r.host, k))
  {
    ValidateMappingStrategies(records);
    ghost var collapsable: set<ServiceKey>, n: nat :| Scanned(records, collapsable, n);
    ChoicesAreSafe(records, collapsable, n);
    clouds, entries := TranslateAll(records, name);
    assert Scanned(records, collapsable, n);
    EntriesTellServices(records, entries);
    hide Listens, Overwritten, Uses, UrlsTellServices;
  }

  /** A host with a policy or routes, and one of the four protocols. */
  predicate Nonempty(host: VirtualHost) {
    && (host.policy.Some? || host.routes != [])
    && host.listener.protocol in {HTTP, HTTPS, TCP, TLS}
  }

  lemma NonemptyGenerates(host: VirtualHost)
    ensures Nonempty(host) <==> Generates(host)
  {
  }

  /** Internal URLs are different for different services; the application protocol is not in the URL. */
  ghost predicate UrlsTellServices(entries: Entries) {
    forall k <- entries, l <- entries ::
      entries[k].url.Internal? && entries[k].url == entries[l].url ==> k.(appProtocol := l.appProtocol) == l
  }

  lemma EntriesTellServices(records: seq<HostRecord>, entries: Entries)
    requires CacheOk(records, entries)
    ensures UrlsTellServices(entries)
  {
    hide Generates, Uses, AllCached, Services;
    forall k <- entries, l <- entries | entries[k].url.Internal? && entries[k].url == entries[l].url
      ensures k.(appProtocol := l.appProtocol) == l
    {
      assert NamesService(entries[k].url, k) && NamesService(entries[l].url, l);
    }
  }

  method TranslateAll(records: seq<HostRecord>, name: VirtualHost -> Name)
    returns (clouds: map<Name, CloudEndpoint>, entries: Entries)
    requires Distinct(records) && SafeChoices(records)
    ensures CacheOk(records, entries)
    ensures ListenersOk(records, clouds, entries, name)
  {
    hide Generates, Listens, UrlsOf, CachedAll, Services, CacheOk, ListenersOk, SafeChoices, Distinct;
    var cache := new EndpointCache();
    clouds := map[];
    NothingTranslated(name);
    for i := 0 to |records|
      invariant CacheOk(records[..i], cache.entries)
      invariant ListenersOk(records[..i], clouds, cache.entries, name)
    {
      var record := records[i];
      ghost var before, beforeClouds := cache.entries, clouds;
      if Generates(record.host) {
        if record.collapseInto.Some? {
          ChosenIsNew(records, i, cache.entries);
        }
        clouds := TranslateHost(record.host, record.collapseInto, clouds, cache, name);
        CacheStep(records[..i], record, before, cache.entries);
        ListenersStep(records[..i], record, name, beforeClouds, before, clouds, cache.entries);
      } else {
        CacheSkip(records[..i], record, cache.entries);
        ListenersSkip(records[..i], record, name, clouds, cache.entries);
      }
      assert records[..i + 1] == records[..i] + [record];
    }
    assert records[..|records|] == records;
    entries := cache.entries;
  }

  // ----- forwarding

  /** Every forwarding action names the endpoint of some listed service other than the local one. */
  ghost predicate ForwardsTo(rules: Policy, services: seq<Service>, collapse: Option<ServiceKey>, urls: UrlTable) {
    forall r <- rules :: forall a <- r.actions :: a.ForwardInternal? ==>
      exists s <- services :: Key(s) in urls && collapse != Some(Key(s)) && a.url == urls[Key(s)]
  }

  predicate NeverForwards(rules: Policy) {
    forall r <- rules :: forall a <- r.actions :: !a.ForwardInternal?
  }

  lemma ForwardsGuarded(rules: Policy, guards: seq<Expr>, services: seq<Service>, collapse: Option<ServiceKey>,
                        urls: UrlTable)
    requires ForwardsTo(rules, services, collapse, urls)
    ensures ForwardsTo(Guarded(rules, guards), services, collapse, urls)
  {
    forall r <- Guarded(rules, guards), a <- r.actions | a.ForwardInternal?
      ensures exists s <- services :: Key(s) in urls && collapse != Some(Key(s)) && a.url == urls[Key(s)]
    {
      var i :| 0 <= i < |rules| && r == Guarded(rules, guards)[i];
      assert rules[i] in rules && a in rules[i].actions;
    }
  }

  lemma ForwardsMerged(first: Policy, second: Policy, services: seq<Service>, collapse: Option<ServiceKey>,
                       urls: UrlTable)
    requires ForwardsTo(first, services, collapse, urls) && ForwardsTo(second, services, collapse, urls)
    ensures ForwardsTo(first + second, services, collapse, urls)
  {
    assert forall r <- first + second :: r in first || r in second;
  }

  lemma NothingForwards(services: seq<Service>, collapse: Option<ServiceKey>, urls: UrlTable)
    ensures ForwardsTo([], services, collapse, urls)
  {
  }

  lemma NeverForwardsTo(rules: Policy, services: seq<Service>, collapse: Option<ServiceKey>, urls: UrlTable)
    requires NeverForwards(rules)
    ensures ForwardsTo(rules, services, collapse, urls)
  {
  }

  lemma ServiceForwards(localName: string, name: string, s: Service, services: seq<Service>,
                        collapse: Option<ServiceKey>, urls: UrlTable)
    requires s in services
    ensures ForwardsTo(ServiceRules(localName, name, s, collapse, urls), services, collapse, urls)
  {
  }

  lemma NeverForwardsParts(first: Policy, second: Policy)
    requires NeverForwards(first + second)
    ensures NeverForwards(first) && NeverForwards(second)
  {
    assert forall r <- first :: r in first + second;
    assert forall r <- second :: r in first + second;
  }

  lemma {:induction false} DestinationsForward(ds: seq<Destination>, lower: int, many: bool, guards: seq<Expr>,
                                               services: seq<Service>, collapse: Option<ServiceKey>, urls: UrlTable)
    requires NeverForwards(DestinationRules(ds))
    requires forall s <- Upstreams(ds) :: s in services
    ensures ForwardsTo(Destinations(ds, lower, many, guards, collapse, urls), services, collapse, urls)
    decreases |ds|
  {
    hide ForwardsTo, NeverForwards, Flatten, Guarded;
    if ds == [] {
      NothingForwards(services, collapse, urls);
    } else {
      var d := ds[0];
      var weighted := if many then [WeightExpr(lower, Weight(d))] else [];
      var rules := Flatten(d.policies) + UpstreamRules(d, collapse, urls);
      var next := if many then lower + Weight(d) else lower;
      NeverForwardsParts(Flatten(d.policies), DestinationRules(ds[1..]));
      NeverForwardsTo(Flatten(d.policies), services, collapse, urls);
      if d.upstream.Some? {
        assert d.upstream.value in Upstream(d) && d.upstream.value in Upstreams(ds);
        ServiceForwards("Generated-Local-Service-Route", "Generated-Route", d.upstream.value, services, collapse, urls);
      } else {
        NothingForwards(services, collapse, urls);
      }
      assert forall s <- Upstreams(ds[1..]) :: s in Upstreams(ds);
      ForwardsMerged(Flatten(d.policies), UpstreamRules(d, collapse, urls), services, collapse, urls);
      ForwardsGuarded(rules, guards, services, collapse, urls);
      ForwardsGuarded(Guarded(rules, guards), weighted, services, collapse, urls);
      DestinationsForward(ds[1..], next, many, guards, services, collapse, urls);
      ForwardsMerged(OneDestination(d, weighted, guards, collapse, urls),
                     Destinations(ds[1..], next, many, guards, collapse, urls), services, collapse, urls);
    }
  }

  lemma {:induction false} RoutesForward(routes: seq<Route>, capture: bool, services: seq<Service>,
                                         collapse: Option<ServiceKey>, urls: UrlTable)
    requires forall route <- routes :: NeverForwards(UserRules(route))
    requires forall s <- RouteUpstreams(routes) :: s in services
    ensures ForwardsTo(AllRouteRules(routes, capture, collapse, urls), services, collapse, urls)
  {
    hide Destinations, Guards, Guarded, Flatten, DestinationRules, ForwardsTo, NeverForwards;
    NothingForwards(services, collapse, urls);
    if routes != [] {
      var route := routes[0];
      var ds, policies := route.destinations, Flatten(route.policies);
      var guards := Guards(route.criteria, capture, collapse);
      assert route in routes;
      NeverForwardsParts(policies, DestinationRules(ds));
      NeverForwardsTo(policies, services, collapse, urls);
      ForwardsGuarded(policies, guards, services, collapse, urls);
      DrawForwards(ds, guards, services, collapse, urls);
      ForwardsMerged(Guarded(policies, guards), DrawRules(ds, guards), services, collapse, urls);
      assert forall s <- Upstreams(ds) :: s in RouteUpstreams(routes);
      assert forall s <- RouteUpstreams(routes[1..]) :: s in RouteUpstreams(routes);
      DestinationsForward(ds, 0, |ds| > 1, guards, services, collapse, urls);
      ForwardsMerged(Guarded(policies, guards) + DrawRules(ds, guards),
                     Destinations(ds, 0, |ds| > 1, guards, collapse, urls), services, collapse, urls);
      RoutesForward(routes[1..], capture, services, collapse, urls);
      ForwardsMerged(RouteRules(route, capture, collapse, urls), AllRouteRules(routes[1..], capture, collapse, urls),
                     services, collapse, urls);
    }
  }

  lemma DrawForwards(ds: seq<Destination>, guards: seq<Expr>, services: seq<Service>, collapse: Option<ServiceKey>,
                     urls: UrlTable)
    ensures ForwardsTo(DrawRules(ds, guards), services, collapse, urls)
  {
  }

  lemma CompiledForwards(host: VirtualHost, collapse: Option<ServiceKey>, urls: UrlTable)
    requires forall route <- host.routes :: NeverForwards(UserRules(route))
    requires NeverForwards(DefaultPolicyRules(host.defaultDestination))
    ensures ForwardsTo(Compiled(host, collapse, urls), Services(host), collapse, urls)
  {
    hide AllRouteRules, Guarded, ForwardsTo, NeverForwards, DefaultPolicyRules;
    var d, services := host.defaultDestination, Services(host);
    var routes := AllRouteRules(host.routes, NeedsCapture(host.routes), collapse, urls);
    var front := InitRules(collapse) + CaptureRules(NeedsCapture(host.routes));
    var policies, service := DefaultPolicyRules(d), DefaultServiceRules(d, collapse, urls);
    assert NeverForwards(front) && NeverForwards([NotFoundRule(collapse)]) by {
      OwnNeverForwards(collapse, NeedsCapture(host.routes));
    }
    NeverForwardsTo(front, services, collapse, urls);
    NeverForwardsTo([NotFoundRule(collapse)], services, collapse, urls);
    NeverForwardsTo(policies, services, collapse, urls);
    RoutesForward(host.routes, NeedsCapture(host.routes), services, collapse, urls);
    if d.Some? && d.value.upstream.Some? {
      var s, name := d.value.upstream.value, "Generated-Route-Default-Backend";
      assert s in DefaultUpstreams(d) && s in services;
      ServiceForwards(name, name, s, services, collapse, urls);
      ForwardsGuarded(ServiceRules(name, name, s, collapse, urls), LocalGuard(collapse), services, collapse, urls);
    } else {
      NothingForwards(services, collapse, urls);
    }
    ForwardsMerged(front, routes, services, collapse, urls);
    ForwardsMerged(front + routes, policies, services, collapse, urls);
    ForwardsMerged(front + routes + policies, service, services, collapse, urls);
    ForwardsMerged(front + routes + policies + service, [NotFoundRule(collapse)], services, collapse, urls);
  }

  lemma OwnNeverForwards(collapse: Option<ServiceKey>, capture: bool)
    ensures NeverForwards(InitRules(collapse) + CaptureRules(capture))
    ensures NeverForwards([NotFoundRule(collapse)])
  {
  }

  /** Collapse safety across hosts: what any host's compiled rules forward to is the internal URL of a cached
      agent endpoint, never the public listener another host collapsed into. */
  lemma ForwardsAreInternal(records: seq<HostRecord>, entries: Entries, record: HostRecord)
    requires SafeChoices(records) && CacheOk(records, entries) && record in records
    requires forall route <- record.host.routes :: NeverForwards(UserRules(route))
    requires NeverForwards(DefaultPolicyRules(record.host.defaultDestination))
    ensures forall r <- Compiled(record.host, record.collapseInto, UrlsOf(entries)) :: forall a <- r.actions ::
              a.ForwardInternal? ==> a.url.Internal? && exists k <- entries :: a.url == entries[k].url
  {
    hide Compiled, Services;
    var host, collapse, urls := record.host, record.collapseInto, UrlsOf(entries);
    CompiledForwards(host, collapse, urls);
    forall r <- Compiled(host, collapse, urls), a <- r.actions | a.ForwardInternal?
      ensures a.url.Internal? && exists k <- entries :: a.url == entries[k].url
    {
      var s :| s in Services(host) && Key(s) in urls && collapse != Some(Key(s)) && a.url == urls[Key(s)];
      assert Uses(host, Key(s)) by {
        var i :| 0 <= i < |Services(host)| && Services(host)[i] == s;
        assert Keys(Services(host))[i] == Key(s);
      }
      assert Key(s) in entries && entries[Key(s)].url == a.url;
      assert forall chooser <- records :: chooser.collapseInto == Some(Key(s)) ==> chooser == record;
    }
  }

  ghost predicate DistinctUrls(records: seq<HostRecord>) {
    forall i, j | 0 <= i < j < |records| && Generates(records[i].host) && Generates(records[j].host) ::
      PublicUrl(records[i].host) != PublicUrl(records[j].host)
  }

  /** The last verbose host of a name is not overwritten. */
  lemma {:induction false} LastOfName(records: seq<HostRecord>, i: nat, name: VirtualHost -> Name) returns (j: nat)
    requires i < |records| && Verbose(records[i])
    ensures i <= j < |records| && Verbose(records[j]) && name(records[j].host) == name(records[i].host)
    ensures !Overwritten(records, j, name) && (Overwritten(records, i, name) ==> i < j)
    decreases |records| - i
  {
    hide Generates;
    if Overwritten(records, i, name) {
      var next :| i < next < |records| && Verbose(records[next]) && name(records[next].host) == name(records[i].host);
      j := LastOfName(records, next, name);
    } else {
      j := i;
    }
  }

  /** Exactly when a host has its listener, where no two hosts have the same public URL: it collapsed, or no later
      host writes a cloud endpoint under its name. And exactly one: the listener is its agent endpoint or its cloud
      endpoint, and no other endpoint has its URL. */
  lemma OneListener(records: seq<HostRecord>, clouds: map<Name, CloudEndpoint>, entries: Entries,
                    name: VirtualHost -> Name, i: nat)
    requires DistinctUrls(records) && SafeChoices(records)
    requires CacheOk(records, entries) && ListenersOk(records, clouds, entries, name)
    requires i < |records| && Nonempty(records[i].host)
    ensures Listens(records[i].host, records[i].collapseInto, clouds, entries, name) <==> !Overwritten(records, i, name)
    ensures forall k <- entries :: entries[k].url == PublicUrl(records[i].host) ==> records[i].collapseInto == Some(k)
    ensures forall n <- clouds :: clouds[n].url == PublicUrl(records[i].host) ==>
              n == name(records[i].host) && records[i].collapseInto.None? && !Overwritten(records, i, name)
  {
    hide ListenerPolicy, Generates, Overwritten;
    assert records[i] in records && Generates(records[i].host) by {
      NonemptyGenerates(records[i].host);
    }
    if Overwritten(records, i, name) {
      OverwrittenIsSilent(records, clouds, entries, name, i);
    }
    forall k <- entries | entries[k].url == PublicUrl(records[i].host)
      ensures records[i].collapseInto == Some(k)
    {
      var r := ChooserOf(records, entries, k);
      var j :| 0 <= j < |records| && records[j] == r;
      CollapsedIsKept(records, j, name);
      assert Listens(r.host, Some(k), clouds, entries, name);
      SameHost(records, r, i);
    }
    forall n <- clouds | clouds[n].url == PublicUrl(records[i].host)
      ensures n == name(records[i].host) && records[i].collapseInto.None? && !Overwritten(records, i, name)
    {
      var j := WriterOf(records, clouds, entries, name, n);
      assert records[j] in records;
      SameIndex(records, i, j);
    }
  }

  /** The host whose endpoint is found under a name. */
  lemma WriterOf(records: seq<HostRecord>, clouds: map<Name, CloudEndpoint>, entries: Entries,
                 name: VirtualHost -> Name, n: Name) returns (j: nat)
    requires ListenersOk(records, clouds, entries, name) && n in clouds
    ensures j < |records| && Verbose(records[j]) && n == name(records[j].host)
    ensures !Overwritten(records, j, name) && clouds[n].url == PublicUrl(records[j].host)
  {
    hide ListenerPolicy, Overwritten, Generates;
    var r :| r in records && Verbose(r) && n == name(r.host);
    var i :| 0 <= i < |records| && records[i] == r;
    j := LastOfName(records, i, name);
    assert Listens(records[j].host, None, clouds, entries, name);
  }

  lemma CollapsedIsKept(records: seq<HostRecord>, i: nat, name: VirtualHost -> Name)
    requires i < |records| && records[i].collapseInto.Some?
    ensures !Overwritten(records, i, name)
  {
  }

  lemma SameIndex(records: seq<HostRecord>, i: nat, j: nat)
    requires DistinctUrls(records) && i < |records| && j < |records|
    requires Generates(records[i].host) && Generates(records[j].host)
    requires PublicUrl(records[i].host) == PublicUrl(records[j].host)
    ensures i == j
  {
  }

  /** An overwritten host has no listener: under its name there is another host's. */
  lemma OverwrittenIsSilent(records: seq<HostRecord>, clouds: map<Name, CloudEndpoint>, entries: Entries,
                            name: VirtualHost -> Name, i: nat)
    requires DistinctUrls(records) && ListenersOk(records, clouds, entries, name)
    requires i < |records| && Generates(records[i].host) && Overwritten(records, i, name)
    ensures records[i].collapseInto.None? && !Listens(records[i].host, None, clouds, entries, name)
  {
    hide ListenerPolicy, Generates;
    var j := LastOfName(records, i, name);
    assert Listens(records[j].host, None, clouds, entries, name);
    assert PublicUrl(records[i].host) != PublicUrl(records[j].host);
  }

  /** An HTTP and an HTTPS listener of one Gateway for the same hostname, both leading to one service: neither host
      collapses, both have the same name, and the first ends without a listener. */
  lemma SecondListenerWins(a: HostRecord, b: HostRecord, s: Service, clouds: map<Name, CloudEndpoint>, entries: Entries,
                           name: VirtualHost -> Name, sanitize: string -> string)
    requires forall h :: name(h) == CloudName(h, sanitize)
    requires a != b && a.host.routes == [Route(None, [], [To(s)])] && a.host.defaultDestination == None
    requires b.host == a.host.(listener := a.host.listener.(port := 443, protocol := HTTPS))
    requires a.host.listener.port == 80 && a.host.listener.protocol == HTTP
    requires SafeChoices([a, b]) && ListenersOk([a, b], clouds, entries, name)
    ensures a.collapseInto.None? && b.collapseInto.None? && name(a.host) == name(b.host)
    ensures Generates(a.host) && !Listens(a.host, None, clouds, entries, name)
    ensures Listens(b.host, None, clouds, entries, name)
  {
    hide Listens, Uses;
    var records := [a, b];
    assert a in records && b in records;
    forall k
      ensures Uses(a.host, k) <==> Uses(b.host, k)
    {
      OneService(a.host, s, k);
      OneService(b.host, s, k);
    }
    assert a.collapseInto.None? && b.collapseInto.None?;
    assert records[1] == b && Verbose(b) && Overwritten(records, 0, name) && !Overwritten(records, 1, name);
    assert DistinctUrls(records);
    OverwrittenIsSilent(records, clouds, entries, name, 0);
  }

  /** The host behind a public agent endpoint. */
  lemma ChooserOf(records: seq<HostRecord>, entries: Entries, k: ServiceKey) returns (r: HostRecord)
    requires SafeChoices(records) && CacheOk(records, entries) && k in entries && entries[k].url.Public?
    ensures r in records && Generates(r.host) && r.collapseInto == Some(k)
  {
    hide Generates, Uses;
    r :| r in records && r.collapseInto == Some(k);
    var user :| user in records && Generates(user.host) && Uses(user.host, k);
    assert user == r;
  }

  lemma SameHost(records: seq<HostRecord>, r: HostRecord, i: nat)
    requires DistinctUrls(records) && r in records && Generates(r.host)
    requires i < |records| && Generates(records[i].host) && PublicUrl(r.host) == PublicUrl(records[i].host)
    ensures r == records[i]
  {
    var j :| 0 <= j < |records| && records[j] == r;
  }

  // ----- end to end

  /** The policy of the host's listener, wherever it is. */
  function PolicyOf(host: VirtualHost, collapse: Option<ServiceKey>, clouds: map<Name, CloudEndpoint>,
                    entries: Entries, name: VirtualHost -> Name): Policy
  {
    match collapse
    case Some(k) => if k in entries && entries[k].policy.Some? then entries[k].policy.value else []
    case None => if name(host) in clouds then clouds[name(host)].policy else []
  }

  /** What becomes of a request at the host's listener; `local` is the upstream of a collapsed one. */
  function AtListener(o: Outcome, collapse: Option<ServiceKey>, local: Url): Delivery {
    if collapse.Some? then OnAgentEndpoint(o, local) else OnCloudEndpoint(o)
  }

  /** The URLs the services are reached by, the local one behind an address of its own. */
  function Reachable(urls: UrlTable, collapse: Option<ServiceKey>, local: Url): UrlTable {
    if collapse.Some? then urls[collapse.value := local] else urls
  }

  lemma {:induction false} UpstreamListed(ds: seq<Destination>, d: Destination)
    requires d in ds && d.upstream.Some?
    ensures d.upstream.value in Upstreams(ds)
  {
    if d != ds[0] {
      assert ds == [ds[0]] + ds[1..];
      UpstreamListed(ds[1..], d);
    }
  }

  lemma {:induction false} RouteUpstreamListed(routes: seq<Route>, route: Route, d: Destination)
    requires route in routes && d in route.destinations && d.upstream.Some?
    ensures d.upstream.value in RouteUpstreams(routes)
  {
    if route == routes[0] {
      UpstreamListed(route.destinations, d);
    } else {
      assert routes == [routes[0]] + routes[1..];
      RouteUpstreamListed(routes[1..], route, d);
    }
  }

  /** With all services cached, a destination has an endpoint exactly when it has an upstream. */
  lemma CachedHaveEndpoints(host: VirtualHost, urls: UrlTable)
    requires forall s <- Services(host) :: Key(s) in urls
    ensures forall route <- host.routes, d <- route.destinations :: HasEndpoint(d, urls) <==> d.upstream.Some?
  {
    forall route <- host.routes, d <- route.destinations | d.upstream.Some?
      ensures Key(d.upstream.value) in urls
    {
      RouteUpstreamListed(host.routes, route, d);
      assert d.upstream.value in Services(host);
    }
  }

  lemma PolicyIsBuilt(host: VirtualHost, collapse: Option<ServiceKey>, clouds: map<Name, CloudEndpoint>,
                      entries: Entries, name: VirtualHost -> Name)
    requires IsHttp(host.listener.protocol) && Listens(host, collapse, clouds, entries, name)
    ensures PolicyOf(host, collapse, clouds, entries, name)
         == BasePolicy(host) + Compiled(host, collapse, UrlsOf(entries))
  {
  }

  /** The generated listener of an HTTP(S) host, cloud endpoint or collapsed agent endpoint alike: what the
      host's own policy stops ends there, and the rest is delivered as the reference says, the local service
      standing behind any address of its own. A collapsed listener does so exactly unless a route leads to the
      local service and the default destination's policies do not leave the request alone. */
  lemma ListenerDelivers(env: Env, host: VirtualHost, collapse: Option<ServiceKey>, clouds: map<Name, CloudEndpoint>,
                         entries: Entries, name: VirtualHost -> Name, local: Url, st: State)
    requires DrawsInRange(env) && IsHttp(host.listener.protocol) && AllWeighted(host) && WellBehaved(host)
    requires IsUserPolicy(DefaultPolicyRules(host.defaultDestination))
    requires Listens(host, collapse, clouds, entries, name)
    ensures var own := Run(env, if host.policy.Some? then host.policy.value else [], st);
            var o := Run(env, PolicyOf(host, collapse, clouds, entries, name), st);
            var urls, s := Reachable(UrlsOf(entries), collapse, local), Erase(own.at);
            var v := Decision(env, host, urls, s);
            if !own.FellThrough? then o == own
            else
              AtListener(o, collapse, local) == OnCloudEndpoint(Routed(env, host, urls, s))
              <==> (v.Served? && collapse == Some(v.key) ==>
                      LeavesAlone(env, DefaultPolicyRules(host.defaultDestination), v.at, local))
  {
    hide Run, Compiled, Decision, Listens, PolicyOf, LeavesAlone, DefaultPolicyRules, IsUserPolicy;
    var urls := UrlsOf(entries);
    PolicyIsBuilt(host, collapse, clouds, entries, name);
    RunMerged(env, BasePolicy(host), Compiled(host, collapse, urls), st);
    var own := Run(env, BasePolicy(host), st);
    if own.FellThrough? {
      match collapse
      case None =>
        CompilerCorrect(env, host, urls, own.at);
        SameDelivery(Run(env, Compiled(host, None, urls), own.at));
      case Some(k) =>
        CollapsedIsCached(host, k, clouds, entries, name);
        CollapsedCorrect(env, host, k, urls[k := local], urls, own.at);
    }
  }

  lemma CollapsedIsCached(host: VirtualHost, k: ServiceKey, clouds: map<Name, CloudEndpoint>, entries: Entries,
                          name: VirtualHost -> Name)
    requires Listens(host, Some(k), clouds, entries, name)
    ensures k in UrlsOf(entries)
  {
  }

  /** Every compiled route leads to services only. */
  predicate Complete(host: VirtualHost) {
    forall route <- host.routes :: Skipped(route) ||
      (&& route.destinations != [] && (forall d <- route.destinations :: d.upstream.Some?)
       && NeverStops(UserRules(route)))
  }

  /** The service behind the URL a request is delivered to. A collapsed listener's own service is reached at `local`;
      every other one by the agent endpoint with that URL, which all are for the same service. */
  ghost predicate Reaches(url: Url, local: Url, collapse: Option<ServiceKey>, entries: Entries, s: Service) {
    if collapse == Some(Key(s)) then
      url == local && Key(s) in entries && entries[Key(s)].upstream.(scheme := s.scheme) == s
    else
      && url.Internal? && (exists k <- entries :: entries[k].url == url)
      && forall k <- entries | entries[k].url == url ::
           entries[k].upstream.(scheme := s.scheme, appProtocol := s.appProtocol) == s
  }

  lemma ServiceIsReached(records: seq<HostRecord>, record: HostRecord, entries: Entries, local: Url, s: Service)
    requires SafeChoices(records) && CacheOk(records, entries) && record in records && s in Services(record.host)
    requires Key(s) in entries
    ensures var urls := Reachable(UrlsOf(entries), record.collapseInto, local);
            Reaches(urls[Key(s)], local, record.collapseInto, entries, s)
  {
    hide Services;
    if record.collapseInto != Some(Key(s)) {
      assert Uses(record.host, Key(s)) by {
        var i :| 0 <= i < |Services(record.host)| && Services(record.host)[i] == s;
        assert Keys(Services(record.host))[i] == Key(s);
      }
      assert forall chooser <- records :: chooser.collapseInto == Some(Key(s)) ==> chooser == record;
      EntriesTellServices(records, entries);
    }
  }

  /** A request that the host's own policy lets through reaches a service of the first route that accepts it, by the
      agent endpoint of that very service; at a collapsed listener, as long as the default destination's policies
      leave it alone. */
  lemma ListenerServes(env: Env, records: seq<HostRecord>, record: HostRecord, clouds: map<Name, CloudEndpoint>,
                       entries: Entries, name: VirtualHost -> Name, local: Url, route: Route, st: State)
    requires SafeChoices(records) && CacheOk(records, entries) && record in records && Nonempty(record.host)
    requires DrawsInRange(env) && IsHttp(record.host.listener.protocol)
    requires AllWeighted(record.host) && WellBehaved(record.host) && Complete(record.host)
    requires Listens(record.host, record.collapseInto, clouds, entries, name)
    requires IsUserPolicy(DefaultPolicyRules(record.host.defaultDestination))
    requires Run(env, BasePolicy(record.host), st).FellThrough?
    requires var s := Erase(Run(env, BasePolicy(record.host), st).at);
             var v := Decision(env, record.host, Reachable(UrlsOf(entries), record.collapseInto, local), s);
             v.Served? && record.collapseInto == Some(v.key) ==>
               LeavesAlone(env, DefaultPolicyRules(record.host.defaultDestination), v.at, local)
    requires FirstMatch(env, record.host.routes, Run(env, BasePolicy(record.host), st).at.req) == Some(route)
    ensures var o := Run(env, PolicyOf(record.host, record.collapseInto, clouds, entries, name), st);
            var d := AtListener(o, record.collapseInto, local);
            && d.ToUpstream?
            && exists dest <- route.destinations ::
                 dest.upstream.Some? && Reaches(d.url, local, record.collapseInto, entries, dest.upstream.value)
  {
    hide Run, FirstMatch, AtRoutes, AtRoute, Listens, PolicyOf, NeedsCapture, Skipped, UserRules, NeverStops;
    hide Reaches, CacheOk, SafeChoices, WellBehaved, LeavesAlone;
    var host, collapse := record.host, record.collapseInto;
    var urls, s := Reachable(UrlsOf(entries), collapse, local), Erase(Run(env, BasePolicy(host), st).at);
    var original := if NeedsCapture(host.routes) then Some(s.req) else None;
    AllServicesCached(records, record, entries);
    CachedHaveEndpoints(host, urls);
    assert forall r <- host.routes :: LeadsToServices(r, urls);
    FirstMatchDecides(env, host.routes, original, urls, s);
    ListenerDelivers(env, host, collapse, clouds, entries, name, local, st);
    var v := Decision(env, host, urls, s);
    var dest :| dest in route.destinations && HasEndpoint(dest, urls) && v.key == Key(dest.upstream.value);
    RouteUpstreamListed(host.routes, route, dest);
    assert dest.upstream.value in Services(host);
    ServiceIsReached(records, record, entries, local, dest.upstream.value);
  }

  lemma AllServicesCached(records: seq<HostRecord>, record: HostRecord, entries: Entries)
    requires CacheOk(records, entries) && record in records && Nonempty(record.host)
    ensures AllCached(Services(record.host), entries)
  {
  }
}
