/** The compiler's loops: they build the rules of `Routing` while filling the cache of agent endpoints. */
module Translator {
  import opened Options
  import opened Urls
  import opened TrafficPolicy
  import opened IR
  import opened ServiceKeys
  import opened Routing
  import opened Compiler
  import opened WeightedSplit

  datatype AgentEndpoint = AgentEndpoint(url: Url, upstream: Service, policy: Option<Policy>)

  type Entries = map<ServiceKey, AgentEndpoint>

  function UrlsOf(entries: Entries): UrlTable {
    map k | k in entries :: entries[k].url
  }

  function PublicUrl(host: VirtualHost): Url {
    Public(host.listener.protocol, host.listener.hostname, host.listener.port)
  }

  /** An endpoint for a service: public for the service its host collapses into, internal otherwise. */
  function BuildAgentEndpoint(host: VirtualHost, collapse: Option<ServiceKey>, s: Service): Option<AgentEndpoint> {
    if host.listener.protocol == Unsupported then None
    else
      var url := if collapse == Some(Key(s)) then PublicUrl(host)
                 else Internal(host.listener.protocol, s.uid, s.name, s.namespace, s.port, s.certs);
      Some(AgentEndpoint(url, s, None))
  }

  /** Endpoints are shared: only the first request for a service builds one. */
  function Cached(entries: Entries, host: VirtualHost, collapse: Option<ServiceKey>, s: Service): Entries {
    if Key(s) in entries then entries
    else
      match BuildAgentEndpoint(host, collapse, s)
      case Some(built) => entries[Key(s) := built]
      case None => entries
  }

  function CachedAll(entries: Entries, host: VirtualHost, collapse: Option<ServiceKey>, services: seq<Service>): Entries
    decreases |services|
  {
    if services == [] then entries
    else CachedAll(Cached(entries, host, collapse, services[0]), host, collapse, services[1..])
  }

  function Upstream(d: Destination): seq<Service> {
    if d.upstream.Some? then [d.upstream.value] else []
  }

  function Upstreams(ds: seq<Destination>): seq<Service> {
    if ds == [] then [] else Upstream(ds[0]) + Upstreams(ds[1..])
  }

  function RouteUpstreams(routes: seq<Route>): seq<Service> {
    if routes == [] then [] else Upstreams(routes[0].destinations) + RouteUpstreams(routes[1..])
  }

  function DefaultUpstreams(d: Option<Destination>): seq<Service> {
    if d.Some? then Upstream(d.value) else []
  }

  class EndpointCache {
    var entries: Entries

    constructor ()
      ensures entries == map[]
    {
      entries := map[];
    }

    method Ensure(host: VirtualHost, collapse: Option<ServiceKey>, s: Service) returns (found: Option<AgentEndpoint>)
      modifies this
      ensures entries == Cached(old(entries), host, collapse, s)
      ensures found == if Key(s) in entries then Some(entries[Key(s)]) else None
    {
      if Key(s) in entries {
        return Some(entries[Key(s)]);
      }
      found := BuildAgentEndpoint(host, collapse, s);
      if found.Some? {
        entries := entries[Key(s) := found.value];
      }
    }
  }

  // ----- rules do not change when the cache grows

  ghost predicate Grows(before: UrlTable, after: UrlTable) {
    forall k <- before :: k in after && after[k] == before[k]
  }

  ghost predicate AllCached(services: seq<Service>, entries: Entries) {
    forall s <- services :: Key(s) in entries
  }

  lemma {:induction false} CachedAllGrows(entries: Entries, host: VirtualHost, collapse: Option<ServiceKey>,
                                          services: seq<Service>)
    requires host.listener.protocol != Unsupported
    ensures var after := CachedAll(entries, host, collapse, services);
            Grows(UrlsOf(entries), UrlsOf(after)) && AllCached(services, after)
    decreases |services|
  {
    if services != [] {
      CachedAllGrows(Cached(entries, host, collapse, services[0]), host, collapse, services[1..]);
      assert services == [services[0]] + services[1..];
      assert Key(services[0]) in UrlsOf(Cached(entries, host, collapse, services[0]));
    }
  }

  lemma {:induction false} CachedAllSplit(entries: Entries, host: VirtualHost, collapse: Option<ServiceKey>,
                                          first: seq<Service>, second: seq<Service>)
    ensures CachedAll(entries, host, collapse, first + second)
         == CachedAll(CachedAll(entries, host, collapse, first), host, collapse, second)
    decreases |first|
  {
    if first == [] {
      assert first + second == second;
    } else {
      assert (first + second)[1..] == first[1..] + second;
      CachedAllSplit(Cached(entries, host, collapse, first[0]), host, collapse, first[1..], second);
    }
  }

  lemma {:induction false} UpstreamsSplit(first: seq<Destination>, second: seq<Destination>)
    ensures Upstreams(first + second) == Upstreams(first) + Upstreams(second)
  {
    hide Upstream;
    if first == [] {
      assert first + second == second;
    } else {
      assert (first + second)[1..] == first[1..] + second;
      UpstreamsSplit(first[1..], second);
    }
  }

  lemma {:induction false} RouteUpstreamsSplit(first: seq<Route>, second: seq<Route>)
    ensures RouteUpstreams(first + second) == RouteUpstreams(first) + RouteUpstreams(second)
  {
    if first == [] {
      assert first + second == second;
    } else {
      assert (first + second)[1..] == first[1..] + second;
      RouteUpstreamsSplit(first[1..], second);
    }
  }

  lemma {:induction false} DestinationsStable(ds: seq<Destination>, lower: int, many: bool, guards: seq<Expr>,
                                              collapse: Option<ServiceKey>, before: Entries, after: Entries)
    requires AllCached(Upstreams(ds), before) && Grows(UrlsOf(before), UrlsOf(after))
    ensures Destinations(ds, lower, many, guards, collapse, UrlsOf(before))
         == Destinations(ds, lower, many, guards, collapse, UrlsOf(after))
    decreases |ds|
  {
    if ds != [] {
      assert forall s <- Upstreams(ds[1..]) :: s in Upstreams(ds);
      if ds[0].upstream.Some? {
        assert ds[0].upstream.value in Upstreams(ds);
        assert Key(ds[0].upstream.value) in UrlsOf(before);
      }
      assert UpstreamRules(ds[0], collapse, UrlsOf(before)) == UpstreamRules(ds[0], collapse, UrlsOf(after));
      DestinationsStable(ds[1..], if many then lower + Weight(ds[0]) else lower, many, guards, collapse, before, after);
    }
  }

  lemma {:induction false} RoutesStable(routes: seq<Route>, capture: bool, collapse: Option<ServiceKey>,
                                        before: Entries, after: Entries)
    requires AllCached(RouteUpstreams(routes), before) && Grows(UrlsOf(before), UrlsOf(after))
    ensures AllRouteRules(routes, capture, collapse, UrlsOf(before))
         == AllRouteRules(routes, capture, collapse, UrlsOf(after))
  {
    hide Guarded, Guards;
    if routes != [] {
      var ds := routes[0].destinations;
      assert forall s <- Upstreams(ds) :: s in RouteUpstreams(routes);
      assert forall s <- RouteUpstreams(routes[1..]) :: s in RouteUpstreams(routes);
      DestinationsStable(ds, 0, |ds| > 1, Guards(routes[0].criteria, capture, collapse), collapse, before, after);
      RoutesStable(routes[1..], capture, collapse, before, after);
    }
  }

  // ----- appending one destination, one route

  lemma {:induction false} DestinationsSnoc(ds: seq<Destination>, d: Destination, lower: int, many: bool,
                                            guards: seq<Expr>, collapse: Option<ServiceKey>, urls: UrlTable)
    ensures var weighted := if many then [WeightExpr(lower + TotalWeight(ds), Weight(d))] else [];
            Destinations(ds + [d], lower, many, guards, collapse, urls)
              == Destinations(ds, lower, many, guards, collapse, urls)
                 + OneDestination(d, weighted, guards, collapse, urls)
    decreases |ds|
  {
    hide OneDestination;
    if ds == [] {
      assert (ds + [d])[1..] == [];
    } else {
      assert (ds + [d])[1..] == ds[1..] + [d];
      DestinationsSnoc(ds[1..], d, if many then lower + Weight(ds[0]) else lower, many, guards, collapse, urls);
    }
  }

  lemma {:induction false} RoutesSnoc(routes: seq<Route>, route: Route, capture: bool, collapse: Option<ServiceKey>,
                                      urls: UrlTable)
    ensures AllRouteRules(routes + [route], capture, collapse, urls)
         == AllRouteRules(routes, capture, collapse, urls) + RouteRules(route, capture, collapse, urls)
  {
    hide RouteRules;
    if routes == [] {
      assert (routes + [route])[1..] == [];
    } else {
      assert (routes + [route])[1..] == routes[1..] + [route];
      RoutesSnoc(routes[1..], route, capture, collapse, urls);
    }
  }

  lemma {:induction false} FlattenSplit(first: seq<Policy>, second: seq<Policy>)
    ensures Flatten(first + second) == Flatten(first) + Flatten(second)
  {
    if first == [] {
      assert first + second == second;
    } else {
      assert (first + second)[1..] == first[1..] + second;
      FlattenSplit(first[1..], second);
    }
  }

  // ----- the loops

  method GuardPolicies(policies: seq<Policy>, guards: seq<Expr>, weighted: seq<Expr>) returns (rules: Policy)
    ensures rules == Guarded(Guarded(Flatten(policies), guards), weighted)
  {
    rules := [];
    GuardedNone(guards, weighted);
    for i := 0 to |policies|
      invariant rules == Guarded(Guarded(Flatten(policies[..i]), guards), weighted)
    {
      ghost var sofar := rules;
      for j := 0 to |policies[i]|
        invariant rules == sofar + Guarded(Guarded(policies[i][..j], guards), weighted)
      {
        var rule := policies[i][j];
        var exprs := AppendStringUnique(rule.exprs, guards);
        exprs := AppendStringUnique(exprs, weighted);
        rules := rules + [rule.(exprs := exprs)];
        assert policies[i][..j + 1] == policies[i][..j] + [rule];
      }
      assert policies[i][..|policies[i]|] == policies[i];
      assert policies[..i + 1] == policies[..i] + [policies[i]];
      FlattenSplit(policies[..i], [policies[i]]);
      assert [policies[i]][1..] == [];
      GuardedMerged(Flatten(policies[..i]), policies[i], guards);
      GuardedMerged(Guarded(Flatten(policies[..i]), guards), Guarded(policies[i], guards), weighted);
    }
    assert policies[..|policies|] == policies;
  }

  method MatchExpressions(criteria: Option<Criteria>, fromVars: bool) returns (exprs: seq<Expr>)
    ensures exprs == MatchExprs(criteria, SourceFor(fromVars))
  {
    exprs := [];
    if criteria.None? {
      return;
    }
    var c, src := criteria.value, SourceFor(fromVars);
    if c.path.Some? {
      if c.pathType == Some(Exact) {
        exprs := [PathIs(src, c.path.value)];
      } else {
        exprs := [PathStartsWith(src, c.path.value)];
      }
    }
    for i := 0 to |c.headers|
      invariant AddHeaderExprs(exprs, src, c.headers[i..]) == AddHeaderExprs(PathExprs(c, src), src, c.headers)
    {
      exprs := AppendStringUnique(exprs, HeaderExpr(src, c.headers[i]));
    }
    for i := 0 to |c.query|
      invariant AddQueryExprs(exprs, src, c.query[i..])
             == AddQueryExprs(AddHeaderExprs(PathExprs(c, src), src, c.headers), src, c.query)
    {
      exprs := AppendStringUnique(exprs, QueryExpr(src, c.query[i]));
    }
    exprs := AppendStringUnique(exprs, VerbExprs(c));
  }

  method PoliciesTouch(policies: seq<Policy>, criteria: Option<Criteria>) returns (touched: bool)
    ensures touched == RulesTouch(Flatten(policies), criteria)
  {
    touched := false;
    for i := 0 to |policies|
      invariant touched == RulesTouch(Flatten(policies[..i]), criteria)
    {
      ghost var before := touched;
      var policy := policies[i];
      for j := 0 to |policy|
        invariant touched == (before || RulesTouch(policy[..j], criteria))
      {
        var actions := policy[j].actions;
        var hit := false;
        for n := 0 to |actions|
          invariant !hit && forall a <- actions[..n] :: !Touches(a, criteria)
        {
          if Touches(actions[n], criteria) {
            hit := true;
            break;
          }
        }
        assert policy[..j + 1] == policy[..j] + [policy[j]];
        TouchSplit(policy[..j], [policy[j]], criteria);
        assert RulesTouch([policy[j]], criteria) == exists a <- actions :: Touches(a, criteria) by {
          assert policy[j] in [policy[j]];
        }
        touched := touched || hit;
      }
      assert policy[..|policy|] == policy;
      assert policies[..i + 1] == policies[..i] + [policy];
      FlattenSplit(policies[..i], [policy]);
      assert [policy][1..] == [] && Flatten([policy]) == policy;
      TouchSplit(Flatten(policies[..i]), policy, criteria);
    }
    assert policies[..|policies|] == policies;
  }

  lemma TouchSplit(first: Policy, second: Policy, criteria: Option<Criteria>)
    ensures RulesTouch(first + second, criteria) == (RulesTouch(first, criteria) || RulesTouch(second, criteria))
  {
    assert forall r :: r in first + second <==> r in first || r in second;
  }

  lemma {:induction false} DestinationRulesSplit(first: seq<Destination>, second: seq<Destination>)
    ensures DestinationRules(first + second) == DestinationRules(first) + DestinationRules(second)
  {
    if first == [] {
      assert first + second == second;
    } else {
      assert (first + second)[1..] == first[1..] + second;
      DestinationRulesSplit(first[1..], second);
    }
  }

  /** The scan that decides whether the original request must be captured. */
  method CaptureNeeded(routes: seq<Route>) returns (capture: bool)
    ensures capture == NeedsCapture(routes)
  {
    capture := false;
    for i := 0 to |routes|
      invariant capture == NeedsCapture(routes[..i])
    {
      var route := routes[i];
      ghost var before := capture;
      var touched := PoliciesTouch(route.policies, route.criteria);
      capture := capture || touched;
      ghost var onRoute := capture;
      if !capture {
        for j := 0 to |route.destinations|
          invariant capture == RulesTouch(DestinationRules(route.destinations[..j]), route.criteria)
        {
          var d := route.destinations[j];
          var hit := PoliciesTouch(d.policies, route.criteria);
          assert route.destinations[..j + 1] == route.destinations[..j] + [d];
          DestinationRulesSplit(route.destinations[..j], [d]);
          assert [d][1..] == [] && DestinationRules([d]) == Flatten(d.policies);
          TouchSplit(DestinationRules(route.destinations[..j]), Flatten(d.policies), route.criteria);
          capture := capture || hit;
        }
        assert route.destinations[..|route.destinations|] == route.destinations;
      }
      TouchSplit(Flatten(route.policies), DestinationRules(route.destinations), route.criteria);
      assert routes[..i + 1] == routes[..i] + [route];
      assert NeedsCapture(routes[..i + 1]) == (before || RulesTouch(UserRules(route), route.criteria)) by {
        assert forall r :: r in routes[..i + 1] <==> r in routes[..i] || r == route;
      }
    }
    assert routes[..|routes|] == routes;
  }

  method DestinationsLoop(host: VirtualHost, collapse: Option<ServiceKey>, ds: seq<Destination>, guards: seq<Expr>,
                          cache: EndpointCache) returns (rules: Policy)
    requires IsHttp(host.listener.protocol)
    modifies cache
    ensures cache.entries == CachedAll(old(cache.entries), host, collapse, Upstreams(ds))
    ensures rules == Destinations(ds, 0, |ds| > 1, guards, collapse, UrlsOf(cache.entries))
  {
    hide Destinations, OneDestination, Guarded, Flatten, AppendUnique;
    rules := [];
    var lower := 0;
    var many := |ds| > 1;
    assert rules == Destinations([], 0, many, guards, collapse, UrlsOf(cache.entries)) by {
      NoDestinations(many, guards, collapse, UrlsOf(cache.entries));
    }
    for i := 0 to |ds|
      invariant lower == if many then TotalWeight(ds[..i]) else 0
      invariant cache.entries == CachedAll(old(cache.entries), host, collapse, Upstreams(ds[..i]))
      invariant rules == Destinations(ds[..i], 0, many, guards, collapse, UrlsOf(cache.entries))
    {
      var d := ds[i];
      ghost var before := cache.entries;
      var weighted := [];
      if many {
        weighted := [WeightExpr(lower, Weight(d))];
        lower := lower + Weight(d);
      }
      var own := GuardPolicies(d.policies, guards, weighted);
      var last := [];
      if d.upstream.Some? {
        var found := cache.Ensure(host, collapse, d.upstream.value);
        if found.Some? {
          var rule := if collapse == Some(Key(d.upstream.value))
                      then RouteLocallyRule("Generated-Local-Service-Route", true)
                      else ForwardRule("Generated-Route", found.value.url);
          var exprs := AppendStringUnique(rule.exprs, guards);
          exprs := AppendStringUnique(exprs, weighted);
          last := [rule.(exprs := exprs)];
        }
      }
      assert last == Guarded(Guarded(UpstreamRules(d, collapse, UrlsOf(cache.entries)), guards), weighted) by {
        UpstreamGuarded(d, collapse, UrlsOf(cache.entries), guards, weighted);
      }
      DestinationStep(host, collapse, old(cache.entries), before, ds[..i], d, many, weighted, guards);
      assert ds[..i + 1] == ds[..i] + [d];
      rules := rules + (own + last);
    }
    assert ds[..|ds|] == ds;
  }

  lemma NoDestinations(many: bool, guards: seq<Expr>, collapse: Option<ServiceKey>, urls: UrlTable)
    ensures Destinations([], 0, many, guards, collapse, urls) == []
  {
  }

  lemma UpstreamGuarded(d: Destination, collapse: Option<ServiceKey>, urls: UrlTable, guards: seq<Expr>,
                        weighted: seq<Expr>)
    ensures var rules := UpstreamRules(d, collapse, urls);
            Guarded(Guarded(rules, guards), weighted)
              == if rules == [] then []
                 else [rules[0].(exprs := AppendUnique(AppendUnique(rules[0].exprs, guards), weighted))]
  {
  }

  /** One more destination: the cache gains its service, and the rules built so far stay as they were. */
  lemma DestinationStep(host: VirtualHost, collapse: Option<ServiceKey>, start: Entries, before: Entries,
                        ds: seq<Destination>, d: Destination, many: bool, weighted: seq<Expr>, guards: seq<Expr>)
    requires IsHttp(host.listener.protocol)
    requires before == CachedAll(start, host, collapse, Upstreams(ds))
    requires weighted == if many then [WeightExpr(TotalWeight(ds), Weight(d))] else []
    ensures var after := if d.upstream.Some? then Cached(before, host, collapse, d.upstream.value) else before;
            && after == CachedAll(start, host, collapse, Upstreams(ds + [d]))
            && TotalWeight(ds + [d]) == TotalWeight(ds) + Weight(d)
            && Destinations(ds + [d], 0, many, guards, collapse, UrlsOf(after))
               == Destinations(ds, 0, many, guards, collapse, UrlsOf(before))
                  + (Guarded(Guarded(Flatten(d.policies), guards), weighted)
                     + Guarded(Guarded(UpstreamRules(d, collapse, UrlsOf(after)), guards), weighted))
  {
    hide Destinations, Guarded, Flatten;
    var after := if d.upstream.Some? then Cached(before, host, collapse, d.upstream.value) else before;
    TotalSplit(ds, [d]);
    UpstreamsSplit(ds, [d]);
    CachedAllSplit(start, host, collapse, Upstreams(ds), Upstreams([d]));
    assert [d][1..] == [] && Upstreams([d]) == if d.upstream.Some? then [d.upstream.value] else [];
    assert after == CachedAll(before, host, collapse, Upstreams([d]));
    CachedAllGrows(start, host, collapse, Upstreams(ds));
    CachedAllGrows(before, host, collapse, Upstreams([d]));
    DestinationsStable(ds, 0, many, guards, collapse, before, after);
    DestinationsSnoc(ds, d, 0, many, guards, collapse, UrlsOf(after));
    GuardedMerged(Flatten(d.policies), UpstreamRules(d, collapse, UrlsOf(after)), guards);
    GuardedMerged(Guarded(Flatten(d.policies), guards), Guarded(UpstreamRules(d, collapse, UrlsOf(after)), guards),
                  weighted);
  }

  /** The rules for one route; the caller has not skipped it. */
  method RouteLoopBody(host: VirtualHost, collapse: Option<ServiceKey>, route: Route, capture: bool,
                       cache: EndpointCache) returns (rules: Policy)
    requires IsHttp(host.listener.protocol) && !Skipped(route)
    modifies cache
    ensures cache.entries == CachedAll(old(cache.entries), host, collapse, Upstreams(route.destinations))
    ensures rules == RouteRules(route, capture, collapse, UrlsOf(cache.entries))
  {
    hide Destinations, Guarded, Flatten, AppendUnique, MatchExprs;
    var ds := route.destinations;
    var guards := MatchExpressions(route.criteria, capture);
    if collapse.Some? {
      guards := AppendStringUnique(guards, LOCALLY);
    } else {
      AppendNothing(guards);
    }
    var onRoute := GuardPolicies(route.policies, guards, []);
    GuardedByNothing(Guarded(Flatten(route.policies), guards));
    var draw := [];
    if |ds| > 1 {
      var total := 0;
      for i := 0 to |ds|
        invariant total == TotalWeight(ds[..i]) && cache.entries == old(cache.entries)
      {
        assert ds[..i + 1] == ds[..i] + [ds[i]];
        TotalSplit(ds[..i], [ds[i]]);
        assert [ds[i]][1..] == [];
        total := total + Weight(ds[i]);
      }
      assert ds[..|ds|] == ds;
      draw := [Rule("Gen-Random-Number", guards, [Draw(total - 1)])];
    }
    var onDestinations := DestinationsLoop(host, collapse, ds, guards, cache);
    rules := onRoute + draw + onDestinations;
  }

  lemma AppendNothing(exprs: seq<Expr>)
    ensures AppendUnique(exprs, []) == exprs
  {
  }

  method BuildRoutingPolicy(host: VirtualHost, collapse: Option<ServiceKey>, cache: EndpointCache)
    returns (policy: Policy)
    requires IsHttp(host.listener.protocol)
    modifies cache
    ensures cache.entries == CachedAll(old(cache.entries), host, collapse, RouteUpstreams(host.routes))
    ensures policy == RoutingRules(host.routes, collapse, UrlsOf(cache.entries))
  {
    hide RouteRules, AllRouteRules, UrlsOf, CachedAll, Upstreams, NeedsCapture;
    policy := [];
    if collapse.Some? {
      policy := policy + [RouteLocallyRule("Initialize-Local-Service-Match", false)];
    }
    var capture := CaptureNeeded(host.routes);
    if capture {
      policy := policy + [Rule("Capture-Original-Request-Data", [], [CaptureOriginals])];
    }
    ghost var front := policy;
    assert front == InitRules(collapse) + CaptureRules(capture);
    NoRoutes(host, capture, collapse, cache.entries);
    var routes := host.routes;
    for i := 0 to |routes|
      invariant cache.entries == CachedAll(old(cache.entries), host, collapse, RouteUpstreams(routes[..i]))
      invariant policy == front + AllRouteRules(routes[..i], capture, collapse, UrlsOf(cache.entries))
    {
      ghost var before := cache.entries;
      var rules := [];
      if !Skipped(routes[i]) {
        rules := RouteLoopBody(host, collapse, routes[i], capture, cache);
      } else {
        SkippedRoute(host, routes[i], capture, collapse, cache.entries);
      }
      RouteStep(host, collapse, old(cache.entries), before, routes[..i], routes[i], capture);
      assert routes[..i + 1] == routes[..i] + [routes[i]];
      ghost var done := AllRouteRules(routes[..i], capture, collapse, UrlsOf(before));
      assert front + done + rules == front + (done + rules);
      policy := policy + rules;
    }
    assert routes[..|routes|] == routes;
  }

  lemma NoRoutes(host: VirtualHost, capture: bool, collapse: Option<ServiceKey>, entries: Entries)
    ensures AllRouteRules([], capture, collapse, UrlsOf(entries)) == []
    ensures CachedAll(entries, host, collapse, []) == entries
  {
  }

  lemma SkippedRoute(host: VirtualHost, route: Route, capture: bool, collapse: Option<ServiceKey>, entries: Entries)
    requires Skipped(route)
    ensures RouteRules(route, capture, collapse, UrlsOf(entries)) == []
    ensures CachedAll(entries, host, collapse, Upstreams(route.destinations)) == entries
  {
  }

  lemma RouteStep(host: VirtualHost, collapse: Option<ServiceKey>, start: Entries, before: Entries,
                  routes: seq<Route>, route: Route, capture: bool)
    requires IsHttp(host.listener.protocol)
    requires before == CachedAll(start, host, collapse, RouteUpstreams(routes))
    ensures var after := CachedAll(before, host, collapse, Upstreams(route.destinations));
            && after == CachedAll(start, host, collapse, RouteUpstreams(routes + [route]))
            && AllRouteRules(routes + [route], capture, collapse, UrlsOf(after))
               == AllRouteRules(routes, capture, collapse, UrlsOf(before))
                  + RouteRules(route, capture, collapse, UrlsOf(after))
  {
    hide AllRouteRules, RouteRules, Upstreams;
    var after := CachedAll(before, host, collapse, Upstreams(route.destinations));
    RouteUpstreamsSplit(routes, [route]);
    assert [route][1..] == [] && RouteUpstreams([route]) == Upstreams(route.destinations);
    CachedAllSplit(start, host, collapse, RouteUpstreams(routes), Upstreams(route.destinations));
    CachedAllGrows(start, host, collapse, RouteUpstreams(routes));
    CachedAllGrows(before, host, collapse, Upstreams(route.destinations));
    RoutesStable(routes, capture, collapse, before, after);
    RoutesSnoc(routes, route, capture, collapse, UrlsOf(after));
  }

  lemma CachedOne(entries: Entries, host: VirtualHost, collapse: Option<ServiceKey>, s: Service)
    ensures CachedAll(entries, host, collapse, [s]) == Cached(entries, host, collapse, s)
  {
    assert [s][1..] == [];
  }

  lemma DefaultServiceShape(d: Destination, collapse: Option<ServiceKey>, urls: UrlTable)
    requires d.upstream.Some?
    ensures var name := "Generated-Route-Default-Backend";
            var rules := ServiceRules(name, name, d.upstream.value, collapse, urls);
            DefaultServiceRules(Some(d), collapse, urls)
              == if rules == [] then []
                 else [rules[0].(exprs := AppendUnique(rules[0].exprs, LocalGuard(collapse)))]
  {
  }

  /** Fails when no endpoint can be built for the default service: the protocol of the listener is unknown. */
  method BuildDefaultDestinationPolicy(host: VirtualHost, collapse: Option<ServiceKey>, cache: EndpointCache)
    returns (policy: Policy, failed: bool)
    modifies cache
    ensures cache.entries == CachedAll(old(cache.entries), host, collapse, DefaultUpstreams(host.defaultDestination))
    ensures failed <==> exists s <- DefaultUpstreams(host.defaultDestination) :: Key(s) !in cache.entries
    ensures !failed ==> policy == DefaultPolicyRules(host.defaultDestination)
                                  + DefaultServiceRules(host.defaultDestination, collapse, UrlsOf(cache.entries))
  {
    policy, failed := [], false;
    if host.defaultDestination.None? {
      return;
    }
    var d := host.defaultDestination.value;
    for i := 0 to |d.policies|
      invariant policy == Flatten(d.policies[..i]) && cache.entries == old(cache.entries)
    {
      assert d.policies[..i + 1] == d.policies[..i] + [d.policies[i]];
      FlattenSplit(d.policies[..i], [d.policies[i]]);
      assert [d.policies[i]][1..] == [];
      policy := policy + d.policies[i];
    }
    assert d.policies[..|d.policies|] == d.policies;
    if d.upstream.Some? {
      CachedOne(cache.entries, host, collapse, d.upstream.value);
      DefaultServiceShape(d, collapse, UrlsOf(Cached(cache.entries, host, collapse, d.upstream.value)));
      var name := "Generated-Route-Default-Backend";
      var found := cache.Ensure(host, collapse, d.upstream.value);
      assert d.upstream.value in DefaultUpstreams(host.defaultDestination);
      if found.None? {
        return [], true;
      }
      var rule := if collapse == Some(Key(d.upstream.value)) then RouteLocallyRule(name, true)
                  else ForwardRule(name, found.value.url);
      AppendNothing(rule.exprs);
      if collapse.Some? {
        var exprs := AppendStringUnique(rule.exprs, LOCALLY);
        rule := rule.(exprs := exprs);
      }
      policy := policy + [rule];
    }
  }
}
