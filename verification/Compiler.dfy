/** Correctness of the emitted rules against a reference that knows no rules and no variables. */
module Compiler {
  import opened Options
  import opened TrafficPolicy
  import opened IR
  import opened ServiceKeys
  import opened Routing
  import opened Matching
  import opened UserPolicies

  // ----- the reference

  predicate Weighable(ds: seq<Destination>) {
    (forall d <- ds :: d.weight.Some? ==> 0 <= d.weight.value) && 0 < TotalWeight(ds)
  }

  lemma {:induction false} TotalIsNatural(ds: seq<Destination>)
    requires forall d <- ds :: 0 <= Weight(d)
    ensures 0 <= TotalWeight(ds)
  {
    if ds != [] {
      TotalIsNatural(ds[1..]);
    }
  }

  /** The destination a draw falls to when the shares are laid end to end. */
  function Selected(ds: seq<Destination>, draw: int): (j: nat)
    requires forall d <- ds :: 0 <= Weight(d)
    requires 0 <= draw < TotalWeight(ds)
    ensures j < |ds|
  {
    if draw < Weight(ds[0]) then 0 else 1 + Selected(ds[1..], draw - Weight(ds[0]))
  }

  /** What the routes make of a request: a service serves it, a policy ended it, or it is passed on. */
  datatype Verdict = Served(key: ServiceKey, at: State) | Ended(outcome: Outcome) | Passed(at: State)

  predicate Proper(v: Verdict, urls: UrlTable) {
    (v.Served? ==> v.key in urls) && (v.Ended? ==> !v.outcome.FellThrough?)
  }

  predicate HasEndpoint(d: Destination, urls: UrlTable) {
    d.upstream.Some? && Key(d.upstream.value) in urls
  }

  /** The destination's own policies run; then its service takes the request, if it has one. */
  ghost function AtDestination(env: Env, d: Destination, urls: UrlTable, st: State): (v: Verdict)
    ensures Proper(v, urls)
  {
    match Run(env, Flatten(d.policies), st)
    case FellThrough(s) => if HasEndpoint(d, urls) then Served(Key(d.upstream.value), s) else Passed(s)
    case stopped => Ended(stopped)
  }

  /** One destination takes everything; among several, a random number chooses. */
  ghost function Choose(env: Env, ds: seq<Destination>, urls: UrlTable, st: State): (v: Verdict)
    requires |ds| > 1 ==> Weighable(ds)
    requires DrawsInRange(env)
    ensures Proper(v, urls)
  {
    if ds == [] then Passed(st)
    else if |ds| == 1 then AtDestination(env, ds[0], urls, st)
    else
      var chosen := ds[Selected(ds, env.draw(st.draws, TotalWeight(ds) - 1))];
      AtDestination(env, chosen, urls, st.(draws := st.draws + 1))
  }

  ghost function AtRoute(env: Env, route: Route, urls: UrlTable, st: State): (v: Verdict)
    requires Weighted(route) && DrawsInRange(env)
    ensures Proper(v, urls)
  {
    match Run(env, Flatten(route.policies), st)
    case FellThrough(s) => Choose(env, route.destinations, urls, s)
    case stopped => Ended(stopped)
  }

  /** What a route matches on: the original request where it was captured, else the request as it is. */
  function Shown(original: Option<Request>, st: State): Request {
    if original.Some? then original.value else st.req
  }

  /** The routes in list order: one that accepts the request decides, unless it passes the request on. */
  ghost function AtRoutes(env: Env, routes: seq<Route>, original: Option<Request>, urls: UrlTable, st: State)
    : (v: Verdict)
    requires DrawsInRange(env) && forall route <- routes :: Weighted(route)
    ensures Proper(v, urls)
  {
    if routes == [] then Passed(st)
    else if !Accepts(env, routes[0].criteria, Shown(original, st)) then
      AtRoutes(env, routes[1..], original, urls, st)
    else
      match AtRoute(env, routes[0], urls, st)
      case Passed(s) => AtRoutes(env, routes[1..], original, urls, s)
      case decided => decided
  }

  ghost function Otherwise(env: Env, host: VirtualHost, urls: UrlTable, st: State): Outcome {
    match Run(env, DefaultPolicyRules(host.defaultDestination), st)
    case FellThrough(s) =>
      if host.defaultDestination.Some? && HasEndpoint(host.defaultDestination.value, urls)
      then Forwarded(urls[Key(host.defaultDestination.value.upstream.value)], s)
      else Responded(404, s)
    case stopped => stopped
  }

  function OutcomeOf(v: Verdict, urls: UrlTable): Outcome
    requires Proper(v, urls)
  {
    match v
    case Served(k, s) => Forwarded(urls[k], s)
    case Ended(o) => o
    case Passed(s) => FellThrough(s)
  }

  ghost function Decision(env: Env, host: VirtualHost, urls: UrlTable, st: State): (v: Verdict)
    requires AllWeighted(host) && DrawsInRange(env)
    ensures Proper(v, urls)
  {
    AtRoutes(env, host.routes, if NeedsCapture(host.routes) then Some(st.req) else None, urls, st)
  }

  /** What a host means: its routes decide, else its default destination, else the 404. */
  ghost function Routed(env: Env, host: VirtualHost, urls: UrlTable, st: State): Outcome
    requires AllWeighted(host) && DrawsInRange(env)
  {
    match Decision(env, host, urls, st)
    case Passed(s) => Otherwise(env, host, urls, s)
    case decided => OutcomeOf(decided, urls)
  }

  // ----- what the compiler is promised

  /** Several destinations have weights that are not negative and a positive total. */
  predicate Weighted(route: Route) {
    |route.destinations| > 1 ==> Weighable(route.destinations)
  }

  predicate AllWeighted(host: VirtualHost) {
    forall route <- host.routes :: Weighted(route)
  }

  /** Users' policies stay clear of the compiler's variables, and every route's match survives its own. */
  predicate WellBehaved(host: VirtualHost) {
    forall route <- host.routes :: IsUserPolicy(UserRules(route)) && !Unprotected(host.routes, route)
  }

  // ----- hosts whose routes all lead to services

  /** The first route, in list order, that is compiled at all and accepts the request. */
  function FirstMatch(env: Env, routes: seq<Route>, req: Request): Option<Route> {
    if routes == [] then None
    else if (routes[0].destinations != [] || routes[0].policies != []) && Accepts(env, routes[0].criteria, req) then
      Some(routes[0])
    else FirstMatch(env, routes[1..], req)
  }

  /** Every destination has a service, and no policy stops on the way to it. */
  predicate LeadsToServices(route: Route, urls: UrlTable) {
    Skipped(route) ||
    (&& route.destinations != [] && (forall d <- route.destinations :: HasEndpoint(d, urls))
     && NeverStops(UserRules(route)))
  }

  lemma {:induction false} TakeAllContinues(env: Env, actions: seq<Action>, st: State)
    requires forall a <- actions :: !a.ForwardInternal? && !a.Respond?
    ensures TakeAll(env, actions, st).FellThrough?
  {
    if actions != [] {
      assert actions[0] in actions;
      TakeAllContinues(env, actions[1..], Take(env, actions[0], st).at);
    }
  }

  lemma {:induction false} RunContinues(env: Env, rules: Policy, st: State)
    requires NeverStops(rules)
    ensures Run(env, rules, st).FellThrough?
  {
    if rules != [] {
      assert rules[0] in rules;
      TakeAllContinues(env, rules[0].actions, st);
      RunContinues(env, rules[1..], RunRule(env, rules[0], st).at);
    }
  }

  lemma {:induction false} DestinationRulesHold(ds: seq<Destination>, d: Destination)
    requires d in ds
    ensures forall r <- Flatten(d.policies) :: r in DestinationRules(ds)
  {
    if d != ds[0] {
      assert ds == [ds[0]] + ds[1..];
      DestinationRulesHold(ds[1..], d);
    }
  }

  /** The first match decides: where all destinations have services and no policy stops, exactly the first
      accepting route and the destination its draw selects serve the request. */
  lemma {:induction false} FirstMatchDecides(env: Env, routes: seq<Route>, original: Option<Request>, urls: UrlTable,
                                             st: State)
    requires DrawsInRange(env) && forall route <- routes :: Weighted(route) && LeadsToServices(route, urls)
    ensures var v := AtRoutes(env, routes, original, urls, st);
            match FirstMatch(env, routes, Shown(original, st))
            case None => v == Passed(st)
            case Some(route) =>
              && route in routes && v.Served? && v == AtRoute(env, route, urls, st)
              && exists d <- route.destinations :: HasEndpoint(d, urls) && v.key == Key(d.upstream.value)
  {
    hide Accepts, NeedsCapture, NeverStops;
    if routes != [] {
      var route := routes[0];
      assert route in routes;
      if Skipped(route) {
        SkippedRuns(env, route, false, urls, st);
        FirstMatchDecides(env, routes[1..], original, urls, st);
      } else if Accepts(env, route.criteria, Shown(original, st)) {
        RouteServes(env, route, urls, st);
      } else {
        FirstMatchDecides(env, routes[1..], original, urls, st);
      }
    }
  }

  lemma RouteServes(env: Env, route: Route, urls: UrlTable, st: State)
    requires DrawsInRange(env) && Weighted(route) && LeadsToServices(route, urls) && !Skipped(route)
    ensures var v := AtRoute(env, route, urls, st);
            v.Served? && exists d <- route.destinations :: HasEndpoint(d, urls) && v.key == Key(d.upstream.value)
  {
    hide Run;
    var ds := route.destinations;
    RunContinues(env, Flatten(route.policies), st);
    var s := Run(env, Flatten(route.policies), st).at;
    var j := if |ds| == 1 then 0 else Selected(ds, env.draw(s.draws, TotalWeight(ds) - 1));
    var next := if |ds| == 1 then s else s.(draws := s.draws + 1);
    assert ds[j] in ds;
    DestinationRulesHold(ds, ds[j]);
    RunContinues(env, Flatten(ds[j].policies), next);
  }

  // ----- guards that hold throughout

  /** A test of the drawn number, which no user policy can change. */
  predicate OnDraw(e: Expr) {
    e.DrawAtMost? || e.DrawBetween?
  }

  lemma GuardedAt(rules: Policy, guards: seq<Expr>)
    requires rules != []
    ensures |Guarded(rules, guards)| == |rules|
    ensures Guarded(rules, guards)[0] == rules[0].(exprs := AppendUnique(rules[0].exprs, guards))
    ensures Guarded(rules, guards)[1..] == Guarded(rules[1..], guards)
  {
  }

  lemma GuardedNone(guards: seq<Expr>, weighted: seq<Expr>)
    ensures Guarded(Guarded([], guards), weighted) == []
  {
  }

  /** Guarded rules do nothing where some guard fails, whatever else was appended to them. */
  lemma GuardedNothing(env: Env, rules: Policy, guards: seq<Expr>, weighted: seq<Expr>, st: State)
    requires !AllHold(env, guards, st) || !AllHold(env, weighted, st)
    ensures Run(env, Guarded(Guarded(rules, guards), weighted), st) == FellThrough(st)
  {
    var g := Guarded(rules, guards);
    forall r <- Guarded(g, weighted)
      ensures !AllHold(env, r.exprs, st)
    {
      var i :| 0 <= i < |g| && r == Guarded(g, weighted)[i];
      AppendUniqueIsConjunction(env, rules[i].exprs, guards, st);
      AppendUniqueIsConjunction(env, g[i].exprs, weighted, st);
    }
    RunNothing(env, Guarded(g, weighted), st);
  }

  /** Where the route matches and the draw selects, guarded user rules run as if they were not guarded. */
  lemma {:induction false} GuardedRuns(env: Env, rules: Policy, criteria: Option<Criteria>, src: Source,
                                       weighted: seq<Expr>, st: State, req: Request)
    requires Tame(rules, criteria, src)
    requires Sees(criteria, src, st, req) && Accepts(env, criteria, req)
    requires AllHold(env, weighted, st) && forall e <- weighted :: OnDraw(e)
    ensures Run(env, Guarded(Guarded(rules, MatchExprs(criteria, src)), weighted), st) == Run(env, rules, st)
  {
    hide MatchExprs, Guarded, Accepts, Sees, Tame;
    var guards := MatchExprs(criteria, src);
    if rules == [] {
      GuardedNone(guards, weighted);
    } else {
      var r := rules[0];
      GuardedAt(rules, guards);
      GuardedAt(Guarded(rules, guards), weighted);
      MatchExprsMeaning(env, criteria, src, st, req);
      AppendUniqueIsConjunction(env, r.exprs, guards, st);
      AppendUniqueIsConjunction(env, AppendUnique(r.exprs, guards), weighted, st);
      var next := RunRule(env, r, st).at;
      GuardedStep(env, rules, criteria, src, weighted, st, req);
      GuardedRuns(env, rules[1..], criteria, src, weighted, next, req);
    }
  }

  /** One rule leaves the guards of the rest as they were. */
  lemma GuardedStep(env: Env, rules: Policy, criteria: Option<Criteria>, src: Source, weighted: seq<Expr>, st: State,
                    req: Request)
    requires rules != [] && Tame(rules, criteria, src) && Sees(criteria, src, st, req)
    requires AllHold(env, weighted, st) && forall e <- weighted :: OnDraw(e)
    ensures var next := RunRule(env, rules[0], st).at;
            Sees(criteria, src, next, req) && AllHold(env, weighted, next) && Tame(rules[1..], criteria, src)
  {
    var r := rules[0];
    TameParts([r], rules[1..], criteria, src);
    assert rules == [r] + rules[1..];
    RunKeepsSight(env, [r], criteria, src, st, req);
    RunKeepsOwn(env, [r], st);
    assert [r][1..] == [] && Run(env, [r], st).at == RunRule(env, r, st).at;
    DrawTestsKeep(env, weighted, st, RunRule(env, r, st).at);
  }

  lemma DrawTestsKeep(env: Env, weighted: seq<Expr>, st: State, next: State)
    requires AllHold(env, weighted, st) && next.vars.drawn == st.vars.drawn && forall e <- weighted :: OnDraw(e)
    ensures AllHold(env, weighted, next)
  {
    forall e <- weighted
      ensures Holds(env, e, next)
    {
      assert Holds(env, e, st);
    }
  }

  lemma GuardedMerged(first: Policy, second: Policy, guards: seq<Expr>)
    ensures Guarded(first + second, guards) == Guarded(first, guards) + Guarded(second, guards)
  {
  }

  lemma GuardedByNothing(rules: Policy)
    ensures Guarded(rules, []) == rules
  {
    forall i | 0 <= i < |rules|
      ensures Guarded(rules, [])[i] == rules[i]
    {
      assert AppendUnique(rules[i].exprs, []) == rules[i].exprs;
    }
  }

  // ----- one destination, then several

  lemma ForwardFires(env: Env, url: Urls.Url, guards: seq<Expr>, weighted: seq<Expr>, st: State)
    requires AllHold(env, guards, st) && AllHold(env, weighted, st)
    ensures Run(env, Guarded(Guarded([ForwardRule("Generated-Route", url)], guards), weighted), st)
         == Forwarded(url, st)
  {
    var rules := [ForwardRule("Generated-Route", url)];
    GuardedAt(rules, guards);
    GuardedAt(Guarded(rules, guards), weighted);
    AppendUniqueIsConjunction(env, [], guards, st);
    AppendUniqueIsConjunction(env, AppendUnique([], guards), weighted, st);
  }

  /** The captured request, and the method, which nothing changes. */
  ghost predicate SameMemory(a: State, b: State) {
    && a.vars.path == b.vars.path && a.vars.headers == b.vars.headers && a.vars.query == b.vars.query
    && a.req.verb == b.req.verb
  }

  lemma RunKeepsMemory(env: Env, rules: Policy, st: State)
    requires IsUserPolicy(rules)
    ensures SameMemory(Run(env, rules, st).at, st) && Run(env, rules, st).at.vars.drawn == st.vars.drawn
  {
    RunKeepsOwn(env, rules, st);
    RunKeepsSight(env, rules, None, Captured, st, st.req);
  }

  /** The run ended as the verdict says, and still remembers the captured request. */
  ghost predicate Realises(o: Outcome, v: Verdict, urls: UrlTable, st: State)
    requires Proper(v, urls)
  {
    EraseOutcome(o) == OutcomeOf(v, urls) && SameMemory(o.at, st)
  }

  lemma OneDestinationRuns(env: Env, d: Destination, weighted: seq<Expr>, criteria: Option<Criteria>, src: Source,
                           urls: UrlTable, st: State, req: Request)
    requires Tame(Flatten(d.policies), criteria, src)
    requires Sees(criteria, src, st, req) && Accepts(env, criteria, req)
    requires AllHold(env, weighted, st) && forall e <- weighted :: OnDraw(e)
    ensures var o := Run(env, OneDestination(d, weighted, MatchExprs(criteria, src), None, urls), st);
            && Realises(o, AtDestination(env, d, urls, Erase(st)), urls, st)
            && o.at.vars.drawn == st.vars.drawn
  {
    hide MatchExprs, Accepts, Sees, Run, Guarded, UpstreamRules;
    var guards := MatchExprs(criteria, src);
    var rules, last := Flatten(d.policies), UpstreamRules(d, None, urls);
    GuardedMerged(rules, last, guards);
    GuardedMerged(Guarded(rules, guards), Guarded(last, guards), weighted);
    RunMerged(env, Guarded(Guarded(rules, guards), weighted), Guarded(Guarded(last, guards), weighted), st);
    GuardedRuns(env, rules, criteria, src, weighted, st, req);
    RunKeepsSight(env, rules, criteria, src, st, req);
    RunKeepsMemory(env, rules, st);
    RunIgnoresOwn(env, rules, st, NO_VARS);
    var s := Run(env, rules, st).at;
    MatchExprsMeaning(env, criteria, src, s, req);
    DrawTestsKeep(env, weighted, st, s);
    UpstreamRuns(env, d, urls, guards, weighted, s);
  }

  lemma UpstreamRuns(env: Env, d: Destination, urls: UrlTable, guards: seq<Expr>, weighted: seq<Expr>, st: State)
    requires AllHold(env, guards, st) && AllHold(env, weighted, st)
    ensures Run(env, Guarded(Guarded(UpstreamRules(d, None, urls), guards), weighted), st)
         == if HasEndpoint(d, urls) then Forwarded(urls[Key(d.upstream.value)], st) else FellThrough(st)
  {
    if HasEndpoint(d, urls) {
      ForwardFires(env, urls[Key(d.upstream.value)], guards, weighted, st);
    } else {
      GuardedNone(guards, weighted);
    }
  }

  predicate Tame(rules: Policy, criteria: Option<Criteria>, src: Source) {
    IsUserPolicy(rules) && StableUnder(src, rules, criteria)
  }

  lemma TameParts(first: Policy, second: Policy, criteria: Option<Criteria>, src: Source)
    requires Tame(first + second, criteria, src)
    ensures Tame(first, criteria, src) && Tame(second, criteria, src)
  {
    assert forall r <- first :: r in first + second;
    assert forall r <- second :: r in first + second;
  }

  lemma RangeSelects(env: Env, lower: int, w: int, st: State)
    requires st.vars.drawn.Some? && 0 <= lower <= st.vars.drawn.value
    ensures AllHold(env, [WeightExpr(lower, w)], st) <==> st.vars.drawn.value < lower + w
    ensures forall e <- [WeightExpr(lower, w)] :: OnDraw(e)
  {
    assert WeightExpr(lower, w) in [WeightExpr(lower, w)];
  }

  /** Destinations laid after the draw do nothing. */
  lemma {:induction false} DestinationsBeyond(env: Env, ds: seq<Destination>, lower: int, guards: seq<Expr>,
                                              urls: UrlTable, st: State)
    requires forall d <- ds :: 0 <= Weight(d)
    requires st.vars.drawn.Some? && 0 <= st.vars.drawn.value < lower
    ensures Run(env, Destinations(ds, lower, true, guards, None, urls), st) == FellThrough(st)
    decreases |ds|
  {
    hide Guarded;
    if ds != [] {
      var w := Weight(ds[0]);
      var weighted := [WeightExpr(lower, w)];
      assert WeightExpr(lower, w) in weighted && ds[0] in ds;
      GuardedNothing(env, Flatten(ds[0].policies) + UpstreamRules(ds[0], None, urls), guards, weighted, st);
      DestinationsBeyond(env, ds[1..], lower + w, guards, urls, st);
      RunMerged(env, OneDestination(ds[0], weighted, guards, None, urls),
                Destinations(ds[1..], lower + w, true, guards, None, urls), st);
    }
  }

  lemma FirstDestinationRuns(env: Env, ds: seq<Destination>, lower: int, criteria: Option<Criteria>, src: Source,
                             urls: UrlTable, st: State, req: Request)
    requires ds != [] && (forall d <- ds :: 0 <= Weight(d)) && Tame(Flatten(ds[0].policies), criteria, src)
    requires Sees(criteria, src, st, req) && Accepts(env, criteria, req)
    requires st.vars.drawn.Some? && 0 <= lower <= st.vars.drawn.value < lower + Weight(ds[0])
    ensures Realises(Run(env, Destinations(ds, lower, true, MatchExprs(criteria, src), None, urls), st),
                     AtDestination(env, ds[0], urls, Erase(st)), urls, st)
  {
    hide Run, Guarded, Realises, AtDestination, Tame, Sees, Accepts, MatchExprs, OneDestination;
    var guards, w := MatchExprs(criteria, src), Weight(ds[0]);
    var weighted := [WeightExpr(lower, w)];
    RangeSelects(env, lower, w, st);
    OneDestinationRuns(env, ds[0], weighted, criteria, src, urls, st, req);
    var first := OneDestination(ds[0], weighted, guards, None, urls);
    DestinationsBeyond(env, ds[1..], lower + w, guards, urls, Run(env, first, st).at);
    RunMerged(env, first, Destinations(ds[1..], lower + w, true, guards, None, urls), st);
  }

  lemma FirstDestinationSkipped(env: Env, ds: seq<Destination>, lower: int, guards: seq<Expr>, urls: UrlTable,
                                st: State)
    requires ds != []
    requires st.vars.drawn.Some? && 0 <= lower && lower + Weight(ds[0]) <= st.vars.drawn.value && 0 <= Weight(ds[0])
    ensures Run(env, Destinations(ds, lower, true, guards, None, urls), st)
         == Run(env, Destinations(ds[1..], lower + Weight(ds[0]), true, guards, None, urls), st)
  {
    hide Run, Guarded;
    var w := Weight(ds[0]);
    var weighted := [WeightExpr(lower, w)];
    RangeSelects(env, lower, w, st);
    GuardedNothing(env, Flatten(ds[0].policies) + UpstreamRules(ds[0], None, urls), guards, weighted, st);
    RunMerged(env, OneDestination(ds[0], weighted, guards, None, urls),
              Destinations(ds[1..], lower + w, true, guards, None, urls), st);
  }

  /** The emitted range expressions send a draw to the destination it selects. */
  lemma {:induction false} DestinationsRun(env: Env, ds: seq<Destination>, lower: int, criteria: Option<Criteria>,
                                           src: Source, urls: UrlTable, st: State, req: Request)
    requires forall d <- ds :: 0 <= Weight(d)
    requires Tame(DestinationRules(ds), criteria, src)
    requires Sees(criteria, src, st, req) && Accepts(env, criteria, req)
    requires st.vars.drawn.Some? && 0 <= lower <= st.vars.drawn.value < lower + TotalWeight(ds)
    ensures Realises(Run(env, Destinations(ds, lower, true, MatchExprs(criteria, src), None, urls), st),
                     AtDestination(env, ds[Selected(ds, st.vars.drawn.value - lower)], urls, Erase(st)), urls, st)
    decreases |ds|
  {
    hide Run, Destinations, MatchExprs, Accepts, Sees, Tame, Flatten, AtDestination, Realises, Erase;
    var guards, d, w, x := MatchExprs(criteria, src), ds[0], Weight(ds[0]), st.vars.drawn.value;
    assert d in ds;
    TameParts(Flatten(d.policies), DestinationRules(ds[1..]), criteria, src);
    if x < lower + w {
      FirstDestinationRuns(env, ds, lower, criteria, src, urls, st, req);
    } else {
      FirstDestinationSkipped(env, ds, lower, guards, urls, st);
      DestinationsRun(env, ds[1..], lower + w, criteria, src, urls, st, req);
    }
  }

  // ----- one route, then all of them

  lemma VerboseGuards(criteria: Option<Criteria>, capture: bool)
    ensures Guards(criteria, capture, None) == MatchExprs(criteria, SourceFor(capture))
  {
  }

  lemma DestinationsNothing(env: Env, ds: seq<Destination>, lower: int, many: bool, guards: seq<Expr>,
                            collapse: Option<ServiceKey>, urls: UrlTable, st: State)
    requires !AllHold(env, guards, st)
    ensures Run(env, Destinations(ds, lower, many, guards, collapse, urls), st) == FellThrough(st)
    decreases |ds|
  {
    if ds != [] {
      var weighted := if many then [WeightExpr(lower, Weight(ds[0]))] else [];
      var next := if many then lower + Weight(ds[0]) else lower;
      GuardedNothing(env, Flatten(ds[0].policies) + UpstreamRules(ds[0], collapse, urls), guards, weighted, st);
      DestinationsNothing(env, ds[1..], next, many, guards, collapse, urls, st);
      RunMerged(env, OneDestination(ds[0], weighted, guards, collapse, urls),
                Destinations(ds[1..], next, many, guards, collapse, urls), st);
    }
  }

  /** A route that does not accept the request leaves no mark on the run. */
  lemma RouteNothing(env: Env, route: Route, capture: bool, urls: UrlTable, st: State, req: Request)
    requires Sees(route.criteria, SourceFor(capture), st, req)
    requires !Accepts(env, route.criteria, req)
    ensures Run(env, RouteRules(route, capture, None, urls), st) == FellThrough(st)
  {
    var src := SourceFor(capture);
    var guards := MatchExprs(route.criteria, src);
    var ds := route.destinations;
    VerboseGuards(route.criteria, capture);
    MatchExprsMeaning(env, route.criteria, src, st, req);
    GuardedNothing(env, Flatten(route.policies), guards, [], st);
    GuardedByNothing(Guarded(Flatten(route.policies), guards));
    RunNothing(env, DrawRules(ds, guards), st);
    DestinationsNothing(env, ds, 0, |ds| > 1, guards, None, urls, st);
    RunMerged(env, Guarded(Flatten(route.policies), guards), DrawRules(ds, guards), st);
    RunMerged(env, Guarded(Flatten(route.policies), guards) + DrawRules(ds, guards),
              Destinations(ds, 0, |ds| > 1, guards, None, urls), st);
  }

  lemma DrawFires(env: Env, ds: seq<Destination>, guards: seq<Expr>, st: State)
    requires |ds| > 1 && Weighable(ds)
    requires AllHold(env, guards, st)
    ensures Run(env, DrawRules(ds, guards), st)
         == FellThrough(st.(vars := st.vars.(drawn := Some(env.draw(st.draws, TotalWeight(ds) - 1))),
                            draws := st.draws + 1))
  {
    RunSingle(env, "Gen-Random-Number", guards, Draw(TotalWeight(ds) - 1), st);
  }

  lemma SingleDestinationRuns(env: Env, ds: seq<Destination>, criteria: Option<Criteria>, src: Source, urls: UrlTable,
                              st: State, req: Request)
    requires |ds| == 1 && Tame(DestinationRules(ds), criteria, src)
    requires Sees(criteria, src, st, req) && Accepts(env, criteria, req)
    ensures Realises(Run(env, Destinations(ds, 0, false, MatchExprs(criteria, src), None, urls), st),
                     AtDestination(env, ds[0], urls, Erase(st)), urls, st)
  {
    hide Run, MatchExprs, Accepts, Sees, Tame, AtDestination, Realises, OneDestination;
    var guards := MatchExprs(criteria, src);
    assert Destinations(ds, 0, false, guards, None, urls) == OneDestination(ds[0], [], guards, None, urls);
    TameParts(Flatten(ds[0].policies), DestinationRules(ds[1..]), criteria, src);
    OneDestinationRuns(env, ds[0], [], criteria, src, urls, st, req);
  }

  lemma ChoiceRuns(env: Env, ds: seq<Destination>, criteria: Option<Criteria>, src: Source, urls: UrlTable,
                   st: State, req: Request)
    requires DrawsInRange(env)
    requires |ds| > 1 ==> Weighable(ds)
    requires Tame(DestinationRules(ds), criteria, src)
    requires Sees(criteria, src, st, req) && Accepts(env, criteria, req)
    ensures var guards := MatchExprs(criteria, src);
            var rules := DrawRules(ds, guards) + Destinations(ds, 0, |ds| > 1, guards, None, urls);
            Realises(Run(env, rules, st), Choose(env, ds, urls, Erase(st)), urls, st)
  {
    hide Run, Destinations, MatchExprs, Accepts, AllHold, Tame, DestinationRules;
    hide AtDestination, EraseOutcome, OutcomeOf;
    var guards := MatchExprs(criteria, src);
    var ending := Destinations(ds, 0, |ds| > 1, guards, None, urls);
    if ds == [] {
      NoDestinationsRun(env, guards, urls, st);
    } else if |ds| == 1 {
      assert DrawRules(ds, guards) + ending == ending;
      SingleDestinationRuns(env, ds, criteria, src, urls, st, req);
    } else {
      RunMerged(env, DrawRules(ds, guards), ending, st);
      MatchExprsMeaning(env, criteria, src, st, req);
      DrawFires(env, ds, guards, st);
      var drawn := Run(env, DrawRules(ds, guards), st).at;
      DestinationsRun(env, ds, 0, criteria, src, urls, drawn, req);
      assert Erase(drawn) == Erase(st).(draws := st.draws + 1);
    }
  }

  lemma NoDestinationsRun(env: Env, guards: seq<Expr>, urls: UrlTable, st: State)
    ensures Realises(Run(env, DrawRules([], guards) + Destinations([], 0, false, guards, None, urls), st),
                     Passed(Erase(st)), urls, st)
  {
    assert DrawRules([], guards) + Destinations([], 0, false, guards, None, urls) == [];
  }

  /** A route that accepts the request runs its policies and what its destinations choose. */
  lemma RouteRuns(env: Env, route: Route, capture: bool, urls: UrlTable, st: State, req: Request)
    requires DrawsInRange(env)
    requires Weighted(route) && !Skipped(route)
    requires Tame(UserRules(route), route.criteria, SourceFor(capture))
    requires Sees(route.criteria, SourceFor(capture), st, req)
    requires Accepts(env, route.criteria, req)
    ensures Realises(Run(env, RouteRules(route, capture, None, urls), st), AtRoute(env, route, urls, Erase(st)), urls,
                     st)
  {
    hide Run, Destinations, MatchExprs, DestinationRules, Flatten, Guarded, Accepts, Choose, Sees, Tame;
    var src := SourceFor(capture);
    var guards := MatchExprs(route.criteria, src);
    var ds := route.destinations;
    var policies := Flatten(route.policies);
    var ending := DrawRules(ds, guards) + Destinations(ds, 0, |ds| > 1, guards, None, urls);
    VerboseGuards(route.criteria, capture);
    TameParts(policies, DestinationRules(ds), route.criteria, src);
    NoDrawTests(env, st);
    GuardedRuns(env, policies, route.criteria, src, [], st, req);
    GuardedByNothing(Guarded(policies, guards));
    TameIsUser(policies, route.criteria, src);
    RunKeepsSight(env, policies, route.criteria, src, st, req);
    RunKeepsMemory(env, policies, st);
    RunIgnoresOwn(env, policies, st, NO_VARS);
    assert RouteRules(route, capture, None, urls) == Guarded(policies, guards) + ending;
    RunMerged(env, Guarded(policies, guards), ending, st);
    ChoiceRuns(env, ds, route.criteria, src, urls, Run(env, policies, st).at, req);
  }

  lemma NoDrawTests(env: Env, st: State)
    ensures AllHold(env, [], st)
  {
  }

  lemma TameIsUser(rules: Policy, criteria: Option<Criteria>, src: Source)
    requires Tame(rules, criteria, src)
    ensures IsUserPolicy(rules) && StableUnder(src, rules, criteria)
  {
  }

  /** The run remembers the request it started from, where that was captured. */
  ghost predicate Remembers(original: Option<Request>, st: State) {
    original.Some? ==>
      && st.vars.path == Some(original.value.path) && st.vars.headers == Some(original.value.headers)
      && st.vars.query == Some(original.value.query) && st.req.verb == original.value.verb
  }

  lemma RemembersSees(original: Option<Request>, criteria: Option<Criteria>, st: State)
    requires Remembers(original, st)
    ensures Sees(criteria, SourceFor(original.Some?), st, Shown(original, st))
  {
  }

  /** The routes' rules together decide as the reference does. */
  lemma {:induction false} RoutesRun(env: Env, routes: seq<Route>, original: Option<Request>, urls: UrlTable, st: State)
    requires DrawsInRange(env)
    requires forall route <- routes :: Weighted(route)
    requires forall route <- routes :: Tame(UserRules(route), route.criteria, SourceFor(original.Some?))
    requires Remembers(original, st)
    ensures Realises(Run(env, AllRouteRules(routes, original.Some?, None, urls), st),
                     AtRoutes(env, routes, original, urls, Erase(st)), urls, st)
  {
    hide Run, RouteRules, Accepts, Tame, AtRoute, Sees, Weighted;
    if routes == [] {
      RunNothing(env, [], st);
    } else {
      var route, capture := routes[0], original.Some?;
      assert route in routes;
      var first, rest := RouteRules(route, capture, None, urls), AllRouteRules(routes[1..], capture, None, urls);
      RunMerged(env, first, rest, st);
      RemembersSees(original, route.criteria, st);
      assert Shown(original, st) == Shown(original, Erase(st));
      if Skipped(route) {
        SkippedRuns(env, route, capture, urls, st);
        RoutesRun(env, routes[1..], original, urls, st);
      } else if !Accepts(env, route.criteria, Shown(original, st)) {
        RouteNothing(env, route, capture, urls, st, Shown(original, st));
        RoutesRun(env, routes[1..], original, urls, st);
      } else {
        RouteRuns(env, route, capture, urls, st, Shown(original, st));
        var o := Run(env, first, st);
        if o.FellThrough? {
          RoutesRun(env, routes[1..], original, urls, o.at);
        }
      }
    }
  }

  lemma SkippedRuns(env: Env, route: Route, capture: bool, urls: UrlTable, st: State)
    requires Skipped(route) && Weighted(route) && DrawsInRange(env)
    ensures Run(env, RouteRules(route, capture, None, urls), st) == FellThrough(st)
    ensures forall s :: AtRoute(env, route, urls, s) == Passed(s)
  {
  }

  lemma DefaultRuns(env: Env, host: VirtualHost, urls: UrlTable, st: State)
    requires IsUserPolicy(DefaultPolicyRules(host.defaultDestination))
    ensures EraseOutcome(Run(env, DefaultPolicyRules(host.defaultDestination)
                                  + DefaultServiceRules(host.defaultDestination, None, urls)
                                  + [NotFoundRule(None)], st))
         == Otherwise(env, host, urls, Erase(st))
  {
    hide Run, DefaultPolicyRules, DefaultServiceRules;
    var policies := DefaultPolicyRules(host.defaultDestination);
    var service := DefaultServiceRules(host.defaultDestination, None, urls);
    RunIgnoresOwn(env, policies, st, NO_VARS);
    assert policies + service + [NotFoundRule(None)] == policies + (service + [NotFoundRule(None)]);
    RunMerged(env, policies, service + [NotFoundRule(None)], st);
    DefaultEnds(env, host.defaultDestination, urls, Run(env, policies, st).at);
  }

  lemma DefaultEnds(env: Env, d: Option<Destination>, urls: UrlTable, st: State)
    ensures Run(env, DefaultServiceRules(d, None, urls) + [NotFoundRule(None)], st)
         == if d.Some? && HasEndpoint(d.value, urls) then Forwarded(urls[Key(d.value.upstream.value)], st)
            else Responded(404, st)
  {
    RunMerged(env, DefaultServiceRules(d, None, urls), [NotFoundRule(None)], st);
    if d.Some? && d.value.upstream.Some? {
      GuardedByNothing(ServiceRules("Generated-Route-Default-Backend", "Generated-Route-Default-Backend",
                                    d.value.upstream.value, None, urls));
    }
  }

  /** Compiler correctness: on every request and every sequence of draws, the emitted rules do what the host
      means: routes in order, the accepting one's policies, the destination its draw selects, that one's
      policies and service; else the default destination, else the 404. */
  lemma CompilerCorrect(env: Env, host: VirtualHost, urls: UrlTable, st: State)
    requires DrawsInRange(env)
    requires AllWeighted(host) && WellBehaved(host)
    requires IsUserPolicy(DefaultPolicyRules(host.defaultDestination))
    ensures EraseOutcome(Run(env, Compiled(host, None, urls), st)) == Routed(env, host, urls, Erase(st))
  {
    hide Run, AllRouteRules, AtRoutes, DefaultPolicyRules, DefaultServiceRules, NeedsCapture, Otherwise;
    var routing := RoutingRules(host.routes, None, urls);
    var rest := DefaultPolicyRules(host.defaultDestination)
                + DefaultServiceRules(host.defaultDestination, None, urls) + [NotFoundRule(None)];
    assert Compiled(host, None, urls) == routing + rest;
    RunMerged(env, routing, rest, st);
    RoutingRuns(env, host, urls, st);
    DefaultRuns(env, host, urls, Run(env, routing, st).at);
  }

  /** The routing part of the policy, on its own. */
  lemma RoutingRuns(env: Env, host: VirtualHost, urls: UrlTable, st: State)
    requires DrawsInRange(env)
    requires AllWeighted(host) && WellBehaved(host)
    ensures EraseOutcome(Run(env, RoutingRules(host.routes, None, urls), st))
         == OutcomeOf(Decision(env, host, urls, Erase(st)), urls)
  {
    hide Run, AllRouteRules, AtRoutes, NeedsCapture, Unprotected, StableUnder, IsUserPolicy;
    var capture := NeedsCapture(host.routes);
    var original := if capture then Some(st.req) else None;
    var routes := AllRouteRules(host.routes, capture, None, urls);
    assert RoutingRules(host.routes, None, urls) == CaptureRules(capture) + routes;
    CaptureFires(env, capture, st);
    var start := Run(env, CaptureRules(capture), st).at;
    RunMerged(env, CaptureRules(capture), routes, st);
    forall route <- host.routes
      ensures Tame(UserRules(route), route.criteria, SourceFor(capture))
    {
      CaptureIsEnough(host.routes, route);
    }
    RoutesRun(env, host.routes, original, urls, start);
    assert Erase(start) == Erase(st);
  }

  lemma CaptureFires(env: Env, capture: bool, st: State)
    ensures var o := Run(env, CaptureRules(capture), st);
            && o.FellThrough?
            && o.at == WithOwn(st, o.at.vars)
            && Remembers(if capture then Some(st.req) else None, o.at)
  {
    if capture {
      RunSingle(env, "Capture-Original-Request-Data", [], CaptureOriginals, st);
    }
  }
}
