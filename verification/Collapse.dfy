/** Collapsing a virtual host into the agent endpoint of one of its services preserves its meaning. */
module Collapse {
  import opened Options
  import opened Urls
  import opened TrafficPolicy
  import opened IR
  import opened ServiceKeys
  import opened Routing
  import opened Matching
  import opened UserPolicies
  import opened Compiler

  // ----- what a policy run means on each kind of listener

  datatype Delivery = ToUpstream(url: Url, at: State) | Replied(status: int, at: State) | Nowhere

  /** A cloud endpoint has no upstream of its own. */
  function OnCloudEndpoint(o: Outcome): Delivery {
    match o
    case Forwarded(url, st) => ToUpstream(url, Erase(st))
    case Responded(status, st) => Replied(status, Erase(st))
    case FellThrough(_) => Nowhere
  }

  /** A collapsed agent endpoint hands whatever falls through to its local service. */
  function OnAgentEndpoint(o: Outcome, local: Url): Delivery {
    match o
    case Forwarded(url, st) => ToUpstream(url, Erase(st))
    case Responded(status, st) => Replied(status, Erase(st))
    case FellThrough(st) => ToUpstream(local, Erase(st))
  }

  // ----- the local-match variable

  function Mark(st: State, b: bool): State {
    st.(vars := st.vars.(matchedLocally := Some(b)))
  }

  function MarkOutcome(o: Outcome, b: bool): Outcome {
    o.(at := Mark(o.at, b))
  }

  predicate NeverMarks(actions: seq<Action>) {
    forall a <- actions :: !a.SetMatchedLocally?
  }

  lemma {:induction false} TakeAllMarked(env: Env, actions: seq<Action>, st: State, b: bool)
    requires NeverMarks(actions)
    ensures TakeAll(env, actions, Mark(st, b)) == MarkOutcome(TakeAll(env, actions, st), b)
  {
    if actions != [] {
      assert actions[0] in actions;
      assert Take(env, actions[0], Mark(st, b)) == MarkOutcome(Take(env, actions[0], st), b);
      match Take(env, actions[0], st)
      case FellThrough(next) => TakeAllMarked(env, actions[1..], next, b);
      case stopped =>
    }
  }

  lemma RunMarked(env: Env, rules: Policy, st: State, b: bool)
    requires IsUserPolicy(rules)
    ensures Run(env, rules, Mark(st, b)) == MarkOutcome(Run(env, rules, st), b)
  {
    RunIgnoresOwn(env, rules, st, Mark(st, b).vars);
    RunKeepsOwn(env, rules, st);
  }

  // ----- the two compilations, rule by rule

  /** Same actions; or, in place of forwarding to the local service's endpoint, marking a local match. */
  predicate Alike(collapsed: Rule, verbose: Rule, local: Url) {
    || (collapsed.actions == verbose.actions && NeverMarks(verbose.actions))
    || (collapsed.actions == [SetMatchedLocally(true)] && verbose.actions == [ForwardInternal(local)])
  }

  /** The same tests, to which the collapsed rule adds that nothing matched locally yet. */
  ghost predicate Twin(collapsed: Rule, verbose: Rule, local: Url) {
    && Alike(collapsed, verbose, local)
    && NotMatchedLocally !in verbose.exprs
    && (forall e :: e in collapsed.exprs <==> e in verbose.exprs || e == NotMatchedLocally)
  }

  ghost predicate Twins(collapsed: Policy, verbose: Policy, local: Url) {
    && |collapsed| == |verbose|
    && forall i :: 0 <= i < |verbose| ==> Twin(collapsed[i], verbose[i], local)
  }

  ghost predicate SameEnd(collapsed: Outcome, verbose: Outcome, local: Url) {
    || collapsed == MarkOutcome(verbose, false)
    || (verbose == Forwarded(local, verbose.at) && collapsed == FellThrough(Mark(verbose.at, true)))
  }

  lemma TwinHolds(env: Env, collapsed: Rule, verbose: Rule, local: Url, st: State)
    requires Twin(collapsed, verbose, local)
    ensures AllHold(env, collapsed.exprs, Mark(st, false)) == AllHold(env, verbose.exprs, st)
    ensures !AllHold(env, collapsed.exprs, Mark(st, true))
  {
    assert forall e | e != NotMatchedLocally :: Holds(env, e, Mark(st, false)) == Holds(env, e, st);
    assert NotMatchedLocally in collapsed.exprs;
  }

  /** After a local match no collapsed rule fires any more. */
  lemma TwinsSilent(env: Env, collapsed: Policy, verbose: Policy, local: Url, st: State)
    requires Twins(collapsed, verbose, local)
    ensures Run(env, collapsed, Mark(st, true)) == FellThrough(Mark(st, true))
  {
    forall r <- collapsed
      ensures !AllHold(env, r.exprs, Mark(st, true))
    {
      var i :| 0 <= i < |collapsed| && collapsed[i] == r;
      TwinHolds(env, r, verbose[i], local, st);
    }
    RunNothing(env, collapsed, Mark(st, true));
  }

  /** The two policies run in lockstep until one stops, or until the local service is matched. */
  lemma {:induction false} Lockstep(env: Env, collapsed: Policy, verbose: Policy, local: Url, st: State)
    requires Twins(collapsed, verbose, local)
    ensures SameEnd(Run(env, collapsed, Mark(st, false)), Run(env, verbose, st), local)
  {
    if verbose != [] {
      var c, v := collapsed[0], verbose[0];
      assert Twin(c, v, local);
      assert Twins(collapsed[1..], verbose[1..], local);
      TwinHolds(env, c, v, local, st);
      if !AllHold(env, v.exprs, st) {
        Lockstep(env, collapsed[1..], verbose[1..], local, st);
      } else if c.actions == v.actions && NeverMarks(v.actions) {
        TakeAllMarked(env, v.actions, st, false);
        match TakeAll(env, v.actions, st)
        case FellThrough(next) => Lockstep(env, collapsed[1..], verbose[1..], local, next);
        case stopped =>
      } else {
        assert c.actions[1..] == [] && v.actions[1..] == [];
        assert TakeAll(env, c.actions, Mark(st, false)) == FellThrough(Mark(st, true));
        assert TakeAll(env, v.actions, st) == Forwarded(local, st);
        TwinsSilent(env, collapsed[1..], verbose[1..], local, st);
      }
    }
  }

  // ----- the emitted rules are twins

  /** Before guards are added the two rules test the same things. */
  ghost predicate Siblings(collapsed: Policy, verbose: Policy, local: Url) {
    && |collapsed| == |verbose|
    && forall i :: 0 <= i < |verbose| ==>
         && Alike(collapsed[i], verbose[i], local)
         && collapsed[i].exprs == verbose[i].exprs
         && NotMatchedLocally !in verbose[i].exprs
  }

  lemma AppendUniqueElements(existing: seq<Expr>, items: seq<Expr>, e: Expr)
    ensures e in AppendUnique(existing, items) <==> e in existing || e in items
  {
    MissingElements(existing, items);
  }

  lemma SiblingsGuarded(collapsed: Policy, verbose: Policy, gc: seq<Expr>, gv: seq<Expr>, local: Url)
    requires Siblings(collapsed, verbose, local)
    requires NotMatchedLocally !in gv
    requires forall e :: e in gc <==> e in gv || e == NotMatchedLocally
    ensures Twins(Guarded(collapsed, gc), Guarded(verbose, gv), local)
  {
    forall i | 0 <= i < |verbose|
      ensures Twin(Guarded(collapsed, gc)[i], Guarded(verbose, gv)[i], local)
    {
      forall e
        ensures e in Guarded(collapsed, gc)[i].exprs <==> e in verbose[i].exprs || e in gc
        ensures e in Guarded(verbose, gv)[i].exprs <==> e in verbose[i].exprs || e in gv
      {
        AppendUniqueElements(verbose[i].exprs, gc, e);
        AppendUniqueElements(verbose[i].exprs, gv, e);
      }
    }
  }

  lemma TwinsGuarded(collapsed: Policy, verbose: Policy, more: seq<Expr>, local: Url)
    requires Twins(collapsed, verbose, local)
    requires NotMatchedLocally !in more
    ensures Twins(Guarded(collapsed, more), Guarded(verbose, more), local)
  {
    forall i | 0 <= i < |verbose|
      ensures Twin(Guarded(collapsed, more)[i], Guarded(verbose, more)[i], local)
    {
      assert Twin(collapsed[i], verbose[i], local);
      forall e
        ensures e in Guarded(collapsed, more)[i].exprs <==> e in collapsed[i].exprs || e in more
        ensures e in Guarded(verbose, more)[i].exprs <==> e in verbose[i].exprs || e in more
      {
        AppendUniqueElements(collapsed[i].exprs, more, e);
        AppendUniqueElements(verbose[i].exprs, more, e);
      }
    }
  }

  lemma TwinsMerged(c1: Policy, v1: Policy, c2: Policy, v2: Policy, local: Url)
    requires Twins(c1, v1, local) && Twins(c2, v2, local)
    ensures Twins(c1 + c2, v1 + v2, local)
  {
  }

  lemma {:induction false} HeaderExprsShape(acc: seq<Expr>, src: Source, ms: seq<Matcher>)
    requires NotMatchedLocally !in acc
    ensures NotMatchedLocally !in AddHeaderExprs(acc, src, ms)
    decreases |ms|
  {
    if ms != [] {
      AppendUniqueElements(acc, HeaderExpr(src, ms[0]), NotMatchedLocally);
      HeaderExprsShape(AppendUnique(acc, HeaderExpr(src, ms[0])), src, ms[1..]);
    }
  }

  lemma {:induction false} QueryExprsShape(acc: seq<Expr>, src: Source, ms: seq<Matcher>)
    requires NotMatchedLocally !in acc
    ensures NotMatchedLocally !in AddQueryExprs(acc, src, ms)
    decreases |ms|
  {
    if ms != [] {
      AppendUniqueElements(acc, QueryExpr(src, ms[0]), NotMatchedLocally);
      QueryExprsShape(AppendUnique(acc, QueryExpr(src, ms[0])), src, ms[1..]);
    }
  }

  lemma GuardsDiffer(criteria: Option<Criteria>, capture: bool, k: ServiceKey)
    ensures NotMatchedLocally !in Guards(criteria, capture, None)
    ensures forall e :: e in Guards(criteria, capture, Some(k))
                   <==> e in Guards(criteria, capture, None) || e == NotMatchedLocally
  {
    var src := SourceFor(capture);
    var exprs := MatchExprs(criteria, src);
    if criteria.Some? {
      var c := criteria.value;
      HeaderExprsShape(PathExprs(c, src), src, c.headers);
      QueryExprsShape(AddHeaderExprs(PathExprs(c, src), src, c.headers), src, c.query);
      AppendUniqueElements(AddQueryExprs(AddHeaderExprs(PathExprs(c, src), src, c.headers), src, c.query),
                           VerbExprs(c), NotMatchedLocally);
    }
    forall e
      ensures e in Guards(criteria, capture, Some(k)) <==> e in exprs || e in LOCALLY
      ensures e in Guards(criteria, capture, None) <==> e in exprs
    {
      AppendUniqueElements(exprs, LOCALLY, e);
      AppendUniqueElements(exprs, [], e);
    }
  }

  lemma UserSiblings(rules: Policy, local: Url)
    requires IsUserPolicy(rules)
    ensures Siblings(rules, rules, local)
  {
    forall i | 0 <= i < |rules|
      ensures Alike(rules[i], rules[i], local) && NotMatchedLocally !in rules[i].exprs
    {
      assert rules[i] in rules;
    }
  }

  lemma {:induction false} DestinationTwins(ds: seq<Destination>, lower: int, many: bool, gc: seq<Expr>, gv: seq<Expr>,
                                            k: ServiceKey, urls: UrlTable)
    requires k in urls && IsUserPolicy(DestinationRules(ds))
    requires NotMatchedLocally !in gv
    requires forall e :: e in gc <==> e in gv || e == NotMatchedLocally
    ensures Twins(Destinations(ds, lower, many, gc, Some(k), urls), Destinations(ds, lower, many, gv, None, urls),
                  urls[k])
    decreases |ds|
  {
    if ds != [] {
      var d := ds[0];
      var weighted := if many then [WeightExpr(lower, Weight(d))] else [];
      var next := if many then lower + Weight(d) else lower;
      var c := Flatten(d.policies) + UpstreamRules(d, Some(k), urls);
      var v := Flatten(d.policies) + UpstreamRules(d, None, urls);
      assert IsUserPolicy(Flatten(d.policies)) && IsUserPolicy(DestinationRules(ds[1..])) by {
        assert forall r <- Flatten(d.policies) :: r in DestinationRules(ds);
        assert forall r <- DestinationRules(ds[1..]) :: r in DestinationRules(ds);
      }
      UserSiblings(Flatten(d.policies), urls[k]);
      assert Siblings(c, v, urls[k]);
      SiblingsGuarded(c, v, gc, gv, urls[k]);
      TwinsGuarded(Guarded(c, gc), Guarded(v, gv), weighted, urls[k]);
      DestinationTwins(ds[1..], next, many, gc, gv, k, urls);
      TwinsMerged(OneDestination(d, weighted, gc, Some(k), urls), OneDestination(d, weighted, gv, None, urls),
                  Destinations(ds[1..], next, many, gc, Some(k), urls),
                  Destinations(ds[1..], next, many, gv, None, urls), urls[k]);
    }
  }

  lemma RouteTwins(route: Route, capture: bool, k: ServiceKey, urls: UrlTable)
    requires k in urls && IsUserPolicy(UserRules(route))
    ensures Twins(RouteRules(route, capture, Some(k), urls), RouteRules(route, capture, None, urls), urls[k])
  {
    hide Destinations, Guards, Guarded, Flatten, DestinationRules;
    if !Skipped(route) {
      var gc := Guards(route.criteria, capture, Some(k));
      var gv := Guards(route.criteria, capture, None);
      var ds, policies := route.destinations, Flatten(route.policies);
      assert IsUserPolicy(policies) && IsUserPolicy(DestinationRules(ds)) by {
        assert forall r <- policies :: r in UserRules(route);
        assert forall r <- DestinationRules(ds) :: r in UserRules(route);
      }
      GuardsDiffer(route.criteria, capture, k);
      UserSiblings(policies, urls[k]);
      SiblingsGuarded(policies, policies, gc, gv, urls[k]);
      DestinationTwins(ds, 0, |ds| > 1, gc, gv, k, urls);
      assert Twins(DrawRules(ds, gc), DrawRules(ds, gv), urls[k]);
      TwinsMerged(Guarded(policies, gc), Guarded(policies, gv), DrawRules(ds, gc), DrawRules(ds, gv), urls[k]);
      TwinsMerged(Guarded(policies, gc) + DrawRules(ds, gc), Guarded(policies, gv) + DrawRules(ds, gv),
                  Destinations(ds, 0, |ds| > 1, gc, Some(k), urls),
                  Destinations(ds, 0, |ds| > 1, gv, None, urls), urls[k]);
    }
  }

  lemma {:induction false} RoutesTwins(routes: seq<Route>, capture: bool, k: ServiceKey, urls: UrlTable)
    requires k in urls && forall route <- routes :: IsUserPolicy(UserRules(route))
    ensures Twins(AllRouteRules(routes, capture, Some(k), urls), AllRouteRules(routes, capture, None, urls), urls[k])
  {
    hide RouteRules;
    if routes != [] {
      assert routes[0] in routes;
      RouteTwins(routes[0], capture, k, urls);
      RoutesTwins(routes[1..], capture, k, urls);
      TwinsMerged(RouteRules(routes[0], capture, Some(k), urls), RouteRules(routes[0], capture, None, urls),
                  AllRouteRules(routes[1..], capture, Some(k), urls), AllRouteRules(routes[1..], capture, None, urls),
                  urls[k]);
    }
  }

  lemma DefaultTwins(d: Option<Destination>, k: ServiceKey, urls: UrlTable)
    requires k in urls
    ensures Twins(DefaultServiceRules(d, Some(k), urls) + [NotFoundRule(Some(k))],
                  DefaultServiceRules(d, None, urls) + [NotFoundRule(None)], urls[k])
  {
    if d.Some? && d.value.upstream.Some? {
      var name := "Generated-Route-Default-Backend";
      var s := d.value.upstream.value;
      SiblingsGuarded(ServiceRules(name, name, s, Some(k), urls), ServiceRules(name, name, s, None, urls),
                      LOCALLY, [], urls[k]);
    }
  }

  // ----- the theorem

  lemma InitFires(env: Env, k: ServiceKey, st: State)
    ensures Run(env, InitRules(Some(k)), st) == FellThrough(Mark(st, false))
  {
    RunSingle(env, "Initialize-Local-Service-Match", [], SetMatchedLocally(false), st);
  }

  /** Captured or not, the routes start from the same request. */
  lemma RoutingLockstep(env: Env, routes: seq<Route>, k: ServiceKey, urls: UrlTable, st: State)
    requires k in urls && forall route <- routes :: IsUserPolicy(UserRules(route))
    ensures SameEnd(Run(env, RoutingRules(routes, Some(k), urls), st), Run(env, RoutingRules(routes, None, urls), st),
                    urls[k])
  {
    hide Run, AllRouteRules;
    var capture := NeedsCapture(routes);
    var c, v := AllRouteRules(routes, capture, Some(k), urls), AllRouteRules(routes, capture, None, urls);
    var captured := CaptureRules(capture);
    InitFires(env, k, st);
    CaptureFires(env, capture, st);
    CaptureFires(env, capture, Mark(st, false));
    assert Run(env, captured, Mark(st, false)).at == Mark(Run(env, captured, st).at, false) by {
      if capture {
        RunSingle(env, "Capture-Original-Request-Data", [], CaptureOriginals, st);
        RunSingle(env, "Capture-Original-Request-Data", [], CaptureOriginals, Mark(st, false));
      } else {
        RunNothing(env, [], st);
        RunNothing(env, [], Mark(st, false));
      }
    }
    RoutesTwins(routes, capture, k, urls);
    Lockstep(env, c, v, urls[k], Run(env, captured, st).at);
    assert RoutingRules(routes, Some(k), urls) == InitRules(Some(k)) + (captured + c);
    assert RoutingRules(routes, None, urls) == captured + v;
    RunMerged(env, InitRules(Some(k)), captured + c, st);
    RunMerged(env, captured, c, Mark(st, false));
    RunMerged(env, captured, v, st);
  }

  /** The emitted routing rules marked the request as matched by the service the host collapses into. */
  ghost predicate RouteMatchedLocally(env: Env, host: VirtualHost, k: ServiceKey, urls: UrlTable, st: State) {
    var o := Run(env, RoutingRules(host.routes, Some(k), urls), st);
    o.FellThrough? && o.at.vars.matchedLocally == Some(true)
  }

  /** Exactly what collapsing does: every request ends as in the verbose policy, except that after a route
      matched the local service the rules of the default destination's own policies still run. */
  lemma CollapseExactly(env: Env, host: VirtualHost, k: ServiceKey, urls: UrlTable, st: State)
    requires k in urls && forall route <- host.routes :: IsUserPolicy(UserRules(route))
    requires IsUserPolicy(DefaultPolicyRules(host.defaultDestination))
    ensures var c, v := Run(env, Compiled(host, Some(k), urls), st), Run(env, Compiled(host, None, urls), st);
            if RouteMatchedLocally(env, host, k, urls, st) then
              && v == Forwarded(urls[k], v.at)
              && c == Run(env, DefaultPolicyRules(host.defaultDestination), Mark(v.at, true))
            else SameEnd(c, v, urls[k])
  {
    hide Run, RoutingRules, DefaultPolicyRules, DefaultServiceRules, NotFoundRule;
    var d := host.defaultDestination;
    var rc, rv := RoutingRules(host.routes, Some(k), urls), RoutingRules(host.routes, None, urls);
    var policies := DefaultPolicyRules(d);
    var tc := DefaultServiceRules(d, Some(k), urls) + [NotFoundRule(Some(k))];
    var tv := DefaultServiceRules(d, None, urls) + [NotFoundRule(None)];
    assert Compiled(host, Some(k), urls) == rc + (policies + tc);
    assert Compiled(host, None, urls) == rv + (policies + tv);
    RoutingLockstep(env, host.routes, k, urls, st);
    DefaultTwins(d, k, urls);
    RunMerged(env, rc, policies + tc, st);
    RunMerged(env, rv, policies + tv, st);
    var s := Run(env, rv, st).at;
    if RouteMatchedLocally(env, host, k, urls, st) {
      RunMerged(env, policies, tc, Mark(s, true));
      RunMarked(env, policies, s, true);
      TwinsSilent(env, tc, tv, urls[k], Run(env, policies, s).at);
    } else {
      RunMerged(env, policies, tc, Mark(s, false));
      RunMerged(env, policies, tv, s);
      RunMarked(env, policies, s, false);
      Lockstep(env, tc, tv, urls[k], Run(env, policies, s).at);
    }
  }

  /** The verbose policy never falls through: its last rule answers 404 unconditionally. */
  lemma VerboseStops(env: Env, host: VirtualHost, urls: UrlTable, st: State)
    ensures !Run(env, Compiled(host, None, urls), st).FellThrough?
  {
    hide Run, RoutingRules, DefaultPolicyRules, DefaultServiceRules;
    var front := RoutingRules(host.routes, None, urls) + DefaultPolicyRules(host.defaultDestination)
                 + DefaultServiceRules(host.defaultDestination, None, urls);
    RunMerged(env, front, [NotFoundRule(None)], st);
    RunSingle(env, "Fallback-404", [], Respond(404), Run(env, front, st).at);
  }

  /** Collapse preserves meaning: on every request and every sequence of random draws, the collapsed policy
      delivers to the same service or answers the same 404 as the verbose one, with the same request and the
      same policy actions taken; except, and exactly, where a route matched the local service and the policies
      of the default destination do not leave the request alone. */
  lemma CollapsePreservesMeaning(env: Env, host: VirtualHost, k: ServiceKey, urls: UrlTable, st: State)
    requires k in urls && forall route <- host.routes :: IsUserPolicy(UserRules(route))
    requires IsUserPolicy(DefaultPolicyRules(host.defaultDestination))
    ensures var v := Run(env, Compiled(host, None, urls), st);
            OnAgentEndpoint(Run(env, Compiled(host, Some(k), urls), st), urls[k]) == OnCloudEndpoint(v)
            <==> (RouteMatchedLocally(env, host, k, urls, st) ==>
                    LeavesAlone(env, DefaultPolicyRules(host.defaultDestination), v.at, urls[k]))
  {
    hide Compiled, Run, DefaultPolicyRules, RouteMatchedLocally, LeavesAlone;
    var d, v := DefaultPolicyRules(host.defaultDestination), Run(env, Compiled(host, None, urls), st);
    CollapseExactly(env, host, k, urls, st);
    VerboseStops(env, host, urls, st);
    if RouteMatchedLocally(env, host, k, urls, st) {
      LeavesAloneExactly(env, d, Mark(v.at, true), urls[k]);
      LeavesAloneIgnoresOwn(env, d, v.at, Mark(v.at, true).vars, urls[k]);
    }
  }

  // ----- policies that leave a request alone

  /** No rule with an action is enabled before one that begins by forwarding to `url`. */
  ghost predicate LeavesAlone(env: Env, rules: Policy, st: State, url: Url) {
    rules == [] ||
    if rules[0].actions == [] || !AllHold(env, rules[0].exprs, st) then LeavesAlone(env, rules[1..], st, url)
    else rules[0].actions[0] == ForwardInternal(url)
  }

  lemma {:induction false} TakeAllGrows(env: Env, actions: seq<Action>, st: State)
    ensures |TakeAll(env, actions, st).at.trace| >= |st.trace|
  {
    if actions != [] {
      TakeAllGrows(env, actions[1..], Take(env, actions[0], st).at);
    }
  }

  lemma {:induction false} RunGrows(env: Env, rules: Policy, st: State)
    ensures |Run(env, rules, st).at.trace| >= |st.trace|
  {
    if rules != [] {
      TakeAllGrows(env, rules[0].actions, st);
      RunGrows(env, rules[1..], RunRule(env, rules[0], st).at);
    }
  }

  /** What a first action leaves behind is not what was there before it. */
  lemma FirstActionShows(env: Env, rules: Policy, st: State, url: Url)
    requires IsUserPolicy(rules) && rules != [] && rules[0].actions != [] && AllHold(env, rules[0].exprs, st)
    ensures OnAgentEndpoint(Run(env, rules, st), url) == ToUpstream(url, Erase(st))
       <==> rules[0].actions[0] == ForwardInternal(url)
  {
    var actions := rules[0].actions;
    assert rules[0] in rules && actions[0] in actions;
    var next := Take(env, actions[0], st);
    if next.FellThrough? {
      assert |next.at.trace| > |st.trace|;
      TakeAllGrows(env, actions[1..], next.at);
      RunGrows(env, rules[1..], TakeAll(env, actions, st).at);
      assert |Run(env, rules, st).at.trace| > |st.trace|;
    }
  }

  /** Policies in front of the local service leave a request as it is exactly when they leave it alone. */
  lemma {:induction false} LeavesAloneExactly(env: Env, rules: Policy, st: State, url: Url)
    requires IsUserPolicy(rules)
    ensures OnAgentEndpoint(Run(env, rules, st), url) == ToUpstream(url, Erase(st))
       <==> LeavesAlone(env, rules, st, url)
  {
    if rules != [] {
      assert rules[0] in rules;
      if rules[0].actions == [] || !AllHold(env, rules[0].exprs, st) {
        LeavesAloneExactly(env, rules[1..], st, url);
      } else {
        FirstActionShows(env, rules, st, url);
      }
    }
  }

  lemma {:induction false} LeavesAloneIgnoresOwn(env: Env, rules: Policy, st: State, own: Vars, url: Url)
    requires IsUserPolicy(rules)
    ensures LeavesAlone(env, rules, WithOwn(st, own), url) == LeavesAlone(env, rules, st, url)
  {
    if rules != [] {
      assert rules[0] in rules;
      assert AllHold(env, rules[0].exprs, WithOwn(st, own)) == AllHold(env, rules[0].exprs, st);
      LeavesAloneIgnoresOwn(env, rules[1..], st, own, url);
    }
  }

  // ----- the collapsed rules do not depend on where the local service is reachable

  ghost predicate SameElsewhere(a: UrlTable, b: UrlTable, k: ServiceKey) {
    && k in a && k in b
    && forall j | j != k :: (j in a <==> j in b) && (j in a ==> a[j] == b[j])
  }

  lemma {:induction false} DestinationsIgnoreLocal(ds: seq<Destination>, lower: int, many: bool, guards: seq<Expr>,
                                                   k: ServiceKey, a: UrlTable, b: UrlTable)
    requires SameElsewhere(a, b, k)
    ensures Destinations(ds, lower, many, guards, Some(k), a) == Destinations(ds, lower, many, guards, Some(k), b)
    decreases |ds|
  {
    if ds != [] {
      assert UpstreamRules(ds[0], Some(k), a) == UpstreamRules(ds[0], Some(k), b);
      DestinationsIgnoreLocal(ds[1..], if many then lower + Weight(ds[0]) else lower, many, guards, k, a, b);
    }
  }

  lemma {:induction false} RoutesIgnoreLocal(routes: seq<Route>, capture: bool, k: ServiceKey, a: UrlTable, b: UrlTable)
    requires SameElsewhere(a, b, k)
    ensures AllRouteRules(routes, capture, Some(k), a) == AllRouteRules(routes, capture, Some(k), b)
  {
    if routes != [] {
      var ds := routes[0].destinations;
      DestinationsIgnoreLocal(ds, 0, |ds| > 1, Guards(routes[0].criteria, capture, Some(k)), k, a, b);
      RoutesIgnoreLocal(routes[1..], capture, k, a, b);
    }
  }

  /** The public URL the local service gets when its host collapses never appears in the host's rules. */
  lemma CollapsedIgnoresLocalUrl(host: VirtualHost, k: ServiceKey, a: UrlTable, b: UrlTable)
    requires SameElsewhere(a, b, k)
    ensures Compiled(host, Some(k), a) == Compiled(host, Some(k), b)
  {
    hide AllRouteRules;
    RoutesIgnoreLocal(host.routes, NeedsCapture(host.routes), k, a, b);
    assert DefaultServiceRules(host.defaultDestination, Some(k), a)
        == DefaultServiceRules(host.defaultDestination, Some(k), b);
  }

  // ----- a local match, by the reference

  lemma DestinationSameKeys(env: Env, d: Destination, a: UrlTable, b: UrlTable, st: State)
    requires a.Keys == b.Keys
    ensures AtDestination(env, d, a, st) == AtDestination(env, d, b, st)
  {
  }

  lemma RouteSameKeys(env: Env, route: Route, a: UrlTable, b: UrlTable, st: State)
    requires DrawsInRange(env) && Weighted(route) && a.Keys == b.Keys
    ensures AtRoute(env, route, a, st) == AtRoute(env, route, b, st)
  {
    hide AtDestination;
    forall d, s
      ensures AtDestination(env, d, a, s) == AtDestination(env, d, b, s)
    {
      DestinationSameKeys(env, d, a, b, s);
    }
  }

  /** The verdict names services; their URLs do not matter to it. */
  lemma {:induction false} RoutesSameKeys(env: Env, routes: seq<Route>, original: Option<Request>, a: UrlTable,
                                          b: UrlTable, st: State)
    requires DrawsInRange(env) && (forall route <- routes :: Weighted(route)) && a.Keys == b.Keys
    ensures AtRoutes(env, routes, original, a, st) == AtRoutes(env, routes, original, b, st)
  {
    hide AtRoute, Accepts, Weighted;
    if routes != [] {
      assert routes[0] in routes;
      RouteSameKeys(env, routes[0], a, b, st);
      RoutesSameKeys(env, routes[1..], original, a, b, st);
      var v := AtRoute(env, routes[0], a, st);
      if v.Passed? {
        RoutesSameKeys(env, routes[1..], original, a, b, v.at);
      }
    }
  }

  /** The collapsed routing rules, set against the verdict with the local service behind any URL. */
  lemma AgainstAnyUrl(env: Env, host: VirtualHost, k: ServiceKey, urls: UrlTable, url: Url, st: State)
    requires DrawsInRange(env) && AllWeighted(host) && WellBehaved(host) && k in urls
    ensures var v := Decision(env, host, urls, Erase(st));
            var c := Run(env, RoutingRules(host.routes, Some(k), urls), st);
            Proper(v, urls[k := url]) &&
            exists o :: SameEnd(c, o, url) && EraseOutcome(o) == OutcomeOf(v, urls[k := url])
  {
    hide Run, AllRouteRules, AtRoutes, NeedsCapture, SameEnd;
    var there := urls[k := url];
    assert there.Keys == urls.Keys;
    RoutesSameKeys(env, host.routes, if NeedsCapture(host.routes) then Some(Erase(st).req) else None, urls, there,
                   Erase(st));
    RoutesIgnoreLocal(host.routes, NeedsCapture(host.routes), k, urls, there);
    RoutingLockstep(env, host.routes, k, there, st);
    RoutingRuns(env, host, there, st);
  }

  /** The emitted rules mark a local match exactly when the reference says that the local service serves the
      request by way of a route. */
  lemma LocalMatchMeaning(env: Env, host: VirtualHost, k: ServiceKey, urls: UrlTable, st: State)
    requires DrawsInRange(env) && AllWeighted(host) && WellBehaved(host) && k in urls
    ensures var v := Decision(env, host, urls, Erase(st));
            RouteMatchedLocally(env, host, k, urls, st) <==> v.Served? && v.key == k
  {
    hide Run, RoutingRules, Decision;
    var here, there := Public(HTTP, [], 0), Public(HTTP, [], 1);
    var v, c := Decision(env, host, urls, Erase(st)), Run(env, RoutingRules(host.routes, Some(k), urls), st);
    AgainstAnyUrl(env, host, k, urls, here, st);
    AgainstAnyUrl(env, host, k, urls, there, st);
    var o :| SameEnd(c, o, here) && EraseOutcome(o) == OutcomeOf(v, urls[k := here]);
    var p :| SameEnd(c, p, there) && EraseOutcome(p) == OutcomeOf(v, urls[k := there]);
    MarksDiffer(c, o, here);
    MarksDiffer(c, p, there);
  }

  lemma MarksDiffer(c: Outcome, v: Outcome, local: Url)
    requires SameEnd(c, v, local)
    ensures c.FellThrough? && c.at.vars.matchedLocally == Some(true) ==> v == Forwarded(local, v.at)
    ensures !(c.FellThrough? && c.at.vars.matchedLocally == Some(true)) ==> c == MarkOutcome(v, false)
  {
  }

  /** When a route leads to the local service, the collapsed host agrees with the verbose one if and only if the
      policies of the default destination, which should not run at all, leave the request alone. */
  lemma DefaultPoliciesBreakCollapse(env: Env, host: VirtualHost, k: ServiceKey, urls: UrlTable, st: State)
    requires DrawsInRange(env) && AllWeighted(host) && WellBehaved(host) && k in urls
    requires IsUserPolicy(DefaultPolicyRules(host.defaultDestination))
    requires var v := Decision(env, host, urls, Erase(st)); v.Served? && v.key == k
    ensures OnAgentEndpoint(Run(env, Compiled(host, Some(k), urls), st), urls[k])
         == OnCloudEndpoint(Run(env, Compiled(host, None, urls), st))
       <==> LeavesAlone(env, DefaultPolicyRules(host.defaultDestination), Decision(env, host, urls, Erase(st)).at,
                        urls[k])
  {
    hide Compiled, Run, DefaultPolicyRules, LeavesAlone, RouteMatchedLocally, Decision;
    var d, v := DefaultPolicyRules(host.defaultDestination), Run(env, Compiled(host, None, urls), st);
    LocalMatchMeaning(env, host, k, urls, st);
    CollapsePreservesMeaning(env, host, k, urls, st);
    CompilerCorrect(env, host, urls, st);
    LeavesAloneIgnoresOwn(env, d, v.at, NO_VARS, urls[k]);
  }

  /** Correctness of the optimised compilation: with the local service behind its public URL, the collapsed
      policy delivers as the reference does with every service behind an internal one; exactly unless a route
      leads to the local service and the default destination's policies do not leave the request alone. */
  lemma CollapsedCorrect(env: Env, host: VirtualHost, k: ServiceKey, internal: UrlTable, actual: UrlTable, st: State)
    requires DrawsInRange(env) && AllWeighted(host) && WellBehaved(host)
    requires SameElsewhere(internal, actual, k)
    requires IsUserPolicy(DefaultPolicyRules(host.defaultDestination))
    ensures var v := Decision(env, host, internal, Erase(st));
            OnAgentEndpoint(Run(env, Compiled(host, Some(k), actual), st), internal[k])
            == OnCloudEndpoint(Routed(env, host, internal, Erase(st)))
            <==> (v.Served? && v.key == k ==>
                    LeavesAlone(env, DefaultPolicyRules(host.defaultDestination), v.at, internal[k]))
  {
    hide Compiled, Run, Decision, DefaultPolicyRules, LeavesAlone, RouteMatchedLocally;
    var v := Decision(env, host, internal, Erase(st));
    CollapsedIgnoresLocalUrl(host, k, internal, actual);
    CompilerCorrect(env, host, internal, st);
    SameDelivery(Run(env, Compiled(host, None, internal), st));
    if v.Served? && v.key == k {
      DefaultPoliciesBreakCollapse(env, host, k, internal, st);
    } else {
      LocalMatchMeaning(env, host, k, internal, st);
      CollapsePreservesMeaning(env, host, k, internal, st);
    }
  }

  lemma SameDelivery(o: Outcome)
    ensures OnCloudEndpoint(EraseOutcome(o)) == OnCloudEndpoint(o)
  {
  }

  /** Everything goes to one service; the default destination has no upstream and runs one policy. */
  function PlainHost(listener: Listener, only: Service, fallback: Rule): VirtualHost {
    VirtualHost(None, [], listener, None, [Route(None, [], [Destination(None, Some(only), [])])],
                Some(Destination(None, None, [[fallback]])), EndpointsCollapsed)
  }

  lemma PlainRouting(only: Service, collapse: Option<ServiceKey>, urls: UrlTable)
    ensures var d := Destination(None, Some(only), []);
            var rules := InitRules(collapse) + Guarded(UpstreamRules(d, collapse, urls), LocalGuard(collapse));
            RoutingRules([Route(None, [], [d])], collapse, urls) == rules
  {
    hide Guarded, UpstreamRules, AppendUnique;
    var d := Destination(None, Some(only), []);
    var route := Route(None, [], [d]);
    var guards := LocalGuard(collapse);
    assert Guards(None, false, collapse) == guards by {
      GuardsOfNothing(guards);
    }
    GuardedNone(guards, []);
    GuardedByNothing([]);
    GuardedByNothing(Guarded([], guards));
    GuardedByNothing(Guarded(UpstreamRules(d, collapse, urls), guards));
    assert [d][1..] == [] && [route][1..] == [];
    assert [] + UpstreamRules(d, collapse, urls) == UpstreamRules(d, collapse, urls);
    assert OneDestination(d, [], guards, collapse, urls) == Guarded(UpstreamRules(d, collapse, urls), guards);
    assert Destinations([d], 0, false, guards, collapse, urls) == Guarded(UpstreamRules(d, collapse, urls), guards);
    assert !NeedsCapture([route]);
    var rules := Guarded(UpstreamRules(d, collapse, urls), guards);
    assert RouteRules(route, false, collapse, urls) == rules;
    assert AllRouteRules([route], false, collapse, urls) == rules + AllRouteRules([], false, collapse, urls) == rules;
  }

  lemma FlattenOne(policy: Policy)
    ensures Flatten([policy]) == policy
  {
    assert [policy][1..] == [];
  }

  lemma GuardsOfNothing(guards: seq<Expr>)
    requires |guards| <= 1
    ensures AppendUnique([], guards) == guards
  {
    assert guards != [] ==> guards[1..] == [] && Missing([], guards) == [guards[0]] + Missing([], guards[1..]);
  }

  /** A host on which collapsing does change what happens: the request should be served by the local service,
      and is answered by the policy of the default destination instead. */
  lemma PlainHostDiffers(env: Env, listener: Listener, only: Service, status: int, urls: UrlTable, st: State)
    requires Key(only) in urls
    ensures var host := PlainHost(listener, only, Rule("answer", [], [Respond(status)]));
            var c := Run(env, Compiled(host, Some(Key(only)), urls), st);
            var v := Run(env, Compiled(host, None, urls), st);
            && OnCloudEndpoint(v) == ToUpstream(urls[Key(only)], Erase(st))
            && OnAgentEndpoint(c, urls[Key(only)]) == Replied(status, Erase(st))
  {
    hide Run, RoutingRules, Guarded, DefaultServiceRules, NotFoundRule;
    var k, answer := Key(only), Rule("answer", [], [Respond(status)]);
    var host := PlainHost(listener, only, answer);
    var url, rc, rv := urls[k], RoutingRules(host.routes, Some(k), urls), RoutingRules(host.routes, None, urls);
    var d := host.routes[0].destinations[0];
    PlainRouting(only, None, urls);
    GuardedByNothing(UpstreamRules(d, None, urls));
    assert rv == UpstreamRules(d, None, urls);
    RunSingle(env, "Generated-Route", [], ForwardInternal(url), st);
    RunMerged(env, rv, DefaultPolicyRules(host.defaultDestination), st);
    RunMerged(env, rv + DefaultPolicyRules(host.defaultDestination),
              DefaultServiceRules(host.defaultDestination, None, urls), st);
    RunMerged(env, rv + DefaultPolicyRules(host.defaultDestination)
                   + DefaultServiceRules(host.defaultDestination, None, urls), [NotFoundRule(None)], st);
    PlainRouteMatches(env, only, urls, st);
    assert [d][1..] == [] && DestinationRules([d]) == Flatten([]) + DestinationRules([]);
    FlattenOne([answer]);
    assert UserRules(host.routes[0]) == [];
    assert DefaultPolicyRules(host.defaultDestination) == [answer];
    CollapseExactly(env, host, k, urls, st);
    RunSingle(env, "answer", [], Respond(status), Mark(st, true));
  }

  lemma PlainRouteMatches(env: Env, only: Service, urls: UrlTable, st: State)
    requires Key(only) in urls
    ensures Run(env, RoutingRules([Route(None, [], [Destination(None, Some(only), [])])], Some(Key(only)), urls), st)
         == FellThrough(Mark(st, true))
  {
    hide Run, Guarded;
    var k, d := Key(only), Destination(None, Some(only), []);
    var rule := RouteLocallyRule("Generated-Local-Service-Route", true);
    PlainRouting(only, Some(k), urls);
    InitFires(env, k, st);
    GuardedAt([rule], LOCALLY);
    GuardsOfNothing(LOCALLY);
    var guarded := Guarded([rule], LOCALLY);
    assert guarded == [Rule(rule.name, LOCALLY, rule.actions)];
    RunSingle(env, rule.name, LOCALLY, SetMatchedLocally(true), Mark(st, false));
    RunMerged(env, InitRules(Some(k)), guarded, st);
  }
}
