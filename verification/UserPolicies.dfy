/** The policies users attach to routes and destinations: what they can and cannot change. */
module UserPolicies {
  import opened Options
  import opened TrafficPolicy
  import opened IR
  import opened Routing
  import opened Matching

  /** Users' policies neither read nor write the compiler's own variables. */
  predicate IsUserAction(a: Action) {
    !a.SetMatchedLocally? && !a.CaptureOriginals? && !a.Draw?
  }

  predicate IsUserRule(r: Rule) {
    (forall e <- r.exprs :: e.UserExpr?) && (forall a <- r.actions :: IsUserAction(a))
  }

  predicate IsUserPolicy(rules: Policy) {
    forall r <- rules :: IsUserRule(r)
  }

  /** Route policies "are not intended to be terminating". */
  predicate NeverStops(rules: Policy) {
    forall r <- rules :: forall a <- r.actions :: !a.ForwardInternal? && !a.Respond?
  }

  // ----- the compiler's variables are invisible to user policies

  const NO_VARS := Vars(None, None, None, None, None, map[])

  /** The run with the compiler's variables replaced by those of `own`. */
  function WithOwn(st: State, own: Vars): State {
    st.(vars := own.(user := st.vars.user))
  }

  function OutcomeWithOwn(o: Outcome, own: Vars): Outcome {
    o.(at := WithOwn(o.at, own))
  }

  /** What a service or a client can observe of a run. */
  function Erase(st: State): State {
    WithOwn(st, NO_VARS)
  }

  function EraseOutcome(o: Outcome): Outcome {
    OutcomeWithOwn(o, NO_VARS)
  }

  lemma {:induction false} TakeAllIgnoresOwn(env: Env, actions: seq<Action>, st: State, own: Vars)
    requires forall a <- actions :: IsUserAction(a)
    ensures TakeAll(env, actions, WithOwn(st, own)) == OutcomeWithOwn(TakeAll(env, actions, st), own)
  {
    if actions != [] {
      var a := actions[0];
      assert a in actions;
      assert Take(env, a, WithOwn(st, own)) == OutcomeWithOwn(Take(env, a, st), own);
      match Take(env, a, st)
      case FellThrough(next) => TakeAllIgnoresOwn(env, actions[1..], next, own);
      case stopped =>
    }
  }

  /** Running a user policy commutes with any change of the compiler's variables. */
  lemma {:induction false} RunIgnoresOwn(env: Env, rules: Policy, st: State, own: Vars)
    requires IsUserPolicy(rules)
    ensures Run(env, rules, WithOwn(st, own)) == OutcomeWithOwn(Run(env, rules, st), own)
  {
    if rules != [] {
      var r := rules[0];
      assert r in rules;
      assert AllHold(env, r.exprs, WithOwn(st, own)) == AllHold(env, r.exprs, st);
      TakeAllIgnoresOwn(env, r.actions, st, own);
      match RunRule(env, r, st)
      case FellThrough(next) => RunIgnoresOwn(env, rules[1..], next, own);
      case stopped =>
    }
  }

  /** The variables themselves come out as they went in. */
  lemma RunKeepsOwn(env: Env, rules: Policy, st: State)
    requires IsUserPolicy(rules)
    ensures Run(env, rules, st).at == WithOwn(Run(env, rules, st).at, st.vars)
  {
    RunIgnoresOwn(env, rules, st, st.vars);
    assert WithOwn(st, st.vars) == st;
  }

  // ----- a route's match survives the route's own policies

  /** The action leaves alone every field the criteria read. */
  predicate Harmless(a: Action, criteria: Option<Criteria>) {
    criteria.Some? ==>
      match a
      case AddHeaders(_) => criteria.value.headers == []
      case RemoveHeaders(_) => criteria.value.headers == []
      case UrlRewrite(_, _) => criteria.value.path.None? && !Reads(criteria.value.query)
      case _ => true
  }

  predicate HarmlessRules(rules: Policy, criteria: Option<Criteria>) {
    forall r <- rules :: forall a <- r.actions :: Harmless(a, criteria)
  }

  /** The route matches on query parameters but no path, while a policy of its own rewrites the URL. */
  predicate RewritesUnseenQuery(rules: Policy, criteria: Option<Criteria>) {
    && criteria.Some? && criteria.value.path.None? && Reads(criteria.value.query)
    && exists r <- rules :: exists a <- r.actions :: a.UrlRewrite?
  }

  /** The one combination that does not make the compiler capture the request, on a host where nothing else
      does. */
  predicate Unprotected(routes: seq<Route>, route: Route) {
    !NeedsCapture(routes) && RewritesUnseenQuery(UserRules(route), route.criteria)
  }

  /** Either the originals are captured, or nothing the route runs changes what the route matches on. */
  predicate StableUnder(src: Source, rules: Policy, criteria: Option<Criteria>) {
    src.Captured? || HarmlessRules(rules, criteria)
  }

  lemma {:induction false} TakeAllKeepsSight(env: Env, actions: seq<Action>, criteria: Option<Criteria>, src: Source,
                                             st: State, req: Request)
    requires forall a <- actions :: IsUserAction(a)
    requires src.Captured? || forall a <- actions :: Harmless(a, criteria)
    requires Sees(criteria, src, st, req)
    ensures Sees(criteria, src, TakeAll(env, actions, st).at, req)
  {
    if actions != [] {
      var next := Take(env, actions[0], st).at;
      assert actions[0] in actions;
      assert Sees(criteria, src, next, req);
      TakeAllKeepsSight(env, actions[1..], criteria, src, next, req);
    }
  }

  lemma {:induction false} RunKeepsSight(env: Env, rules: Policy, criteria: Option<Criteria>, src: Source,
                                         st: State, req: Request)
    requires IsUserPolicy(rules) && StableUnder(src, rules, criteria)
    requires Sees(criteria, src, st, req)
    ensures Sees(criteria, src, Run(env, rules, st).at, req)
  {
    if rules != [] {
      assert rules[0] in rules;
      if AllHold(env, rules[0].exprs, st) {
        TakeAllKeepsSight(env, rules[0].actions, criteria, src, st, req);
      }
      RunKeepsSight(env, rules[1..], criteria, src, RunRule(env, rules[0], st).at, req);
    }
  }

  /** Exactly when the request is captured: some route's own rule, at the route or at one of its destinations, adds or
      removes headers where the route matches on headers, or rewrites the URL where it matches on a path. */
  lemma CaptureExactly(routes: seq<Route>)
    ensures NeedsCapture(routes) <==>
      exists route <- routes, r <- UserRules(route), a <- r.actions ::
        && route.criteria.Some?
        && (|| ((a.AddHeaders? || a.RemoveHeaders?) && route.criteria.value.headers != [])
            || (a.UrlRewrite? && route.criteria.value.path.Some?))
  {
    hide UserRules;
    if NeedsCapture(routes) {
      var route :| route in routes && RulesTouch(UserRules(route), route.criteria);
      var r :| r in UserRules(route) && exists a <- r.actions :: Touches(a, route.criteria);
      var a :| a in r.actions && Touches(a, route.criteria);
    }
  }

  /** The compiler's capture decision makes exactly the routes stable that are not unprotected. */
  lemma CaptureIsEnough(routes: seq<Route>, route: Route)
    requires route in routes
    ensures StableUnder(SourceFor(NeedsCapture(routes)), UserRules(route), route.criteria)
       <==> !Unprotected(routes, route)
  {
    if !NeedsCapture(routes) && !Unprotected(routes, route) {
      forall r, a | r in UserRules(route) && a in r.actions
        ensures Harmless(a, route.criteria)
      {
        assert !Touches(a, route.criteria);
      }
    }
    if Unprotected(routes, route) {
      var r, a :| r in UserRules(route) && a in r.actions && a.UrlRewrite?;
      assert !Harmless(a, route.criteria);
    }
  }

  /** Match stability: on the state at which the route's rules start, its match expressions have the same
      truth before and after its own route-level and destination-level policies ran. */
  lemma MatchStability(env: Env, routes: seq<Route>, route: Route, rules: Policy, st: State)
    requires route in routes
    requires forall r <- rules :: r in UserRules(route)
    requires IsUserPolicy(rules)
    requires !Unprotected(routes, route)
    requires Fresh(SourceFor(NeedsCapture(routes)), st)
    ensures var src := SourceFor(NeedsCapture(routes));
            var exprs := MatchExprs(route.criteria, src);
            AllHold(env, exprs, Run(env, rules, st).at) == AllHold(env, exprs, st)
  {
    var src := SourceFor(NeedsCapture(routes));
    CaptureIsEnough(routes, route);
    assert Sees(route.criteria, src, st, st.req);
    RunKeepsSight(env, rules, route.criteria, src, st, st.req);
    MatchExprsMeaning(env, route.criteria, src, st, st.req);
    MatchExprsMeaning(env, route.criteria, src, Run(env, rules, st).at, st.req);
  }

  // ----- the combination that is not captured does break the match

  /** A rewriting that drops every query parameter, behind users' expressions that hold. */
  function Clearing(env: Env): Env {
    env.(rewrite := (source, target, path, query) => (path, map[]), user := (id, req, vars) => true)
  }

  lemma {:induction false} TakeAllClears(env: Env, actions: seq<Action>, st: State)
    requires forall a <- actions :: IsUserAction(a) && !a.ForwardInternal? && !a.Respond?
    ensures var end := TakeAll(Clearing(env), actions, st);
            && end.FellThrough?
            && ((st.req.query == map[] || exists a <- actions :: a.UrlRewrite?) ==> end.at.req.query == map[])
  {
    if actions != [] {
      assert actions[0] in actions;
      assert actions == [actions[0]] + actions[1..];
      TakeAllClears(env, actions[1..], Take(Clearing(env), actions[0], st).at);
    }
  }

  lemma {:induction false} RunClears(env: Env, rules: Policy, st: State)
    requires IsUserPolicy(rules) && NeverStops(rules)
    ensures var end := Run(Clearing(env), rules, st);
            && end.FellThrough?
            && ((st.req.query == map[] || exists r <- rules :: exists a <- r.actions :: a.UrlRewrite?)
                ==> end.at.req.query == map[])
  {
    if rules != [] {
      var r := rules[0];
      assert r in rules;
      assert rules == [r] + rules[1..];
      TakeAllClears(env, r.actions, st);
      RunClears(env, rules[1..], RunRule(Clearing(env), r, st).at);
    }
  }

  /** Every unprotected route loses each match it had, once its policies ran to their end, for a rewriting that
      drops the query. */
  lemma UnseenQueryBreaksMatch(env: Env, routes: seq<Route>, route: Route, st: State)
    requires Unprotected(routes, route)
    requires IsUserPolicy(UserRules(route)) && NeverStops(UserRules(route))
    requires Accepts(env, route.criteria, st.req)
    ensures var exprs := MatchExprs(route.criteria, SourceFor(NeedsCapture(routes)));
            && AllHold(Clearing(env), exprs, st)
            && !AllHold(Clearing(env), exprs, Run(Clearing(env), UserRules(route), st).at)
  {
    var m :| m in route.criteria.value.query && !m.valueType.OtherValue?;
    var after := Run(Clearing(env), UserRules(route), st).at;
    RunClears(env, UserRules(route), st);
    forall c: Matcher, values: Values
      ensures MatcherAccepts(env, c, values) == MatcherAccepts(Clearing(env), c, values)
    {
    }
    MatchExprsMeaning(Clearing(env), route.criteria, Live, st, st.req);
    MatchExprsMeaning(Clearing(env), route.criteria, Live, after, after.req);
    assert !MatcherAccepts(Clearing(env), m, after.req.query);
  }
}
