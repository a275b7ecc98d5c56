/** What a route's match expressions mean, and why a route's own policies cannot change their truth. */
module Matching {
  import opened Options
  import opened TrafficPolicy
  import opened IR
  import opened Routing
  import Texts

  // ----- the meaning of the criteria, stated on a request alone

  predicate MatcherAccepts(env: Env, m: Matcher, values: Values) {
    match m.valueType
    case ExactValue => m.name in values && Texts.Join(values[m.name], ',') == m.value
    case RegexValue => m.name in values && env.matches(m.value, Texts.Join(values[m.name], ','))
    case OtherValue(_) => true
  }

  /** Some matcher is of a known type; the others emit no expression. */
  predicate Reads(matchers: seq<Matcher>) {
    exists m <- matchers :: !m.valueType.OtherValue?
  }

  /** The path test as the compiler emits it. */
  predicate PathAccepts(c: Criteria, path: string) {
    c.path.Some? ==> if c.pathType == Some(Exact) then path == c.path.value else c.path.value <= path
  }

  /** A route without criteria accepts every request. */
  predicate Accepts(env: Env, criteria: Option<Criteria>, req: Request) {
    criteria.Some? ==>
      var c := criteria.value;
      && PathAccepts(c, req.path)
      && (forall m <- c.headers :: MatcherAccepts(env, m, req.headers))
      && (forall m <- c.query :: MatcherAccepts(env, m, req.query))
      && (c.verb.Some? ==> req.verb == c.verb.value)
  }

  /** Through `src`, the run still shows the fields of `req` that the criteria read. */
  ghost predicate Sees(criteria: Option<Criteria>, src: Source, st: State, req: Request) {
    && st.req.verb == req.verb
    && (criteria.Some? ==>
          && (criteria.value.path.Some? ==> PathAt(src, st) == Some(req.path))
          && (Reads(criteria.value.headers) ==> HeadersAt(src, st) == Some(req.headers))
          && (Reads(criteria.value.query) ==> QueryAt(src, st) == Some(req.query)))
  }

  /** The state before any routing rule ran: the request is untouched and, if captured, remembered. */
  ghost predicate Fresh(src: Source, st: State) {
    && PathAt(src, st) == Some(st.req.path)
    && HeadersAt(src, st) == Some(st.req.headers)
    && QueryAt(src, st) == Some(st.req.query)
  }

  lemma {:induction false} HeaderExprsMeaning(env: Env, acc: seq<Expr>, src: Source, ms: seq<Matcher>, st: State,
                                              values: Values)
    requires Reads(ms) ==> HeadersAt(src, st) == Some(values)
    ensures AllHold(env, AddHeaderExprs(acc, src, ms), st)
       <==> AllHold(env, acc, st) && forall m <- ms :: MatcherAccepts(env, m, values)
    decreases |ms|
  {
    if ms != [] {
      var next := HeaderExpr(src, ms[0]);
      AppendUniqueIsConjunction(env, acc, next, st);
      HeaderExprsMeaning(env, AppendUnique(acc, next), src, ms[1..], st, values);
      assert ms == [ms[0]] + ms[1..];
      assert AllHold(env, next, st) <==> MatcherAccepts(env, ms[0], values) by {
        assert forall e <- next :: e == next[0];
        assert |next| > 0 ==> next[0] in next;
      }
    }
  }

  lemma {:induction false} QueryExprsMeaning(env: Env, acc: seq<Expr>, src: Source, ms: seq<Matcher>, st: State,
                                              values: Values)
    requires Reads(ms) ==> QueryAt(src, st) == Some(values)
    ensures AllHold(env, AddQueryExprs(acc, src, ms), st)
       <==> AllHold(env, acc, st) && forall m <- ms :: MatcherAccepts(env, m, values)
    decreases |ms|
  {
    if ms != [] {
      var next := QueryExpr(src, ms[0]);
      AppendUniqueIsConjunction(env, acc, next, st);
      QueryExprsMeaning(env, AppendUnique(acc, next), src, ms[1..], st, values);
      assert ms == [ms[0]] + ms[1..];
      assert AllHold(env, next, st) <==> MatcherAccepts(env, ms[0], values) by {
        assert forall e <- next :: e == next[0];
        assert |next| > 0 ==> next[0] in next;
      }
    }
  }

  lemma PathExprsMeaning(env: Env, c: Criteria, src: Source, st: State, path: string)
    requires c.path.Some? ==> PathAt(src, st) == Some(path)
    ensures AllHold(env, PathExprs(c, src), st) <==> PathAccepts(c, path)
  {
    if c.path.Some? {
      var e := PathExprs(c, src)[0];
      assert PathExprs(c, src) == [e];
      assert Holds(env, e, st) <==> PathAccepts(c, path);
    }
  }

  lemma VerbExprsMeaning(env: Env, c: Criteria, st: State)
    ensures AllHold(env, VerbExprs(c), st) <==> (c.verb.Some? ==> st.req.verb == c.verb.value)
  {
    assert c.verb.Some? ==> MethodIs(c.verb.value) in VerbExprs(c);
  }

  /** The emitted expressions hold exactly when the criteria accept the request the run still shows. */
  lemma MatchExprsMeaning(env: Env, criteria: Option<Criteria>, src: Source, st: State, req: Request)
    requires Sees(criteria, src, st, req)
    ensures AllHold(env, MatchExprs(criteria, src), st) <==> Accepts(env, criteria, req)
  {
    if criteria.Some? {
      var c := criteria.value;
      var path := PathExprs(c, src);
      var headers := AddHeaderExprs(path, src, c.headers);
      var query := AddQueryExprs(headers, src, c.query);
      PathExprsMeaning(env, c, src, st, req.path);
      VerbExprsMeaning(env, c, st);
      HeaderExprsMeaning(env, path, src, c.headers, st, req.headers);
      QueryExprsMeaning(env, headers, src, c.query, st, req.query);
      AppendUniqueIsConjunction(env, query, VerbExprs(c), st);
      assert AllHold(env, path, st) <==> PathAccepts(c, req.path);
    }
  }

  // ----- regular expressions on paths

  /** The path test as the path types mean it. */
  predicate PathIntended(env: Env, c: Criteria, path: string) {
    if c.path.Some? && c.pathType == Some(Regex) then env.matches(c.path.value, path) else PathAccepts(c, path)
  }

  predicate Intended(env: Env, criteria: Option<Criteria>, req: Request) {
    && Accepts(env, if criteria.Some? then Some(criteria.value.(path := None)) else None, req)
    && (criteria.Some? ==> PathIntended(env, criteria.value, req.path))
  }

  predicate RegexPath(criteria: Option<Criteria>) {
    criteria.Some? && criteria.value.path.Some? && criteria.value.pathType == Some(Regex)
  }

  /** The emitted path test agrees with the intended one, whatever the regular expressions match, exactly when
      the path is not a regular expression. */
  lemma RegexPathsDiffer(c: Criteria)
    ensures (forall env: Env, path :: PathIntended(env, c, path) <==> PathAccepts(c, path)) <==> !RegexPath(Some(c))
  {
    if RegexPath(Some(c)) {
      var never := Env((p, s) => false, (id, req, vars) => false, (f, t, path, query) => (path, query), (k, hi) => 0);
      assert !PathIntended(never, c, c.path.value) && PathAccepts(c, c.path.value);
    }
  }

  /** Without a regular expression on the path, the emitted expressions hold exactly of the requests meant. */
  lemma MatchesAsIntended(env: Env, criteria: Option<Criteria>, src: Source, st: State, req: Request)
    requires Sees(criteria, src, st, req) && !RegexPath(criteria)
    ensures AllHold(env, MatchExprs(criteria, src), st) <==> Intended(env, criteria, req)
  {
    MatchExprsMeaning(env, criteria, src, st, req);
  }
}
