/** The order in which routes are compiled: the most specific first. */
module RouteOrder {
  import opened Options
  import opened TrafficPolicy
  import opened IR
  import opened Routing
  import opened Matching
  import opened Compiler
  import opened Sorting

  // ----- canonical text of a list of matchers

  function ValueTypeOrder(v: ValueType): int {
    match v
    case ExactValue => 0
    case RegexValue => 1
    case OtherValue(_) => 2
  }

  function ValueTypeText(v: ValueType): string {
    match v
    case ExactValue => "exact"
    case RegexValue => "regex"
    case OtherValue(text) => text
  }

  function CompareMatcher(a: Matcher, b: Matcher): Cmp {
    Then(CompareText(a.name, b.name),
         Then(CompareInt(ValueTypeOrder(a.valueType), ValueTypeOrder(b.valueType)), CompareText(a.value, b.value)))
  }

  function PrintOne(m: Matcher): string {
    m.name + ":" + ValueTypeText(m.valueType) + ":" + m.value + ";"
  }

  function Print(matchers: seq<Matcher>): string {
    if matchers == [] then "" else PrintOne(matchers[0]) + Print(matchers[1..])
  }

  function MatchersText(matchers: seq<Matcher>): string {
    Print(Sort(CompareMatcher, matchers))
  }

  lemma {:induction false} PrintSnoc(matchers: seq<Matcher>, m: Matcher)
    ensures Print(matchers + [m]) == Print(matchers) + PrintOne(m)
  {
    hide PrintOne;
    if matchers == [] {
      assert ([] + [m])[1..] == [];
    } else {
      assert (matchers + [m])[1..] == matchers[1..] + [m];
      PrintSnoc(matchers[1..], m);
    }
  }

  /** headersToString and queryParamsToString: sort a copy, then fill the builder. */
  method MatchersToString(matchers: seq<Matcher>) returns (text: string)
    ensures text == MatchersText(matchers)
  {
    var copy := [];
    for i := |matchers| downto 0
      invariant copy == Sort(CompareMatcher, matchers[i..])
    {
      assert matchers[i..][1..] == matchers[i + 1..];
      copy := Insert(CompareMatcher, matchers[i], copy);
    }
    assert matchers[0..] == matchers;
    text := "";
    for i := 0 to |copy|
      invariant text == Print(copy[..i])
    {
      PrintSnoc(copy[..i], copy[i]);
      assert copy[..i + 1] == copy[..i] + [copy[i]];
      text := text + (copy[i].name + ":" + ValueTypeText(copy[i].valueType) + ":" + copy[i].value + ";");
    }
    assert copy[..|copy|] == copy;
  }

  lemma MatcherOrderAt(a: Matcher, b: Matcher, c: Matcher)
    ensures CompareMatcher(b, a) == Flip(CompareMatcher(a, b))
    ensures Coherent(CompareMatcher(a, b), CompareMatcher(b, c), CompareMatcher(a, c))
    ensures !a.valueType.OtherValue? && CompareMatcher(a, b) == Equal ==> a == b
  {
    TextOrdered(a.name, b.name, c.name);
    TextOrdered(a.value, b.value, c.value);
  }

  lemma MatcherOrder()
    ensures IsOrder(CompareMatcher)
  {
    forall a, b, c
      ensures CompareMatcher(b, a) == Flip(CompareMatcher(a, b))
      ensures Coherent(CompareMatcher(a, b), CompareMatcher(b, c), CompareMatcher(a, c))
    {
      MatcherOrderAt(a, b, c);
    }
  }

  /** Canonical match strings: matchers of known types print the same in whatever order they were written. */
  lemma CanonicalText(a: seq<Matcher>, b: seq<Matcher>)
    requires multiset(a) == multiset(b)
    requires forall m <- a :: !m.valueType.OtherValue?
    ensures MatchersText(a) == MatchersText(b)
  {
    var sa, sb := Sort(CompareMatcher, a), Sort(CompareMatcher, b);
    MatcherOrder();
    SortSorts(CompareMatcher, a);
    SortSorts(CompareMatcher, b);
    SortPermutes(CompareMatcher, a);
    SortPermutes(CompareMatcher, b);
    forall x <- sa, y <- sa | CompareMatcher(x, y) == Equal
      ensures x == y
    {
      assert x in multiset(sa) && x in multiset(a) && x in a;
      MatcherOrderAt(x, y, y);
    }
    SortedUnique(CompareMatcher, sa, sb);
  }

  /** With unknown value types the text does depend on the writing order. */
  lemma UnknownTypesAreNotCanonical(name: string, value: string)
    ensures var a, b := Matcher(name, value, OtherValue("a")), Matcher(name, value, OtherValue("b"));
            MatchersText([a, b]) != MatchersText([b, a])
  {
    var a, b := Matcher(name, value, OtherValue("a")), Matcher(name, value, OtherValue("b"));
    TextOrdered(name, name, name);
    TextOrdered(value, value, value);
    forall x, y | {x, y} == {a, b}
      ensures Sort(CompareMatcher, [x, y]) == [x, y]
    {
      assert [x, y][1..] == [y] && [y][1..] == [];
      assert Sort(CompareMatcher, [y]) == Insert(CompareMatcher, y, []) == [y];
    }
    assert Print([a, b])[|name| + 1] == 'a';
    assert Print([b, a])[|name| + 1] == 'b';
  }

  // ----- comparing routes

  function PathTypeOrder(t: Option<PathType>): int {
    match t
    case Some(Exact) => 0
    case Some(Prefix) => 1
    case Some(Regex) => 2
    case _ => 3
  }

  /** A value that is there comes before one that is not. */
  function CompareText?(a: Option<string>, b: Option<string>): Cmp {
    match (a, b)
    case (Some(x), Some(y)) => CompareText(x, y)
    case (Some(_), None) => Less
    case (None, Some(_)) => Greater
    case (None, None) => Equal
  }

  function ComparePath(a: Criteria, b: Criteria): Cmp {
    if a.path.Some? && b.path.Some? then
      Then(CompareInt(PathTypeOrder(a.pathType), PathTypeOrder(b.pathType)),
           Then(CompareInt(|b.path.value|, |a.path.value|), CompareText(a.path.value, b.path.value)))
    else CompareText?(a.path, b.path)
  }

  function MatchersText?(matchers: seq<Matcher>): Option<string> {
    if matchers == [] then None else Some(MatchersText(matchers))
  }

  function CompareCriteria(a: Criteria, b: Criteria): Cmp {
    Then(ComparePath(a, b),
         Then(CompareText?(MatchersText?(a.headers), MatchersText?(b.headers)),
              Then(CompareText?(MatchersText?(a.query), MatchersText?(b.query)), CompareText?(a.verb, b.verb))))
  }

  function CompareRoutes(a: Route, b: Route): Cmp {
    match (a.criteria, b.criteria)
    case (Some(x), Some(y)) => CompareCriteria(x, y)
    case (Some(_), None) => Less
    case (None, Some(_)) => Greater
    case (None, None) => Equal
  }

  lemma OptionalTextOrdered(a: Option<string>, b: Option<string>, c: Option<string>)
    ensures CompareText?(b, a) == Flip(CompareText?(a, b))
    ensures Coherent(CompareText?(a, b), CompareText?(b, c), CompareText?(a, c))
  {
    var x := if a.Some? then a.value else "";
    var y := if b.Some? then b.value else "";
    var z := if c.Some? then c.value else "";
    TextOrdered(x, y, z);
  }

  lemma PathOrdered(a: Criteria, b: Criteria, c: Criteria)
    ensures ComparePath(b, a) == Flip(ComparePath(a, b))
    ensures Coherent(ComparePath(a, b), ComparePath(b, c), ComparePath(a, c))
  {
    var x := if a.path.Some? then a.path.value else "";
    var y := if b.path.Some? then b.path.value else "";
    var z := if c.path.Some? then c.path.value else "";
    TextOrdered(x, y, z);
  }

  lemma RoutesOrderAt(a: Route, b: Route, c: Route)
    ensures CompareRoutes(b, a) == Flip(CompareRoutes(a, b))
    ensures Coherent(CompareRoutes(a, b), CompareRoutes(b, c), CompareRoutes(a, c))
  {
    hide ComparePath, CompareText?, MatchersText?;
    if a.criteria.Some? && b.criteria.Some? {
      var x, y := a.criteria.value, b.criteria.value;
      var z := if c.criteria.Some? then c.criteria.value else x;
      PathOrdered(x, y, z);
      OptionalTextOrdered(MatchersText?(x.headers), MatchersText?(y.headers), MatchersText?(z.headers));
      OptionalTextOrdered(MatchersText?(x.query), MatchersText?(y.query), MatchersText?(z.query));
      OptionalTextOrdered(x.verb, y.verb, z.verb);
    }
  }

  /** The comparator is a strict weak order. */
  lemma RoutesOrder()
    ensures IsOrder(CompareRoutes)
  {
    forall a, b, c
      ensures CompareRoutes(b, a) == Flip(CompareRoutes(a, b))
      ensures Coherent(CompareRoutes(a, b), CompareRoutes(b, c), CompareRoutes(a, c))
    {
      RoutesOrderAt(a, b, c);
    }
  }

  predicate TextLess(a: string, b: string) {
    CompareText(a, b) == Less
  }

  /** Go dereferences the path type of a route with a path. */
  predicate PathTyped(criteria: Option<Criteria>) {
    criteria.Some? && criteria.value.path.Some? ==> criteria.value.pathType.Some?
  }

  /** The comparison function handed to the sort, branch by branch. */
  predicate ComesBefore(i: Option<Criteria>, j: Option<Criteria>)
    requires PathTyped(i) && PathTyped(j)
  {
    if i.None? then false
    else if j.None? then true
    else
      var mi, mj := i.value, j.value;
      if mi.path.Some? && mj.path.None? then true
      else if mi.path.None? && mj.path.Some? then false
      else if mi.path.Some? && PathTypeOrder(mi.pathType) != PathTypeOrder(mj.pathType) then
        PathTypeOrder(mi.pathType) < PathTypeOrder(mj.pathType)
      else if mi.path.Some? && |mi.path.value| != |mj.path.value| then |mi.path.value| > |mj.path.value|
      else if mi.path.Some? && mi.path.value != mj.path.value then TextLess(mi.path.value, mj.path.value)
      else if mi.headers != [] && mj.headers == [] then true
      else if mi.headers == [] && mj.headers != [] then false
      else if mi.headers != [] && MatchersText(mi.headers) != MatchersText(mj.headers) then
        TextLess(MatchersText(mi.headers), MatchersText(mj.headers))
      else if mi.query != [] && mj.query == [] then true
      else if mi.query == [] && mj.query != [] then false
      else if mi.query != [] && MatchersText(mi.query) != MatchersText(mj.query) then
        TextLess(MatchersText(mi.query), MatchersText(mj.query))
      else if mi.verb.Some? && mj.verb.None? then true
      else if mi.verb.None? && mj.verb.Some? then false
      else if mi.verb.Some? && mi.verb != mj.verb then TextLess(mi.verb.value, mj.verb.value)
      else false
  }

  /** The branches of the comparison function are the lexicographic comparison. */
  lemma ComesBeforeIsLess(a: Route, b: Route)
    requires PathTyped(a.criteria) && PathTyped(b.criteria)
    ensures ComesBefore(a.criteria, b.criteria) <==> CompareRoutes(a, b) == Less
  {
    hide MatchersText, CompareText;
    if a.criteria.Some? && b.criteria.Some? {
      var x, y := a.criteria.value, b.criteria.value;
      if x.path.Some? && y.path.Some? {
        TextOrdered(x.path.value, y.path.value, y.path.value);
      }
      if x.verb.Some? && y.verb.Some? {
        TextOrdered(x.verb.value, y.verb.value, y.verb.value);
      }
      TextOrdered(MatchersText(x.headers), MatchersText(y.headers), MatchersText(y.headers));
      TextOrdered(MatchersText(x.query), MatchersText(y.query), MatchersText(y.query));
    }
  }

  // ----- sorting

  class RouteList {
    var routes: seq<Route>

    constructor (routes: seq<Route>)
      ensures this.routes == routes
    {
      this.routes := routes;
    }

    /** Sorts in place, stably, by the comparison function alone. */
    method SortRoutes()
      requires forall r <- routes :: PathTyped(r.criteria)
      modifies this
      ensures routes == Sort(CompareRoutes, old(routes))
    {
      hide CompareRoutes;
      var input, sorted := routes, [];
      for i := |input| downto 0
        invariant sorted == Sort(CompareRoutes, input[i..])
        invariant forall r <- sorted :: PathTyped(r.criteria)
      {
        assert input[i..][1..] == input[i + 1..] && input[i] in input;
        sorted := InsertRoute(input[i], sorted);
      }
      assert input[0..] == input;
      routes := sorted;
    }

    static method InsertRoute(x: Route, sorted: seq<Route>) returns (longer: seq<Route>)
      requires PathTyped(x.criteria) && forall r <- sorted :: PathTyped(r.criteria)
      ensures longer == Insert(CompareRoutes, x, sorted)
      ensures forall r <- longer :: PathTyped(r.criteria)
    {
      hide CompareRoutes, ComesBefore, Insert, PathTyped;
      var j := 0;
      assert sorted[0..] == sorted && sorted[..0] == [];
      while j < |sorted| && ComesBefore(sorted[j].criteria, x.criteria)
        invariant 0 <= j <= |sorted|
        invariant Insert(CompareRoutes, x, sorted) == sorted[..j] + Insert(CompareRoutes, x, sorted[j..])
      {
        ComesBeforeIsLess(sorted[j], x);
        InsertFrom(CompareRoutes, x, sorted, j);
        assert sorted[..j + 1] == sorted[..j] + [sorted[j]];
        j := j + 1;
      }
      if j < |sorted| {
        ComesBeforeIsLess(sorted[j], x);
      }
      InsertFrom(CompareRoutes, x, sorted, j);
      longer := sorted[..j] + ([x] + sorted[j..]);
    }
  }

  // ----- the first match of a sorted list

  lemma {:induction false} FirstMatchIsFirst(env: Env, routes: seq<Route>, req: Request)
    ensures match FirstMatch(env, routes, req)
            case None => forall q <- routes :: !Skipped(q) ==> !Accepts(env, q.criteria, req)
            case Some(r) =>
              exists i :: 0 <= i < |routes| && routes[i] == r && !Skipped(r) && Accepts(env, r.criteria, req)
                       && forall j | 0 <= j < i :: Skipped(routes[j]) || !Accepts(env, routes[j].criteria, req)
  {
    hide Accepts;
    if routes != [] {
      FirstMatchIsFirst(env, routes[1..], req);
      assert routes == [routes[0]] + routes[1..];
      if FirstMatch(env, routes, req).Some? && (Skipped(routes[0]) || !Accepts(env, routes[0].criteria, req)) {
        var r := FirstMatch(env, routes[1..], req).value;
        var i :| 0 <= i < |routes[1..]| && routes[1..][i] == r && !Skipped(r) && Accepts(env, r.criteria, req)
              && forall j | 0 <= j < i :: Skipped(routes[1..][j]) || !Accepts(env, routes[1..][j].criteria, req);
        assert routes[i + 1] == r;
        forall j | 0 <= j < i + 1
          ensures Skipped(routes[j]) || !Accepts(env, routes[j].criteria, req)
        {
          if j > 0 {
            assert routes[j] == routes[1..][j - 1];
          }
        }
      }
    }
  }

  /** No matching route would have been sorted before the first match. */
  lemma FirstMatchIsLeast(env: Env, routes: seq<Route>, req: Request)
    ensures match FirstMatch(env, Sort(CompareRoutes, routes), req)
            case None => forall q <- routes :: !Skipped(q) ==> !Accepts(env, q.criteria, req)
            case Some(r) =>
              && r in routes && Accepts(env, r.criteria, req)
              && forall q <- routes | !Skipped(q) && Accepts(env, q.criteria, req) :: CompareRoutes(q, r) != Less
  {
    hide CompareRoutes, Accepts;
    var sorted := Sort(CompareRoutes, routes);
    RoutesOrder();
    SortSorts(CompareRoutes, routes);
    SortPermutes(CompareRoutes, routes);
    assert forall q :: q in routes <==> q in sorted by {
      forall q
        ensures q in routes <==> q in sorted
      {
        assert q in multiset(routes) <==> q in multiset(sorted);
      }
    }
    FirstMatchIsFirst(env, sorted, req);
    if FirstMatch(env, sorted, req).Some? {
      var r := FirstMatch(env, sorted, req).value;
      var i :| 0 <= i < |sorted| && sorted[i] == r
            && forall j | 0 <= j < i :: Skipped(sorted[j]) || !Accepts(env, sorted[j].criteria, req);
      forall q <- routes | !Skipped(q) && Accepts(env, q.criteria, req)
        ensures CompareRoutes(q, r) != Less
      {
        var j :| 0 <= j < |sorted| && sorted[j] == q;
        if j == i {
          RoutesOrderAt(r, r, r);
        }
      }
    }
  }

  predicate ExactPath(r: Route) {
    r.criteria.Some? && r.criteria.value.path.Some? && r.criteria.value.pathType == Some(Exact)
  }

  predicate PrefixPath(r: Route) {
    r.criteria.Some? && r.criteria.value.path.Some? && r.criteria.value.pathType == Some(Prefix)
  }

  predicate HasPath(r: Route) {
    r.criteria.Some? && r.criteria.value.path.Some?
  }

  /** First match is most specific: an exact path if one accepts the request, otherwise an accepting prefix of
      maximal length, otherwise a regular expression, another path, criteria without a path. */
  lemma FirstMatchIsMostSpecific(env: Env, routes: seq<Route>, req: Request, q: Route)
    requires q in routes && !Skipped(q) && Accepts(env, q.criteria, req)
    ensures var m := FirstMatch(env, Sort(CompareRoutes, routes), req);
            && m.Some? && m.value in routes && Accepts(env, m.value.criteria, req)
            && (ExactPath(q) ==> ExactPath(m.value))
            && (PrefixPath(q) ==>
                  || ExactPath(m.value)
                  || (PrefixPath(m.value) && q.criteria.value.path.value <= m.value.criteria.value.path.value))
            && (RegexPath(q.criteria) ==> ExactPath(m.value) || PrefixPath(m.value) || RegexPath(m.value.criteria))
            && (HasPath(q) ==> HasPath(m.value)) && (q.criteria.Some? ==> m.value.criteria.Some?)
  {
    hide Sort, FirstMatch;
    FirstMatchIsLeast(env, routes, req);
    var m := FirstMatch(env, Sort(CompareRoutes, routes), req).value;
    if PrefixPath(q) && PrefixPath(m) {
      var p, longest := q.criteria.value.path.value, m.criteria.value.path.value;
      assert |p| <= |longest|;
      assert p <= req.path && longest <= req.path;
    }
  }

  /** Both lists are empty, or both print the same. */
  predicate SameText(a: seq<Matcher>, b: seq<Matcher>) {
    (a == [] <==> b == []) && MatchersText(a) == MatchersText(b)
  }

  /** At equal paths: headers before none, by their text; then query parameters alike; then a method before none. */
  lemma TiesGoByMatchers(env: Env, routes: seq<Route>, req: Request, q: Route)
    requires q in routes && !Skipped(q) && Accepts(env, q.criteria, req) && q.criteria.Some?
    ensures var m := FirstMatch(env, Sort(CompareRoutes, routes), req);
            && m.Some? && m.value.criteria.Some?
            && var a, b := m.value.criteria.value, q.criteria.value;
               a.path == b.path && a.pathType == b.pathType ==>
                 && (b.headers != [] ==>
                       a.headers != [] && CompareText(MatchersText(b.headers), MatchersText(a.headers)) != Less)
                 && (SameText(a.headers, b.headers) && b.query != [] ==>
                       a.query != [] && CompareText(MatchersText(b.query), MatchersText(a.query)) != Less)
                 && (SameText(a.headers, b.headers) && SameText(a.query, b.query) && b.verb.Some? ==>
                       a.verb.Some? && CompareText(b.verb.value, a.verb.value) != Less)
  {
    hide Sort, FirstMatch, MatchersText;
    FirstMatchIsLeast(env, routes, req);
    FirstMatchIsMostSpecific(env, routes, req, q);
    var a, b := FirstMatch(env, Sort(CompareRoutes, routes), req).value.criteria.value, q.criteria.value;
    if a.path.Some? {
      TextOrdered(a.path.value, a.path.value, a.path.value);
    }
    TextOrdered(MatchersText(a.headers), MatchersText(a.headers), MatchersText(a.headers));
    TextOrdered(MatchersText(a.query), MatchersText(a.query), MatchersText(a.query));
  }

  lemma SortTwo(a: Matcher, b: Matcher)
    requires CompareMatcher(b, a) == Less
    ensures Sort(CompareMatcher, [a, b]) == [b, a]
  {
    hide CompareMatcher;
    assert [a, b][1..] == [b] && [b][1..] == [];
    assert Sort(CompareMatcher, [b]) == Insert(CompareMatcher, b, []) == [b];
    assert Insert(CompareMatcher, a, [b]) == [b] + Insert(CompareMatcher, a, []);
  }

  lemma PrintTwo(a: Matcher, b: Matcher)
    ensures Print([a, b]) == PrintOne(a) + PrintOne(b)
  {
    hide PrintOne;
    assert [a, b][1..] == [b] && [b][1..] == [];
    assert Print([b]) == PrintOne(b) + Print([]);
  }

  /** What the text looks like: sorted by name, then exact before regex. */
  lemma TwoMatchersText(name: string, v: string, w: string)
    ensures MatchersText([Matcher(name, v, RegexValue), Matcher(name, w, ExactValue)])
         == (name + ":exact:" + w + ";") + (name + ":regex:" + v + ";")
  {
    hide Print, Sort;
    var a, b := Matcher(name, v, RegexValue), Matcher(name, w, ExactValue);
    TextOrdered(name, name, name);
    SortTwo(a, b);
    PrintTwo(b, a);
    assert ":" + "exact" == ":exact" && ":" + "regex" == ":regex";
    assert PrintOne(b) == name + ":exact:" + w + ";";
    assert PrintOne(a) == name + ":regex:" + v + ";";
  }
}
