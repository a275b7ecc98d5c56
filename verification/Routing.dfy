/** The rules the compiler emits for one HTTP(S) virtual host, as functions of the host. */
module Routing {
  import opened Options
  import opened Urls
  import opened TrafficPolicy
  import opened IR
  import opened ServiceKeys

  type UrlTable = map<ServiceKey, Url>

  // ----- matching a route

  function TestOf(m: Matcher): Option<ValueTest> {
    match m.valueType
    case ExactValue => Some(Equals(m.value))
    case RegexValue => Some(Matches(m.value))
    case OtherValue(_) => None
  }

  function HeaderExpr(src: Source, m: Matcher): seq<Expr> {
    if TestOf(m).Some? then [Header(src, m.name, TestOf(m).value)] else []
  }

  function QueryExpr(src: Source, m: Matcher): seq<Expr> {
    if TestOf(m).Some? then [Query(src, m.name, TestOf(m).value)] else []
  }

  function AddHeaderExprs(acc: seq<Expr>, src: Source, matchers: seq<Matcher>): seq<Expr>
    decreases |matchers|
  {
    if matchers == [] then acc
    else AddHeaderExprs(AppendUnique(acc, HeaderExpr(src, matchers[0])), src, matchers[1..])
  }

  function AddQueryExprs(acc: seq<Expr>, src: Source, matchers: seq<Matcher>): seq<Expr>
    decreases |matchers|
  {
    if matchers == [] then acc
    else AddQueryExprs(AppendUnique(acc, QueryExpr(src, matchers[0])), src, matchers[1..])
  }

  /** Every path type but `Exact` becomes a prefix test, a missing one and `Regex` included. */
  function PathExprs(c: Criteria, src: Source): seq<Expr> {
    if c.path.None? then []
    else if c.pathType == Some(Exact) then [PathIs(src, c.path.value)]
    else [PathStartsWith(src, c.path.value)]
  }

  function VerbExprs(c: Criteria): seq<Expr> {
    if c.verb.Some? then [MethodIs(c.verb.value)] else []
  }

  function MatchExprs(criteria: Option<Criteria>, src: Source): seq<Expr> {
    if criteria.None? then []
    else
      var c := criteria.value;
      AppendUnique(AddQueryExprs(AddHeaderExprs(PathExprs(c, src), src, c.headers), src, c.query), VerbExprs(c))
  }

  // ----- capturing the original request

  /** Whether the compiler thinks the action changes something the criteria read. */
  predicate Touches(a: Action, criteria: Option<Criteria>) {
    && criteria.Some?
    && match a
       case AddHeaders(_) => criteria.value.headers != []
       case RemoveHeaders(_) => criteria.value.headers != []
       case UrlRewrite(_, _) => criteria.value.path.Some?
       case _ => false
  }

  predicate RulesTouch(rules: Policy, criteria: Option<Criteria>) {
    exists r <- rules :: exists a <- r.actions :: Touches(a, criteria)
  }

  predicate NeedsCapture(routes: seq<Route>) {
    exists route <- routes :: RulesTouch(UserRules(route), route.criteria)
  }

  function SourceFor(capture: bool): Source {
    if capture then Captured else Live
  }

  // ----- the rules

  const LOCALLY := [NotMatchedLocally]

  function LocalGuard(collapse: Option<ServiceKey>): seq<Expr> {
    if collapse.Some? then LOCALLY else []
  }

  function Guards(criteria: Option<Criteria>, capture: bool, collapse: Option<ServiceKey>): seq<Expr> {
    AppendUnique(MatchExprs(criteria, SourceFor(capture)), LocalGuard(collapse))
  }

  function Guarded(rules: Policy, guards: seq<Expr>): Policy {
    seq(|rules|, i requires 0 <= i < |rules| => rules[i].(exprs := AppendUnique(rules[i].exprs, guards)))
  }

  function RouteLocallyRule(name: string, value: bool): Rule {
    Rule(name, [], [SetMatchedLocally(value)])
  }

  function ForwardRule(name: string, url: Url): Rule {
    Rule(name, [], [ForwardInternal(url)])
  }

  /** The rule that ends a route: none when no endpoint could be built for the service. */
  function ServiceRules(localName: string, name: string, s: Service, collapse: Option<ServiceKey>, urls: UrlTable)
    : Policy
  {
    if Key(s) !in urls then []
    else if collapse == Some(Key(s)) then [RouteLocallyRule(localName, true)]
    else [ForwardRule(name, urls[Key(s)])]
  }

  /** The range of draws that select a destination of weight `w` after those below `lower`. */
  function WeightExpr(lower: int, w: int): Expr {
    if lower == 0 then DrawAtMost(lower + w - 1) else DrawBetween(lower, lower + w - 1)
  }

  function UpstreamRules(d: Destination, collapse: Option<ServiceKey>, urls: UrlTable): Policy {
    if d.upstream.None? then []
    else ServiceRules("Generated-Local-Service-Route", "Generated-Route", d.upstream.value, collapse, urls)
  }

  function OneDestination(d: Destination, weighted: seq<Expr>, guards: seq<Expr>,
                          collapse: Option<ServiceKey>, urls: UrlTable): Policy
  {
    Guarded(Guarded(Flatten(d.policies) + UpstreamRules(d, collapse, urls), guards), weighted)
  }

  function Destinations(ds: seq<Destination>, lower: int, many: bool, guards: seq<Expr>,
                        collapse: Option<ServiceKey>, urls: UrlTable): Policy
    decreases |ds|
  {
    if ds == [] then []
    else
      var weighted := if many then [WeightExpr(lower, Weight(ds[0]))] else [];
      OneDestination(ds[0], weighted, guards, collapse, urls)
      + Destinations(ds[1..], if many then lower + Weight(ds[0]) else lower, many, guards, collapse, urls)
  }

  function DrawRules(ds: seq<Destination>, guards: seq<Expr>): Policy {
    if |ds| > 1 then [Rule("Gen-Random-Number", guards, [Draw(TotalWeight(ds) - 1)])] else []
  }

  /** A route with neither destinations nor policies is left out. */
  predicate Skipped(route: Route) {
    route.destinations == [] && route.policies == []
  }

  function RouteRules(route: Route, capture: bool, collapse: Option<ServiceKey>, urls: UrlTable): Policy {
    if Skipped(route) then []
    else
      var guards := Guards(route.criteria, capture, collapse);
      Guarded(Flatten(route.policies), guards)
      + DrawRules(route.destinations, guards)
      + Destinations(route.destinations, 0, |route.destinations| > 1, guards, collapse, urls)
  }

  function AllRouteRules(routes: seq<Route>, capture: bool, collapse: Option<ServiceKey>, urls: UrlTable): Policy {
    if routes == [] then []
    else RouteRules(routes[0], capture, collapse, urls) + AllRouteRules(routes[1..], capture, collapse, urls)
  }

  function InitRules(collapse: Option<ServiceKey>): Policy {
    if collapse.Some? then [RouteLocallyRule("Initialize-Local-Service-Match", false)] else []
  }

  function CaptureRules(capture: bool): Policy {
    if capture then [Rule("Capture-Original-Request-Data", [], [CaptureOriginals])] else []
  }

  function RoutingRules(routes: seq<Route>, collapse: Option<ServiceKey>, urls: UrlTable): Policy {
    var capture := NeedsCapture(routes);
    InitRules(collapse) + CaptureRules(capture) + AllRouteRules(routes, capture, collapse, urls)
  }

  /** The policies of a default destination keep their expressions: the compiler's loops over them assign
      to copies of the rules, so no guard reaches them. */
  function DefaultPolicyRules(defaultDestination: Option<Destination>): Policy {
    if defaultDestination.None? then [] else Flatten(defaultDestination.value.policies)
  }

  function DefaultServiceRules(defaultDestination: Option<Destination>, collapse: Option<ServiceKey>, urls: UrlTable)
    : Policy
  {
    if defaultDestination.None? || defaultDestination.value.upstream.None? then []
    else
      var name := "Generated-Route-Default-Backend";
      Guarded(ServiceRules(name, name, defaultDestination.value.upstream.value, collapse, urls), LocalGuard(collapse))
  }

  function NotFoundRule(collapse: Option<ServiceKey>): Rule {
    Rule("Fallback-404", LocalGuard(collapse), [Respond(404)])
  }

  /** What the compiler appends to a host's own policy. */
  function Compiled(host: VirtualHost, collapse: Option<ServiceKey>, urls: UrlTable): Policy {
    RoutingRules(host.routes, collapse, urls)
    + DefaultPolicyRules(host.defaultDestination)
    + DefaultServiceRules(host.defaultDestination, collapse, urls)
    + [NotFoundRule(collapse)]
  }
}
