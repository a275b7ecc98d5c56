/** The on_http_request phase of a traffic policy, and what running it does to a request.

  Rules run in order and a rule fires when all its expressions hold. Setting variables and rewriting
  the request continue with the next action; forwarding and responding stop the policy. Falling off the
  end of a policy attached to an agent endpoint reaches that endpoint's own upstream. */
module TrafficPolicy {
  import opened Options
  import opened Urls
  import Texts

  type Values = map<string, seq<string>>

  datatype Request = Request(path: string, headers: Values, query: Values, verb: string)

  /** Whether an expression reads `req.*` or the copy saved in `vars.original_*`. */
  datatype Source = Live | Captured

  datatype ValueTest = Equals(value: string) | Matches(pattern: string)

  datatype Expr =
    | PathIs(src: Source, path: string)
    | PathStartsWith(src: Source, path: string)
    | Header(src: Source, name: string, test: ValueTest)
    | Query(src: Source, name: string, test: ValueTest)
    | MethodIs(verb: string)
    | NotMatchedLocally             // vars.request_matched_local_svc == false
    | DrawAtMost(hi: int)           // int(vars.weighted_route_random_num) <= hi
    | DrawBetween(lo: int, hi: int)
    | UserExpr(id: nat)             // an expression a user wrote

  datatype Action =
    | AddHeaders(added: map<string, string>)
    | RemoveHeaders(names: set<string>)
    | UrlRewrite(rewriteFrom: string, rewriteTo: string)
    | SetUserVar(variable: string, value: string)
    | Effect(kind: string)          // any other action that neither stops the policy nor changes the request
    | ForwardInternal(url: Url)
    | Respond(status: int)
    | SetMatchedLocally(matched: bool)
    | CaptureOriginals
    | Draw(hi: int)                 // vars.weighted_route_random_num = rand.int(0, hi)

  datatype Rule = Rule(name: string, exprs: seq<Expr>, actions: seq<Action>)

  /** The compiler's own variables, and those of the users' policies. An unset variable is `None`. */
  datatype Vars = Vars(
    matchedLocally: Option<bool>,
    path: Option<string>,
    headers: Option<Values>,
    query: Option<Values>,
    drawn: Option<int>,
    user: map<string, string>)

  /** A policy run in progress: `trace` lists the user-visible actions taken so far, and `draws` counts
      the random numbers taken. */
  datatype State = State(req: Request, vars: Vars, trace: seq<Action>, draws: nat)

  datatype Outcome =
    | Forwarded(url: Url, at: State)
    | Responded(status: int, at: State)
    | FellThrough(at: State)

  /** What the policy language takes from outside: regular expressions, the users' expressions, URL
      rewriting and the random numbers. */
  datatype Env = Env(
    matches: (string, string) -> bool,
    user: (nat, Request, map<string, string>) -> bool,
    rewrite: (string, string, string, Values) -> (string, Values),
    draw: (nat, nat) -> nat)

  /** `rand.int(0, hi)` stays within its bounds. */
  ghost predicate DrawsInRange(env: Env) {
    forall k, hi :: env.draw(k, hi) <= hi
  }

  /** A header or query parameter given several times reads as one value. */
  function Joined(values: seq<string>): string {
    Texts.Join(values, ',')
  }

  predicate Passes(env: Env, test: ValueTest, values: Option<Values>, name: string) {
    && values.Some?
    && name in values.value
    && match test
       case Equals(v) => Joined(values.value[name]) == v
       case Matches(p) => env.matches(p, Joined(values.value[name]))
  }

  function PathAt(src: Source, st: State): Option<string> {
    if src.Live? then Some(st.req.path) else st.vars.path
  }

  function HeadersAt(src: Source, st: State): Option<Values> {
    if src.Live? then Some(st.req.headers) else st.vars.headers
  }

  function QueryAt(src: Source, st: State): Option<Values> {
    if src.Live? then Some(st.req.query) else st.vars.query
  }

  predicate Holds(env: Env, e: Expr, st: State) {
    match e
    case PathIs(src, p) => PathAt(src, st) == Some(p)
    case PathStartsWith(src, p) => PathAt(src, st).Some? && p <= PathAt(src, st).value
    case Header(src, name, test) => Passes(env, test, HeadersAt(src, st), name)
    case Query(src, name, test) => Passes(env, test, QueryAt(src, st), name)
    case MethodIs(v) => st.req.verb == v
    case NotMatchedLocally => st.vars.matchedLocally == Some(false)
    case DrawAtMost(hi) => st.vars.drawn.Some? && st.vars.drawn.value <= hi
    case DrawBetween(lo, hi) => st.vars.drawn.Some? && lo <= st.vars.drawn.value <= hi
    case UserExpr(id) => env.user(id, st.req, st.vars.user)
  }

  ghost predicate AllHold(env: Env, exprs: seq<Expr>, st: State) {
    forall e <- exprs :: Holds(env, e, st)
  }

  function WithHeaders(headers: Values, added: map<string, string>): Values {
    map name | name in headers.Keys + added.Keys ::
      (if name in headers then headers[name] else []) + (if name in added then [added[name]] else [])
  }

  function Take(env: Env, a: Action, st: State): Outcome {
    match a
    case AddHeaders(added) =>
      FellThrough(st.(req := st.req.(headers := WithHeaders(st.req.headers, added)), trace := st.trace + [a]))
    case RemoveHeaders(names) =>
      FellThrough(st.(req := st.req.(headers := st.req.headers - names), trace := st.trace + [a]))
    case UrlRewrite(source, target) =>
      var (path, query) := env.rewrite(source, target, st.req.path, st.req.query);
      FellThrough(st.(req := st.req.(path := path, query := query), trace := st.trace + [a]))
    case SetUserVar(v, value) =>
      FellThrough(st.(vars := st.vars.(user := st.vars.user[v := value]), trace := st.trace + [a]))
    case Effect(_) => FellThrough(st.(trace := st.trace + [a]))
    case ForwardInternal(url) => Forwarded(url, st)
    case Respond(status) => Responded(status, st)
    case SetMatchedLocally(b) => FellThrough(st.(vars := st.vars.(matchedLocally := Some(b))))
    case CaptureOriginals =>
      FellThrough(st.(vars := st.vars.(path := Some(st.req.path), headers := Some(st.req.headers),
                                       query := Some(st.req.query))))
    case Draw(hi) =>
      var drawn := if hi < 0 then None else Some(env.draw(st.draws, hi));
      FellThrough(st.(vars := st.vars.(drawn := drawn), draws := st.draws + 1))
  }

  function TakeAll(env: Env, actions: seq<Action>, st: State): Outcome {
    if actions == [] then FellThrough(st)
    else
      match Take(env, actions[0], st)
      case FellThrough(next) => TakeAll(env, actions[1..], next)
      case stopped => stopped
  }

  ghost function RunRule(env: Env, rule: Rule, st: State): Outcome {
    if AllHold(env, rule.exprs, st) then TakeAll(env, rule.actions, st) else FellThrough(st)
  }

  ghost function Run(env: Env, rules: seq<Rule>, st: State): Outcome {
    if rules == [] then FellThrough(st)
    else
      match RunRule(env, rules[0], st)
      case FellThrough(next) => Run(env, rules[1..], next)
      case stopped => stopped
  }

  ghost function Continue(env: Env, o: Outcome, rules: seq<Rule>): Outcome {
    match o
    case FellThrough(next) => Run(env, rules, next)
    case stopped => stopped
  }

  /** A policy merged from two runs the first and then, unless that stopped, the second. */
  lemma {:induction false} RunMerged(env: Env, first: seq<Rule>, second: seq<Rule>, st: State)
    ensures Run(env, first + second, st) == Continue(env, Run(env, first, st), second)
  {
    if first == [] {
      assert first + second == second;
    } else {
      assert (first + second)[1..] == first[1..] + second;
      match RunRule(env, first[0], st)
      case FellThrough(next) => RunMerged(env, first[1..], second, next);
      case stopped =>
    }
  }

  /** Rules of which none fires leave the run where it was. */
  lemma {:induction false} RunNothing(env: Env, rules: seq<Rule>, st: State)
    requires forall r <- rules :: !AllHold(env, r.exprs, st)
    ensures Run(env, rules, st) == FellThrough(st)
  {
    if rules != [] {
      RunNothing(env, rules[1..], st);
    }
  }

  lemma RunSingle(env: Env, name: string, exprs: seq<Expr>, a: Action, st: State)
    ensures Run(env, [Rule(name, exprs, [a])], st)
         == if AllHold(env, exprs, st) then Take(env, a, st) else FellThrough(st)
  {
    assert [a][1..] == [];
    assert TakeAll(env, [a], st) == Take(env, a, st);
    assert [Rule(name, exprs, [a])][1..] == [];
  }

  /** The elements of `items` that are not in `existing`, in order and with repetitions. */
  function Missing(existing: seq<Expr>, items: seq<Expr>): seq<Expr> {
    if items == [] then []
    else (if items[0] in existing then [] else [items[0]]) + Missing(existing, items[1..])
  }

  function AppendUnique(existing: seq<Expr>, items: seq<Expr>): seq<Expr> {
    existing + Missing(existing, items)
  }

  lemma {:induction false} MissingElements(existing: seq<Expr>, items: seq<Expr>)
    ensures forall e :: e in Missing(existing, items) <==> e in items && e !in existing
  {
    if items != [] {
      MissingElements(existing, items[1..]);
      assert items == [items[0]] + items[1..];
    }
  }

  /** The merged expression list is the conjunction of the two lists, and keeps the first as a prefix. */
  lemma AppendUniqueIsConjunction(env: Env, existing: seq<Expr>, items: seq<Expr>, st: State)
    ensures AllHold(env, AppendUnique(existing, items), st) <==> AllHold(env, existing, st) && AllHold(env, items, st)
    ensures forall e :: e in AppendUnique(existing, items) <==> e in existing || e in items
  {
    MissingElements(existing, items);
  }

  lemma {:induction false} MissingSplit(existing: seq<Expr>, first: seq<Expr>, second: seq<Expr>)
    ensures Missing(existing, first + second) == Missing(existing, first) + Missing(existing, second)
  {
    if first == [] {
      assert first + second == second;
    } else {
      assert (first + second)[1..] == first[1..] + second;
      MissingSplit(existing, first[1..], second);
    }
  }

  /** The loops of the source: a set of the existing items is built first, and is not extended by the
      items appended, so a repetition inside `items` survives. */
  method AppendStringUnique(existing: seq<Expr>, items: seq<Expr>) returns (merged: seq<Expr>)
    ensures merged == AppendUnique(existing, items)
  {
    var unique: set<Expr> := {};
    for i := 0 to |existing|
      invariant forall e :: e in unique <==> e in existing[..i]
    {
      unique := unique + {existing[i]};
    }
    merged := existing;
    for i := 0 to |items|
      invariant merged == AppendUnique(existing, items[..i])
    {
      assert items[..i + 1] == items[..i] + [items[i]];
      MissingSplit(existing, items[..i], [items[i]]);
      if items[i] !in unique {
        merged := merged + [items[i]];
      }
    }
    assert items[..|items|] == items;
  }
}
