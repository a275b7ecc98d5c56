/** Bound endpoints are named by a scheme, a service, a namespace and a port; the aggregator parses those out of
    the endpoints' public URLs and groups the endpoints by them. */
module Hostports {
  import opened Options
  import opened Texts

  // ----- the part of the URL syntax that matters here (section 3 of RFC 3986)

  predicate IsLetter(c: char) {
    'a' <= c <= 'z' || 'A' <= c <= 'Z'
  }

  predicate IsSchemeChar(c: char) {
    IsLetter(c) || IsDigit(c) || c == '+' || c == '-' || c == '.'
  }

  predicate IsHostChar(c: char) {
    IsLetter(c) || IsDigit(c) || c == '-' || c == '_' || c == '.'
  }

  predicate IsLabelChar(c: char) {
    IsHostChar(c) && c != '.'
  }

  predicate InSegment(c: char) {
    c != '/' && c != '?' && c != '#'
  }

  function LowerChar(c: char): (l: char)
    ensures IsSchemeChar(c) ==> IsSchemeChar(l) && (IsLetter(c) ==> 'a' <= l <= 'z')
  {
    if 'A' <= c <= 'Z' then c - 'A' + 'a' else c
  }

  function Lower(s: string): (l: string)
    ensures |l| == |s| && forall i | 0 <= i < |s| :: l[i] == LowerChar(s[i])
  {
    seq(|s|, i requires 0 <= i < |s| => LowerChar(s[i]))
  }

  datatype Scheme = NoScheme | BadScheme | Scheme(name: string, rest: string)

  function GetScheme(raw: string): Scheme {
    var n := Span(raw, IsSchemeChar);
    if n == |raw| || raw[n] != ':' then NoScheme
    else if n == 0 then BadScheme
    else if !IsLetter(raw[0]) then NoScheme
    else Scheme(raw[..n], raw[n + 1..])
  }

  datatype Parts = Parts(scheme: string, hostname: string, port: string)

  /** A hostname, and a port that may be missing or empty. */
  function ParseAuthority(scheme: string, text: string): Option<Parts> {
    var n := Span(text, IsHostChar);
    if n == |text| then Some(Parts(scheme, text, ""))
    else if text[n] == ':' && Span(text[n + 1..], IsDigit) == |text| - n - 1 then
      Some(Parts(scheme, text[..n], text[n + 1..]))
    else None
  }

  function ParseUrl(raw: string): Option<Parts> {
    match GetScheme(raw)
    case BadScheme => None
    case NoScheme =>
      // without a scheme, a colon in the first segment is an error
      if ':' in raw[..Span(raw, InSegment)] then None else Some(Parts("", "", ""))
    case Scheme(name, rest) =>
      if "//" <= rest then
        var after := rest[2..];
        ParseAuthority(Lower(name), after[..Span(after, InSegment)])
      else Some(Parts(Lower(name), "", ""))
  }

  // ----- hostports

  datatype Hostport = Hostport(scheme: string, service: string, namespace: string, port: int)

  function Print(h: Hostport): string {
    h.scheme + "://" + h.service + "." + h.namespace + ":" + Decimal(h.port)
  }

  function DefaultPort(scheme: string): int {
    if scheme == "http" then 80 else if scheme == "https" || scheme == "tls" then 443 else 0
  }

  /** The conversion of a 64-bit number to 32 bits. */
  function Int32(n: nat): (r: int)
    ensures -0x8000_0000 <= r < 0x8000_0000 && (r - n) % 0x1_0000_0000 == 0
    ensures n < 0x8000_0000 ==> r == n
  {
    var low := n % 0x1_0000_0000;
    if low < 0x8000_0000 then low else low - 0x1_0000_0000
  }

  /** The number, unless it does not fit in 64 bits. */
  function Atoi(digits: string): Option<nat>
    requires forall c <- digits :: IsDigit(c)
  {
    var n := ValueOf(digits);
    if n < 0x8000_0000_0000_0000 then Some(n) else None
  }

  function IsNotDot(c: char): bool {
    c != '.'
  }

  /** Service, namespace and port out of the URL's parts. */
  function FromParts(u: Parts): Option<Hostport> {
    var n := Span(u.hostname, IsNotDot);
    if n == |u.hostname| || '.' in u.hostname[n + 1..] then None
    else if u.scheme == "tcp" && u.port == "" then None
    else
      var service, namespace := u.hostname[..n], u.hostname[n + 1..];
      if u.port == "" then Some(Hostport(u.scheme, service, namespace, DefaultPort(u.scheme)))
      else if Span(u.port, IsDigit) < |u.port| then None
      else
        assert u.port == u.port[..|u.port|];
        match Atoi(u.port)
        case None => None
        case Some(port) => Some(Hostport(u.scheme, service, namespace, Int32(port)))
  }

  function ParseHostport(proto: string, publicUrl: string): Option<Hostport> {
    if publicUrl == "" then None
    else
      match ParseUrl(publicUrl)
      case None => None
      case Some(u) =>
        if u.scheme == "" then
          match ParseUrl((if proto == "" then "https" else proto) + "://" + publicUrl)
          case None => None
          case Some(full) => FromParts(full)
        else if proto != "" && u.scheme != proto then None
        else FromParts(u)
  }

  // ----- round trip

  ghost predicate CanonicalScheme(s: string) {
    s != "" && 'a' <= s[0] <= 'z' && forall c <- s :: IsSchemeChar(c) && LowerChar(c) == c
  }

  /** What a parse can yield, whatever the input. */
  ghost predicate Parsed(h: Hostport) {
    && CanonicalScheme(h.scheme)
    && (forall c <- h.service :: IsLabelChar(c)) && (forall c <- h.namespace :: IsLabelChar(c))
    && -0x8000_0000 <= h.port < 0x8000_0000
  }

  lemma UrlParts(raw: string, u: Parts)
    requires ParseUrl(raw) == Some(u)
    ensures u.scheme == "" ==> u.hostname == ""
    ensures u.scheme != "" ==> CanonicalScheme(u.scheme)
    ensures (forall c <- u.hostname :: IsHostChar(c)) && (forall c <- u.port :: IsDigit(c))
  {
    match GetScheme(raw)
    case NoScheme =>
    case Scheme(name, rest) =>
      assert forall c <- name :: IsSchemeChar(c);
      forall i | 0 <= i < |name|
        ensures IsSchemeChar(Lower(name)[i]) && LowerChar(Lower(name)[i]) == Lower(name)[i]
      {
        assert name[i] in name;
      }
      if "//" <= rest {
        var after := rest[2..];
        AuthorityParts(Lower(name), after[..Span(after, InSegment)], u);
      }
  }

  lemma AuthorityParts(scheme: string, text: string, u: Parts)
    requires ParseAuthority(scheme, text) == Some(u)
    ensures u.scheme == scheme
    ensures (forall c <- u.hostname :: IsHostChar(c)) && (forall c <- u.port :: IsDigit(c))
  {
    var n := Span(text, IsHostChar);
    assert text[..|text|] == text;
    if n < |text| {
      assert u.port[..|u.port|] == u.port;
    }
  }

  /** Whatever was parsed is made of a scheme, two labels and a 32-bit number. */
  lemma ParsesAreParsed(proto: string, publicUrl: string)
    ensures var h := ParseHostport(proto, publicUrl); h.Some? ==> Parsed(h.value)
  {
    if ParseHostport(proto, publicUrl).Some? {
      var u := ParseUrl(publicUrl).value;
      UrlParts(publicUrl, u);
      if u.scheme == "" {
        var full := (if proto == "" then "https" else proto) + "://" + publicUrl;
        UrlParts(full, ParseUrl(full).value);
        PartsParsed(ParseUrl(full).value);
      } else {
        PartsParsed(u);
      }
    }
  }

  lemma PartsParsed(u: Parts)
    requires u.scheme == "" ==> u.hostname == ""
    requires u.scheme != "" ==> CanonicalScheme(u.scheme)
    requires forall c <- u.hostname :: IsHostChar(c)
    ensures var h := FromParts(u); h.Some? ==> Parsed(h.value)
  {
    var n := Span(u.hostname, IsNotDot);
    assert forall c <- u.hostname[..n] :: c in u.hostname;
    if n < |u.hostname| {
      assert forall c <- u.hostname[n + 1..] :: c in u.hostname;
    }
  }

  function Authority(h: Hostport): string {
    h.service + "." + h.namespace + ":" + Decimal(h.port)
  }

  /** A text before a colon is the scheme exactly when it starts with a letter. */
  lemma BareScheme(name: string, rest: string)
    requires forall c <- name :: IsSchemeChar(c)
    ensures var s := GetScheme(name + ":" + rest);
            if name != "" && IsLetter(name[0]) then s == Scheme(name, rest) else !s.Scheme?
  {
    var x := ":" + rest;
    assert name + ":" + rest == name + x && x[1..] == rest;
    SpanOf(name, x, IsSchemeChar);
  }

  lemma PrintedScheme(h: Hostport)
    requires Parsed(h)
    ensures GetScheme(Print(h)) == Scheme(h.scheme, "//" + Authority(h))
    ensures Lower(h.scheme) == h.scheme
  {
    var after := "//" + Authority(h);
    assert Print(h) == h.scheme + ":" + after;
    hide Authority, Print, GetScheme;
    BareScheme(h.scheme, after);
  }

  /** A URL with a scheme is read by its authority. */
  lemma SchemeUrl(scheme: string, auth: string)
    requires CanonicalScheme(scheme) && forall c <- auth :: InSegment(c)
    ensures ParseUrl(scheme + "://" + auth) == ParseAuthority(scheme, auth)
  {
    hide GetScheme, ParseAuthority;
    var after := "//" + auth;
    assert scheme + "://" + auth == scheme + ":" + after;
    BareScheme(scheme, after);
    assert Lower(scheme) == scheme;
    SpanOf(auth, "", InSegment);
    assert auth + "" == auth && after[2..] == auth && auth[..|auth|] == auth;
  }

  lemma TailUrl(scheme: string, auth: string, tail: string)
    requires CanonicalScheme(scheme) && (forall c <- auth :: InSegment(c))
    requires tail != "" && !InSegment(tail[0])
    ensures ParseUrl(scheme + "://" + auth + tail) == ParseAuthority(scheme, auth)
  {
    hide GetScheme, ParseAuthority;
    var after := "//" + auth + tail;
    assert scheme + "://" + auth + tail == scheme + ":" + after;
    BareScheme(scheme, after);
    assert Lower(scheme) == scheme;
    SpanOf(auth, tail, InSegment);
    assert after[2..] == auth + tail && (auth + tail)[..|auth|] == auth;
  }

  /** What follows the authority, a path, a query or a fragment, does not matter. */
  lemma TailIsIgnored(proto: string, scheme: string, auth: string, tail: string)
    requires CanonicalScheme(scheme) && (forall c <- auth :: InSegment(c))
    requires tail != "" && (tail[0] == '/' || tail[0] == '?' || tail[0] == '#')
    ensures ParseHostport(proto, scheme + "://" + auth + tail) == ParseHostport(proto, scheme + "://" + auth)
  {
    hide ParseUrl, ParseAuthority, FromParts;
    TailUrl(scheme, auth, tail);
    SchemeUrl(scheme, auth);
    if ParseAuthority(scheme, auth).Some? {
      AuthorityParts(scheme, auth, ParseAuthority(scheme, auth).value);
    }
  }

  /** An authority is a host, and a port that may be missing or is made of digits. */
  lemma AuthorityOf(scheme: string, host: string, port: Option<string>)
    requires forall c <- host :: IsHostChar(c)
    ensures var digits := port.Some? ==> forall c <- port.value :: IsDigit(c);
            ParseAuthority(scheme, host + PortText(port))
            == if !digits then None else Some(Parts(scheme, host, if port.Some? then port.value else ""))
  {
    var text := host + PortText(port);
    SpanOf(host, PortText(port), IsHostChar);
    if port.Some? {
      assert text[|host| + 1..] == port.value;
      assert text[..|host|] == host;
      if forall c <- port.value :: IsDigit(c) {
        SpanOf(port.value, "", IsDigit);
        assert port.value + "" == port.value;
      } else {
        assert port.value[..|port.value|] == port.value;
      }
    } else {
      assert text == host;
    }
  }

  function PortText(port: Option<string>): string {
    if port.Some? then ":" + port.value else ""
  }

  /** Two labels make a service and a namespace; the port is read, or the scheme's own. */
  lemma LabelsOf(scheme: string, service: string, namespace: string, port: string)
    requires (forall c <- service :: IsLabelChar(c)) && (forall c <- namespace :: IsLabelChar(c))
    requires forall c <- port :: IsDigit(c)
    ensures FromParts(Parts(scheme, service + "." + namespace, port))
         == if port == "" then
              if scheme == "tcp" then None else Some(Hostport(scheme, service, namespace, DefaultPort(scheme)))
            else if ValueOf(port) < 0x8000_0000_0000_0000 then
              Some(Hostport(scheme, service, namespace, Int32(ValueOf(port))))
            else None
  {
    var host := service + "." + namespace;
    assert host == service + ("." + namespace);
    SpanOf(service, "." + namespace, IsNotDot);
    assert host[|service| + 1..] == namespace;
    SpanOf(port, "", IsDigit);
    assert port + "" == port;
  }

  /** Parsing the printed form of what was parsed gives it back, exactly when the port did not wrap around to a
      negative number. */
  lemma HostportRoundTrip(h: Hostport, proto: string)
    requires Parsed(h) && (proto == "" || proto == h.scheme)
    ensures ParseHostport(proto, Print(h)) == if h.port >= 0 then Some(h) else None
  {
    hide ParseUrl, ParseAuthority, FromParts, Digits, IsHostChar, IsLabelChar;
    var host, port := h.service + "." + h.namespace, Decimal(h.port);
    assert Print(h) == h.scheme + "://" + (host + PortText(Some(port)));
    PrintedChars(h);
    SchemeUrl(h.scheme, host + PortText(Some(port)));
    AuthorityOf(h.scheme, host, Some(port));
    if h.port >= 0 {
      LabelsOf(h.scheme, h.service, h.namespace, port);
      DigitsRoundTrip(h.port);
    } else {
      assert port[0] == '-' && port[0] in port;
    }
  }

  lemma PrintedChars(h: Hostport)
    requires Parsed(h)
    ensures forall c <- h.service + "." + h.namespace :: IsHostChar(c)
    ensures forall c <- h.service + "." + h.namespace + PortText(Some(Decimal(h.port))) :: InSegment(c)
  {
    DecimalHasNo(h.port, '/');
    DecimalHasNo(h.port, '?');
    DecimalHasNo(h.port, '#');
  }

  lemma AuthorityInjective(h: Hostport, k: Hostport)
    requires Parsed(h) && Parsed(k) && Authority(h) == Authority(k)
    ensures h.(scheme := k.scheme) == k
  {
    hide Digits;
    var x, y := h.namespace + ":" + Decimal(h.port), k.namespace + ":" + Decimal(k.port);
    assert Authority(h) == h.service + "." + x && Authority(k) == k.service + "." + y;
    assert '.' !in h.service && '.' !in k.service && ':' !in h.namespace && ':' !in k.namespace;
    CutOnce(h.service, x, k.service, y, '.');
    CutOnce(h.namespace, Decimal(h.port), k.namespace, Decimal(k.port), ':');
    DecimalInjective(h.port, k.port);
  }

  /** Two hostports print the same only when they are the same, negative ports included. */
  lemma PrintInjective(h: Hostport, k: Hostport)
    requires Parsed(h) && Parsed(k) && Print(h) == Print(k)
    ensures h == k
  {
    hide Parsed, GetScheme, Authority, Print;
    PrintedScheme(h);
    PrintedScheme(k);
    assert Authority(h) == ("//" + Authority(h))[2..] && Authority(k) == ("//" + Authority(k))[2..];
    AuthorityInjective(h, k);
  }

  lemma BareSegment(host: string, port: string)
    requires (forall c <- host :: IsHostChar(c)) && (forall c <- port :: IsDigit(c))
    ensures var raw := host + ":" + port; ':' in raw[..Span(raw, InSegment)]
  {
    var raw := host + ":" + port;
    assert forall c <- raw :: InSegment(c);
    SpanOf(raw, "", InSegment);
    assert raw + "" == raw && raw[..|raw|] == raw && raw[|host|] == ':';
  }

  /** A host and a port alone are no URL, or a URL whose scheme is the host. */
  lemma BareUrl(host: string, port: string)
    requires (forall c <- host :: IsHostChar(c)) && (forall c <- port :: IsDigit(c))
    ensures var u := ParseUrl(host + ":" + port); u.Some? ==> u.value.scheme == Lower(host) && u.value.hostname == ""
  {
    if forall c <- host :: IsSchemeChar(c) {
      BareScheme(host, port);
    } else {
      BareNoScheme(host, port);
    }
    BareSegment(host, port);
    hide GetScheme;
    assert !("//" <= port) by { assert port != [] ==> IsDigit(port[0]); }
  }

  lemma BareNoScheme(host: string, port: string)
    requires (forall c <- host :: IsHostChar(c)) && !(forall c <- host :: IsSchemeChar(c))
    ensures GetScheme(host + ":" + port) == NoScheme
  {
    var raw := host + ":" + port;
    var n := Span(host, IsSchemeChar);
    assert host[..|host|] == host;
    assert host[n] in host && raw == host[..n] + raw[n..] && raw[n..][0] == host[n];
    SpanOf(host[..n], raw[n..], IsSchemeChar);
  }

  lemma PortNeedsScheme(proto: string, service: string, namespace: string, port: string)
    requires forall c <- service :: IsLabelChar(c)
    requires forall c <- namespace :: IsLabelChar(c)
    requires forall c <- port :: IsDigit(c)
    ensures ParseHostport(proto, service + "." + namespace + ":" + port).None?
  {
    hide ParseUrl;
    BareUrl(service + "." + namespace, port);
  }

  /** A host alone is a URL without a scheme. */
  lemma BareHost(host: string)
    requires forall c <- host :: IsHostChar(c)
    ensures ParseUrl(host) == Some(Parts("", "", ""))
  {
    var n := Span(host, IsSchemeChar);
    assert n < |host| ==> host[n] in host;
    assert forall c <- host[..Span(host, InSegment)] :: c in host;
  }

  /** `[<scheme>://]<service>.<namespace>[:<port>]` */
  function Documented(scheme: Option<string>, service: string, namespace: string, port: Option<string>): string {
    (if scheme.Some? then scheme.value + "://" else "") + (service + "." + namespace + PortText(port))
  }

  /** The scheme of the URL, else the protocol given with it, else https. */
  function Effective(proto: string, scheme: Option<string>): string {
    if scheme.Some? then scheme.value else if proto == "" then "https" else proto
  }

  /** The guards of the parser: a port needs a scheme before it, the scheme agrees with the protocol, tcp needs a
      port, and the port fits in 64 bits. */
  predicate Acceptable(proto: string, scheme: Option<string>, port: Option<string>)
    requires port.Some? ==> forall c <- port.value :: IsDigit(c)
  {
    && (port.Some? ==> scheme.Some?)
    && (scheme.Some? && proto != "" ==> proto == scheme.value)
    && (port.None? || port.value == "" ==> Effective(proto, scheme) != "tcp")
    && (port.Some? ==> ValueOf(port.value) < 0x8000_0000_0000_0000)
  }

  /** The documented form in its four shapes: accepted if and only if the guards hold, and then read as meant. */
  lemma DocumentedForms(proto: string, scheme: Option<string>, service: string, namespace: string, port: Option<string>)
    requires proto == "" || CanonicalScheme(proto)
    requires scheme.Some? ==> CanonicalScheme(scheme.value)
    requires (forall c <- service :: IsLabelChar(c)) && (forall c <- namespace :: IsLabelChar(c))
    requires port.Some? ==> forall c <- port.value :: IsDigit(c)
    ensures var read := ParseHostport(proto, Documented(scheme, service, namespace, port));
            var given := port.Some? && port.value != "";
            var e := Effective(proto, scheme);
            var own := if e == "http" then 80 else if e == "https" || e == "tls" then 443 else 0;
            var number := if given then Int32(ValueOf(port.value)) else own;
            read == if Acceptable(proto, scheme, port) then Some(Hostport(e, service, namespace, number)) else None
  {
    hide ParseUrl, ParseAuthority, FromParts, CanonicalScheme;
    var host, e := service + "." + namespace, Effective(proto, scheme);
    var auth, text := host + PortText(port), Documented(scheme, service, namespace, port);
    if scheme.None? && port.Some? {
      assert text == host + ":" + port.value;
      PortNeedsScheme(proto, service, namespace, port.value);
    } else {
      HttpsIsCanonical();
      assert forall c <- auth :: InSegment(c);
      SchemeUrl(e, auth);
      AuthorityOf(e, host, port);
      LabelsOf(e, service, namespace, if port.Some? then port.value else "");
      if scheme.None? {
        assert text == host == auth;
        BareHost(host);
      } else {
        assert text == e + "://" + auth;
        SchemesAreNotEmpty(e);
      }
    }
  }

  lemma HttpsIsCanonical()
    ensures CanonicalScheme("https")
  {
  }

  lemma SchemesAreNotEmpty(scheme: string)
    requires CanonicalScheme(scheme)
    ensures scheme != ""
  {
  }

  // ----- grouping

  datatype Endpoint = Endpoint(id: string, uri: string, proto: string, publicUrl: string)

  datatype Ref = Ref(id: string, uri: string)

  /** A bound endpoint as far as the aggregator fills it in. */
  datatype Group = Group(url: string, target: Hostport, endpoints: seq<Ref>)

  function Target(e: Endpoint): Option<Hostport> {
    ParseHostport(e.proto, e.publicUrl)
  }

  /** The endpoints with the given target, in input order. */
  function Members(endpoints: seq<Endpoint>, h: Hostport): seq<Ref> {
    if endpoints == [] then []
    else
      var e := endpoints[|endpoints| - 1];
      Members(endpoints[..|endpoints| - 1], h) + if Target(e) == Some(h) then [Ref(e.id, e.uri)] else []
  }

  function Unparseable(endpoints: seq<Endpoint>): seq<string> {
    if endpoints == [] then []
    else
      var e := endpoints[|endpoints| - 1];
      Unparseable(endpoints[..|endpoints| - 1]) + if Target(e).None? then [e.id] else []
  }

  /** One group per target that occurs, with all its endpoints and no others. */
  ghost predicate Grouped(endpoints: seq<Endpoint>, groups: map<string, Group>) {
    && (forall h | Parsed(h) ::
          && (Print(h) in groups <==> Members(endpoints, h) != [])
          && (Print(h) in groups ==> groups[Print(h)] == Group(Print(h), h, Members(endpoints, h))))
    && (forall u <- groups :: Parsed(groups[u].target) && u == Print(groups[u].target))
  }

  lemma GroupedStep(endpoints: seq<Endpoint>, e: Endpoint, groups: map<string, Group>, h: Hostport)
    requires Grouped(endpoints, groups) && Target(e) == Some(h) && Parsed(h)
    ensures Grouped(endpoints + [e],
                    groups[Print(h) := Group(Print(h), h, Members(endpoints, h) + [Ref(e.id, e.uri)])])
  {
    hide Print, Parsed, ParseHostport;
    assert (endpoints + [e])[..|endpoints|] == endpoints;
    var next := groups[Print(h) := Group(Print(h), h, Members(endpoints, h) + [Ref(e.id, e.uri)])];
    forall k | Parsed(k)
      ensures && (Print(k) in next <==> Members(endpoints + [e], k) != [])
              && (Print(k) in next ==> next[Print(k)] == Group(Print(k), k, Members(endpoints + [e], k)))
    {
      if Print(k) == Print(h) {
        PrintInjective(h, k);
      }
    }
  }

  lemma GroupedSkip(endpoints: seq<Endpoint>, e: Endpoint, groups: map<string, Group>)
    requires Grouped(endpoints, groups) && Target(e).None?
    ensures Grouped(endpoints + [e], groups)
  {
    hide Print, Parsed, ParseHostport;
    assert (endpoints + [e])[..|endpoints|] == endpoints;
  }

  method AggregateBindingEndpoints(endpoints: seq<Endpoint>) returns (groups: map<string, Group>, failed: seq<string>)
    ensures Grouped(endpoints, groups)
    ensures failed == Unparseable(endpoints)
  {
    hide ParseHostport, Print, Grouped, Parsed;
    groups, failed := map[], [];
    NothingGrouped();
    for i := 0 to |endpoints|
      invariant Grouped(endpoints[..i], groups)
      invariant failed == Unparseable(endpoints[..i])
    {
      var e := endpoints[i];
      assert endpoints[..i + 1] == endpoints[..i] + [e];
      assert endpoints[..i + 1][..i] == endpoints[..i];
      var parsed := ParseHostport(e.proto, e.publicUrl);
      if parsed.None? {
        GroupedSkip(endpoints[..i], e, groups);
        failed := failed + [e.id];
        continue;
      }
      ParsesAreParsed(e.proto, e.publicUrl);
      var url := Print(parsed.value);
      GroupedAt(endpoints[..i], groups, parsed.value);
      GroupedStep(endpoints[..i], e, groups, parsed.value);
      var group := if url in groups then groups[url] else Group(url, parsed.value, []);
      groups := groups[url := group.(endpoints := group.endpoints + [Ref(e.id, e.uri)])];
    }
    assert endpoints[..|endpoints|] == endpoints;
  }

  lemma NothingGrouped()
    ensures Grouped([], map[])
  {
  }

  lemma GroupedAt(endpoints: seq<Endpoint>, groups: map<string, Group>, h: Hostport)
    requires Grouped(endpoints, groups) && Parsed(h)
    ensures Members(endpoints, h)
         == if Print(h) in groups then groups[Print(h)].endpoints else []
    ensures Print(h) in groups ==> groups[Print(h)] == Group(Print(h), h, Members(endpoints, h))
  {
  }
}
