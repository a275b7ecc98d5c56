/** Printed forms: decimal numbers, and fields joined by a separator that none of them holds. */
module Texts {

  predicate IsDigit(c: char) {
    '0' <= c <= '9'
  }

  function DigitOf(n: nat): char
    requires n < 10
  {
    '0' + n as char
  }

  /** `%d` of a number that is not negative. */
  function Digits(n: nat): (s: string)
    ensures s != [] && forall c <- s :: IsDigit(c)
  {
    if n < 10 then [DigitOf(n)] else Digits(n / 10) + [DigitOf(n % 10)]
  }

  function Decimal(n: int): string {
    if n < 0 then "-" + Digits(-n) else Digits(n)
  }

  function ValueOf(s: string): nat
    requires forall c <- s :: IsDigit(c)
  {
    if s == [] then 0
    else
      assert IsDigit(s[|s| - 1]) && forall c <- s[..|s| - 1] :: c in s;
      10 * ValueOf(s[..|s| - 1]) + (s[|s| - 1] - '0') as nat
  }

  lemma {:induction false} DigitsRoundTrip(n: nat)
    ensures ValueOf(Digits(n)) == n
  {
    if n >= 10 {
      DigitsRoundTrip(n / 10);
      assert Digits(n)[..|Digits(n)| - 1] == Digits(n / 10);
    }
  }

  lemma DecimalInjective(m: int, n: int)
    requires Decimal(m) == Decimal(n)
    ensures m == n
  {
    assert m >= 0 ==> IsDigit(Digits(m)[0]);
    assert n >= 0 ==> IsDigit(Digits(n)[0]);
    assert m < 0 ==> Decimal(m)[1..] == Digits(-m) && Decimal(m)[0] == '-';
    assert n < 0 ==> Decimal(n)[1..] == Digits(-n) && Decimal(n)[0] == '-';
    DigitsRoundTrip(if m < 0 then -m else m);
    DigitsRoundTrip(if n < 0 then -n else n);
  }

  lemma DecimalHasNo(n: int, c: char)
    requires !IsDigit(c) && c != '-'
    ensures c !in Decimal(n)
  {
  }

  /** The length of the longest prefix of wanted characters. */
  function Span(s: string, wanted: char -> bool): (n: nat)
    ensures n <= |s| && (forall c <- s[..n] :: wanted(c)) && (n < |s| ==> !wanted(s[n]))
  {
    if s == [] || !wanted(s[0]) then 0
    else
      var n := 1 + Span(s[1..], wanted);
      assert s[..n] == [s[0]] + s[1..][..n - 1];
      n
  }

  lemma {:induction false} SpanOf(a: string, x: string, wanted: char -> bool)
    requires (forall c <- a :: wanted(c)) && (x == [] || !wanted(x[0]))
    ensures Span(a + x, wanted) == |a|
  {
    if a == [] {
      assert a + x == x;
    } else {
      assert a[0] in a && forall c <- a[1..] :: c in a;
      SpanOf(a[1..], x, wanted);
      assert (a + x)[1..] == a[1..] + x;
    }
  }

  /** A separator none of the two heads holds cuts a text in only one way. */
  lemma CutOnce(a: string, x: string, b: string, y: string, c: char)
    requires c !in a && c !in b && a + [c] + x == b + [c] + y
    ensures a == b && x == y
  {
    var s := a + [c] + x;
    var other := (d: char) => d != c;
    assert s == a + ([c] + x) && s == b + ([c] + y);
    SpanOf(a, [c] + x, other);
    SpanOf(b, [c] + y, other);
    assert a == s[..|a|] && b == s[..|b|];
    assert x == s[|a| + 1..] && y == s[|b| + 1..];
  }

  function Reverse(s: string): (r: string)
    ensures |r| == |s| && forall i | 0 <= i < |s| :: r[i] == s[|s| - 1 - i]
  {
    seq(|s|, i requires 0 <= i < |s| => s[|s| - 1 - i])
  }

  /** The same from the other end. */
  lemma CutOnceFromTheEnd(a: string, x: string, b: string, y: string, c: char)
    requires c !in x && c !in y && a + [c] + x == b + [c] + y
    ensures a == b && x == y
  {
    var s := a + [c] + x;
    assert Reverse(s) == Reverse(x) + [c] + Reverse(a);
    assert Reverse(s) == Reverse(y) + [c] + Reverse(b);
    CutOnce(Reverse(x), Reverse(a), Reverse(y), Reverse(b), c);
    assert |x| == |y|;
    assert a == s[..|a|] && b == s[..|b|];
    assert x == s[|a| + 1..] && y == s[|b| + 1..];
  }

  function Join(fields: seq<string>, c: char): string {
    if fields == [] then ""
    else if |fields| == 1 then fields[0]
    else fields[0] + [c] + Join(fields[1..], c)
  }

  lemma SeparatorJoined(fields: seq<string>, c: char)
    requires fields != [] && forall t <- fields :: c !in t
    ensures c in Join(fields, c) <==> |fields| > 1
  {
    if |fields| > 1 {
      assert Join(fields, c)[|fields[0]|] == c;
    }
  }

  lemma {:induction false} JoinInjective(f: seq<string>, g: seq<string>, c: char)
    requires f != [] && g != [] && Join(f, c) == Join(g, c)
    requires (forall t <- f :: c !in t) && (forall t <- g :: c !in t)
    ensures f == g
  {
    SeparatorJoined(f, c);
    SeparatorJoined(g, c);
    if |f| > 1 {
      CutOnce(f[0], Join(f[1..], c), g[0], Join(g[1..], c), c);
      JoinInjective(f[1..], g[1..], c);
      assert f == [f[0]] + f[1..] && g == [g[0]] + g[1..];
    }
  }

  lemma {:induction false} JoinAppend(f: seq<string>, t: string, c: char)
    requires f != []
    ensures Join(f + [t], c) == Join(f, c) + [c] + t
  {
    if |f| > 1 {
      JoinAppend(f[1..], t, c);
      assert (f + [t])[1..] == f[1..] + [t];
    }
  }
}
