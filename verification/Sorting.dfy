/** Three-way comparisons that compose, and a stable sort by them. */
module Sorting {

  datatype Cmp = Less | Equal | Greater

  function Flip(c: Cmp): Cmp {
    match c
    case Less => Greater
    case Equal => Equal
    case Greater => Less
  }

  /** The second comparison decides only where the first does not. */
  function Then(first: Cmp, second: Cmp): Cmp {
    if first == Equal then second else first
  }

  /** The three comparisons of a, b and c fit into one order. */
  predicate Coherent(ab: Cmp, bc: Cmp, ac: Cmp) {
    && (ab == Equal ==> ac == bc)
    && (bc == Equal ==> ac == ab)
    && (ab == bc ==> ac == ab)
  }

  function CompareInt(a: int, b: int): Cmp {
    if a < b then Less else if a == b then Equal else Greater
  }

  /** Strings compare by their first difference. */
  function CompareText(a: string, b: string): Cmp {
    if a == [] && b == [] then Equal
    else if a == [] then Less
    else if b == [] then Greater
    else Then(CompareInt(a[0] as int, b[0] as int), CompareText(a[1..], b[1..]))
  }

  lemma {:induction false} TextOrdered(a: string, b: string, c: string)
    ensures CompareText(b, a) == Flip(CompareText(a, b))
    ensures CompareText(a, b) == Equal <==> a == b
    ensures Coherent(CompareText(a, b), CompareText(b, c), CompareText(a, c))
    decreases |a| + |b| + |c|
  {
    if a != [] && b != [] && c != [] {
      TextOrdered(a[1..], b[1..], c[1..]);
      assert a == [a[0]] + a[1..] && b == [b[0]] + b[1..];
    } else if a != [] && b != [] {
      TextOrdered(a[1..], b[1..], []);
      assert a == [a[0]] + a[1..] && b == [b[0]] + b[1..];
    }
  }

  /** A comparison that is antisymmetric and coherent everywhere: the order is a strict weak one. */
  ghost predicate IsOrder<T(!new)>(cmp: (T, T) -> Cmp) {
    && (forall a, b :: cmp(b, a) == Flip(cmp(a, b)))
    && (forall a, b, c :: Coherent(cmp(a, b), cmp(b, c), cmp(a, c)))
  }

  lemma OrderAt<T(!new)>(cmp: (T, T) -> Cmp, a: T, b: T, c: T)
    requires IsOrder(cmp)
    ensures cmp(b, a) == Flip(cmp(a, b))
    ensures Coherent(cmp(a, b), cmp(b, c), cmp(a, c))
  {
  }

  /** The three laws of a strict weak order, for the relation "compares as less". */
  lemma StrictWeakOrder<T(!new)>(cmp: (T, T) -> Cmp, a: T, b: T, c: T)
    requires IsOrder(cmp)
    ensures cmp(a, a) != Less
    ensures cmp(a, b) == Less && cmp(b, c) == Less ==> cmp(a, c) == Less
    ensures cmp(a, b) == Equal && cmp(b, c) == Equal ==> cmp(a, c) == Equal
  {
    OrderAt(cmp, a, a, a);
    OrderAt(cmp, a, b, c);
  }

  function Insert<T>(cmp: (T, T) -> Cmp, x: T, s: seq<T>): seq<T> {
    if s == [] then [x]
    else if cmp(s[0], x) == Less then [s[0]] + Insert(cmp, x, s[1..])
    else [x] + s
  }

  /** The stable sort: an element goes before the first later one that is not less. */
  function Sort<T>(cmp: (T, T) -> Cmp, s: seq<T>): seq<T> {
    if s == [] then [] else Insert(cmp, s[0], Sort(cmp, s[1..]))
  }

  ghost predicate Sorted<T>(cmp: (T, T) -> Cmp, s: seq<T>) {
    forall i, j | 0 <= i < j < |s| :: cmp(s[j], s[i]) != Less
  }

  /** The elements that compare equal to `pivot`, in order. */
  function Ties<T>(cmp: (T, T) -> Cmp, pivot: T, s: seq<T>): seq<T> {
    if s == [] then [] else (if cmp(s[0], pivot) == Equal then [s[0]] else []) + Ties(cmp, pivot, s[1..])
  }

  lemma TiesCons<T>(cmp: (T, T) -> Cmp, pivot: T, x: T, s: seq<T>)
    ensures Ties(cmp, pivot, [x] + s) == (if cmp(x, pivot) == Equal then [x] else []) + Ties(cmp, pivot, s)
  {
    assert ([x] + s)[1..] == s;
  }

  /** Inserting, seen from a position. */
  lemma InsertFrom<T>(cmp: (T, T) -> Cmp, x: T, s: seq<T>, j: nat)
    requires j <= |s|
    ensures Insert(cmp, x, s[j..])
         == if j < |s| && cmp(s[j], x) == Less then [s[j]] + Insert(cmp, x, s[j + 1..]) else [x] + s[j..]
  {
    if j < |s| {
      assert s[j..][1..] == s[j + 1..];
    }
  }

  lemma {:induction false} InsertKeeps<T>(cmp: (T, T) -> Cmp, x: T, s: seq<T>)
    ensures multiset(Insert(cmp, x, s)) == multiset{x} + multiset(s)
  {
    if s != [] {
      assert s == [s[0]] + s[1..];
      InsertKeeps(cmp, x, s[1..]);
    }
  }

  /** Sorting permutes. */
  lemma {:induction false} SortPermutes<T>(cmp: (T, T) -> Cmp, s: seq<T>)
    ensures multiset(Sort(cmp, s)) == multiset(s)
  {
    if s != [] {
      assert s == [s[0]] + s[1..];
      SortPermutes(cmp, s[1..]);
      InsertKeeps(cmp, s[0], Sort(cmp, s[1..]));
    }
  }

  lemma SortedCons<T>(cmp: (T, T) -> Cmp, x: T, s: seq<T>)
    requires Sorted(cmp, s) && forall y <- s :: cmp(y, x) != Less
    ensures Sorted(cmp, [x] + s)
  {
  }

  lemma {:induction false} InsertSorted<T(!new)>(cmp: (T, T) -> Cmp, x: T, s: seq<T>)
    requires IsOrder(cmp) && Sorted(cmp, s)
    ensures Sorted(cmp, Insert(cmp, x, s))
  {
    hide IsOrder;
    if s != [] {
      if cmp(s[0], x) == Less {
        var rest := Insert(cmp, x, s[1..]);
        InsertSorted(cmp, x, s[1..]);
        InsertKeeps(cmp, x, s[1..]);
        OrderAt(cmp, s[0], x, x);
        forall y <- rest
          ensures cmp(y, s[0]) != Less
        {
          assert y in multiset(rest);
          assert y == x || y in s[1..];
        }
        SortedCons(cmp, s[0], rest);
      } else {
        forall y <- s
          ensures cmp(y, x) != Less
        {
          OrderAt(cmp, y, x, s[0]);
          OrderAt(cmp, s[0], x, x);
        }
        SortedCons(cmp, x, s);
      }
    }
  }

  /** Sorting sorts. */
  lemma {:induction false} SortSorts<T(!new)>(cmp: (T, T) -> Cmp, s: seq<T>)
    requires IsOrder(cmp)
    ensures Sorted(cmp, Sort(cmp, s))
  {
    if s != [] {
      SortSorts(cmp, s[1..]);
      InsertSorted(cmp, s[0], Sort(cmp, s[1..]));
    }
  }

  lemma LessAreNotTied<T(!new)>(cmp: (T, T) -> Cmp, a: T, b: T, pivot: T)
    requires IsOrder(cmp) && cmp(a, b) == Less
    ensures !(cmp(a, pivot) == Equal && cmp(b, pivot) == Equal)
  {
    OrderAt(cmp, a, b, pivot);
  }

  lemma {:induction false} InsertStable<T(!new)>(cmp: (T, T) -> Cmp, x: T, s: seq<T>, pivot: T)
    requires IsOrder(cmp)
    ensures Ties(cmp, pivot, Insert(cmp, x, s)) == Ties(cmp, pivot, [x] + s)
  {
    hide IsOrder, Ties;
    if s != [] && cmp(s[0], x) == Less {
      LessAreNotTied(cmp, s[0], x, pivot);
      InsertStable(cmp, x, s[1..], pivot);
      TiesCons(cmp, pivot, s[0], Insert(cmp, x, s[1..]));
      TiesCons(cmp, pivot, x, s[1..]);
      TiesCons(cmp, pivot, x, s);
      TiesCons(cmp, pivot, s[0], s[1..]);
      assert s == [s[0]] + s[1..];
    } else {
      assert Insert(cmp, x, s) == [x] + s;
    }
  }

  /** Sorting is stable: elements that compare equal keep their order. */
  lemma {:induction false} SortStable<T(!new)>(cmp: (T, T) -> Cmp, s: seq<T>, pivot: T)
    requires IsOrder(cmp)
    ensures Ties(cmp, pivot, Sort(cmp, s)) == Ties(cmp, pivot, s)
  {
    if s != [] {
      hide IsOrder, Ties;
      SortStable(cmp, s[1..], pivot);
      InsertStable(cmp, s[0], Sort(cmp, s[1..]), pivot);
      TiesCons(cmp, pivot, s[0], Sort(cmp, s[1..]));
      TiesCons(cmp, pivot, s[0], s[1..]);
      assert s == [s[0]] + s[1..];
    }
  }

  lemma HeadsTie<T(!new)>(cmp: (T, T) -> Cmp, a: seq<T>, b: seq<T>)
    requires IsOrder(cmp) && Sorted(cmp, a) && Sorted(cmp, b) && a != [] && b != [] && a[0] in b && b[0] in a
    ensures cmp(a[0], b[0]) == Equal
  {
    OrderAt(cmp, a[0], b[0], b[0]);
    OrderAt(cmp, a[0], a[0], a[0]);
    hide IsOrder;
    var i :| 0 <= i < |b| && b[i] == a[0];
    var j :| 0 <= j < |a| && a[j] == b[0];
    if i == 0 {
      assert a[0] == b[0];
    }
  }

  /** Two sorted permutations of the same elements are the same list when equal elements are identical. */
  lemma {:induction false} SortedUnique<T(!new)>(cmp: (T, T) -> Cmp, a: seq<T>, b: seq<T>)
    requires IsOrder(cmp) && Sorted(cmp, a) && Sorted(cmp, b)
    requires multiset(a) == multiset(b)
    requires forall x <- a, y <- a :: cmp(x, y) == Equal ==> x == y
    ensures a == b
  {
    hide IsOrder, Sorted;
    if a == [] {
      assert |multiset(b)| == 0;
    } else {
      assert |multiset(a)| == |multiset(b)|;
      assert a[0] in multiset(b) && b[0] in multiset(a);
      HeadsTie(cmp, a, b);
      assert a[0] == b[0];
      TailsAgree(cmp, a, b);
      SortedUnique(cmp, a[1..], b[1..]);
      assert a == [a[0]] + a[1..] && b == [b[0]] + b[1..];
    }
  }

  lemma TailsAgree<T>(cmp: (T, T) -> Cmp, a: seq<T>, b: seq<T>)
    requires a != [] && b != [] && a[0] == b[0] && multiset(a) == multiset(b) && Sorted(cmp, a) && Sorted(cmp, b)
    ensures multiset(a[1..]) == multiset(b[1..]) && Sorted(cmp, a[1..]) && Sorted(cmp, b[1..])
    ensures forall x <- a[1..] :: x in a
  {
    assert a == [a[0]] + a[1..] && b == [b[0]] + b[1..];
    assert multiset(a[1..]) == multiset(a) - multiset{a[0]};
    assert multiset(b[1..]) == multiset(b) - multiset{b[0]};
  }
}
