/** Weighted routing splits the draws exactly by weight. */
module WeightedSplit {
  import opened Options
  import opened TrafficPolicy
  import opened IR
  import opened Routing
  import opened Compiler

  /** The expression emitted for the j-th destination holds of a draw. */
  ghost predicate Fires(ds: seq<Destination>, j: nat, draw: int)
    requires j < |ds|
  {
    match WeightExpr(TotalWeight(ds[..j]), Weight(ds[j]))
    case DrawAtMost(hi) => draw <= hi
    case DrawBetween(lo, hi) => lo <= draw <= hi
  }

  lemma {:induction false} TotalSplit(a: seq<Destination>, b: seq<Destination>)
    ensures TotalWeight(a + b) == TotalWeight(a) + TotalWeight(b)
  {
    if a == [] {
      assert a + b == b;
    } else {
      assert (a + b)[1..] == a[1..] + b;
      TotalSplit(a[1..], b);
    }
  }

  lemma BoundsOf(ds: seq<Destination>, j: nat)
    requires forall d <- ds :: 0 <= Weight(d)
    requires j < |ds|
    ensures 0 <= TotalWeight(ds[..j])
    ensures TotalWeight(ds[..j]) + Weight(ds[j]) <= TotalWeight(ds)
  {
    assert ds == ds[..j] + ([ds[j]] + ds[j + 1..]);
    assert forall d <- ds[..j] :: d in ds;
    assert forall d <- ds[j + 1..] :: d in ds;
    TotalSplit(ds[..j], [ds[j]] + ds[j + 1..]);
    TotalSplit([ds[j]], ds[j + 1..]);
    TotalIsNatural(ds[..j]);
    TotalIsNatural(ds[j + 1..]);
    assert [ds[j]][1..] == [];
  }

  /** The selected destination is the one whose share, laid after the shares before it, contains the draw. */
  lemma {:induction false} SelectedContains(ds: seq<Destination>, draw: int, j: nat)
    requires forall d <- ds :: 0 <= Weight(d)
    requires 0 <= draw < TotalWeight(ds) && j < |ds|
    ensures j == Selected(ds, draw) <==> TotalWeight(ds[..j]) <= draw < TotalWeight(ds[..j]) + Weight(ds[j])
  {
    var w := Weight(ds[0]);
    if j > 0 {
      assert ds[..j][1..] == ds[1..][..j - 1];
      if draw >= w {
        SelectedContains(ds[1..], draw - w, j - 1);
      } else {
        BoundsOf(ds[1..], j - 1);
      }
    }
  }

  /** Exactly one emitted expression holds of a draw, that of the selected destination. */
  lemma ExactlyOneFires(ds: seq<Destination>, draw: int, j: nat)
    requires forall d <- ds :: 0 <= Weight(d)
    requires 0 <= draw < TotalWeight(ds) && j < |ds|
    ensures Fires(ds, j, draw) <==> j == Selected(ds, draw)
  {
    SelectedContains(ds, draw, j);
    BoundsOf(ds, j);
  }

  ghost function Interval(lo: int, hi: int): (s: set<int>)
    requires lo <= hi
    ensures forall d :: d in s <==> lo <= d < hi
    ensures |s| == hi - lo
    decreases hi - lo
  {
    if lo == hi then {} else Interval(lo, hi - 1) + {hi - 1}
  }

  /** The sum of the given weights, a missing one counting one. */
  function SumOfGiven(ds: seq<Destination>): int {
    if ds == [] then 0
    else
      var last := ds[|ds| - 1].weight;
      SumOfGiven(ds[..|ds| - 1]) + match last { case Some(w) => w case None => 1 }
  }

  lemma {:induction false} TotalIsSum(ds: seq<Destination>)
    ensures TotalWeight(ds) == SumOfGiven(ds)
  {
    if ds != [] {
      var n := |ds| - 1;
      TotalIsSum(ds[..n]);
      TotalSplit(ds[..n], [ds[n]]);
      assert ds == ds[..n] + [ds[n]] && [ds[n]][1..] == [];
    }
  }

  /** The emitted draw is from zero to one below the sum of the given weights. */
  lemma DrawsBelowSum(ds: seq<Destination>, guards: seq<Expr>)
    requires |ds| > 1
    ensures |DrawRules(ds, guards)| == 1 && DrawRules(ds, guards)[0].actions == [Draw(SumOfGiven(ds) - 1)]
  {
    TotalIsSum(ds);
  }

  /** Each destination is selected by exactly as many of the equally likely draws as its given weight says, or by one
      if it has none. */
  lemma SharesAreExact(ds: seq<Destination>, j: nat)
    requires forall d <- ds :: d.weight.Some? ==> 0 <= d.weight.value
    requires j < |ds|
    ensures |set draw: int | 0 <= draw < SumOfGiven(ds) && Fires(ds, j, draw)|
         == match ds[j].weight { case Some(w) => w case None => 1 }
  {
    var lower, w := TotalWeight(ds[..j]), Weight(ds[j]);
    TotalIsSum(ds);
    BoundsOf(ds, j);
    assert ds[j] in ds;
    forall draw | 0 <= draw < TotalWeight(ds)
      ensures Fires(ds, j, draw) <==> lower <= draw < lower + w
    {
      ExactlyOneFires(ds, draw, j);
      SelectedContains(ds, draw, j);
    }
    assert (set draw: int | 0 <= draw < SumOfGiven(ds) && Fires(ds, j, draw)) == Interval(lower, lower + w);
  }
}
