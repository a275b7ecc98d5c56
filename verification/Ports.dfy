/** The port allocator of the bindings poller: a bitmap offset by the start of the port range. */
module Ports {

  const Limit := 0x1_0000

  newtype Uint16 = x: int | 0 <= x < 0x1_0000

  /** The bitmap's size, computed in 16 bits. */
  function RangeSize(start: Uint16, end: Uint16): nat {
    (end as int - start as int) % Limit
  }

  /** The port of a bit, computed in 16 bits. */
  function PortOf(start: Uint16, i: nat): Uint16 {
    ((start as int + i) % Limit) as Uint16
  }

  /** The bit of a port that passed the guard `start <= port`. */
  predicate HasBit(start: Uint16, size: nat, port: Uint16) {
    start <= port && (port - start) as int < size
  }

  function Held(start: Uint16, bits: seq<bool>): set<Uint16> {
    set i | 0 <= i < |bits| && bits[i] :: PortOf(start, i)
  }

  function FreeBits(bits: seq<bool>): (n: nat)
    ensures n <= |bits|
  {
    if bits == [] then 0 else FreeBits(bits[..|bits| - 1]) + if bits[|bits| - 1] then 0 else 1
  }

  /** The 16-bit arithmetic is exact, for every bit of the range, exactly for ranges that are not reversed and
      for those whose end wrapped around to 0. */
  lemma OffsetsExactly(start: Uint16, end: Uint16)
    ensures (forall i | 0 <= i < RangeSize(start, end) :: PortOf(start, i) as int == start as int + i)
       <==> start <= end || end == 0
    ensures start <= end ==> forall i | 0 <= i < RangeSize(start, end) :: start <= PortOf(start, i) < end
  {
    if end < start && end != 0 {
      var i := Limit - start as int;
      assert i < RangeSize(start, end) && PortOf(start, i) == 0;
    }
  }

  /** Two bits of one bitmap never stand for the same port. */
  lemma PortsDiffer(start: Uint16, i: nat, j: nat)
    requires i < Limit && j < Limit && PortOf(start, i) == PortOf(start, j)
    ensures i == j
  {
  }

  lemma HeldUpdate(start: Uint16, bits: seq<bool>, i: nat, on: bool)
    requires |bits| < Limit && i < |bits|
    ensures var p := PortOf(start, i);
            && Held(start, bits[i := on]) == (if on then Held(start, bits) + {p} else Held(start, bits) - {p})
            && (p in Held(start, bits) <==> bits[i])
  {
    var p := PortOf(start, i);
    forall j | 0 <= j < |bits| && PortOf(start, j) == p
      ensures i == j
    {
      PortsDiffer(start, i, j);
    }
    forall q
      ensures q in Held(start, bits[i := on]) <==> if q == p then on else q in Held(start, bits)
    {
      if q in Held(start, bits) && q != p {
        var j :| 0 <= j < |bits| && bits[j] && PortOf(start, j) == q;
        assert bits[i := on][j];
      }
      if on && q == p {
        assert bits[i := on][i];
      }
    }
    assert bits[i] ==> p in Held(start, bits);
  }

  lemma HeldSnoc(start: Uint16, bits: seq<bool>, on: bool)
    requires |bits| < Limit
    ensures var p := PortOf(start, |bits|);
            && p !in Held(start, bits)
            && Held(start, bits + [on]) == (if on then Held(start, bits) + {p} else Held(start, bits))
  {
    var p := PortOf(start, |bits|);
    forall j | 0 <= j < |bits|
      ensures PortOf(start, j) != p
    {
      if PortOf(start, j) == p {
        PortsDiffer(start, j, |bits|);
      }
    }
    forall q
      ensures q in Held(start, bits + [on]) <==> q in Held(start, bits) || (on && q == p)
    {
      if q in Held(start, bits) {
        var j :| 0 <= j < |bits| && bits[j] && PortOf(start, j) == q;
        assert (bits + [on])[j];
      }
      assert (bits + [on])[|bits|] == on;
    }
  }

  /** The free count is the size less the ports held. */
  lemma {:induction false} FreeIsTheRest(start: Uint16, bits: seq<bool>)
    requires |bits| < Limit
    ensures FreeBits(bits) == |bits| - |Held(start, bits)|
  {
    if bits != [] {
      hide Held, PortOf;
      var n := |bits| - 1;
      FreeIsTheRest(start, bits[..n]);
      HeldSnoc(start, bits[..n], bits[n]);
      assert bits == bits[..n] + [bits[n]];
    }
  }

  class PortBitmap {
    const start: Uint16
    var bits: array<bool>

    constructor (start: Uint16, end: Uint16)
      ensures Valid() && this.start == start && bits.Length == RangeSize(start, end)
      ensures fresh(bits) && Ports() == {}
    {
      this.start := start;
      bits := new bool[RangeSize(start, end)](_ => false);
    }

    ghost predicate Valid()
      reads this
    {
      bits.Length < Limit
    }

    ghost function Ports(): set<Uint16>
      reads this, bits
    {
      Held(start, bits[..])
    }

    /** Fails when the port is outside the range or already held. */
    method Set(port: Uint16) returns (ok: bool)
      requires Valid()
      modifies bits
      ensures ok <==> HasBit(start, bits.Length, port) && port !in old(Ports())
      ensures Ports() == if ok then old(Ports()) + {port} else old(Ports())
    {
      if !HasBit(start, bits.Length, port) {
        return false;
      }
      var i := (port - start) as int;
      HeldUpdate(start, bits[..], i, true);
      assert PortOf(start, i) == port;
      if bits[i] {
        return false;
      }
      bits[i] := true;
      assert bits[..] == old(bits[..])[i := true];
      return true;
    }

    /** Takes any free port; fails exactly when there is none. */
    method SetAny() returns (port: Uint16, ok: bool)
      requires Valid()
      modifies bits
      ensures ok <==> |old(Ports())| < bits.Length
      ensures ok ==> port !in old(Ports()) && exists i | 0 <= i < bits.Length :: port == PortOf(start, i)
      ensures Ports() == if ok then old(Ports()) + {port} else old(Ports())
    {
      FreeIsTheRest(start, bits[..]);
      SomeFree(bits[..]);
      if !exists i :: 0 <= i < bits.Length && !bits[i] {
        return 0, false;
      }
      var i :| 0 <= i < bits.Length && !bits[i];
      HeldUpdate(start, bits[..], i, true);
      bits[i] := true;
      assert bits[..] == old(bits[..])[i := true];
      return PortOf(start, i), true;
    }

    method IsSet(port: Uint16) returns (set_: bool, ok: bool)
      requires Valid()
      ensures ok <==> start <= port
      ensures set_ <==> HasBit(start, bits.Length, port) && port in Ports()
    {
      if port < start {
        return false, false;
      }
      var i := (port - start) as int;
      if i >= bits.Length {
        return false, true;
      }
      HeldUpdate(start, bits[..], i, true);
      assert PortOf(start, i) == port;
      return bits[i], true;
    }

    method Unset(port: Uint16) returns (ok: bool)
      requires Valid()
      modifies bits
      ensures ok <==> HasBit(start, bits.Length, port)
      ensures Ports() == if ok then old(Ports()) - {port} else old(Ports())
    {
      if !HasBit(start, bits.Length, port) {
        return false;
      }
      var i := (port - start) as int;
      HeldUpdate(start, bits[..], i, false);
      assert PortOf(start, i) == port;
      bits[i] := false;
      assert bits[..] == old(bits[..])[i := false];
      return true;
    }

    method NumFree() returns (n: nat)
      requires Valid()
      ensures n == bits.Length - |Ports()|
    {
      n := 0;
      for i := 0 to bits.Length
        invariant n == FreeBits(bits[..i])
      {
        assert bits[..i + 1][..i] == bits[..i];
        n := n + if bits[i] then 0 else 1;
      }
      assert bits[..bits.Length] == bits[..];
      FreeIsTheRest(start, bits[..]);
    }

    /** The bitmaps are shared afterwards; the starts are not touched. */
    method Replace(other: PortBitmap)
      requires other.Valid()
      modifies this
      ensures Valid() && bits == other.bits
      ensures start == other.start ==> Ports() == other.Ports()
    {
      bits := other.bits;
    }

    /** A poll rebuilds the allocation from the ports of the listed objects, and keeps the old one when one of
        them is out of range or taken twice. */
    method Refresh(end: Uint16, listed: seq<Uint16>) returns (ok: bool)
      requires Valid()
      modifies this
      ensures Valid()
      ensures ok <==> Disjoint(listed) && forall p <- listed :: HasBit(start, RangeSize(start, end), p)
      ensures ok ==> bits.Length == RangeSize(start, end) && fresh(bits) && Ports() == set p | p in listed
      ensures !ok ==> bits == old(bits)
    {
      var current := new PortBitmap(start, end);
      for k := 0 to |listed|
        invariant current.Valid() && current.start == start && bits == old(bits)
        invariant fresh(current.bits) && fresh(current)
        invariant current.bits.Length == RangeSize(start, end)
        invariant Disjoint(listed[..k]) && current.Ports() == set p | p in listed[..k]
        invariant forall p <- listed[..k] :: HasBit(start, RangeSize(start, end), p)
      {
        assert listed[..k + 1] == listed[..k] + [listed[k]];
        ok := current.Set(listed[k]);
        if !ok {
          NotDisjoint(listed, k);
          return;
        }
      }
      assert listed[..|listed|] == listed;
      Replace(current);
      ok := true;
    }
  }

  lemma {:induction false} SomeFree(bits: seq<bool>)
    ensures FreeBits(bits) > 0 <==> exists i :: 0 <= i < |bits| && !bits[i]
  {
    if bits != [] {
      var n := |bits| - 1;
      SomeFree(bits[..n]);
      if FreeBits(bits[..n]) > 0 {
        var i :| 0 <= i < n && !bits[..n][i];
        assert !bits[i];
      }
      if i :| 0 <= i < |bits| && !bits[i] {
        assert i < n ==> !bits[..n][i];
      }
    }
  }

  ghost predicate Disjoint(ports: seq<Uint16>) {
    forall i, j | 0 <= i < j < |ports| :: ports[i] != ports[j]
  }

  lemma NotDisjoint(listed: seq<Uint16>, k: nat)
    requires k < |listed|
    ensures listed[k] in listed && (listed[k] in listed[..k] ==> !Disjoint(listed))
  {
    if listed[k] in listed[..k] {
      var j :| 0 <= j < k && listed[..k][j] == listed[k];
      assert listed[j] == listed[k];
    }
  }

  // ----- every run between two refreshes

  type Name = string

  /** The ports of the objects in the cluster, those of the `terminating` ones (deleted, but kept by their
      finalizers) apart; the ports held; and the ports of the objects still to be deleted. */
  datatype State = State(
    live: map<Name, Uint16>,
    terminating: map<Name, Uint16>,
    held: set<Uint16>,
    doomed: map<Name, Uint16>)

  ghost predicate InRange(p: Uint16, start: Uint16, size: nat) {
    exists i | 0 <= i < size :: p == PortOf(start, i)
  }

  /** An attempt to create takes a free port; the object may already exist, or its creation may fail. */
  ghost predicate CreateStep(s: State, s': State, start: Uint16, size: nat) {
    exists p, n ::
      && p !in s.held && InRange(p, start, size)
      && (|| s' == s.(held := s.held + {p})
          || (n !in s.live && n !in s.terminating && s' == s.(held := s.held + {p}, live := s.live[n := p])))
  }

  /** What a delete does to an object: one that is `kept` by a finalizer only starts to terminate. */
  function Deleted(s: State, n: Name, kept: bool): State {
    if n !in s.live then s
    else s.(live := s.live - {n}, terminating := if kept then s.terminating[n := s.live[n]] else s.terminating)
  }

  /** The port goes back whether or not the object is gone. */
  function Freed(s: State, n: Name, start: Uint16, size: nat): State
    requires n in s.doomed
  {
    s.(doomed := s.doomed - {n},
       held := if HasBit(start, size, s.doomed[n]) then s.held - {s.doomed[n]} else s.held)
  }

  /** A delete that succeeds gives the listed port back; one that fails after its effect is tried again. */
  ghost predicate DeleteStep(s: State, s': State, start: Uint16, size: nat) {
    exists n <- s.doomed, kept: bool | n in s.live || n in s.terminating ::
      s' == Deleted(s, n, kept) || s' == Deleted(Freed(s, n, start, size), n, kept)
  }

  /** The last finalizer of a terminating object goes, and the object with it. */
  ghost predicate FinalizeStep(s: State, s': State) {
    exists n <- s.terminating :: s' == s.(terminating := s.terminating - {n})
  }

  ghost predicate Step(s: State, s': State, start: Uint16, size: nat) {
    CreateStep(s, s', start, size) || DeleteStep(s, s', start, size) || FinalizeStep(s, s')
  }

  ghost predicate IsRun(run: seq<State>, start: Uint16, size: nat) {
    forall i | 0 < i < |run| :: Step(run[i - 1], run[i], start, size)
  }

  ghost predicate OneToOne(m: map<Name, Uint16>) {
    forall a <- m, b <- m :: m[a] == m[b] ==> a == b
  }

  /** No two objects in the cluster have the same port. */
  ghost predicate AllDistinct(s: State) {
    && OneToOne(s.live) && OneToOne(s.terminating)
    && forall n <- s.live, m <- s.terminating :: s.live[n] != s.terminating[m]
  }

  /** Right after a refresh: exactly the listed ports are held, each once. */
  ghost predicate Refreshed(s: State, start: Uint16, size: nat) {
    && AllDistinct(s) && s.live.Keys !! s.terminating.Keys
    && s.held == s.live.Values + s.terminating.Values
    && (forall n <- s.doomed ::
          || (n in s.live && s.doomed[n] == s.live[n])
          || (n in s.terminating && s.doomed[n] == s.terminating[n]))
    && (forall p <- s.held :: InRange(p, start, size))
  }

  ghost predicate Inv(s: State, start: Uint16, size: nat) {
    && s.live.Keys !! s.terminating.Keys
    && OneToOne(s.live) && s.live.Values <= s.held
    && OneToOne(s.doomed) && s.doomed.Values <= s.held
    && (forall n <- s.doomed, m <- s.live :: s.doomed[n] == s.live[m] ==> m == n)
    && (forall p <- s.held :: InRange(p, start, size))
  }

  lemma CreateKeepsInv(s: State, s': State, start: Uint16, size: nat)
    requires Inv(s, start, size) && CreateStep(s, s', start, size)
    ensures Inv(s', start, size)
  {
    hide InRange;
  }

  lemma DeleteKeepsInv(s: State, s': State, start: Uint16, size: nat)
    requires Inv(s, start, size) && DeleteStep(s, s', start, size)
    ensures Inv(s', start, size)
  {
    hide InRange, HasBit;
  }

  lemma StepKeepsInv(s: State, s': State, start: Uint16, size: nat)
    requires Inv(s, start, size) && Step(s, s', start, size)
    ensures Inv(s', start, size)
  {
    hide CreateStep, DeleteStep, InRange;
    if CreateStep(s, s', start, size) {
      CreateKeepsInv(s, s', start, size);
    } else if DeleteStep(s, s', start, size) {
      DeleteKeepsInv(s, s', start, size);
    }
  }

  lemma RefreshedInv(s: State, start: Uint16, size: nat)
    requires Refreshed(s, start, size)
    ensures Inv(s, start, size)
  {
    hide InRange;
  }

  lemma {:induction false} RunsKeepInv(run: seq<State>, start: Uint16, size: nat, k: nat)
    requires IsRun(run, start, size) && k < |run| && Refreshed(run[0], start, size)
    ensures Inv(run[k], start, size)
  {
    hide Inv, Step, Refreshed;
    if k > 0 {
      RunsKeepInv(run, start, size, k - 1);
      StepKeepsInv(run[k - 1], run[k], start, size);
    } else {
      RefreshedInv(run[0], start, size);
    }
  }

  /** Over every run between refreshes: no two objects that are not being deleted share a port, their ports are
      held, and every port held lies in the range, whose end is never given out. */
  lemma PortsNeverShared(run: seq<State>, start: Uint16, end: Uint16, k: nat)
    requires start <= end && IsRun(run, start, RangeSize(start, end)) && k < |run|
    requires Refreshed(run[0], start, RangeSize(start, end))
    ensures OneToOne(run[k].live) && run[k].live.Values <= run[k].held
    ensures forall p <- run[k].held :: start <= p < end
  {
    hide IsRun, Refreshed;
    RunsKeepInv(run, start, RangeSize(start, end), k);
    OffsetsExactly(start, end);
  }

  // ----- objects that are being deleted

  /** An object is created on the port of one that is still terminating. */
  ghost predicate Reuses(s: State, s': State) {
    exists n <- s'.live, m <- s.terminating :: n !in s.live && s'.live[n] == s.terminating[m]
  }

  lemma ReuseShares(s: State, s': State, start: Uint16, size: nat)
    requires Step(s, s', start, size) && Reuses(s, s')
    ensures !AllDistinct(s')
  {
    hide InRange, HasBit;
    var n, m :| n in s'.live && m in s.terminating && n !in s.live && s'.live[n] == s.terminating[m];
    assert s'.terminating == s.terminating;
  }

  lemma CreateKeepsDistinct(s: State, s': State, start: Uint16, size: nat)
    requires Inv(s, start, size) && AllDistinct(s) && CreateStep(s, s', start, size) && !Reuses(s, s')
    ensures AllDistinct(s')
  {
    hide InRange;
    if s'.live != s.live {
      var p, n :| p !in s.held && n !in s.live && n !in s.terminating
               && s' == s.(held := s.held + {p}, live := s.live[n := p]);
      assert n in s'.live && forall m <- s.terminating :: s'.live[n] != s.terminating[m];
    }
  }

  lemma DeleteKeepsDistinct(s: State, s': State, start: Uint16, size: nat)
    requires Inv(s, start, size) && AllDistinct(s) && DeleteStep(s, s', start, size)
    ensures AllDistinct(s')
  {
    hide InRange, HasBit;
  }

  lemma NoReuseKeepsDistinct(s: State, s': State, start: Uint16, size: nat)
    requires Inv(s, start, size) && AllDistinct(s) && Step(s, s', start, size) && !Reuses(s, s')
    ensures AllDistinct(s')
  {
    hide Inv, CreateStep, DeleteStep, Reuses;
    if CreateStep(s, s', start, size) {
      CreateKeepsDistinct(s, s', start, size);
    } else if DeleteStep(s, s', start, size) {
      DeleteKeepsDistinct(s, s', start, size);
    }
  }

  lemma {:induction false} DistinctUpTo(run: seq<State>, start: Uint16, size: nat, k: nat)
    requires IsRun(run, start, size) && k < |run| && Refreshed(run[0], start, size)
    requires forall i | 0 < i < |run| :: !Reuses(run[i - 1], run[i])
    ensures AllDistinct(run[k])
  {
    hide Inv, Step, Reuses, AllDistinct;
    if k > 0 {
      DistinctUpTo(run, start, size, k - 1);
      RunsKeepInv(run, start, size, k - 1);
      NoReuseKeepsDistinct(run[k - 1], run[k], start, size);
    }
  }

  /** Exactly when all objects of the cluster, the terminating ones included, keep ports of their own throughout
      a run: no port of a terminating object is taken before its finalizer is gone. */
  lemma SharedExactly(run: seq<State>, start: Uint16, size: nat)
    requires IsRun(run, start, size) && |run| > 0 && Refreshed(run[0], start, size)
    ensures (forall k | 0 <= k < |run| :: AllDistinct(run[k]))
       <==> (forall k | 0 < k < |run| :: !Reuses(run[k - 1], run[k]))
  {
    hide Step, Reuses, AllDistinct, Refreshed;
    if forall k | 0 < k < |run| :: !Reuses(run[k - 1], run[k]) {
      forall k | 0 <= k < |run|
        ensures AllDistinct(run[k])
      {
        DistinctUpTo(run, start, size, k);
      }
    } else {
      var k :| 0 < k < |run| && Reuses(run[k - 1], run[k]);
      ReuseShares(run[k - 1], run[k], start, size);
    }
  }

  /** A port is shared: with a single port in the range, an object is deleted, its finalizer keeps it, and the
      next object takes the port. The listing of the two makes the next refresh fail. */
  lemma SharingRun(start: Uint16, end: Uint16, a: Name, b: Name)
    requires a != b && start as int + 1 == end as int
    ensures var s0 := State(map[a := start], map[], {start}, map[a := start]);
            var s1 := State(map[], map[a := start], {}, map[]);
            var s2 := State(map[b := start], map[a := start], {start}, map[]);
            && Refreshed(s0, start, RangeSize(start, end)) && IsRun([s0, s1, s2], start, RangeSize(start, end))
            && !AllDistinct(s2) && !Disjoint([s2.terminating[a], s2.live[b]])
  {
    var size := RangeSize(start, end);
    var s0 := State(map[a := start], map[], {start}, map[a := start]);
    var s1 := State(map[], map[a := start], {}, map[]);
    var s2 := State(map[b := start], map[a := start], {start}, map[]);
    assert start == PortOf(start, 0) && InRange(start, start, size);
    assert a in s0.doomed && s1 == Deleted(Freed(s0, a, start, size), a, true);
    assert DeleteStep(s0, s1, start, size);
    assert CreateStep(s1, s2, start, size);
    var pair := [s2.terminating[a], s2.live[b]];
    assert pair[0] == pair[1];
  }

  /** A run from the given state. */
  ghost predicate RunsFrom(run: seq<State>, s: State, start: Uint16, size: nat) {
    |run| > 0 && run[0] == s && IsRun(run, start, size)
  }

  ghost predicate NeverShares(run: seq<State>) {
    forall k | 0 <= k < |run| :: AllDistinct(run[k])
  }

  /** Nothing is to be deleted, and whatever is in the cluster holds its port. */
  ghost predicate Untroubled(s: State) {
    && s.doomed == map[] && AllDistinct(s) && s.live.Keys !! s.terminating.Keys
    && s.live.Values + s.terminating.Values <= s.held
  }

  lemma CreateStaysUntroubled(s: State, s': State, start: Uint16, size: nat)
    requires Untroubled(s) && CreateStep(s, s', start, size)
    ensures Untroubled(s')
  {
    hide InRange;
    if s'.live != s.live {
      var p, n :| p !in s.held && n !in s.live && n !in s.terminating
               && s' == s.(held := s.held + {p}, live := s.live[n := p]);
    }
  }

  lemma StepStaysUntroubled(s: State, s': State, start: Uint16, size: nat)
    requires Untroubled(s) && Step(s, s', start, size)
    ensures Untroubled(s')
  {
    hide CreateStep, Deleted, Freed;
    if CreateStep(s, s', start, size) {
      CreateStaysUntroubled(s, s', start, size);
    }
  }

  lemma {:induction false} UntroubledUpTo(run: seq<State>, start: Uint16, size: nat, k: nat)
    requires IsRun(run, start, size) && k < |run| && Untroubled(run[0])
    ensures Untroubled(run[k])
  {
    hide Step, Untroubled;
    if k > 0 {
      UntroubledUpTo(run, start, size, k - 1);
      StepStaysUntroubled(run[k - 1], run[k], start, size);
    }
  }

  /** There is always a longer name. */
  lemma {:induction false} LongerName(names: set<Name>) returns (other: Name)
    ensures forall n <- names :: |n| < |other|
    decreases |names|
  {
    if names == {} {
      other := "";
    } else {
      var n :| n in names;
      var longest := LongerName(names - {n});
      other := if |n| < |longest| then longest else n + "-";
    }
  }

  /** An object to be deleted makes a run possible in which its port is shared. */
  lemma DoomedIsShared(s: State, start: Uint16, size: nat, n: Name) returns (run: seq<State>)
    requires Refreshed(s, start, size) && n in s.doomed && HasBit(start, size, s.doomed[n])
    ensures RunsFrom(run, s, start, size) && !NeverShares(run)
  {
    hide HasBit;
    var p := s.doomed[n];
    var other := LongerName(s.live.Keys + s.terminating.Keys);
    assert other !in s.live && other !in s.terminating;
    var s1 := Deleted(Freed(s, n, start, size), n, true);
    assert n in s1.terminating && s1.terminating[n] == p && p !in s1.held;
    assert DeleteStep(s, s1, start, size);
    assert p in s.held && InRange(p, start, size);
    hide InRange;
    var s2 := s1.(held := s1.held + {p}, live := s1.live[other := p]);
    assert other !in s1.live && other !in s1.terminating;
    assert CreateStep(s1, s2, start, size);
    run := [s, s1, s2];
    assert !AllDistinct(s2) by {
      assert other in s2.live && n in s2.terminating && s2.live[other] == s2.terminating[n];
    }
    assert run[2] == s2;
  }

  /** Exactly when ports are never shared, by what a refresh leaves: every run keeps all ports distinct if and only
      if nothing is to be deleted. */
  lemma SharedByInput(s: State, start: Uint16, end: Uint16)
    requires start <= end && Refreshed(s, start, RangeSize(start, end))
    ensures (forall run :: RunsFrom(run, s, start, RangeSize(start, end)) ==> NeverShares(run)) <==> s.doomed == map[]
  {
    var size := RangeSize(start, end);
    if s.doomed == map[] {
      forall run | RunsFrom(run, s, start, size)
        ensures NeverShares(run)
      {
        forall k | 0 <= k < |run|
          ensures AllDistinct(run[k])
        {
          UntroubledUpTo(run, start, size, k);
        }
      }
    } else {
      var n :| n in s.doomed;
      assert s.doomed[n] in s.held;
      InRangeHasBit(start, end, s.doomed[n]);
      var run := DoomedIsShared(s, start, size, n);
    }
  }

  lemma InRangeHasBit(start: Uint16, end: Uint16, p: Uint16)
    requires start <= end && InRange(p, start, RangeSize(start, end))
    ensures HasBit(start, RangeSize(start, end), p)
  {
    OffsetsExactly(start, end);
  }
}
