/** At a fixed capacity the ring is a cache of an unbounded map from block to amount. */
module RingRefinement {
  import opened Wrappers
  import opened BlockAmounts

  datatype Op = Bump(height: nat, amount: nat) | Unbump(height: nat, amount: nat)

  function RunCells(cells: Cells, ops: seq<Op>): (r: Cells)
    requires |cells| > 0
    ensures |r| == |cells|
  {
    if ops == [] then cells
    else
      var before := RunCells(cells, ops[..|ops| - 1]);
      match ops[|ops| - 1]
      case Bump(h, a) => BumpCells(before, h, a)
      case Unbump(h, a) => UnbumpCells(before, h, a)
  }

  /** The unbounded map the ring stands for, in the ring's own saturating arithmetic. */
  function RunTotals(ops: seq<Op>): map<nat, nat> {
    if ops == [] then map[]
    else
      var before := RunTotals(ops[..|ops| - 1]);
      match ops[|ops| - 1]
      case Bump(h, a) => BumpTotals(before, h, a)
      case Unbump(h, a) => UnbumpTotals(before, h, a)
  }

  /** Every remembered amount is the block's total, and a block is missing only when overtaken. */
  ghost predicate Caches(cells: Cells, totals: map<nat, nat>) {
    && |cells| > 0
    && WellSlotted(cells)
    && (forall i :: 0 <= i < |cells| && cells[i].Some? ==>
          cells[i].value.height in totals && cells[i].value.sats == totals[cells[i].value.height])
    && (forall h :: h in totals ==>
          cells[Slot(h, |cells|)].Some? && h <= cells[Slot(h, |cells|)].value.height)
  }

  function BumpTotals(totals: map<nat, nat>, height: nat, amount: nat): map<nat, nat> {
    totals[height := if height in totals then SaturatingAdd(totals[height], amount) else amount]
  }

  function UnbumpTotals(totals: map<nat, nat>, height: nat, amount: nat): map<nat, nat> {
    if height in totals then totals[height := SaturatingSub(totals[height], amount)] else totals
  }

  /** One bump, by what its slot holds: a newer block, the block itself, or an older block or nothing. */
  lemma BumpKeepsCache(cells: Cells, totals: map<nat, nat>, height: nat, amount: nat)
    requires Caches(cells, totals)
    ensures Caches(BumpCells(cells, height, amount), BumpTotals(totals, height, amount))
  {
    var slot := Slot(height, |cells|);
    if Overtaken(cells, height) {
      var after := BumpTotals(totals, height, amount);
      assert forall i :: 0 <= i < |cells| && cells[i].Some? ==> cells[i].value.height != height by {
        assert forall i :: 0 <= i < |cells| && cells[i].Some? ==> Slot(cells[i].value.height, |cells|) == i;
      }
      assert forall h :: h in after ==> h in totals || h == height;
    } else if Lookup(cells, height).Some? {
      WriteKeepsCache(cells, totals, height, SaturatingAdd(cells[slot].value.sats, amount));
    } else {
      assert height !in totals;
      WriteKeepsCache(cells, totals, height, amount);
    }
  }

  lemma UnbumpKeepsCache(cells: Cells, totals: map<nat, nat>, height: nat, amount: nat)
    requires Caches(cells, totals)
    ensures Caches(UnbumpCells(cells, height, amount), UnbumpTotals(totals, height, amount))
  {
    var slot := Slot(height, |cells|);
    if Lookup(cells, height).Some? {
      WriteKeepsCache(cells, totals, height, SaturatingSub(cells[slot].value.sats, amount));
    } else {
      assert forall i :: 0 <= i < |cells| && cells[i].Some? ==> cells[i].value.height != height by {
        assert forall i :: 0 <= i < |cells| && cells[i].Some? ==> Slot(cells[i].value.height, |cells|) == i;
      }
    }
  }

  /** A new amount may be written for a block that its slot does not rank below another one. */
  lemma WriteKeepsCache(cells: Cells, totals: map<nat, nat>, height: nat, sats: nat)
    requires Caches(cells, totals) && !Overtaken(cells, height)
    ensures Caches(cells[Slot(height, |cells|) := Some(Cell(height, sats))], totals[height := sats])
  {
  }

  lemma {:induction false} RingCachesTotals(capacity: nat, ops: seq<Op>)
    requires capacity > 0
    ensures Caches(RunCells(EmptyCells(capacity), ops), RunTotals(ops))
  {
    if ops == [] {
    } else {
      hide Caches;
      var before := ops[..|ops| - 1];
      RingCachesTotals(capacity, before);
      match ops[|ops| - 1]
      case Bump(h, a) => BumpKeepsCache(RunCells(EmptyCells(capacity), before), RunTotals(before), h, a);
      case Unbump(h, a) => UnbumpKeepsCache(RunCells(EmptyCells(capacity), before), RunTotals(before), h, a);
    }
  }

  lemma SameSlotIsFarApart(lower: nat, upper: nat, capacity: nat)
    requires capacity > 0 && lower < upper && Slot(lower, capacity) == Slot(upper, capacity)
    ensures lower + capacity <= upper
  {
    var q := upper / capacity - lower / capacity;
    assert upper - lower == q * capacity;
    assert q <= 0 ==> q * capacity <= 0;
    assert q >= 1 ==> (q - 1) * capacity >= 0;
  }

  /**
   * After any operations, a bump returns the exact total of the block unless a block of the same slot
   * and greater height, hence at least one capacity above, was bumped before; then it returns None.
   */
  lemma BumpIsExactOrOvertaken(capacity: nat, ops: seq<Op>, height: nat, amount: nat)
    requires capacity > 0
    ensures var r := BumpResult(RunCells(EmptyCells(capacity), ops), height, amount);
      && (r.Some? ==> r.value == RunTotals(ops + [Bump(height, amount)])[height])
      && (r.None? <==> exists h :: h in RunTotals(ops) && height < h && Slot(h, capacity) == Slot(height, capacity))
      && (r.None? ==> exists h :: h in RunTotals(ops) && height + capacity <= h)
  {
    RingCachesTotals(capacity, ops);
    var all := ops + [Bump(height, amount)];
    assert all[..|all| - 1] == ops;
    var cells := RunCells(EmptyCells(capacity), ops);
    if Overtaken(cells, height) {
      var top := cells[Slot(height, capacity)].value.height;
      SameSlotIsFarApart(height, top, capacity);
    }
  }

  /** The keys of the totals are the heights bumped so far. */
  lemma {:induction false} TotalsAreTheBumpedHeights(ops: seq<Op>, height: nat)
    ensures height in RunTotals(ops) <==> exists i :: 0 <= i < |ops| && ops[i].Bump? && ops[i].height == height
  {
    if ops == [] {
    } else {
      var before := ops[..|ops| - 1];
      TotalsAreTheBumpedHeights(before, height);
      if height in RunTotals(before) {
        var i :| 0 <= i < |before| && before[i].Bump? && before[i].height == height;
        assert ops[i] == before[i];
      }
      if i :| 0 <= i < |ops| && ops[i].Bump? && ops[i].height == height {
        if i < |before| {
          assert before[i] == ops[i];
        }
      }
    }
  }

  /** No block less than one capacity below every bumped height is ever forgotten. */
  lemma RecentBlocksAreRemembered(capacity: nat, ops: seq<Op>, height: nat)
    requires capacity > 0 && height in RunTotals(ops)
    requires forall h :: h in RunTotals(ops) ==> h < height + capacity
    ensures Lookup(RunCells(EmptyCells(capacity), ops), height) == Some(RunTotals(ops)[height])
  {
    RingCachesTotals(capacity, ops);
    var top := RunCells(EmptyCells(capacity), ops)[Slot(height, capacity)].value.height;
    if height < top {
      SameSlotIsFarApart(height, top, capacity);
    }
  }

  /** Bumped minus unbumped amounts of one block, in unbounded arithmetic. */
  function Unreverted(ops: seq<Op>, height: nat): int {
    if ops == [] then 0
    else
      var before := Unreverted(ops[..|ops| - 1], height);
      match ops[|ops| - 1]
      case Bump(h, a) => if h == height then before + a else before
      case Unbump(h, a) => if h == height then before - a else before
  }

  function TotalOf(ops: seq<Op>, height: nat): nat {
    if height in RunTotals(ops) then RunTotals(ops)[height] else 0
  }

  ghost predicate AmountsFit(ops: seq<Op>) {
    forall i :: 0 <= i < |ops| ==> ops[i].amount <= U128_MAX
  }

  /**
   * The saturating totals are the true sums at every moment exactly when the true sums never leave
   * the range of the contract's 128-bit amounts.
   */
  lemma {:induction false} TotalsAreTrueSums(ops: seq<Op>, height: nat)
    requires AmountsFit(ops)
    ensures (forall n :: 0 <= n <= |ops| ==> TotalOf(ops[..n], height) == Unreverted(ops[..n], height))
       <==> (forall n :: 0 <= n <= |ops| ==> 0 <= Unreverted(ops[..n], height) <= U128_MAX)
  {
    forall n | 0 <= n <= |ops| ensures TotalOf(ops[..n], height) <= U128_MAX {
      TotalsFit(ops[..n], height);
    }
    if forall n :: 0 <= n <= |ops| ==> 0 <= Unreverted(ops[..n], height) <= U128_MAX {
      forall n | 0 <= n <= |ops| ensures TotalOf(ops[..n], height) == Unreverted(ops[..n], height) {
        TotalIsTrueSum(ops[..n], height, ops);
      }
    }
  }

  lemma {:induction false} TotalsFit(ops: seq<Op>, height: nat)
    requires AmountsFit(ops)
    ensures TotalOf(ops, height) <= U128_MAX
  {
    if ops == [] {
    } else {
      TotalsFit(ops[..|ops| - 1], height);
    }
  }

  lemma {:induction false} TotalIsTrueSum(ops: seq<Op>, height: nat, whole: seq<Op>)
    requires ops <= whole
    requires forall n :: 0 <= n <= |whole| ==> 0 <= Unreverted(whole[..n], height) <= U128_MAX
    ensures TotalOf(ops, height) == Unreverted(ops, height)
  {
    assert whole[..|ops|] == ops;
    if ops == [] {
    } else {
      var before := ops[..|ops| - 1];
      assert whole[..|before|] == before;
      TotalIsTrueSum(before, height, whole);
    }
  }

  /** A saturated total loses amounts: reverting a bump that saturated does not give the true sum back. */
  lemma SaturationLosesAmounts()
    ensures var ops := [Bump(0, U128_MAX), Bump(0, 1), Unbump(0, 1)];
      TotalOf(ops, 0) == U128_MAX - 1 && Unreverted(ops, 0) == U128_MAX
  {
    var one := [Bump(0, U128_MAX)];
    var two := [Bump(0, U128_MAX), Bump(0, 1)];
    var three := [Bump(0, U128_MAX), Bump(0, 1), Unbump(0, 1)];
    assert one[..0] == [] && two[..1] == one && three[..2] == two;
    assert RunTotals(one) == map[0 := U128_MAX];
    assert RunTotals(two) == map[0 := U128_MAX];
    assert Unreverted(one, 0) == U128_MAX;
    assert Unreverted(two, 0) == U128_MAX + 1;
  }
}
