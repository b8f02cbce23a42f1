/**
 * Runs in which the ring forgets a block that is not deep enough for a deposit accepted in it later, which
 * is possible exactly when the deposit's delta does not fit.
 */
module ForgottenBlocks {
  import opened Wrappers
  import opened Sums
  import opened Bitcoin
  import opened BlockAmounts
  import opened Configuration
  import opened BridgeState
  import opened Steps
  import opened Invariants
  import opened Runs
  import opened ConfirmationSafety

  // ----- steps of a run -----

  lemma StartIsReachableAbove(floor: nat, w: World)
    requires Init(w) && HasFloor(floor, w.cfg)
    ensures ReachableAbove(floor, w)
  {
    hide Init, StaysInAbove;
  }

  lemma StepIsReachableAbove(floor: nat, w: World, e: Event)
    requires ReachableAbove(floor, w) && Can(w, e) && StepKeepsFloor(floor, w, e)
    ensures ReachableAbove(floor, Do(w, e))
  {
    hide Can, Do, StepKeepsFloor, StartsAbove;
    forall p: World -> bool | StartsAbove(floor, p) && StaysInAbove(floor, p) ensures p(Do(w, e)) {
      assert p(w);
    }
  }

  lemma AskStep(floor: nat, w: World, d: DepositClaim)
    requires ReachableAbove(floor, w) && CanAskDeposit(w, d) && TotalsFit(w.past.accepted)
    ensures ReachableAbove(floor, Ask(w, DepositCheck(d)))
  {
    hide ReachableAbove, CanAskDeposit, TotalsFit;
    StepIsReachableAbove(floor, w, OfDeposit(DepositQuestion(d)));
  }

  lemma ConfigureStep(floor: nat, w: World, c: Config)
    requires ReachableAbove(floor, w) && CanConfigure(w, c) && HasFloor(floor, c) && TotalsFit(w.past.accepted)
    ensures ReachableAbove(floor, Configure(w, c))
  {
    hide ReachableAbove, CanConfigure, HasFloor, TotalsFit;
    StepIsReachableAbove(floor, w, OfLedger(ConfigChange(c)));
  }

  lemma AcceptStep(floor: nat, w: World, d: DepositClaim)
    requires ReachableAbove(floor, w) && CanAcceptDeposit(w, d) && TotalsFit(AcceptDeposit(w, d).past.accepted)
    ensures ReachableAbove(floor, AcceptDeposit(w, d))
  {
    hide ReachableAbove, CanAcceptDeposit, AcceptDeposit, TotalsFit;
    StepIsReachableAbove(floor, w, OfDeposit(DepositAcceptance(d)));
  }

  // ----- one run -----

  /** Tiers with which every block needs two confirmations. */
  const TWO: Tiers := map[1 := 2]

  lemma TwoAreValid()
    ensures 1 in TWO && TiersTyped(TWO) && TiersInRange(TWO) && TiersNonDecreasing(TWO)
  {
  }

  lemma TwoIsEnough(amount: nat)
    ensures TWO != map[] && ConfirmationsFor(TWO, amount) == 2 && MaxTier(TWO) == 2
  {
    assert 1 in TWO;
    var k := ConfirmationsAreATier(TWO, amount);
    assert IsMaxTier(TWO, MaxTier(TWO));
  }

  /**
   * Three deposits are submitted under the configuration `asked`. Under `between` the first is accepted in
   * block 0 and the second one ring further on, where it takes over the slot. The configuration `last` moves
   * it to another slot, and block 0 is forgotten before the third deposit, in block 0 too, is answered.
   */
  datatype Plan = Plan(asked: Config, between: Config, last: Config, delta: nat, total: nat, tip: nat)
  {
    ghost predicate Works(floor: nat) {
      && ValidConfig(asked) && ValidConfig(between) && ValidConfig(last)
      && asked.minDepositAmount <= 1
      && delta in {0, asked.confirmationsDelta}
      && asked.tiers == TWO && between.tiers == TWO && last.tiers != map[]
      && floor <= CapacityFor(asked) && floor <= CapacityFor(between) && floor <= CapacityFor(last)
      && CapacityFor(between) % CapacityFor(last) != 0
      && 0 < total < U128_MAX
      && CapacityFor(between) < tip
    }

    function FirstTx(): Tx {
      Tx([Funding(0)], [TxOut(total, DepositScript(0)), TxOut(1, DepositScript(1))], 0)
    }

    function SecondTx(): Tx {
      Tx([Funding(1)], [TxOut(1, DepositScript(2))], 0)
    }

    function First(): DepositClaim {
      SafeClaim(OutPoint(FirstTx(), 0), total, 0)
    }

    function Second(): DepositClaim {
      SafeClaim(OutPoint(SecondTx(), 0), 1, 0)
    }

    function Third(): DepositClaim {
      SafeClaim(OutPoint(FirstTx(), 1), 1, delta)
    }

    ghost function Start(): World {
      World(asked, EmptyCells(CapacityFor(asked)), Coins(map[], map[], {}, map[]), Book(map[], map[], map[], map[]),
            Fees(0, 0, 0, 0, 0), map[], Token(0, 0), Flight(map[], map[], map[], map[], {}),
            Chain(map[FirstTx() := 0, SecondTx() := CapacityFor(between)], tip),
            Past({}, {}, {}, map[], map[], {}, map[], 0, 0, 0, 0))
    }

    /** What of the state the run depends on. */
    ghost predicate At(w: World, c: Config, ring: Cells, accepted: Accepted) {
      && w.cfg == c
      && w.ring == ring
      && w.chain == Start().chain
      && w.flight.asked == {DepositCheck(First()), DepositCheck(Second()), DepositCheck(Third())}
      && w.coins.verified == accepted.Keys
      && w.past.accepted == accepted
    }

    function FirstAccepted(): Accepted {
      map[First().op := Deposit(0, total)]
    }

    ghost function BothAccepted(): Accepted {
      FirstAccepted()[Second().op := Deposit(CapacityFor(between), 1)]
    }
  }

  /** An output of somebody else, to pay for a deposit. */
  function Funding(id: nat): OutPoint {
    OutPoint(Tx([], [TxOut(1, ForeignScript(0))], id), 0)
  }

  function SafeClaim(op: OutPoint, value: nat, delta: nat): DepositClaim {
    DepositClaim(op, 1, 0, value, 0, 0, true, delta)
  }

  lemma TotalsOfRun(p: Plan, floor: nat)
    requires p.Works(floor)
    ensures TotalsFit(map[]) && TotalsFit(p.FirstAccepted()) && TotalsFit(p.BothAccepted())
    ensures BlockTotal(p.BothAccepted(), 0) == p.total
  {
    hide CapacityFor, ValidConfig;
    var none: Accepted := map[];
    forall h: nat
      ensures BlockTotal(none, h) == 0
      ensures BlockTotal(p.FirstAccepted(), h) == if h == 0 then p.total else 0
      ensures BlockTotal(p.BothAccepted(), h)
           == if h == 0 then p.total else if h == CapacityFor(p.between) then 1 else 0
    {
      SumInsert(none, p.First().op, Deposit(0, p.total), AtHeight(h));
      assert none[p.First().op := Deposit(0, p.total)] == p.FirstAccepted();
      SumInsert(p.FirstAccepted(), p.Second().op, Deposit(CapacityFor(p.between), 1), AtHeight(h));
    }
  }

  lemma StartIsInitial(floor: nat, p: Plan)
    requires p.Works(floor)
    ensures Init(p.Start())
  {
    hide CapacityFor;
    assert p.FirstTx() != p.SecondTx();
    assert Disjoint(p.FirstTx(), p.SecondTx());
  }

  lemma RunStarts(floor: nat, p: Plan) returns (w: World)
    requires p.Works(floor)
    ensures ReachableAbove(floor, w) && p.At(w, p.asked, EmptyCells(CapacityFor(p.asked)), map[])
  {
    hide ReachableAbove, TotalsFit, CapacityFor, ValidConfig, Init;
    w := p.Start();
    StartIsInitial(floor, p);
    StartIsReachableAbove(floor, w);
    TotalsOfRun(p, floor);
    AskStep(floor, w, p.First());
    w := Ask(w, DepositCheck(p.First()));
    AskStep(floor, w, p.Second());
    w := Ask(w, DepositCheck(p.Second()));
    AskStep(floor, w, p.Third());
    w := Ask(w, DepositCheck(p.Third()));
  }

  /** A ring that holds the second deposit only. */
  ghost function SecondOnly(p: Plan, capacity: nat): Cells
    requires capacity > 0
  {
    var height := CapacityFor(p.between);
    EmptyCells(capacity)[Slot(height, capacity) := Some(Cell(height, 1))]
  }

  lemma SecondMoves(p: Plan, capacity: nat, other: nat)
    requires capacity > 0 && other > 0
    ensures ResizedCells(SecondOnly(p, capacity), other) == SecondOnly(p, other)
  {
    hide CapacityFor;
    var height, ring := CapacityFor(p.between), ResizedCells(SecondOnly(p, capacity), other);
    var i := Slot(height, capacity);
    assert SecondOnly(p, capacity)[i] == Some(Cell(height, 1));
    assert forall cell :: cell in SecondOnly(p, capacity) ==> cell == None || cell == Some(Cell(height, 1));
    forall j | 0 <= j < other ensures ring[j] == SecondOnly(p, other)[j] {
      ResizeKeepsNewest(SecondOnly(p, capacity), other, j);
    }
  }

  ghost function FirstInSlot(p: Plan): Cells {
    EmptyCells(CapacityFor(p.between))[0 := Some(Cell(0, p.total))]
  }

  lemma FirstIsAccepted(floor: nat, p: Plan, w: World)
    requires p.Works(floor) && p.At(w, p.between, EmptyCells(CapacityFor(p.between)), map[])
    ensures CanAcceptDeposit(w, p.First())
    ensures p.At(AcceptDeposit(w, p.First()), p.between, FirstInSlot(p), p.FirstAccepted())
  {
    hide CapacityFor, ValidConfig, ConfirmationsFor;
    TwoIsEnough(CountedAmount(w.ring, 0, p.total));
    assert Slot(0, CapacityFor(p.between)) == 0;
  }

  lemma SecondIsAccepted(floor: nat, p: Plan, w: World)
    requires p.Works(floor) && p.At(w, p.between, FirstInSlot(p), p.FirstAccepted())
    ensures CanAcceptDeposit(w, p.Second())
    ensures p.At(AcceptDeposit(w, p.Second()), p.between, SecondOnly(p, CapacityFor(p.between)), p.BothAccepted())
  {
    hide CapacityFor, ValidConfig, ConfirmationsFor;
    TwoIsEnough(CountedAmount(w.ring, CapacityFor(p.between), 1));
    assert Slot(CapacityFor(p.between), CapacityFor(p.between)) == 0;
  }

  lemma RunOvertakes(floor: nat, p: Plan) returns (w: World)
    requires p.Works(floor)
    ensures ReachableAbove(floor, w)
    ensures p.At(w, p.between, SecondOnly(p, CapacityFor(p.between)), p.BothAccepted())
  {
    hide ReachableAbove, TotalsFit, CapacityFor, ValidConfig, ResizedCells, CanAcceptDeposit, AcceptDeposit, SecondOnly;
    w := RunStarts(floor, p);
    TotalsOfRun(p, floor);
    EmptyRingStaysEmpty(CapacityFor(p.asked), CapacityFor(p.between));
    ConfigureStep(floor, w, p.between);
    w := Configure(w, p.between);
    FirstIsAccepted(floor, p, w);
    AcceptStep(floor, w, p.First());
    w := AcceptDeposit(w, p.First());
    SecondIsAccepted(floor, p, w);
    AcceptStep(floor, w, p.Second());
    w := AcceptDeposit(w, p.Second());
  }

  // ----- from one configuration to another, one call at a time -----

  /** The state of the run under configuration c once the first two deposits are accepted. */
  ghost predicate Moved(floor: nat, p: Plan, w: World, c: Config) {
    && p.Works(floor)
    && ReachableAbove(floor, w)
    && p.At(w, c, SecondOnly(p, CapacityFor(c)), p.BothAccepted())
  }

  lemma MoveStep(floor: nat, p: Plan, w: World, c: Config) returns (v: World)
    requires Moved(floor, p, w, w.cfg) && CanConfigure(w, c) && HasFloor(floor, c)
    ensures Moved(floor, p, v, c)
  {
    hide ReachableAbove, TotalsFit, CapacityFor, CanConfigure, HasFloor, ResizedCells, SecondOnly;
    TotalsOfRun(p, floor);
    ConfigureStep(floor, w, c);
    SecondMoves(p, CapacityFor(w.cfg), CapacityFor(c));
    v := Configure(w, c);
  }

  /** Some tiers below a bound that nothing exceeds, with the greatest tier there is. */
  function WithTop(c: Config, tiers: Tiers): Config {
    c.(tiers := tiers[U128_MAX := 100])
  }

  lemma TopIsValid(c: Config, tiers: Tiers)
    requires ValidConfig(c) && TiersTyped(tiers) && TiersInRange(tiers) && TiersNonDecreasing(tiers)
    ensures ValidConfig(WithTop(c, tiers))
    ensures CapacityFor(WithTop(c, tiers)) == 105 + c.confirmationsDelta + c.extraMsgConfirmationsDelta
    ensures CapacityFor(c) <= CapacityFor(WithTop(c, tiers))
  {
    var top := WithTop(c, tiers).tiers;
    assert top[U128_MAX] == 100 && IsMaxTier(top, MaxTier(top)) && IsMaxTier(c.tiers, MaxTier(c.tiers));
  }

  lemma MovedIsPlanned(floor: nat, p: Plan, w: World, c: Config)
    requires Moved(floor, p, w, c)
    ensures p.Works(floor) && w.cfg == c
  {
  }

  lemma AddTier(floor: nat, p: Plan, w: World, tiers: Tiers, bound: nat, confirmations: nat) returns (v: World)
    requires Moved(floor, p, w, WithTop(p.last, tiers)) && bound != U128_MAX
    requires ValidConfig(WithTop(p.last, tiers[bound := confirmations]))
    requires HasFloor(floor, WithTop(p.last, tiers[bound := confirmations]))
    ensures Moved(floor, p, v, WithTop(p.last, tiers[bound := confirmations]))
  {
    hide Moved, ValidConfig, HasFloor;
    MovedIsPlanned(floor, p, w, WithTop(p.last, tiers));
    assert WithTop(p.last, tiers[bound := confirmations]) == WithTier(w.cfg, bound, confirmations);
    v := MoveStep(floor, p, w, WithTop(p.last, tiers[bound := confirmations]));
  }

  /** Adds tiers of the last configuration one by one. */
  lemma {:induction false} AddTiers(floor: nat, p: Plan, w: World, tiers: Tiers) returns (v: World)
    requires Moved(floor, p, w, WithTop(p.last, map[]))
    requires forall k :: k in tiers ==> k in p.last.tiers && tiers[k] == p.last.tiers[k]
    ensures Moved(floor, p, v, WithTop(p.last, tiers))
    decreases |tiers|
  {
    hide Moved, CapacityFor, ScalarsValid, WithTop;
    if tiers == map[] {
      v := w;
    } else {
      var k :| k in tiers;
      var rest := tiers - {k};
      v := AddTiers(floor, p, w, rest);
      assert rest[k := tiers[k]] == tiers;
      if k == U128_MAX {
        TopReplaces(p.last, rest, tiers[k]);
      } else {
        MovedIsPlanned(floor, p, v, WithTop(p.last, rest));
        TopIsValid(p.last, tiers);
        v := AddTier(floor, p, v, rest, k, tiers[k]);
      }
    }
  }

  lemma TopReplaces(c: Config, tiers: Tiers, confirmations: nat)
    ensures WithTop(c, tiers[U128_MAX := confirmations]) == WithTop(c, tiers)
  {
    assert tiers[U128_MAX := confirmations][U128_MAX := 100] == tiers[U128_MAX := 100];
  }

  lemma TopRemains(c: Config)
    ensures IsOneChange(WithTop(c, TWO), WithTop(c, map[]))
  {
    assert U128_MAX in WithTop(c, map[]).tiers && 1 in WithTop(c, TWO).tiers;
    assert WithTop(c, map[]).tiers == WithTop(c, TWO).tiers - {1};
    assert WithTop(c, map[]) == WithoutTier(WithTop(c, TWO), 1);
  }

  lemma TopGoes(c: Config)
    requires c.tiers != map[]
    ensures IsOneChange(WithTop(c, c.tiers), c)
  {
    var from := WithTop(c, c.tiers);
    if U128_MAX in c.tiers {
      assert c.tiers == from.tiers[U128_MAX := c.tiers[U128_MAX]];
      assert c == WithTier(from, U128_MAX, c.tiers[U128_MAX]);
    } else {
      assert c.tiers == from.tiers - {U128_MAX};
      assert c == WithoutTier(from, U128_MAX);
    }
  }

  lemma RunForgets(floor: nat, p: Plan) returns (w: World)
    requires p.Works(floor)
    ensures Moved(floor, p, w, p.last)
  {
    hide Moved, CapacityFor, IsOneChange, WithTop;
    w := RunReachesLastDeltas(floor, p);
    MovedIsPlanned(floor, p, w, WithTop(p.last, TWO));
    TopIsValid(p.last, map[]);
    TopRemains(p.last);
    w := MoveStep(floor, p, w, WithTop(p.last, map[]));
    w := AddTiers(floor, p, w, p.last.tiers);
    MovedIsPlanned(floor, p, w, WithTop(p.last, p.last.tiers));
    TopGoes(p.last);
    w := MoveStep(floor, p, w, p.last);
  }

  lemma RunReachesLastDeltas(floor: nat, p: Plan) returns (w: World)
    requires p.Works(floor)
    ensures Moved(floor, p, w, WithTop(p.last, TWO))
  {
    hide ReachableAbove, CapacityFor, ValidConfig;
    w := RunOvertakes(floor, p);
    TwoAreValid();
    TopIsValid(p.between, TWO);
    assert WithTop(p.between, TWO) == WithTier(w.cfg, U128_MAX, 100);
    w := MoveStep(floor, p, w, WithTop(p.between, TWO));
    TopIsValid(p.last, TWO);
    w := MoveStep(floor, p, w, WithTop(p.last, TWO));
  }

  /**
   * After the run the third deposit is counted as the first of its block: it is accepted when deep enough for
   * one satoshi, and it is deep only if it is deep enough for the true total.
   */
  lemma ThirdIsAccepted(floor: nat, p: Plan, w: World)
    requires Moved(floor, p, w, p.last)
    ensures w.cfg.tiers != map[] && Exists(p.Third().op) && p.Third().op.tx in w.chain.confirmed
    ensures ConfirmationsFor(p.last.tiers, 1) + p.delta <= p.tip + 1 ==> CanAcceptDeposit(w, p.Third())
    ensures IsDeep(w, p.Third()) <==> ConfirmationsFor(p.last.tiers, p.total + 1) + p.delta <= p.tip + 1
  {
    hide ReachableAbove, CapacityFor, ValidConfig, BlockTotal;
    TotalsOfRun(p, floor);
    assert Slot(0, |w.ring|) == 0;
  }

  // ----- the exact condition -----

  /** The last bound below the greatest tier is above one unless one satoshi needs the greatest tier. */
  lemma LastBoundBelowMaxTier(tiers: Tiers) returns (bound: nat)
    requires tiers != map[] && TiersNonDecreasing(tiers) && ConfirmationsFor(tiers, 1) < MaxTier(tiers)
    ensures bound > 1 && bound in tiers && tiers[bound] < MaxTier(tiers)
    ensures forall k :: k in tiers && tiers[k] < MaxTier(tiers) ==> k <= bound
  {
    hide ConfirmationsFor;
    var below := set k | k in tiers && tiers[k] < MaxTier(tiers);
    var first := ConfirmationsAreATier(tiers, 1);
    assert first in below && IsMaxTier(tiers, MaxTier(tiers));
    bound := GreatestOf(below);
    assert bound in below && forall k :: k in tiers && tiers[k] < MaxTier(tiers) ==> k in below;
    var top :| top in tiers && tiers[top] == MaxTier(tiers);
    assert bound < top;
    if b: nat :| IsNextBound(tiers, 1, b) && tiers[b] == ConfirmationsFor(tiers, 1) {
      assert b in below;
    }
  }

  /** A block total after which one more satoshi needs the greatest tier. */
  lemma TotalBelowMaxTier(tiers: Tiers) returns (total: nat)
    requires tiers != map[] && TiersTyped(tiers) && TiersNonDecreasing(tiers)
    requires ConfirmationsFor(tiers, 1) < MaxTier(tiers)
    ensures 0 < total < U128_MAX && ConfirmationsFor(tiers, total + 1) == MaxTier(tiers)
  {
    hide ConfirmationsFor;
    var bound := LastBoundBelowMaxTier(tiers);
    total := bound - 1;
    assert IsMaxTier(tiers, MaxTier(tiers));
    var top :| top in tiers && tiers[top] == MaxTier(tiers);
    assert bound < top;
    if b: nat :| IsNextBound(tiers, bound, b) && tiers[b] == ConfirmationsFor(tiers, bound) {
      assert tiers[b] >= MaxTier(tiers);
    }
  }

  /** A valid configuration for a ring of any size from seven on; deltas of 8 bits suffice for up to 517 slots. */
  ghost function WithCapacity(c: Config, capacity: nat): Config
    requires capacity >= 7
  {
    c.(tiers := TWO, confirmationsDelta := (capacity - 7) / 2,
       extraMsgConfirmationsDelta := capacity - 7 - (capacity - 7) / 2)
  }

  /** The configuration under which the deposits are submitted: two confirmations and the delta in question. */
  ghost function WithDelta(c: Config, delta: nat): Config {
    c.(tiers := TWO, confirmationsDelta := delta, extraMsgConfirmationsDelta := MaxTier(c.tiers),
       minDepositAmount := 1, depositFee := BridgeFee(0, 0, 0))
  }

  lemma ChosenConfigs(c: Config, delta: nat, capacity: nat)
    requires ValidConfig(c) && capacity >= 7
    ensures ValidConfig(WithCapacity(c, capacity)) && CapacityFor(WithCapacity(c, capacity)) == capacity
    ensures ValidConfig(WithDelta(c, delta)) && CapacityFor(WithDelta(c, delta)) == MaxTier(c.tiers) + delta + 7
    ensures WithDelta(c, delta).minDepositAmount == 1 && WithDelta(c, delta).confirmationsDelta == delta
    ensures WithDelta(c, delta).tiers == TWO && WithCapacity(c, capacity).tiers == TWO
  {
    TwoAreValid();
    TwoIsEnough(1);
  }

  /** The depth at which the run ends: enough for one satoshi, and for the second deposit of the run. */
  ghost function DepthOfRun(floor: nat, c: Config, delta: nat): nat
    requires c.tiers != map[]
  {
    Max(ConfirmationsFor(c.tiers, 1) + delta, ForgottenDepth(floor, CapacityFor(c)))
  }

  ghost function PlanFor(floor: nat, c: Config, delta: nat, total: nat): Plan
    requires floor >= 7 && c.tiers != map[]
  {
    Plan(WithDelta(c, delta), WithCapacity(c, if floor < CapacityFor(c) then floor else floor + 1), c, delta, total,
         DepthOfRun(floor, c, delta) - 1)
  }

  lemma OtherSlot(from: nat, to: nat)
    requires 1 < from < to || (1 < to && from == to + 1)
    ensures from % to != 0
  {
  }

  lemma PlanWorks(floor: nat, c: Config, delta: nat, total: nat)
    requires ValidConfig(c) && c.tiers != map[] && 7 <= floor <= CapacityFor(c) && !DeltaFits(floor, c, delta)
    requires 0 < total < U128_MAX
    ensures PlanFor(floor, c, delta, total).Works(floor)
  {
    hide CapacityFor, ValidConfig, ConfirmationsFor, WithCapacity, WithDelta;
    var p, capacity := PlanFor(floor, c, delta, total), if floor < CapacityFor(c) then floor else floor + 1;
    ChosenConfigs(c, delta, capacity);
    OtherSlot(capacity, CapacityFor(c));
  }

  /** When a delta does not fit, some run ends in a state that accepts a deposit which is not deep. */
  lemma UnfittingDeltaIsUnsafe(floor: nat, c: Config, delta: nat) returns (w: World, d: DepositClaim)
    requires ValidConfig(c) && c.tiers != map[] && 7 <= floor <= CapacityFor(c) && !DeltaFits(floor, c, delta)
    ensures ReachableAbove(floor, w) && w.cfg == c && d.delta == delta && CanAcceptDeposit(w, d) && !IsDeep(w, d)
    ensures Depth(w.chain, w.chain.confirmed[d.op.tx]) == DepthOfRun(floor, c, delta)
  {
    hide ReachableAbove, IsDeep, CapacityFor, CanAcceptDeposit, SecondOnly;
    MaxTierBounds(c.tiers, 1);
    var total := TotalBelowMaxTier(c.tiers);
    var p := PlanFor(floor, c, delta, total);
    PlanWorks(floor, c, delta, total);
    w := RunForgets(floor, p);
    d := p.Third();
    ThirdIsAccepted(floor, p, w);
  }

  /** Whatever is accepted with this delta under configuration c is deep. */
  ghost predicate DeltaIsSafe(floor: nat, c: Config, delta: nat)
    requires c.tiers != map[]
  {
    forall w, d :: ReachableAbove(floor, w) && CanAcceptDeposit(w, d) && w.cfg == c && d.delta == delta ==> IsDeep(w, d)
  }

  /**
   * Over all runs that keep at least `floor` slots and end under configuration c, the deposits accepted with a
   * delta are deep exactly when the delta fits.
   */
  lemma DeltasAreSafeExactly(floor: nat, c: Config, delta: nat)
    requires ValidConfig(c) && c.tiers != map[] && 7 <= floor <= CapacityFor(c)
    ensures DeltaIsSafe(floor, c, delta) <==> DeltaFits(floor, c, delta)
  {
    hide ReachableAbove, IsDeep, DeltaFits, CapacityFor, ValidConfig, EnoughConfirmations;
    if DeltaFits(floor, c, delta) {
      forall w, d | ReachableAbove(floor, w) && CanAcceptDeposit(w, d) && w.cfg == c && d.delta == delta
        ensures IsDeep(w, d)
      {
        AcceptedDepositsAreDeep(floor, w, d);
      }
    } else {
      var w, d := UnfittingDeltaIsUnsafe(floor, c, delta);
    }
  }

  // ----- two examples -----

  /** A configuration with the given tiers, no deltas and no fees. */
  function PlainConfig(tiers: Tiers): Config {
    Config(tiers, 0, 0, BridgeFee(0, 0, 0), BridgeFee(0, 0, 0), 1, 0, 0, 1, 0, 1, 1, 1, 1, 1, 0, 1, 0, 1, 1, 0, 1, 0, 0)
  }

  /** Two confirmations for a block total below 100 sats, and `top` from there on. */
  function TwoTiers(top: nat): Tiers {
    map[100 := 2, 200 := top]
  }

  lemma TwoTiersAsk(top: nat)
    requires 2 < top <= 100
    ensures ValidConfig(PlainConfig(TwoTiers(top))) && CapacityFor(PlainConfig(TwoTiers(top))) == top + 5
    ensures ConfirmationsFor(TwoTiers(top), 1) == 2 && MaxTier(TwoTiers(top)) == top
    ensures forall amount: nat :: ConfirmationsFor(TwoTiers(top), amount) in {2, top}
  {
    var tiers := TwoTiers(top);
    assert 100 in tiers && 200 in tiers && forall k :: k in tiers ==> k == 100 || k == 200;
    assert IsMaxTier(tiers, MaxTier(tiers));
    assert IsNextBound(tiers, 1, 100);
    ConfirmationsAreUnique(tiers, 1, 2);
  }

  /**
   * A delta of 100 taken before the configuration lowered its deltas to nothing. The ring has eleven slots and
   * never had fewer; a deposit is accepted at depth 102 although six confirmations and the delta are due.
   */
  lemma StaleDeltaIsUnsafe() returns (w: World, d: DepositClaim)
    ensures ReachableAbove(11, w) && w.cfg == PlainConfig(TwoTiers(6)) && d.delta == 100 && CanAcceptDeposit(w, d)
    ensures Depth(w.chain, w.chain.confirmed[d.op.tx]) == 102
    ensures ConfirmationsFor(TwoTiers(6), TotalWith(w, d)) == 6
  {
    hide ReachableAbove, ValidConfig, CapacityFor, MaxTier, ConfirmationsFor, CanAcceptDeposit, TwoTiers;
    TwoTiersAsk(6);
    w, d := UnfittingDeltaIsUnsafe(11, PlainConfig(TwoTiers(6)), 100);
  }

  /**
   * Without any delta, after the greatest tier has been raised and the ring has grown from seven slots to 25: a
   * deposit is accepted at depth nine although twenty confirmations are due.
   */
  lemma GrownRingIsUnsafe() returns (w: World, d: DepositClaim)
    ensures ReachableAbove(7, w) && w.cfg == PlainConfig(TwoTiers(20)) && d.delta == 0 && CanAcceptDeposit(w, d)
    ensures Depth(w.chain, w.chain.confirmed[d.op.tx]) == 9
    ensures ConfirmationsFor(TwoTiers(20), TotalWith(w, d)) == 20
  {
    hide ReachableAbove, ValidConfig, CapacityFor, MaxTier, ConfirmationsFor, CanAcceptDeposit, TwoTiers;
    TwoTiersAsk(20);
    w, d := UnfittingDeltaIsUnsafe(7, PlainConfig(TwoTiers(20)), 0);
  }
}
