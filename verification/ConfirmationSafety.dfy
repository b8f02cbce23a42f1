/**
 * Every accepted deposit is as deep as the true total of its block requires, although the contract keeps
 * the totals of a bounded number of blocks only.
 */
module ConfirmationSafety {
  import opened Sums
  import opened Bitcoin
  import opened BlockAmounts
  import opened RingRefinement
  import opened Configuration
  import opened BridgeState
  import opened Effects
  import opened Steps
  import opened Invariants
  import opened Runs

  type Accepted = map<OutPoint, Deposit>

  function AtHeight(height: nat): Deposit -> nat {
    (d: Deposit) => if d.height == height then d.value else 0
  }

  /** The true total of a block: everything accepted in it and not reverted. */
  ghost function BlockTotal(accepted: Accepted, height: nat): nat {
    SumBy(accepted, AtHeight(height))
  }

  function Remembered(ring: Cells, height: nat): nat
    requires |ring| > 0
  {
    match Lookup(ring, height)
    case Some(sats) => sats
    case None => 0
  }

  /**
   * For a ring that never had fewer than `floor` slots: it remembers the total of a block, or has given the
   * block's slot to a newer one, or the block lies deep below the tip. It may lie one block less deep in a ring
   * of more slots that still holds what took its place.
   */
  ghost predicate KnownOrDeep(floor: nat, ring: Cells, tip: nat, accepted: Accepted, height: nat)
    requires |ring| > 0
  {
    || Remembered(ring, height) == BlockTotal(accepted, height)
    || Overtaken(ring, height)
    || height + floor + 2 <= tip
    || (height + floor + 1 == tip && floor < |ring| && Lookup(ring, height + floor).Some?)
  }

  /** No deposit counts in the block at the tip, since the least tier asks for one block on top. */
  ghost predicate RingOk(floor: nat, ring: Cells, tip: nat, accepted: Accepted) {
    && 0 < floor <= |ring|
    && WellSlotted(ring)
    && (forall i :: 0 <= i < |ring| && ring[i].Some? ==> ring[i].value.height < tip)
    && forall h: nat :: KnownOrDeep(floor, ring, tip, accepted, h)
  }

  ghost predicate TotalsFit(accepted: Accepted) {
    forall h: nat :: BlockTotal(accepted, h) <= U128_MAX
  }

  /** Deposits have 64-bit values: as long as at most 2^64 of them are counted, the totals fit. */
  lemma SmallDepositsFit(accepted: Accepted)
    requires forall op :: op in accepted ==> accepted[op].value < 0x1_0000_0000_0000_0000
    requires |accepted| <= 0x1_0000_0000_0000_0000
    ensures TotalsFit(accepted)
  {
    forall h: nat ensures BlockTotal(accepted, h) <= U128_MAX {
      SumBound(accepted, AtHeight(h), 0xFFFF_FFFF_FFFF_FFFF);
    }
  }

  lemma EmptyRingOk(floor: nat, capacity: nat, tip: nat)
    requires 0 < floor <= capacity
    ensures RingOk(floor, EmptyCells(capacity), tip, map[])
  {
  }

  // ----- the four ways the ring and the tip change -----

  lemma BumpKeepsRing(floor: nat, ring: Cells, tip: nat, accepted: Accepted, op: OutPoint, height: nat, amount: nat)
    requires RingOk(floor, ring, tip, accepted) && op !in accepted && height < tip
    requires BlockTotal(accepted, height) + amount <= U128_MAX
    ensures RingOk(floor, BumpCells(ring, height, amount), tip, accepted[op := Deposit(height, amount)])
  {
    var bumped, more := BumpCells(ring, height, amount), accepted[op := Deposit(height, amount)];
    forall h: nat ensures KnownOrDeep(floor, bumped, tip, more, h) {
      SumInsert(accepted, op, Deposit(height, amount), AtHeight(h));
      assert KnownOrDeep(floor, ring, tip, accepted, h);
    }
  }

  lemma UnbumpKeepsRing(floor: nat, ring: Cells, tip: nat, accepted: Accepted, op: OutPoint, height: nat, amount: nat)
    requires RingOk(floor, ring, tip, accepted) && op in accepted && accepted[op] == Deposit(height, amount)
    ensures RingOk(floor, UnbumpCells(ring, height, amount), tip, accepted - {op})
  {
    var reverted := UnbumpCells(ring, height, amount);
    forall h: nat ensures KnownOrDeep(floor, reverted, tip, accepted - {op}, h) {
      SumRemove(accepted, op, AtHeight(h));
      assert KnownOrDeep(floor, ring, tip, accepted, h);
    }
  }

  /** Nothing can displace a block right below the tip. */
  lemma ResizeKeepsNewestBlock(ring: Cells, tip: nat, capacity: nat)
    requires WellSlotted(ring) && capacity > 0 && |ring| > 0 && tip > 0
    requires forall i :: 0 <= i < |ring| && ring[i].Some? ==> ring[i].value.height < tip
    requires Lookup(ring, tip - 1).Some?
    ensures Lookup(ResizedCells(ring, capacity), tip - 1).Some?
  {
    ResizeKeepsNewest(ring, capacity, Slot(tip - 1, capacity));
  }

  lemma OneTurnFurther(height: nat, capacity: nat)
    requires capacity > 0
    ensures Slot(height + capacity, capacity) == Slot(height, capacity)
  {
    var q := (height + capacity) / capacity - height / capacity;
    assert capacity + height % capacity - (height + capacity) % capacity == q * capacity;
    assert q <= 0 ==> q * capacity <= 0;
    assert q >= 2 ==> (q - 2) * capacity >= 0;
  }

  /** What took the place of a block in a ring of the least size takes it again in any ring of that size. */
  lemma ResizeKeepsDeepBlock(floor: nat, ring: Cells, tip: nat, accepted: Accepted, capacity: nat, height: nat)
    requires RingOk(floor, ring, tip, accepted) && floor <= capacity && tip == height + floor + 1
    requires Lookup(ring, tip - 1).Some?
    ensures KnownOrDeep(floor, ResizedCells(ring, capacity), tip, accepted, height)
  {
    hide Slot, BlockTotal;
    ResizeKeepsNewestBlock(ring, tip, capacity);
    OneTurnFurther(height, floor);
  }

  lemma ResizeKeepsBlock(floor: nat, ring: Cells, tip: nat, accepted: Accepted, capacity: nat, height: nat)
    requires RingOk(floor, ring, tip, accepted) && floor <= capacity && capacity != |ring|
    ensures KnownOrDeep(floor, ResizedCells(ring, capacity), tip, accepted, height)
  {
    hide Slot, BlockTotal;
    assert KnownOrDeep(floor, ring, tip, accepted, height);
    if Overtaken(ring, height) {
      SameSlotIsFarApart(height, ring[Slot(height, |ring|)].value.height, |ring|);
    }
    if tip == height + floor + 1 && Lookup(ring, tip - 1).Some? {
      ResizeKeepsDeepBlock(floor, ring, tip, accepted, capacity, height);
    } else {
      ResizeKeepsNewest(ring, capacity, Slot(height, capacity));
    }
  }

  lemma ResizeKeepsRing(floor: nat, ring: Cells, tip: nat, accepted: Accepted, capacity: nat)
    requires RingOk(floor, ring, tip, accepted) && floor <= capacity
    ensures RingOk(floor, ResizedCells(ring, capacity), tip, accepted)
  {
    if capacity != |ring| {
      var resized := ResizedCells(ring, capacity);
      ResizeKeepsSlots(ring, capacity);
      forall j | 0 <= j < capacity && resized[j].Some? ensures resized[j].value.height < tip {
        ResizeKeepsNewest(ring, capacity, j);
      }
      forall h: nat ensures KnownOrDeep(floor, resized, tip, accepted, h) {
        ResizeKeepsBlock(floor, ring, tip, accepted, capacity, h);
      }
    }
  }

  lemma TipKeepsRing(floor: nat, ring: Cells, tip: nat, accepted: Accepted, later: nat)
    requires RingOk(floor, ring, tip, accepted) && tip <= later
    ensures RingOk(floor, ring, later, accepted)
  {
    forall h: nat ensures KnownOrDeep(floor, ring, later, accepted, h) {
      assert KnownOrDeep(floor, ring, tip, accepted, h);
    }
  }

  // ----- what acceptance guarantees -----

  /** The contract's test, on the total it remembers. */
  ghost predicate PassesTest(tiers: Tiers, ring: Cells, tip: nat, height: nat, amount: nat, delta: nat)
    requires |ring| > 0 && tiers != map[]
  {
    ConfirmationsFor(tiers, CountedAmount(ring, height, amount)) + delta <= DepthAt(tip, height)
  }

  /** What the test is for: enough confirmations for the true total. */
  ghost predicate DeepEnough(tiers: Tiers, tip: nat, accepted: Accepted, height: nat, amount: nat, delta: nat)
    requires tiers != map[]
  {
    ConfirmationsFor(tiers, BlockTotal(accepted, height) + amount) + delta <= DepthAt(tip, height)
  }

  /** The least depth of a forgotten block, in a ring of `capacity` slots that never had fewer than `floor`. */
  function ForgottenDepth(floor: nat, capacity: nat): nat {
    if floor < capacity then floor + 2 else floor + 3
  }

  /**
   * A forgotten block lies as deep as the greatest tier and the delta ask for, or even the smallest deposit
   * needs the greatest tier.
   */
  ghost predicate DeltaFits(floor: nat, c: Config, delta: nat)
    requires c.tiers != map[]
  {
    || MaxTier(c.tiers) + delta <= ForgottenDepth(floor, CapacityFor(c))
    || ConfirmationsFor(c.tiers, 1) == MaxTier(c.tiers)
  }

  lemma TestSuffices(floor: nat, c: Config, ring: Cells, tip: nat, accepted: Accepted, height: nat, amount: nat,
                     delta: nat)
    requires RingOk(floor, ring, tip, accepted) && |ring| == CapacityFor(c)
    requires ValidConfig(c) && c.tiers != map[] && DeltaFits(floor, c, delta) && amount > 0
    requires PassesTest(c.tiers, ring, tip, height, amount, delta)
    ensures DeepEnough(c.tiers, tip, accepted, height, amount, delta)
  {
    hide CapacityFor, BlockTotal, Slot, WellSlotted;
    var total, counted := BlockTotal(accepted, height) + amount, CountedAmount(ring, height, amount);
    MaxTierBounds(c.tiers, total);
    MaxTierBounds(c.tiers, counted);
    ConfirmationsAreMonotone(c.tiers, 1, counted);
    assert KnownOrDeep(floor, ring, tip, accepted, height);
    if !Overtaken(ring, height) && Remembered(ring, height) == BlockTotal(accepted, height) {
      if total <= U128_MAX {
        assert counted == total;
      } else {
        ConfirmationsAreMonotone(c.tiers, U128_MAX, total);
      }
    }
  }

  // ----- over runs -----

  /** Without tiers no deposit is accepted. */
  ghost predicate RingInv(floor: nat, w: World) {
    && (if w.cfg.tiers == map[] then w.past.accepted == map[] && w.ring == EmptyCells(|w.ring|)
        else RingOk(floor, w.ring, w.chain.tip, w.past.accepted))
    && forall op :: op in w.past.accepted ==> op in w.coins.verified
  }

  ghost predicate HasFloor(floor: nat, c: Config) {
    c.tiers != map[] ==> floor <= CapacityFor(c)
  }

  /** The ring keeps at least `floor` slots, and no block's total leaves the range of amounts. */
  ghost predicate StepKeepsFloor(floor: nat, w: World, e: Event)
    requires Can(w, e)
  {
    && (e.OfLedger? && e.ledger.ConfigChange? ==> HasFloor(floor, e.ledger.cfg))
    && TotalsFit(Do(w, e).past.accepted)
  }

  ghost predicate StartsAbove(floor: nat, p: World -> bool) {
    forall u :: Init(u) && HasFloor(floor, u.cfg) ==> p(u)
  }

  ghost predicate StaysInAbove(floor: nat, p: World -> bool) {
    forall u, e :: p(u) && Can(u, e) && StepKeepsFloor(floor, u, e) ==> p(Do(u, e))
  }

  /**
   * w is reached with at least `floor` slots since there are tiers: it lies in every set of states that contains
   * every freshly deployed bridge of as many slots and that no step leaves which keeps as many. A ring for any
   * tiers has seven slots, so all runs keep a floor of seven as long as block totals stay in range.
   */
  ghost predicate ReachableAbove(floor: nat, w: World) {
    forall p: World -> bool :: StartsAbove(floor, p) && StaysInAbove(floor, p) ==> p(w)
  }

  lemma TxStepLeavesRing(w: World, e: TxEvent)
    requires CanTx(w, e)
    ensures var v := DoTx(w, e);
      && v.ring == w.ring && v.cfg == w.cfg && v.chain == w.chain
      && v.past.accepted == w.past.accepted && v.coins.verified == w.coins.verified
  {
    hide CanWithdraw, CanManage, CanAskSignature, CanSignInput, CanSignAwayOrphan, CanWithdrawRbf, CanCancelWithdraw,
         CanManageRbf, CanCancelManage, CanClear, CanAskSpend, CanStartBurn, CanExecBurn, CanFailBurn, CanSettle,
         WithChange, Consume, AllSigned, AddSignId, DropIds, DropSignId, DropVerifyId, Collect, Release, ShiftToReserve,
         FreshId, BurnOf;
  }

  lemma TxStepKeepsRing(floor: nat, w: World, e: TxEvent)
    requires RingInv(floor, w) && CanTx(w, e)
    ensures RingInv(floor, DoTx(w, e))
  {
    hide RingOk, CanTx, DoTx;
    TxStepLeavesRing(w, e);
  }

  lemma AcceptDepositKeepsRing(floor: nat, w: World, d: DepositClaim)
    requires RingInv(floor, w) && CanAcceptDeposit(w, d) && TiersInRange(w.cfg.tiers)
    requires TotalsFit(AcceptDeposit(w, d).past.accepted)
    ensures RingInv(floor, AcceptDeposit(w, d))
  {
    hide RingOk, BumpCells;
    var tier := ConfirmationsAreATier(w.cfg.tiers, CountedAmount(w.ring, w.chain.confirmed[d.op.tx], ValueOf(d.op)));
    var height, value := w.chain.confirmed[d.op.tx], ValueOf(d.op);
    var after := AcceptDeposit(w, d).past.accepted;
    SumInsert(w.past.accepted, d.op, Deposit(height, value), AtHeight(height));
    assert BlockTotal(after, height) <= U128_MAX;
    BumpKeepsRing(floor, w.ring, w.chain.tip, w.past.accepted, d.op, height, value);
  }

  lemma FinishMintKeepsRing(floor: nat, w: World, id: nat)
    requires RingInv(floor, w) && CanFinishMint(w, id) && MintsOk(w.flight.mints, w.coins, w.past)
    ensures RingInv(floor, FinishMint(w, id))
  {
    hide RingOk, UnbumpCells;
    var m := w.flight.mints[id];
    assert MintOk(m, w.coins, w.past);
    assert m.op in w.past.accepted;
    UnbumpKeepsRing(floor, w.ring, w.chain.tip, w.past.accepted, m.op, m.height, m.value);
  }

  lemma DepositStepKeepsRing(floor: nat, w: World, e: DepositEvent)
    requires RingInv(floor, w) && CanDeposit(w, e)
    requires TiersInRange(w.cfg.tiers) && MintsOk(w.flight.mints, w.coins, w.past)
    requires TotalsFit(DoDeposit(w, e).past.accepted)
    ensures RingInv(floor, DoDeposit(w, e))
  {
    hide RingOk, CanAcceptDeposit, AcceptDeposit, FinishMint, MintsOk, TiersInRange, TotalsFit, CanExecMint,
         CanRequestRefund;
    match e
    case DepositAcceptance(d) => AcceptDepositKeepsRing(floor, w, d);
    case MintFinish(id) => FinishMintKeepsRing(floor, w, id);
    case _ =>
  }

  lemma ConfigureKeepsRing(floor: nat, w: World, c: Config)
    requires RingInv(floor, w) && CanConfigure(w, c) && floor > 0 && HasFloor(floor, c) && |w.ring| > 0
    ensures RingInv(floor, Configure(w, c))
  {
    hide RingOk, CapacityFor, ResizedCells;
    if w.cfg.tiers == map[] {
      EmptyRingStaysEmpty(|w.ring|, CapacityFor(c));
      if c.tiers != map[] {
        EmptyRingOk(floor, CapacityFor(c), w.chain.tip);
      }
    } else {
      ResizeKeepsRing(floor, w.ring, w.chain.tip, w.past.accepted, CapacityFor(c));
    }
  }

  lemma LedgerStepKeepsRing(floor: nat, w: World, e: LedgerEvent)
    requires RingInv(floor, w) && CanLedger(w, e) && floor > 0 && |w.ring| > 0
    requires e.ConfigChange? ==> HasFloor(floor, e.cfg)
    ensures RingInv(floor, DoLedger(w, e))
  {
    hide RingOk, CanConfirm, CanConfigure, Configure, HasFloor;
    match e
    case ConfigChange(c) => ConfigureKeepsRing(floor, w, c);
    case TipAdvance(tip) =>
      if w.cfg.tiers != map[] {
        TipKeepsRing(floor, w.ring, w.chain.tip, w.past.accepted, tip);
      }
    case _ =>
  }

  lemma StepKeepsRing(floor: nat, w: World, e: Event)
    requires Inv(w) && RingInv(floor, w) && floor > 0 && Can(w, e) && StepKeepsFloor(floor, w, e)
    ensures Inv(Do(w, e)) && RingInv(floor, Do(w, e))
  {
    hide RingInv, CanTx, CanDeposit, CanLedger, DoTx, DoDeposit, DoLedger, TotalsFit;
    StepKeepsInv(w, e);
    match e
    case OfTx(t) => TxStepKeepsRing(floor, w, t);
    case OfDeposit(d) => DepositStepKeepsRing(floor, w, d);
    case OfLedger(l) => LedgerStepKeepsRing(floor, w, l);
  }

  /** The ring knows the total of every block that is not deep, in every state reached with `floor` slots. */
  lemma ReachedStatesKeepRing(floor: nat, w: World)
    requires floor > 0 && ReachableAbove(floor, w)
    ensures Inv(w) && RingInv(floor, w)
  {
    hide Inv, RingOk, Can, Do, StepKeepsFloor;
    var p := (u: World) => Inv(u) && RingInv(floor, u);
    forall u | Init(u) && HasFloor(floor, u.cfg) ensures p(u) {
      InitHolds(u);
      if u.cfg.tiers != map[] {
        EmptyRingOk(floor, CapacityFor(u.cfg), u.chain.tip);
      }
    }
    forall u, e | p(u) && Can(u, e) && StepKeepsFloor(floor, u, e) ensures p(Do(u, e)) {
      StepKeepsRing(floor, u, e);
    }
    assert StartsAbove(floor, p) && StaysInAbove(floor, p);
    assert p(w);
  }

  /** The deltas of the current configuration are always small enough for a ring that was never smaller. */
  lemma CurrentDeltasFit(c: Config, delta: nat)
    requires c.tiers != map[] && delta in {0, c.confirmationsDelta, c.extraMsgConfirmationsDelta}
    ensures DeltaFits(CapacityFor(c), c, delta)
  {
  }

  /** The true total of the deposit's block with the deposit itself. */
  ghost function TotalWith(w: World, d: DepositClaim): nat
    requires Exists(d.op) && d.op.tx in w.chain.confirmed
  {
    BlockTotal(w.past.accepted, w.chain.confirmed[d.op.tx]) + ValueOf(d.op)
  }

  /** The deposit is as deep as the current tier of its block's true total plus its delta asks. */
  ghost predicate IsDeep(w: World, d: DepositClaim)
    requires Exists(d.op) && d.op.tx in w.chain.confirmed && w.cfg.tiers != map[]
  {
    ConfirmationsFor(w.cfg.tiers, TotalWith(w, d)) + d.delta <= Depth(w.chain, w.chain.confirmed[d.op.tx])
  }

  /** In every state reached with at least `floor` slots, a deposit accepted with a delta that fits is deep. */
  lemma AcceptedDepositsAreDeep(floor: nat, w: World, d: DepositClaim)
    requires floor > 0 && ReachableAbove(floor, w) && CanAcceptDeposit(w, d) && DeltaFits(floor, w.cfg, d.delta)
    ensures IsDeep(w, d)
  {
    hide Inv, ReachableAbove, RingOk, DeltaFits;
    ReachedStatesKeepRing(floor, w);
    InvariantConfigures(w);
    InvariantKnows(w, d);
    var height := w.chain.confirmed[d.op.tx];
    TestSuffices(floor, w.cfg, w.ring, w.chain.tip, w.past.accepted, height, ValueOf(d.op), d.delta);
  }

  lemma InvariantConfigures(w: World)
    requires Inv(w)
    ensures ConfigOk(w)
  {
  }

  lemma InvariantKnows(w: World, d: DepositClaim)
    requires Inv(w) && DepositCheck(d) in w.flight.asked
    ensures Exists(d.op) && 0 < ValueOf(d.op)
  {
    assert QuestionOk(DepositCheck(d), w.past.listed);
  }
}
