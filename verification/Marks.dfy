/** What the mark on a deposit means: it is being minted, it is registered, or it is refunded. */
module Marks {
  import opened Bitcoin
  import opened BlockAmounts
  import opened BridgeState
  import opened Effects
  import opened Steps
  import opened Invariants
  import opened Runs

  ghost predicate MarksExplained(w: World) {
    && (forall op :: op in w.coins.verified ==>
          op in w.coins.inProgress || op in w.past.deposited || op in w.past.refunded)
    && (forall k :: k in w.coins.refunds && !w.coins.refunds[k].executed ==> k !in w.past.refunded)
  }

  lemma TxStepLeavesMarks(w: World, e: TxEvent)
    requires CanTx(w, e)
    ensures var v := DoTx(w, e);
      && v.coins == w.coins.(utxos := v.coins.utxos)
      && v.past.deposited == w.past.deposited && v.past.refunded == w.past.refunded
  {
    hide CanWithdraw, CanManage, CanAskSignature, CanSignInput, CanSignAwayOrphan, CanWithdrawRbf, CanCancelWithdraw,
         CanManageRbf, CanCancelManage, CanClear, CanAskSpend, CanStartBurn, CanExecBurn, CanFailBurn, CanSettle,
         AllSigned, AddSignId, DropIds, DropSignId, DropVerifyId, FreshId, BurnOf, WithChange, Consume, Collect,
         Release, ShiftToReserve;
  }

  lemma DepositStepExplains(w: World, e: DepositEvent)
    requires CanDeposit(w, e) && MarksExplained(w)
    requires RefundsOk(w.coins, w.past) && MintsOk(w.flight.mints, w.coins, w.past)
    ensures MarksExplained(DoDeposit(w, e))
  {
    hide CanAskDeposit, EnoughConfirmations, CanExecMint, CanExecSafeBurn, CanAskRefund, CanFinishRefund,
         CanRemoveRefund, DropIds, DropVerifyId, AddSignId, BumpCells, UnbumpCells, WithAccount, FreshId, HasSignCapacity,
         Collect, MintsMatch;
    if e.MintFinish? {
      assert MintOk(w.flight.mints[e.id], w.coins, w.past);
    }
  }

  lemma LedgerStepLeavesMarks(w: World, e: LedgerEvent)
    requires CanLedger(w, e)
    ensures var v := DoLedger(w, e);
      v.coins == w.coins && v.past.deposited == w.past.deposited && v.past.refunded == w.past.refunded
  {
    hide CanConfigure, CanConfirm, FreshId, WithAccount, ResizedCells;
  }

  lemma StepExplains(w: World, e: Event)
    requires Inv(w) && MarksExplained(w) && Can(w, e)
    ensures MarksExplained(Do(w, e))
  {
    hide CanTx, CanDeposit, CanLedger, DoTx, DoDeposit, DoLedger, RefundsOk, MintsOk;
    match e
    case OfTx(t) => TxStepLeavesMarks(w, t);
    case OfDeposit(d) => DepositStepExplains(w, d);
    case OfLedger(l) => LedgerStepLeavesMarks(w, l);
  }

  lemma InitExplains(w: World)
    requires Init(w)
    ensures MarksExplained(w)
  {
  }

  /** A marked deposit is being minted, or registered, or refunded; and what is refunded was executed. */
  lemma MarksMeanThis(w: World)
    requires Reachable(w)
    ensures MarksExplained(w)
  {
    hide Can, Do, MarksExplained, Init, Inv;
    var p := (u: World) => Inv(u) && MarksExplained(u);
    forall u | Init(u) ensures p(u) {
      InitHolds(u);
      InitExplains(u);
    }
    forall u, e | p(u) && Can(u, e) ensures p(Do(u, e)) {
      StepKeepsInv(u, e);
      StepExplains(u, e);
    }
    assert StartsIn(p) && StaysIn(p);
    assert p(w);
  }

  /**
   * Without a role a refund request can be rejected exactly when its deposit is registered, so nobody can get rid of
   * somebody else's request before the deposit itself is completed.
   */
  lemma RejectionMeansRegistered(w: World, k: OutPoint)
    requires Reachable(w) && k in w.coins.refunds && !w.coins.refunds[k].executed
    ensures CanRejectRefund(w, k, false) <==> k in w.past.deposited
    ensures CanRejectRefund(w, k, true)
  {
    hide Reachable, ConfigOk, FeesOk, ReserveOk, InfosOk, FamiliesOk, IndexOk, OrphansOk, AccountsOk, BurnsOk, PlacesOk,
         ListedOk, RootsListed, LiveOk, ConsumersSpend, MintsOk, ChainOk, AskedOk, Backed, Covered;
    ReachableKeepsInv(w);
    MarksMeanThis(w);
  }

  /** The record of a refund can be removed only when another transaction has spent the deposit. */
  lemma RemovedRefundWasOvertaken(w: World, t: Tx)
    requires Reachable(w) && CanRemoveRefund(w, t)
    ensures t.inputs[0] in w.past.consumed && t !in w.past.finalized
  {
    hide Reachable, ConfigOk, FeesOk, ReserveOk, InfosOk, FamiliesOk, IndexOk, OrphansOk, AccountsOk, BurnsOk, PlacesOk,
         RootsListed, ConsumersSpend, MintsOk, ChainOk, AskedOk, Backed, Covered;
    ReachableKeepsInv(w);
    assert t.inputs[0] in t.inputs;
  }
}
