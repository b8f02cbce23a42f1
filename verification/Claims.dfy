/** What each account is owed, in transfers not yet made and in lost and found, and how it changes. */
module Claims {
  import opened Wrappers
  import opened Sums
  import opened BridgeState
  import opened Effects
  import opened Steps
  import opened Invariants
  import opened Runs

  function UnpaidTo(a: AccountId): Transfer -> nat {
    (x: Transfer) => if x.to == Some(a) && !x.result.Succeeded? then x.amount else 0
  }

  function Lost(lostFound: map<AccountId, nat>, a: AccountId): nat {
    if a in lostFound then lostFound[a] else 0
  }

  ghost function Owed(w: World, a: AccountId): nat {
    SumBy(w.flight.transfers, UnpaidTo(a)) + Lost(w.lostFound, a)
  }

  /** What the token contract pays to the account in one step. */
  function PaidIn(w: World, e: Event, a: AccountId): nat {
    if e.OfLedger? && e.ledger.TransferAnswer? && e.ledger.ok && e.ledger.id in w.flight.transfers
       && w.flight.transfers[e.ledger.id].to == Some(a)
    then w.flight.transfers[e.ledger.id].amount else 0
  }

  /**
   * What one step makes the bridge owe the account: when a cancellation of its withdrawal is settled, what is
   * left of the nBTC it handed over after the bridge fee and the burned gas.
   */
  function ReturnedIn(w: World, e: Event, a: AccountId): nat {
    if e.OfTx? && e.tx.BurnFinish? && e.tx.id in w.flight.burns && w.flight.burns[e.tx.id].tx in w.book.infos then
      var i := w.book.infos[w.flight.burns[e.tx.id].tx];
      if i.account == a && i.purpose.Withdraw? && i.role.Replacement? && i.role.cancel
         && i.withdrawFee + i.burnAmount < i.transferAmount
      then i.transferAmount - i.withdrawFee - i.burnAmount else 0
    else 0
  }

  lemma NewTransferIsOwed(transfers: map<nat, Transfer>, x: Transfer, a: AccountId)
    ensures SumBy(transfers[FreshId(transfers) := x], UnpaidTo(a)) == SumBy(transfers, UnpaidTo(a)) + UnpaidTo(a)(x)
  {
    SumInsert(transfers, FreshId(transfers), x, UnpaidTo(a));
  }

  lemma OtherTxStepsLeaveTransfers(w: World, e: TxEvent)
    requires CanTx(w, e) && !e.BurnFinish?
    ensures DoTx(w, e).flight.transfers == w.flight.transfers && DoTx(w, e).lostFound == w.lostFound
    ensures DoTx(w, e).book.limits == w.book.limits
  {
    hide CanWithdraw, CanManage, CanAskSignature, CanSignInput, CanSignAwayOrphan, CanWithdrawRbf, CanCancelWithdraw,
         CanManageRbf, CanCancelManage, CanClear, CanAskSpend, CanStartBurn, CanExecBurn, CanFailBurn, CanSettle,
         AllSigned, AddSignId, DropIds, DropSignId, FreshId, BurnOf, FinishBurn;
    if e.Withdrawal? || e.Management? {
      hide WithdrawRbf, CancelWithdraw, ManageRbf, CancelManage, Ask, Sign, Drop, Clear, StartBurn, ExecBurn, FailBurn;
    } else if AddsRecord(e) {
      hide WithdrawRequest, Manage, Ask, Sign, Drop, Clear, StartBurn, ExecBurn, FailBurn;
    } else {
      hide WithdrawRequest, Manage, WithdrawRbf, CancelWithdraw, ManageRbf, CancelManage;
    }
  }

  lemma DepositStepsLeaveTransfers(w: World, e: DepositEvent)
    requires CanDeposit(w, e)
    ensures DoDeposit(w, e).flight.transfers == w.flight.transfers && DoDeposit(w, e).lostFound == w.lostFound
  {
    hide CanAskDeposit, CanAcceptDeposit, CanExecMint, CanFinishMint, CanExecSafeBurn, CanAskRefund, CanRequestRefund,
         CanRejectRefund, CanExecuteRefund, CanFinishRefund, CanRemoveRefund, FreshId, DropIds, DropVerifyId, AddSignId;
  }

  lemma SettlementReturns(w: World, id: nat, a: AccountId)
    requires CanFinishBurn(w, id)
    ensures Owed(FinishBurn(w, id), a) == Owed(w, a) + ReturnedIn(w, OfTx(BurnFinish(id)), a)
  {
    hide WithChange, Consume, Collect, Release, DropVerifyId, Overpaid;
    var i := w.book.infos[w.flight.burns[id].tx];
    NewTransferIsOwed(w.flight.transfers, Transfer(Some(i.account), RefundDue(i), Waiting), a);
  }

  lemma LedgerStepMovesClaims(w: World, e: LedgerEvent, a: AccountId)
    requires CanLedger(w, e)
    ensures Owed(DoLedger(w, e), a) + PaidIn(w, OfLedger(e), a) == Owed(w, a)
  {
    hide CanConfigure, CanConfirm, SumBy;
    match e
    case FeeWithdrawal(amount) => NewTransferIsOwed(w.flight.transfers, Transfer(None, amount, Waiting), a);
    case LostFoundClaim(b) =>
      NewTransferIsOwed(w.flight.transfers, Transfer(Some(b), w.lostFound[b], Waiting), a);
    case TransferAnswer(id, ok) =>
      var x := w.flight.transfers[id].(result := if ok then Succeeded else Failed);
      SumInsert(w.flight.transfers, id, x, UnpaidTo(a));
    case TransferFinish(id) => SumRemove(w.flight.transfers, id, UnpaidTo(a));
    case _ =>
  }

  lemma TxStepMovesClaims(w: World, e: TxEvent, a: AccountId)
    requires CanTx(w, e)
    ensures Owed(DoTx(w, e), a) == Owed(w, a) + ReturnedIn(w, OfTx(e), a)
  {
    hide SumBy, CanWithdraw, CanManage, CanAskSignature, CanSignInput, CanSignAwayOrphan, CanWithdrawRbf,
         CanCancelWithdraw, CanManageRbf, CanCancelManage, CanClear, CanAskSpend, CanStartBurn, CanExecBurn, CanFinishBurn, CanFailBurn,
         FinishBurn;
    if e.BurnFinish? {
      SettlementReturns(w, e.id, a);
    } else {
      OtherTxStepsLeaveTransfers(w, e);
    }
  }

  /**
   * Every step keeps what an account is owed, but for two: a payment by the token contract lowers it by what is
   * paid, and the settlement of a cancelled withdrawal raises it by the rest. Nothing is lost, moved to another
   * account, or owed for any other reason; failed payments and claims of lost nBTC change nothing.
   */
  lemma ClaimsAreKept(w: World, e: Event, a: AccountId)
    requires Can(w, e)
    ensures Owed(Do(w, e), a) + PaidIn(w, e, a) == Owed(w, a) + ReturnedIn(w, e, a)
  {
    hide CanTx, CanDeposit, CanLedger, DoTx, DoDeposit, DoLedger, SumBy;
    match e
    case OfTx(t) => TxStepMovesClaims(w, t, a);
    case OfDeposit(d) => DepositStepsLeaveTransfers(w, d);
    case OfLedger(l) => LedgerStepMovesClaims(w, l, a);
  }

  ghost function PaidAlong(w: World, events: seq<Event>, a: AccountId): nat
    requires CanRun(w, events)
  {
    if events == [] then 0
    else
      var before := events[..|events| - 1];
      PaidAlong(w, before, a) + PaidIn(Run(w, before), events[|events| - 1], a)
  }

  ghost function ReturnedAlong(w: World, events: seq<Event>, a: AccountId): nat
    requires CanRun(w, events)
  {
    if events == [] then 0
    else
      var before := events[..|events| - 1];
      ReturnedAlong(w, before, a) + ReturnedIn(Run(w, before), events[|events| - 1], a)
  }

  /** Over a whole run: what an account got and is still owed is what it was owed and what was returned to it. */
  lemma {:induction false} ClaimsAddUp(w: World, events: seq<Event>, a: AccountId)
    requires CanRun(w, events)
    ensures Owed(Run(w, events), a) + PaidAlong(w, events, a) == Owed(w, a) + ReturnedAlong(w, events, a)
    decreases |events|
  {
    hide Can, Do, Owed, PaidIn, ReturnedIn;
    if events == [] {
    } else {
      var before := events[..|events| - 1];
      ClaimsAddUp(w, before, a);
      ClaimsAreKept(Run(w, before), events[|events| - 1], a);
    }
  }

  // ----- the claimed protocol fee -----

  function FeePaidIn(w: World, e: LedgerEvent): nat {
    if e.TransferAnswer? && e.ok && e.id in w.flight.transfers && w.flight.transfers[e.id].to.None?
    then w.flight.transfers[e.id].amount else 0
  }

  /** The claimed counter is what was paid out and what may still be: it moves past the unpaid only by a payment. */
  lemma ClaimedFeeIsPaid(w: World, e: LedgerEvent)
    requires CanLedger(w, e)
    ensures var v := DoLedger(w, e);
      v.fees.claimed + SumBy(w.flight.transfers, FeeClaim)
      == w.fees.claimed + SumBy(v.flight.transfers, FeeClaim) + FeePaidIn(w, e)
  {
    hide CanConfigure, CanConfirm, SumBy;
    match e
    case FeeWithdrawal(amount) =>
      SumInsert(w.flight.transfers, FreshId(w.flight.transfers), Transfer(None, amount, Waiting), FeeClaim);
    case LostFoundClaim(b) =>
      var x := Transfer(Some(b), w.lostFound[b], Waiting);
      SumInsert(w.flight.transfers, FreshId(w.flight.transfers), x, FeeClaim);
    case TransferAnswer(id, ok) =>
      var x := w.flight.transfers[id].(result := if ok then Succeeded else Failed);
      SumInsert(w.flight.transfers, id, x, FeeClaim);
    case TransferFinish(id) => SumRemove(w.flight.transfers, id, FeeClaim);
    case _ =>
  }
}
