/** Exactly which steps make supply, satoshis and balance differ, and by how much. */
module Surpluses {
  import opened Bitcoin
  import opened BlockAmounts
  import opened Psbt
  import opened BridgeState
  import opened Effects
  import opened Steps
  import opened Runs
  import opened Terms
  import opened RecordOrigins

  /** nBTC given to the bridge: a donation, or what the recipient of a safe mint left of it. */
  function Donated(w: World, e: Event): nat {
    if e.OfLedger? && e.ledger.Donation? then e.ledger.amount
    else if e.OfDeposit? && e.deposit.MintAnswer? && e.deposit.minted.Minted?
            && e.deposit.id in w.flight.mints && w.flight.mints[e.deposit.id].safe then e.deposit.kept
    else 0
  }

  function Destroyed(e: Event): nat {
    if e.OfLedger? && e.ledger.Destruction? then e.ledger.amount else 0
  }

  /** A coin is registered without any nBTC for it only when the token contract failed to do a safe mint. */
  function Unminted(w: World, e: Event): nat {
    if e.OfDeposit? && e.deposit.MintFinish? && e.deposit.id in w.flight.mints
       && w.flight.mints[e.deposit.id].safe && w.flight.mints[e.deposit.id].result.NothingMinted?
    then w.flight.mints[e.deposit.id].value else 0
  }

  /** Burned nBTC comes back as a coin only when a withdrawal pays the bridge's own change address. */
  function PaidToSelf(w: World, e: Event): nat {
    if e.OfTx? && e.tx.BurnFinish? && e.tx.id in w.flight.burns && w.flight.burns[e.tx.id].tx in w.book.infos then
      var t := w.flight.burns[e.tx.id].tx;
      var i := w.book.infos[t];
      if i.purpose.Withdraw? && !IsCancelledWithdrawal(i) && PaysOnlyChange(t.outputs) then i.received else 0
    else 0
  }

  lemma {:induction false} ThePaymentIsPaid(outputs: seq<TxOut>, k: nat, target: Script, value: nat)
    requires k < |outputs| && IsThePayment(outputs, k, target, value)
    ensures PaidTo(outputs, target) == value
  {
    var before, last := outputs[..|outputs| - 1], outputs[|outputs| - 1];
    assert forall j :: 0 <= j < |before| ==> outputs[j] == before[j];
    if k < |before| {
      assert last.script != target;
      ThePaymentIsPaid(before, k, target, value);
    } else {
      NotPaid(before, target);
    }
  }

  lemma {:induction false} NotPaid(outputs: seq<TxOut>, script: Script)
    requires forall j :: 0 <= j < |outputs| ==> outputs[j].script != script
    ensures PaidTo(outputs, script) == 0
  {
    if outputs == [] {
    } else {
      NotPaid(outputs[..|outputs| - 1], script);
    }
  }

  lemma WithdrawalOverpays(t: Tx, i: Info, target: Script)
    requires PaysGas(t, i) && i.burnAmount == i.received + i.gasFee && PaysOnce(t.outputs, target, i.received)
    ensures Overpaid(t, i) == if PaysOnlyChange(t.outputs) then i.received else 0
  {
    var k :| 0 <= k < |t.outputs| && IsThePayment(t.outputs, k, target, i.received);
    ThePaymentIsPaid(t.outputs, k, target, i.received);
    if target == ChangeScript {
      AllChangePaysChange(t.outputs);
    } else {
      OutputsSplit(t.outputs, target);
    }
  }

  lemma ReturnOverpaysNothing(t: Tx, i: Info)
    requires PaysGas(t, i) && PaysOnlyChange(t.outputs) && i.burnAmount == i.gasFee
    ensures Overpaid(t, i) == 0
  {
    AllChangePaysChange(t.outputs);
  }

  lemma RecordOverpays(w: World, t: Tx)
    requires Reachable(w) && t in w.book.infos && !w.book.infos[t].purpose.Refund?
    ensures var i := w.book.infos[t];
      Overpaid(t, i) == if i.purpose.Withdraw? && !IsCancelledWithdrawal(i) && PaysOnlyChange(t.outputs) then i.received
                        else 0
  {
    hide Reachable, PaysGas, PaysOnce, PaysOnlyChange, Overpaid;
    RecordsMatchOutputs(w, t);
    var i := w.book.infos[t];
    if i.purpose.Withdraw? && !IsCancelledWithdrawal(i) {
      var target :| PaysOnce(t.outputs, target, i.received);
      WithdrawalOverpays(t, i, target);
    } else {
      ReturnOverpaysNothing(t, i);
    }
  }

  lemma TxStepSurpluses(w: World, e: TxEvent)
    requires Reachable(w) && CanTx(w, e)
    ensures var p, q := w.past, DoTx(w, e).past;
      && q.donated == p.donated && q.destroyed == p.destroyed && q.unminted == p.unminted
      && q.paidToSelf == p.paidToSelf + PaidToSelf(w, OfTx(e))
  {
    hide Reachable, CanWithdraw, CanManage, CanAskSignature, CanSignInput, CanSignAwayOrphan, CanWithdrawRbf,
         CanCancelWithdraw, CanManageRbf, CanCancelManage, CanClear, CanAskSpend, CanStartBurn, CanExecBurn, CanFailBurn,
         AllSigned, AddSignId, DropIds, DropSignId, DropVerifyId, FreshId, BurnOf, WithChange, Consume, Collect,
         Release, ShiftToReserve, Overpaid, PaysOnlyChange;
    if e.BurnFinish? {
      RecordOverpays(w, w.flight.burns[e.id].tx);
    }
  }

  lemma MintAnswerSurpluses(w: World, id: nat, result: MintResult, kept: nat)
    requires CanExecMint(w, id, result, kept)
    ensures var q := ExecMint(w, id, result, kept).past;
      q == w.past.(donated := w.past.donated + Donated(w, OfDeposit(MintAnswer(id, result, kept))))
  {
  }

  lemma MintFinishSurpluses(w: World, id: nat)
    requires CanFinishMint(w, id)
    ensures var p, q := w.past, FinishMint(w, id).past;
      && q == p.(accepted := q.accepted, deposited := q.deposited, unminted := q.unminted)
      && q.unminted == p.unminted + Unminted(w, OfDeposit(MintFinish(id)))
  {
    hide UnbumpCells, WithAccount, FreshId, Collect;
  }

  lemma DepositStepSurpluses(w: World, e: DepositEvent)
    requires CanDeposit(w, e)
    ensures var p, q := w.past, DoDeposit(w, e).past;
      && q.destroyed == p.destroyed && q.paidToSelf == p.paidToSelf
      && q.donated == p.donated + Donated(w, OfDeposit(e))
      && q.unminted == p.unminted + Unminted(w, OfDeposit(e))
  {
    hide CanAskDeposit, CanAcceptDeposit, CanExecSafeBurn, CanAskRefund, CanRequestRefund, CanRejectRefund,
         CanExecuteRefund, CanFinishRefund, CanRemoveRefund, DropIds, DropVerifyId, AddSignId, BumpCells, FreshId,
         Consume, CanExecMint, ExecMint, CanFinishMint, FinishMint;
    if e.MintAnswer? {
      MintAnswerSurpluses(w, e.id, e.minted, e.kept);
    } else if e.MintFinish? {
      MintFinishSurpluses(w, e.id);
    }
  }

  lemma LedgerStepSurpluses(w: World, e: LedgerEvent)
    requires CanLedger(w, e)
    ensures var p, q := w.past, DoLedger(w, e).past;
      && q.unminted == p.unminted && q.paidToSelf == p.paidToSelf
      && q.donated == p.donated + Donated(w, OfLedger(e)) && q.destroyed == p.destroyed + Destroyed(OfLedger(e))
  {
    hide CanConfigure, CanConfirm, FreshId, WithAccount, ResizedCells;
  }

  /** The four recorded surpluses grow in four situations only, and by exactly these amounts. */
  lemma SurplusesAreExact(w: World, e: Event)
    requires Reachable(w) && Can(w, e)
    ensures var p, q := w.past, Do(w, e).past;
      && q.donated == p.donated + Donated(w, e)
      && q.destroyed == p.destroyed + Destroyed(e)
      && q.unminted == p.unminted + Unminted(w, e)
      && q.paidToSelf == p.paidToSelf + PaidToSelf(w, e)
  {
    hide Reachable, CanTx, CanDeposit, CanLedger, DoTx, DoDeposit, DoLedger, PaysOnlyChange;
    match e
    case OfTx(t) => TxStepSurpluses(w, t);
    case OfDeposit(d) => DepositStepSurpluses(w, d);
    case OfLedger(l) => LedgerStepSurpluses(w, l);
  }
}
