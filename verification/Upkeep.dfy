/** No payment is empty, no limit shuts an account out, and a recipient of nBTC has an account. */
module Upkeep {
  import opened Bitcoin
  import opened BlockAmounts
  import opened Configuration
  import opened BridgeState
  import opened Effects
  import opened Steps
  import opened Invariants
  import opened Runs
  import opened Terms
  import opened Origins
  import opened Claims
  import opened Guards

  ghost predicate NothingEmpty(w: World) {
    && (forall id :: id in w.flight.transfers ==> w.flight.transfers[id].amount > 0)
    && (forall a :: a in w.lostFound ==> w.lostFound[a] > 0)
    && (forall a :: a in w.book.limits ==> w.book.limits[a] > 0)
  }

  lemma SettlementKeepsUp(w: World, id: nat)
    requires CanFinishBurn(w, id) && NothingEmpty(w)
    ensures NothingEmpty(FinishBurn(w, id))
  {
    hide WithChange, Consume, Collect, Release, DropVerifyId, Overpaid;
  }

  lemma TxStepKeepsUp(w: World, e: TxEvent)
    requires CanTx(w, e) && NothingEmpty(w)
    ensures NothingEmpty(DoTx(w, e))
  {
    if e.BurnFinish? {
      hide NothingEmpty, CanFinishBurn, FinishBurn;
      SettlementKeepsUp(w, e.id);
    } else {
      hide CanTx, DoTx;
      OtherTxStepsLeaveTransfers(w, e);
    }
  }

  lemma DepositStepLeavesPayments(w: World, e: DepositEvent)
    requires CanDeposit(w, e)
    ensures var v := DoDeposit(w, e);
      v.flight.transfers == w.flight.transfers && v.lostFound == w.lostFound && v.book.limits == w.book.limits
  {
    hide CanAskDeposit, CanAcceptDeposit, CanExecMint, CanExecSafeBurn, CanAskRefund, CanRequestRefund, CanRejectRefund,
         CanExecuteRefund, CanFinishRefund, CanRemoveRefund, DropIds, DropVerifyId, AddSignId, BumpCells, UnbumpCells,
         WithAccount, FreshId, Collect, Consume;
  }

  lemma LedgerStepKeepsUp(w: World, e: LedgerEvent)
    requires CanLedger(w, e) && NothingEmpty(w)
    ensures NothingEmpty(DoLedger(w, e))
  {
    hide CanConfigure, CanConfirm, WithAccount, ResizedCells;
  }

  lemma StepKeepsUp(w: World, e: Event)
    requires NothingEmpty(w) && Can(w, e)
    ensures NothingEmpty(Do(w, e))
  {
    hide CanTx, CanDeposit, CanLedger, DoTx, DoDeposit, DoLedger;
    match e
    case OfTx(t) => TxStepKeepsUp(w, t);
    case OfDeposit(d) => DepositStepLeavesPayments(w, d);
    case OfLedger(l) => LedgerStepKeepsUp(w, l);
  }

  lemma InitKeepsUp(w: World)
    requires Init(w)
    ensures NothingEmpty(w)
  {
  }

  /** Every transfer, every entry of lost and found, and every limit of an account is positive. */
  lemma NothingIsEmpty(w: World)
    requires Reachable(w)
    ensures NothingEmpty(w)
  {
    hide Can, Do, NothingEmpty, Init;
    var p := (u: World) => NothingEmpty(u);
    forall u | Init(u) ensures p(u) {
      InitKeepsUp(u);
    }
    forall u, e | p(u) && Can(u, e) ensures p(Do(u, e)) {
      StepKeepsUp(u, e);
    }
    assert StartsIn(p) && StaysIn(p);
    assert p(w);
  }

  /** Every mint under way gives its recipient something, however large the fee of a standard deposit is. */
  lemma MintsGiveSomething(w: World, id: nat)
    requires Reachable(w) && id in w.flight.mints
    ensures w.flight.mints[id].mintAmount > 0
  {
    hide Reachable, Reaches, Can, Inv, DepositTerms, ValidConfig;
    MintsHaveTheirTerms(w);
    assert MintKnown(w, w.flight.mints[id]);
    var u, d :| DepositGives(u, d, w, w.flight.mints[id]);
    ConfigIsValid(u);
    TermsLeaveSomething(u.cfg, d);
  }

  lemma TermsLeaveSomething(c: Config, d: DepositClaim)
    requires ValidConfig(c) && DepositTerms(c, d)
    ensures d.mintAmount > 0
  {
    RatesAreFairExactly(c.depositFee);
    DepositsLeaveSomethingExactly(c);
    hide RatesAreFair, IsProtocolPart;
    if !d.safe {
      ChargedFeeIsDue(c.depositFee, ValueOf(d.op));
      FeeDueIsUnique(c.depositFee, ValueOf(d.op), d.protocolFee + d.relayerFee, c.depositFee.GetFee(ValueOf(d.op)));
    }
  }

  /**
   * The callback of a mint: it registers the deposit as a coin, and opens an account for the recipient of a standard
   * one, or it removes the mark; and either way the deposit is no longer in progress.
   */
  lemma MintFinishes(w: World, id: nat)
    requires Reachable(w) && CanFinishMint(w, id)
    ensures var m, v := w.flight.mints[id], FinishMint(w, id);
      var done := if m.safe then !m.result.MintedUnused? else m.result.Minted?;
      && (done ==> m.op in v.coins.utxos && Exists(m.op) && v.coins.utxos[m.op] == ValueOf(m.op)
                   && m.op in v.coins.verified && (!m.safe ==> m.recipient in v.book.accounts))
      && (!done ==> m.op !in v.coins.utxos && m.op !in v.coins.verified && m.op !in v.past.accepted)
      && m.op !in v.coins.inProgress && id !in v.flight.mints
  {
    hide Reachable, ConfigOk, FeesOk, ReserveOk, InfosOk, FamiliesOk, IndexOk, OrphansOk, AccountsOk, BurnsOk, ListedOk,
         RootsListed, LiveOk, ConsumersSpend, RefundsOk, ChainOk, AskedOk, Backed, Covered, MintsMatch, UnbumpCells,
         Collect;
    ReachableKeepsInv(w);
    assert MintOk(w.flight.mints[id], w.coins, w.past);
  }
}
