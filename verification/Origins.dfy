/**
 * Everything the bridge has under way goes back to a step of its own past, and still has the terms of that step:
 * questions, mints, burns, pending transactions and refund requests.
 */
module Origins {
  import opened Bitcoin
  import opened BlockAmounts
  import opened Configuration
  import opened BridgeState
  import opened Effects
  import opened Steps
  import opened Invariants
  import opened Runs
  import opened Terms

  /** The step e was taken in the reachable state u, and w came after it. */
  ghost predicate Earlier(u: World, e: Event, w: World) {
    Reachable(u) && Can(u, e) && Reaches(Do(u, e), w)
  }

  lemma StillEarlier(u: World, e: Event, w: World, f: Event)
    requires Earlier(u, e, w) && Can(w, f)
    ensures Earlier(u, e, Do(w, f))
  {
    hide Reachable, Reaches, Can, Do;
    ReachesFurther(Do(u, e), w, f);
  }

  lemma JustNow(w: World, e: Event)
    requires Reachable(w) && Can(w, e)
    ensures Earlier(w, e, Do(w, e))
  {
    hide Reachable, Reaches, Can, Do;
    ReachesItself(Do(w, e));
  }

  // ----- questions -----

  ghost predicate QuestionKnown(w: World, q: Question) {
    exists u, e :: Earlier(u, e, w) && Asks(u, e, q)
  }

  ghost predicate QuestionsKnown(w: World) {
    forall q :: q in w.flight.asked ==> QuestionKnown(w, q)
  }

  lemma TxStepAsks(w: World, e: TxEvent, q: Question)
    requires CanTx(w, e) && q in DoTx(w, e).flight.asked && q !in w.flight.asked
    ensures Asks(w, OfTx(e), q)
  {
    hide CanWithdraw, CanManage, CanSignInput, CanSignAwayOrphan, CanWithdrawRbf, CanCancelWithdraw, CanManageRbf,
         CanCancelManage, CanClear, CanStartBurn, CanExecBurn, CanFailBurn, CanSettle, AllSigned, AddSignId, DropIds,
         DropSignId, DropVerifyId, FreshId, BurnOf, WithChange, Consume, Collect, Release, ShiftToReserve;
  }

  lemma DepositMeetsTerms(w: World, d: DepositClaim)
    requires CanAskDeposit(w, d)
    ensures DepositTerms(w.cfg, d)
  {
    ChargedFeeIsDue(w.cfg.depositFee, ValueOf(d.op));
    ProtocolPartIsDue(w.cfg.depositFee, w.cfg.depositFee.GetFee(ValueOf(d.op)));
  }

  lemma DepositStepAsks(w: World, e: DepositEvent, q: Question)
    requires CanDeposit(w, e) && q in DoDeposit(w, e).flight.asked && q !in w.flight.asked
    ensures Asks(w, OfDeposit(e), q)
  {
    hide CanAskDeposit, CanAcceptDeposit, CanExecMint, CanFinishMint, CanExecSafeBurn, CanRequestRefund,
         CanRejectRefund, CanExecuteRefund, CanFinishRefund, CanRemoveRefund, FreshId, DropIds, DropVerifyId, AddSignId,
         BumpCells, UnbumpCells, WithAccount, DepositTerms;
    if e.DepositQuestion? {
      DepositMeetsTerms(w, e.deposit);
    }
  }

  /** The fee ledger, management and the surroundings leave questions, mints, burns, records and coins alone. */
  lemma LedgerStepAsksNothing(w: World, e: LedgerEvent)
    requires CanLedger(w, e)
    ensures DoLedger(w, e).flight.asked == w.flight.asked
    ensures DoLedger(w, e).flight.mints == w.flight.mints && DoLedger(w, e).flight.burns == w.flight.burns
    ensures DoLedger(w, e).book.infos == w.book.infos && DoLedger(w, e).coins == w.coins
  {
    if e.FeeDeposit? || e.FeeWithdrawal? || e.LostFoundClaim? || e.TransferAnswer? || e.TransferFinish? {
      hide SetLimit, Configure, Register, Confirm, AdvanceTip, Donate, Destroy, CanConfigure, CanConfirm, FreshId;
    } else {
      hide DepositProtocolFee, WithdrawProtocolFee, ClaimLostFound, ExecTransfer, FinishTransfer, CanConfigure,
           CanConfirm, WithAccount, ResizedCells;
    }
  }

  lemma StepAsks(w: World, e: Event, q: Question)
    requires Can(w, e) && q in Do(w, e).flight.asked && q !in w.flight.asked
    ensures Asks(w, e, q)
  {
    hide CanTx, CanDeposit, CanLedger, DoTx, DoDeposit, DoLedger, Asks;
    match e
    case OfTx(t) => TxStepAsks(w, t, q);
    case OfDeposit(d) => DepositStepAsks(w, d, q);
    case OfLedger(l) => LedgerStepAsksNothing(w, l);
  }

  lemma StepKeepsQuestions(w: World, e: Event)
    requires Reachable(w) && QuestionsKnown(w) && Can(w, e)
    ensures QuestionsKnown(Do(w, e))
  {
    hide Reachable, Can, Do, Earlier, Asks;
    forall q | q in Do(w, e).flight.asked ensures QuestionKnown(Do(w, e), q) {
      if q in w.flight.asked {
        var u, f :| Earlier(u, f, w) && Asks(u, f, q);
        StillEarlier(u, f, w, e);
      } else {
        StepAsks(w, e, q);
        JustNow(w, e);
      }
    }
  }

  /** Every question under way was put by an earlier step, on the terms of the configuration and records of then. */
  lemma QuestionsHaveTheirTerms(w: World)
    requires Reachable(w)
    ensures QuestionsKnown(w)
  {
    hide Can, Do, QuestionKnown, Init;
    var p := (u: World) => Reachable(u) && QuestionsKnown(u);
    forall u | Init(u) ensures p(u) {
      StartIsReachable(u);
      InitAsksNothing(u);
    }
    forall u, e | p(u) && Can(u, e) ensures p(Do(u, e)) {
      hide Reachable, QuestionsKnown;
      StepStaysReachable(u, e);
      StepKeepsQuestions(u, e);
    }
    assert StartsIn(p) && StaysIn(p);
    assert p(w);
  }

  lemma InitAsksNothing(w: World)
    requires Init(w)
    ensures w.flight.asked == {} && w.flight.mints == map[] && w.flight.burns == map[]
    ensures w.book.infos == map[] && w.coins.refunds == map[] && w.past.accepted == map[]
  {
  }

  /** An accepted request for verification asks the light client for the confirmations that are due. */
  lemma AcceptedSpendIsAsked(w: World, t: Tx, delta: nat) returns (confirmations: nat)
    requires CanAskSpend(w, t, delta)
    ensures SpendCheck(t, w.book.infos[t].purpose, confirmations) in AskSpend(w, t, delta).flight.asked
    ensures SpendTerms(w, t, delta, w.book.infos[t].purpose, confirmations)
  {
    confirmations := SpendConfirmations(w.cfg, w.book.infos[t], delta);
  }

  /** A deposit is accepted for checking exactly when it meets the terms. */
  lemma DepositTermsAreExact(w: World, d: DepositClaim)
    ensures CanAskDeposit(w, d) <==> DepositTerms(w.cfg, d)
  {
    if DepositTerms(w.cfg, d) {
      if !d.safe {
        var fee := w.cfg.depositFee.GetFee(ValueOf(d.op));
        ChargedFeeIsDue(w.cfg.depositFee, ValueOf(d.op));
        FeeDueIsUnique(w.cfg.depositFee, ValueOf(d.op), fee, d.protocolFee + d.relayerFee);
        ProtocolPartIsDue(w.cfg.depositFee, fee);
        ProtocolPartIsUnique(w.cfg.depositFee, fee, w.cfg.depositFee.ProtocolPart(fee), d.protocolFee);
      }
    }
    if CanAskDeposit(w, d) {
      DepositMeetsTerms(w, d);
    }
  }

  // ----- mints -----

  /** The mint was asked for by an earlier deposit, whose question is on record, and carries its terms. */
  ghost predicate MintKnown(w: World, m: Mint) {
    exists u, d :: DepositGives(u, d, w, m)
  }

  ghost predicate DepositGives(u: World, d: DepositClaim, w: World, m: Mint) {
    && Earlier(u, OfDeposit(DepositQuestion(d)), w)
    && DepositTerms(u.cfg, d)
    && Carries(m, d)
    && DepositCheck(d) in w.flight.asked
  }

  ghost predicate MintsKnown(w: World) {
    forall id :: id in w.flight.mints ==> MintKnown(w, w.flight.mints[id])
  }

  lemma QuestionGivesMint(w: World, d: DepositClaim, m: Mint)
    requires QuestionKnown(w, DepositCheck(d)) && Carries(m, d) && DepositCheck(d) in w.flight.asked
    ensures MintKnown(w, m)
  {
    hide Earlier, DepositTerms;
    var u, e :| Earlier(u, e, w) && Asks(u, e, DepositCheck(d));
    assert e == OfDeposit(DepositQuestion(d));
    assert DepositGives(u, d, w, m);
  }

  lemma MintStaysKnown(w: World, m: Mint, n: Mint, e: Event)
    requires MintKnown(w, m) && Can(w, e) && n == m.(result := n.result)
    ensures MintKnown(Do(w, e), n)
  {
    hide Can, Do, Earlier, DepositTerms;
    var u, d :| DepositGives(u, d, w, m);
    StillEarlier(u, OfDeposit(DepositQuestion(d)), w, e);
    QuestionsStay(w, e);
    assert DepositGives(u, d, Do(w, e), n);
  }

  lemma TxStepKeepsAsked(w: World, e: TxEvent)
    requires CanTx(w, e)
    ensures w.flight.asked <= DoTx(w, e).flight.asked
  {
    hide CanWithdraw, CanManage, CanAskSignature, CanSignInput, CanSignAwayOrphan, CanWithdrawRbf, CanCancelWithdraw,
         CanManageRbf, CanCancelManage, CanClear, CanAskSpend, CanStartBurn, CanExecBurn, CanFailBurn, CanSettle,
         AllSigned, AddSignId, DropIds, DropSignId, DropVerifyId, FreshId, BurnOf, WithChange, Consume, Collect,
         Release, ShiftToReserve, SpendConfirmations;
  }

  lemma DepositStepKeepsAsked(w: World, e: DepositEvent)
    requires CanDeposit(w, e)
    ensures w.flight.asked <= DoDeposit(w, e).flight.asked
  {
    hide CanAskDeposit, CanAcceptDeposit, CanExecMint, CanFinishMint, CanExecSafeBurn, CanAskRefund, CanRequestRefund,
         CanRejectRefund, CanExecuteRefund, CanFinishRefund, CanRemoveRefund, DropIds, DropVerifyId, AddSignId, BumpCells,
         UnbumpCells, WithAccount, FreshId, Collect;
  }

  lemma QuestionsStay(w: World, e: Event)
    requires Can(w, e)
    ensures w.flight.asked <= Do(w, e).flight.asked
  {
    hide CanTx, CanDeposit, CanLedger, DoTx, DoDeposit, DoLedger;
    match e
    case OfTx(t) => TxStepKeepsAsked(w, t);
    case OfDeposit(d) => DepositStepKeepsAsked(w, d);
    case OfLedger(l) => LedgerStepAsksNothing(w, l);
  }

  lemma TxStepLeavesMints(w: World, e: TxEvent)
    requires CanTx(w, e)
    ensures DoTx(w, e).flight.mints == w.flight.mints
  {
    hide CanWithdraw, CanManage, CanAskSignature, CanSignInput, CanSignAwayOrphan, CanWithdrawRbf, CanCancelWithdraw,
         CanManageRbf, CanCancelManage, CanClear, CanAskSpend, CanStartBurn, CanExecBurn, CanFailBurn, CanSettle,
         AllSigned, AddSignId, DropIds, DropSignId, DropVerifyId, FreshId, BurnOf, WithChange, Consume, Collect,
         Release, ShiftToReserve;
  }

  lemma DepositStepMints(w: World, e: DepositEvent, id: nat)
    requires CanDeposit(w, e) && id in DoDeposit(w, e).flight.mints
    ensures var n := DoDeposit(w, e).flight.mints[id];
      || (id in w.flight.mints && n == w.flight.mints[id].(result := n.result))
      || (e.DepositAcceptance? && DepositCheck(e.deposit) in w.flight.asked && Carries(n, e.deposit))
  {
    hide CanAskDeposit, EnoughConfirmations, CanExecSafeBurn, CanAskRefund, CanRequestRefund, CanRejectRefund,
         CanExecuteRefund, CanFinishRefund, CanRemoveRefund, DropIds, DropVerifyId, AddSignId, BumpCells, UnbumpCells,
         WithAccount;
    if e.DepositAcceptance? || e.MintAnswer? || e.MintFinish? {
      hide ExecSafeBurn, RequestRefund, RejectRefund, ExecuteRefund, FinishRefund, Drop;
    } else {
      hide AcceptDeposit, ExecMint, FinishMint;
    }
  }

  lemma StepKeepsMints(w: World, e: Event)
    requires Reachable(w) && MintsKnown(w) && Can(w, e)
    ensures MintsKnown(Do(w, e))
  {
    hide Reachable, CanTx, CanDeposit, CanLedger, DoTx, DoDeposit, DoLedger, MintKnown, QuestionKnown, Carries;
    QuestionsHaveTheirTerms(w);
    forall id | id in Do(w, e).flight.mints ensures MintKnown(Do(w, e), Do(w, e).flight.mints[id]) {
      var n := Do(w, e).flight.mints[id];
      match e {
        case OfTx(t) => TxStepLeavesMints(w, t);
        case OfDeposit(d) => DepositStepMints(w, d, id);
        case OfLedger(l) => LedgerStepAsksNothing(w, l);
      }
      if id in w.flight.mints && n == w.flight.mints[id].(result := n.result) {
        MintStaysKnown(w, w.flight.mints[id], n, e);
      } else {
        QuestionGivesMint(w, e.deposit.deposit, n);
        MintStaysKnown(w, n, n, e);
      }
    }
  }

  /** Every mint under way has the recipient, the amount and the fees of a deposit that was accepted for checking. */
  lemma MintsHaveTheirTerms(w: World)
    requires Reachable(w)
    ensures MintsKnown(w)
  {
    hide Can, Do, MintKnown, Init;
    var p := (u: World) => Reachable(u) && MintsKnown(u);
    forall u | Init(u) ensures p(u) {
      StartIsReachable(u);
      InitAsksNothing(u);
    }
    forall u, e | p(u) && Can(u, e) ensures p(Do(u, e)) {
      hide Reachable, MintsKnown;
      StepStaysReachable(u, e);
      StepKeepsMints(u, e);
    }
    assert StartsIn(p) && StaysIn(p);
    assert p(w);
  }

  // ----- counted deposits -----

  /** What counts as accepted counts for the block of its transaction, with its value. */
  ghost predicate CountsTrue(w: World) {
    forall op :: op in w.past.accepted ==>
      && op.tx in w.chain.confirmed && Exists(op)
      && w.past.accepted[op] == Deposit(w.chain.confirmed[op.tx], ValueOf(op))
  }

  lemma TxStepLeavesCounts(w: World, e: TxEvent)
    requires CanTx(w, e)
    ensures DoTx(w, e).past.accepted == w.past.accepted && DoTx(w, e).chain == w.chain
  {
    hide CanWithdraw, CanManage, CanAskSignature, CanSignInput, CanSignAwayOrphan, CanWithdrawRbf, CanCancelWithdraw,
         CanManageRbf, CanCancelManage, CanClear, CanAskSpend, CanStartBurn, CanExecBurn, CanFailBurn, CanSettle,
         AllSigned, AddSignId, DropIds, DropSignId, DropVerifyId, FreshId, BurnOf, WithChange, Consume, Collect,
         Release, ShiftToReserve;
  }

  lemma DepositStepCounts(w: World, e: DepositEvent)
    requires CanDeposit(w, e) && CountsTrue(w)
    ensures CountsTrue(DoDeposit(w, e))
  {
    hide CanAskDeposit, EnoughConfirmations, CanExecMint, CanExecSafeBurn, CanAskRefund, CanRequestRefund,
         CanRejectRefund, CanExecuteRefund, CanFinishRefund, CanRemoveRefund, DropIds, DropVerifyId, AddSignId,
         BumpCells, UnbumpCells, WithAccount, FreshId;
  }

  lemma LedgerStepCounts(w: World, e: LedgerEvent)
    requires CanLedger(w, e) && CountsTrue(w)
    ensures CountsTrue(DoLedger(w, e))
  {
    hide CanConfigure, FreshId, WithAccount, ResizedCells;
  }

  lemma StepCounts(w: World, e: Event)
    requires CountsTrue(w) && Can(w, e)
    ensures CountsTrue(Do(w, e))
  {
    hide CanTx, CanDeposit, CanLedger, DoTx, DoDeposit, DoLedger;
    match e
    case OfTx(t) => TxStepLeavesCounts(w, t);
    case OfDeposit(d) => DepositStepCounts(w, d);
    case OfLedger(l) => LedgerStepCounts(w, l);
  }

  /** The totals of blocks are totals of deposits that really are in them. */
  lemma DepositsCountForTheirBlock(w: World)
    requires Reachable(w)
    ensures CountsTrue(w)
  {
    hide Can, Do, CountsTrue, Init;
    var p := (u: World) => CountsTrue(u);
    forall u | Init(u) ensures p(u) {
      InitCounts(u);
    }
    forall u, e | p(u) && Can(u, e) ensures p(Do(u, e)) {
      StepCounts(u, e);
    }
    assert StartsIn(p) && StaysIn(p);
    assert p(w);
  }

  lemma InitCounts(w: World)
    requires Init(w)
    ensures CountsTrue(w)
  {
    InitAsksNothing(w);
  }

  lemma MintMatchesChain(w: World, id: nat)
    requires Reachable(w) && id in w.flight.mints
    ensures var m := w.flight.mints[id];
      && m.op.tx in w.chain.confirmed && Exists(m.op)
      && m.height == w.chain.confirmed[m.op.tx] && m.value == ValueOf(m.op)
  {
    hide Reachable, ConfigOk, FeesOk, ReserveOk, InfosOk, FamiliesOk, IndexOk, OrphansOk, AccountsOk, BurnsOk, PlacesOk,
         ListedOk, RootsListed, LiveOk, ConsumersSpend, RefundsOk, ChainOk, AskedOk, Backed, Covered;
    ReachableKeepsInv(w);
    DepositsCountForTheirBlock(w);
    assert MintOk(w.flight.mints[id], w.coins, w.past);
  }
}
