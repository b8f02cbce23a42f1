/** Burns, refund requests, signatures and replacements: each goes back to what was asked for and answered before. */
module BurnOrigins {
  import opened Bitcoin
  import opened BlockAmounts
  import opened Configuration
  import opened BridgeState
  import opened Effects
  import opened Steps
  import opened Invariants
  import opened ProgressProofs
  import opened Runs
  import opened Terms
  import opened Origins
  import opened RecordOrigins

  // ----- burns -----

  /** The burn was scheduled by an earlier step, on its terms, after a question put still earlier. */
  ghost predicate BurnKnown(w: World, b: Burn) {
    exists u, n :: BurnStarted(u, n, w, b)
  }

  ghost predicate BurnStarted(u: World, n: nat, w: World, b: Burn) {
    && Earlier(u, OfTx(BurnStart(b.tx, b.purpose, n)), w)
    && BurnTerms(u, n, b)
    && QuestionKnown(u, SpendCheck(b.tx, b.purpose, n))
  }

  ghost predicate BurnsKnown(w: World) {
    forall id :: id in w.flight.burns ==> BurnKnown(w, w.flight.burns[id])
  }

  lemma StartMeetsTerms(w: World, t: Tx, purpose: Purpose, n: nat)
    requires Reachable(w) && CanStartBurn(w, t, purpose, n)
    ensures BurnTerms(w, n, BurnOf(w.cfg, t, w.book.infos[t], purpose))
    ensures QuestionKnown(w, SpendCheck(t, purpose, n))
  {
    hide Reachable, QuestionKnown, FeesOk, ReserveOk, InfosOk, FamiliesOk, IndexOk, OrphansOk, AccountsOk, BurnsOk,
         PlacesOk, RootsListed, LiveOk, ConsumersSpend, RefundsOk, MintsOk, Backed, Covered, IsProtocolPart;
    ReachableKeepsInv(w);
    QuestionsHaveTheirTerms(w);
    AskedAboutPending(w, t, SpendCheck(t, purpose, n));
    ProtocolPartIsDue(w.cfg.withdrawFee, w.book.infos[t].withdrawFee);
    ProtocolPartWithinFee(w.cfg.withdrawFee, w.book.infos[t].withdrawFee);
  }

  lemma TxStepBurns(w: World, e: TxEvent, id: nat)
    requires CanTx(w, e) && id in DoTx(w, e).flight.burns
    ensures var b := DoTx(w, e).flight.burns[id];
      || (id in w.flight.burns && b == w.flight.burns[id].(result := b.result))
      || (e.BurnStart? && CanStartBurn(w, e.tx, e.purpose, e.confirmations)
          && b == BurnOf(w.cfg, e.tx, w.book.infos[e.tx], e.purpose))
  {
    hide CanWithdraw, CanManage, CanAskSignature, CanSignInput, CanSignAwayOrphan, CanWithdrawRbf, CanCancelWithdraw,
         CanManageRbf, CanCancelManage, CanClear, CanAskSpend, CanSettle, SpendIsConfirmed, AllSigned, AddSignId, DropIds,
         DropSignId, DropVerifyId, BurnOf, WithChange, Consume, Collect, Release, ShiftToReserve;
  }

  lemma DepositStepLeavesBurns(w: World, e: DepositEvent)
    requires CanDeposit(w, e)
    ensures DoDeposit(w, e).flight.burns == w.flight.burns
  {
    hide CanAskDeposit, CanAcceptDeposit, CanExecMint, CanExecSafeBurn, CanAskRefund, CanRequestRefund, CanRejectRefund,
         CanExecuteRefund, CanFinishRefund, CanRemoveRefund, AddSignId, DropIds, DropVerifyId, WithAccount, FreshId,
         BumpCells, UnbumpCells, Collect;
  }

  lemma BurnStaysKnown(w: World, b: Burn, c: Burn, e: Event)
    requires BurnKnown(w, b) && Can(w, e) && c == b.(result := c.result)
    ensures BurnKnown(Do(w, e), c)
  {
    hide Can, Do, Earlier, QuestionKnown;
    var u, n :| BurnStarted(u, n, w, b);
    StillEarlier(u, OfTx(BurnStart(b.tx, b.purpose, n)), w, e);
    assert BurnStarted(u, n, Do(w, e), c);
  }

  lemma StartIsKnown(w: World, t: Tx, purpose: Purpose, n: nat)
    requires Reachable(w) && CanStartBurn(w, t, purpose, n)
    ensures BurnKnown(Do(w, OfTx(BurnStart(t, purpose, n))), BurnOf(w.cfg, t, w.book.infos[t], purpose))
  {
    hide Reachable, Do, Earlier, QuestionKnown, BurnTerms, StartBurn, SpendIsConfirmed;
    var e := OfTx(BurnStart(t, purpose, n));
    StartMeetsTerms(w, t, purpose, n);
    JustNow(w, e);
    assert BurnStarted(w, n, Do(w, e), BurnOf(w.cfg, t, w.book.infos[t], purpose));
  }

  lemma StepKeepsBurns(w: World, e: Event)
    requires Reachable(w) && BurnsKnown(w) && Can(w, e)
    ensures BurnsKnown(Do(w, e))
  {
    hide Reachable, CanTx, CanDeposit, CanLedger, DoTx, DoDeposit, DoLedger, BurnKnown, CanStartBurn, BurnOf;
    forall id | id in Do(w, e).flight.burns ensures BurnKnown(Do(w, e), Do(w, e).flight.burns[id]) {
      var b := Do(w, e).flight.burns[id];
      match e {
        case OfTx(t) => TxStepBurns(w, t, id);
        case OfDeposit(d) => DepositStepLeavesBurns(w, d);
        case OfLedger(l) => LedgerStepAsksNothing(w, l);
      }
      if id in w.flight.burns && b == w.flight.burns[id].(result := b.result) {
        BurnStaysKnown(w, w.flight.burns[id], b, e);
      } else {
        StartIsKnown(w, e.tx.tx, e.tx.purpose, e.tx.confirmations);
      }
    }
  }

  /**
   * Every burn under way was scheduled when its transaction lay as deep as an earlier question asked, for what the
   * record says, with the fee of the withdrawal split by the rates of then.
   */
  lemma BurnsHaveTheirTerms(w: World)
    requires Reachable(w)
    ensures BurnsKnown(w)
  {
    hide Can, Do, BurnKnown, Init;
    var p := (u: World) => Reachable(u) && BurnsKnown(u);
    forall u | Init(u) ensures p(u) {
      StartIsReachable(u);
      InitAsksNothing(u);
    }
    forall u, e | p(u) && Can(u, e) ensures p(Do(u, e)) {
      hide Reachable, BurnsKnown;
      StepStaysReachable(u, e);
      StepKeepsBurns(u, e);
    }
    assert StartsIn(p) && StaysIn(p);
    assert p(w);
  }

  // ----- refund requests -----

  ghost predicate RequestKnown(w: World, k: OutPoint, r: RefundRequest) {
    exists u, e :: Earlier(u, e, w) && Requests(u, e, k, r.(executed := false))
  }

  ghost predicate RequestsKnown(w: World) {
    forall k :: k in w.coins.refunds ==> RequestKnown(w, k, w.coins.refunds[k])
  }

  /** A refund waits for as many confirmations as any deposit could need, whatever the total of its block. */
  lemma RefundsAreDeepest(c: Config, amount: nat, n: nat)
    requires ValidConfig(c) && RequiresConfirmations(c.tiers, amount, n)
    ensures n + c.confirmationsDelta <= MaxRequiredConfirmations(c)
    ensures n + c.extraMsgConfirmationsDelta <= MaxRequiredConfirmations(c)
  {
    hide ScalarsValid;
    assert c.tiers != map[];
    ConfirmationsAreUnique(c.tiers, amount, n);
    MaxTierBounds(c.tiers, amount);
  }

  /** And for no more than that: an unbounded total with the larger delta needs them. */
  lemma RefundsAreNotDeeper(c: Config) returns (n: nat)
    requires ValidConfig(c) && c.tiers != map[]
    ensures RequiresConfirmations(c.tiers, U128_MAX, n)
    ensures MaxRequiredConfirmations(c) == n + c.confirmationsDelta
         || MaxRequiredConfirmations(c) == n + c.extraMsgConfirmationsDelta
  {
    n := ConfirmationsFor(c.tiers, U128_MAX);
    MaxTierBounds(c.tiers, U128_MAX);
  }

  lemma RequestMeetsTerms(w: World, q: RefundClaim, now: nat)
    requires Reachable(w) && CanRequestRefund(w, q)
    ensures Requests(w, OfDeposit(RefundAcceptance(q, now)), q.op, RequestRefund(w, q, now).coins.refunds[q.op])
  {
    hide Reachable, FeesOk, ReserveOk, InfosOk, FamiliesOk, IndexOk, OrphansOk, AccountsOk, BurnsOk, PlacesOk, ListedOk,
         RootsListed, LiveOk, ConsumersSpend, RefundsOk, MintsOk, AskedOk, Backed, Covered, RequiresConfirmations,
         MaxRequiredConfirmations, ValidConfig;
    ReachableKeepsInv(w);
    forall amount: nat, n: nat | RequiresConfirmations(w.cfg.tiers, amount, n)
      ensures w.chain.confirmed[q.op.tx] + n + w.cfg.confirmationsDelta <= w.chain.tip + 1
      ensures w.chain.confirmed[q.op.tx] + n + w.cfg.extraMsgConfirmationsDelta <= w.chain.tip + 1
    {
      RefundsAreDeepest(w.cfg, amount, n);
    }
  }

  lemma TxStepLeavesRequests(w: World, e: TxEvent)
    requires CanTx(w, e)
    ensures DoTx(w, e).coins.refunds == w.coins.refunds
  {
    hide CanWithdraw, CanManage, CanAskSignature, CanSignInput, CanSignAwayOrphan, CanWithdrawRbf, CanCancelWithdraw,
         CanManageRbf, CanCancelManage, CanClear, CanAskSpend, CanStartBurn, CanExecBurn, CanFailBurn, CanSettle,
         AllSigned, AddSignId, DropIds, DropSignId, DropVerifyId, FreshId, BurnOf, WithChange, Consume, Collect,
         Release, ShiftToReserve;
  }

  lemma DepositStepRequests(w: World, e: DepositEvent, k: OutPoint)
    requires CanDeposit(w, e) && k in DoDeposit(w, e).coins.refunds
    ensures var r := DoDeposit(w, e).coins.refunds[k];
      || (k in w.coins.refunds && r == w.coins.refunds[k].(executed := r.executed))
      || (e.RefundAcceptance? && k == e.refund.op && !r.executed
          && r == RequestRefund(w, e.refund, e.now).coins.refunds[k])
  {
    hide CanAskDeposit, CanAcceptDeposit, CanExecMint, CanFinishMint, CanExecSafeBurn, CanAskRefund, CanRejectRefund,
         CanFinishRefund, CanRemoveRefund, AddSignId, DropIds, DropVerifyId, WithAccount, FreshId, BumpCells,
         UnbumpCells, Collect;
  }

  lemma StepKeepsRequests(w: World, e: Event)
    requires Reachable(w) && RequestsKnown(w) && Can(w, e)
    ensures RequestsKnown(Do(w, e))
  {
    hide Reachable, CanTx, CanDeposit, CanLedger, DoTx, DoDeposit, DoLedger, Earlier, Requests, CanRequestRefund,
         RequestRefund;
    var v := Do(w, e);
    forall k | k in v.coins.refunds ensures RequestKnown(v, k, v.coins.refunds[k]) {
      var r := v.coins.refunds[k];
      match e {
        case OfTx(t) => TxStepLeavesRequests(w, t);
        case OfDeposit(d) => DepositStepRequests(w, d, k);
        case OfLedger(l) => LedgerStepAsksNothing(w, l);
      }
      if k in w.coins.refunds && r == w.coins.refunds[k].(executed := r.executed) {
        assert RequestKnown(w, k, w.coins.refunds[k]);
        var u, f :| Earlier(u, f, w) && Requests(u, f, k, w.coins.refunds[k].(executed := false));
        StillEarlier(u, f, w, e);
      } else {
        RequestWasPossible(w, e.deposit);
        RequestMeetsTerms(w, e.deposit.refund, e.deposit.now);
        JustNow(w, e);
      }
    }
  }

  lemma RequestWasPossible(w: World, e: DepositEvent)
    requires CanDeposit(w, e) && e.RefundAcceptance?
    ensures CanRequestRefund(w, e.refund)
  {
    hide CanRequestRefund;
  }

  /** Every refund request was accepted when the deposit was deep and unmarked, and keeps the terms it was made on. */
  lemma RequestsHaveTheirTerms(w: World)
    requires Reachable(w)
    ensures RequestsKnown(w)
  {
    hide Can, Do, RequestKnown, Init;
    var p := (u: World) => Reachable(u) && RequestsKnown(u);
    forall u | Init(u) ensures p(u) {
      StartIsReachable(u);
      InitAsksNothing(u);
    }
    forall u, e | p(u) && Can(u, e) ensures p(Do(u, e)) {
      hide Reachable, RequestsKnown;
      StepStaysReachable(u, e);
      StepKeepsRequests(u, e);
    }
    assert StartsIn(p) && StaysIn(p);
    assert p(w);
  }

  // ----- a refund from its request to its record -----

  /**
   * A pending refund was requested by an earlier step and executed by a later one, and between the two there passed
   * at least the time that the execution's configuration asks for: the long one if the deposit message names no
   * address, the short one if it does and the caller was not privileged.
   */
  ghost predicate RefundWaited(u: World, q: RefundClaim, asked: nat, v: World, account: AccountId, privileged: bool,
                               executed: nat, w: World, t: Tx)
  {
    && Earlier(u, OfDeposit(RefundAcceptance(q, asked)), v)
    && Earlier(v, OfDeposit(RefundExecution(q.op, account, privileged, executed)), w)
    && t.inputs == [q.op] && |t.outputs| == 1 && t.outputs[0].script == q.script
    && (q.authorized.None? ==> asked + v.cfg.unsafeRefundTimelockSec <= executed)
    && (q.authorized.Some? ==> q.authorized.value == q.script)
    && (q.authorized.Some? && !privileged ==> asked + v.cfg.refundTimelockSec <= executed)
  }

  lemma ExecutionWasRequested(v: World, t: Tx, i: Info, k: OutPoint, account: AccountId, privileged: bool, now: nat)
    returns (u: World, q: RefundClaim, asked: nat)
    requires Reachable(v) && Creates(v, OfDeposit(RefundExecution(k, account, privileged, now)), t, i)
    ensures Earlier(u, OfDeposit(RefundAcceptance(q, asked)), v) && q.op == k
    ensures k in v.coins.refunds && v.coins.refunds[k].script == q.script
    ensures v.coins.refunds[k].authorized == q.authorized && v.coins.refunds[k].createdAt == asked
  {
    hide Reachable, Earlier, Can, Do;
    RequestsHaveTheirTerms(v);
    var r := v.coins.refunds[k];
    assert RequestKnown(v, k, r);
    var x, e :| Earlier(x, e, v) && Requests(x, e, k, r.(executed := false));
    u, q, asked := x, e.deposit.refund, e.deposit.now;
  }

  lemma PendingRefundsWaited(w: World, t: Tx)
    returns (u: World, q: RefundClaim, asked: nat, v: World, account: AccountId, privileged: bool)
    requires Reachable(w) && t in w.book.infos && w.book.infos[t].purpose.Refund?
    ensures RefundWaited(u, q, asked, v, account, privileged, w.book.infos[t].createTime, w, t)
  {
    hide Reachable, Reaches, Can, Do, WithdrawalTerms, ReturnTerms, Replaces, RefundsOk;
    RecordsHaveTheirTerms(w);
    var i := w.book.infos[t];
    assert RecordKnown(w, t, i);
    hide RecordsKnown;
    var x, e :| Earlier(x, e, w) && Creates(x, e, t, i);
    RefundIsExecuted(x, e, t, i);
    var d := e.deposit;
    v, account, privileged := x, d.account, d.privileged;
    u, q, asked := ExecutionWasRequested(v, t, i, d.key, account, privileged, d.now);
    if q.authorized.Some? {
      RequestsAreAuthorized(v, d.key);
    }
  }

  lemma RefundIsExecuted(w: World, e: Event, t: Tx, i: Info)
    requires Creates(w, e, t, i) && i.purpose.Refund?
    ensures e.OfDeposit? && e.deposit.RefundExecution?
  {
    hide PaysGas, PaysOnce, IsFee, ChangeIsSound;
  }

  lemma RequestsAreAuthorized(w: World, k: OutPoint)
    requires Reachable(w) && k in w.coins.refunds && w.coins.refunds[k].authorized.Some?
    ensures w.coins.refunds[k].authorized.value == w.coins.refunds[k].script
  {
    hide Reachable, ConfigOk, FeesOk, ReserveOk, InfosOk, FamiliesOk, IndexOk, OrphansOk, AccountsOk, BurnsOk, PlacesOk,
         ListedOk, RootsListed, LiveOk, ConsumersSpend, MintsOk, ChainOk, AskedOk, Backed, Covered;
    ReachableKeepsInv(w);
  }
}
