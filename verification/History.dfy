/** What runs never undo, and what they keep within its limits. */
module History {
  import opened Bitcoin
  import opened Psbt
  import opened BridgeState
  import opened Effects
  import opened Steps
  import opened Runs
  import opened Safety

  // ----- what is never undone -----

  /** Nothing of what happened to outputs and transactions is ever forgotten. */
  ghost predicate Extends(w: World, v: World) {
    && w.past.claimed <= v.past.claimed
    && w.past.refunded <= v.past.refunded
    && w.past.deposited <= v.past.deposited
    && w.past.finalized <= v.past.finalized
    && w.chain.tip <= v.chain.tip
    && forall t :: t in w.chain.confirmed ==> t in v.chain.confirmed && v.chain.confirmed[t] == w.chain.confirmed[t]
  }

  lemma TxStepExtends(w: World, e: TxEvent)
    requires CanTx(w, e)
    ensures Extends(w, DoTx(w, e))
  {
    hide CanWithdraw, CanManage, CanAskSignature, CanWithdrawRbf, CanCancelWithdraw, CanManageRbf, CanCancelManage,
         CanAskSpend, CanStartBurn, CanExecBurn, CanSettle;
  }

  lemma DepositStepExtends(w: World, e: DepositEvent)
    requires CanDeposit(w, e)
    ensures Extends(w, DoDeposit(w, e))
  {
    hide CanAcceptDeposit, CanExecMint, CanFinishMint, CanExecSafeBurn, CanRequestRefund, CanExecuteRefund,
         CanFinishRefund;
  }

  lemma LedgerStepExtends(w: World, e: LedgerEvent)
    requires CanLedger(w, e)
    ensures Extends(w, DoLedger(w, e))
  {
  }

  lemma LaterExtends(w: World, v: World)
    requires Reaches(w, v)
    ensures Extends(w, v)
  {
    hide CanTx, CanDeposit, CanLedger, DoTx, DoDeposit, DoLedger;
    var p := (u: World) => Extends(w, u);
    forall u, e | p(u) && Can(u, e) ensures p(Do(u, e)) {
      match e {
        case OfTx(t) => TxStepExtends(u, t);
        case OfDeposit(d) => DepositStepExtends(u, d);
        case OfLedger(l) => LedgerStepExtends(u, l);
      }
    }
    assert StaysIn(p) && p(w);
    assert p(v);
  }

  /** An output once claimed by a pending transaction never becomes a coin again, whatever happens afterwards. */
  lemma ClaimedNeverReturns(w: World, v: World, t: Tx, op: OutPoint)
    requires Reachable(w) && Reaches(w, v)
    requires op in w.past.claimed || (t in w.book.infos && op in t.inputs)
    ensures op !in v.coins.utxos && op !in v.coins.inProgress
  {
    hide Reachable, Reaches;
    OutputsAreInOnePlace(w, op);
    LaterExtends(w, v);
    ReachableStays(w, v);
    OutputsAreInOnePlace(v, op);
  }

  /** An executed refund blocks the deposit for ever, and a registered deposit blocks the refund for ever. */
  lemma ExclusionIsForever(w: World, v: World, op: OutPoint)
    requires Reachable(w) && Reaches(w, v)
    ensures op in w.past.refunded ==> forall d: DepositClaim :: d.op == op ==> !CanAcceptDeposit(v, d)
    ensures op in w.past.deposited ==> forall a, privileged, now :: !CanExecuteRefund(v, op, a, privileged, now)
  {
    hide Reachable, Reaches, CanAcceptDeposit, CanExecuteRefund;
    LaterExtends(w, v);
    ReachableStays(w, v);
    DepositsAndRefundsExclude(v, op);
  }

  /** A settled transaction is never pending again, so it is never burned for again. */
  lemma SettledForever(w: World, v: World, t: Tx, purpose: Purpose, confirmations: nat)
    requires Reachable(w) && Reaches(w, v) && t in w.past.finalized
    ensures t !in v.book.infos && !CanStartBurn(v, t, purpose, confirmations)
  {
    hide Reachable, Reaches;
    LaterExtends(w, v);
    ReachableStays(w, v);
    FinalizedIsGone(v, t);
  }

  lemma FinalizedIsGone(w: World, t: Tx)
    requires Reachable(w) && t in w.past.finalized
    ensures t !in w.book.infos
  {
    hide Reachable;
    ReachableKeepsInv(w);
  }

  // ----- signing limits -----

  ghost predicate WithinLimits(w: World) {
    forall a :: |SignIds(w.book.accounts, a)| <= LimitOf(w.book.limits, a)
  }

  lemma SmallerSet(small: set<Tx>, large: set<Tx>)
    requires small <= large
    ensures |small| <= |large|
  {
    if small != large {
      assert large == small + (large - small);
      assert small !! (large - small);
    }
  }

  /** Every account keeps its old ids at most, but for one that had room for one more. */
  ghost predicate Grows(before: Book, after: Book) {
    && after.limits == before.limits
    && forall a ::
         || SignIds(after.accounts, a) <= SignIds(before.accounts, a)
         || (exists t :: SignIds(after.accounts, a) == SignIds(before.accounts, a) + {t} && HasSignCapacity(before, a))
  }

  lemma GrowthKeepsLimits(w: World, v: World)
    requires WithinLimits(w) && Grows(w.book, v.book)
    ensures WithinLimits(v)
  {
    forall a ensures |SignIds(v.book.accounts, a)| <= LimitOf(v.book.limits, a) {
      assert |SignIds(w.book.accounts, a)| <= LimitOf(w.book.limits, a);
      if SignIds(v.book.accounts, a) <= SignIds(w.book.accounts, a) {
        SmallerSet(SignIds(v.book.accounts, a), SignIds(w.book.accounts, a));
      }
    }
  }

  lemma AddingGrows(book: Book, after: Book, a: AccountId, t: Tx)
    requires HasSignCapacity(book, a) && after.limits == book.limits && after.accounts == AddSignId(book.accounts, a, t)
    ensures Grows(book, after)
  {
    assert SignIds(after.accounts, a) == SignIds(book.accounts, a) + {t};
  }

  lemma TxStepKeepsLimits(w: World, e: TxEvent)
    requires CanTx(w, e) && WithinLimits(w)
    ensures WithinLimits(DoTx(w, e))
  {
    hide WithinLimits, AcceptsWithdrawal, WithinWithdrawLimits, AcceptsActiveManagement, AcceptsAllChange, CanTake,
         PendingLongEnough, Grows, AddSignId;
    var v := DoTx(w, e);
    if e.Withdrawal? {
      AddingGrows(w.book, v.book, e.sender, e.tx);
    } else if e.Management? {
      AddingGrows(w.book, v.book, e.account, e.tx);
    } else if e.WithdrawalRbf? || e.WithdrawalCancel? || e.ManagementRbf? || e.ManagementCancel? {
      AddingGrows(w.book, v.book, w.book.infos[e.tx].account, ReplacementTx(e.tx, e.outputs));
    } else {
      OtherTxStepsGrow(w, e);
    }
    GrowthKeepsLimits(w, v);
  }

  lemma OtherTxStepsGrow(w: World, e: TxEvent)
    requires CanTx(w, e) && !e.Withdrawal? && !e.Management?
    requires !e.WithdrawalRbf? && !e.WithdrawalCancel? && !e.ManagementRbf? && !e.ManagementCancel?
    ensures Grows(w.book, DoTx(w, e).book)
  {
    hide CanWithdraw, CanManage, CanAskSignature, CanSignAwayOrphan, CanWithdrawRbf, CanCancelWithdraw, CanManageRbf,
         CanCancelManage, CanAskSpend, CanStartBurn, CanExecBurn, CanFailBurn, CanSettle, WithChange, Consume;
  }

  lemma DepositStepKeepsLimits(w: World, e: DepositEvent)
    requires CanDeposit(w, e) && WithinLimits(w)
    ensures WithinLimits(DoDeposit(w, e))
  {
    hide CanAcceptDeposit, CanRequestRefund, WithinLimits;
    var v := DoDeposit(w, e);
    if e.RefundExecution? {
      AddingGrows(w.book, v.book, e.account, RefundTx(e.key, w.coins.refunds[e.key]));
    }
    GrowthKeepsLimits(w, v);
  }

  /** A changed limit is kept exactly when it is not set below what the account already has. */
  lemma LedgerStepKeepsLimits(w: World, e: LedgerEvent)
    requires CanLedger(w, e) && WithinLimits(w)
    ensures WithinLimits(DoLedger(w, e)) <==>
      (e.LimitChange? ==>
         |SignIds(w.book.accounts, e.account)| <= (if e.limit.Some? then e.limit.value else 1))
  {
    var v := DoLedger(w, e);
    if e.LimitChange? {
      assert LimitOf(v.book.limits, e.account) == if e.limit.Some? then e.limit.value else 1;
    } else {
      GrowthKeepsLimits(w, v);
    }
  }

  /** A new limit leaves room for what the account already has to sign. */
  ghost predicate ChangeFits(w: World, e: Event) {
    e.OfLedger? && e.ledger.LimitChange? ==>
      |SignIds(w.book.accounts, e.ledger.account)| <= (if e.ledger.limit.Some? then e.ledger.limit.value else 1)
  }

  /** Along the run, every change of a limit leaves room. */
  ghost predicate ChangesFit(w: World, events: seq<Event>)
    requires CanRun(w, events)
    decreases |events|
  {
    events == [] ||
    (ChangesFit(w, events[..|events| - 1]) && ChangeFits(Run(w, events[..|events| - 1]), events[|events| - 1]))
  }

  /** Along the run, every account has at most as many transactions to sign as its limit allows. */
  ghost predicate AlwaysWithinLimits(w: World, events: seq<Event>)
    requires CanRun(w, events)
    decreases |events|
  {
    WithinLimits(Run(w, events)) && (events == [] || AlwaysWithinLimits(w, events[..|events| - 1]))
  }

  /** Every account stays within its signing limit exactly as long as no limit is set below what is there. */
  lemma {:induction false} LimitsHoldUnlessLowered(w: World, events: seq<Event>)
    requires WithinLimits(w) && CanRun(w, events)
    ensures AlwaysWithinLimits(w, events) <==> ChangesFit(w, events)
    decreases |events|
  {
    hide CanTx, CanDeposit, CanLedger, DoTx, DoDeposit, DoLedger, WithinLimits;
    if events == [] {
    } else {
      var before, e := events[..|events| - 1], events[|events| - 1];
      LimitsHoldUnlessLowered(w, before);
      if AlwaysWithinLimits(w, before) {
        var u := Run(w, before);
        match e {
          case OfTx(t) => TxStepKeepsLimits(u, t);
          case OfDeposit(d) => DepositStepKeepsLimits(u, d);
          case OfLedger(l) => LedgerStepKeepsLimits(u, l);
        }
      }
    }
  }
}
