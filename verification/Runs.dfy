/** Runs: any interleaving of entry points, callbacks, answers of the token contract, and chain events. */
module Runs {
  import opened Wrappers
  import opened Bitcoin
  import opened Configuration
  import opened BridgeState
  import opened Effects
  import opened Steps
  import opened Invariants
  import opened RequestProofs
  import opened ProgressProofs
  import opened SettleProofs
  import opened DepositProofs
  import opened RefundProofs
  import opened LedgerProofs

  /** Steps of pending transactions. */
  datatype TxEvent =
    | Withdrawal(sender: AccountId, amount: nat, target: Script, tx: Tx, maxGasFee: Option<nat>, unrestricted: bool, now: nat)
    | Management(account: AccountId, tx: Tx, now: nat)
    | SignatureQuestion(tx: Tx, index: nat)
    | Signature(tx: Tx, index: nat, account: AccountId)
    | OrphanSigning(tx: Tx)
    | WithdrawalRbf(account: AccountId, tx: Tx, outputs: seq<TxOut>, unrestricted: bool, now: nat)
    | WithdrawalCancel(tx: Tx, outputs: seq<TxOut>, isDao: bool, now: nat)
    | ManagementRbf(account: AccountId, tx: Tx, outputs: seq<TxOut>, now: nat)
    | ManagementCancel(tx: Tx, outputs: seq<TxOut>, now: nat)
    | Clearing(tx: Tx)
    | SpendQuestion(tx: Tx, delta: nat)
    | BurnStart(tx: Tx, purpose: Purpose, confirmations: nat)
    | BurnAnswer(id: nat, ok: bool)
    | BurnFinish(id: nat)
    | BurnFailure(id: nat)

  /** The requests that make a new pending transaction. */
  predicate AddsRecord(e: TxEvent) {
    || e.Withdrawal? || e.Management?
    || e.WithdrawalRbf? || e.WithdrawalCancel? || e.ManagementRbf? || e.ManagementCancel?
  }

  /** Steps of deposits and of their refunds. */
  datatype DepositEvent =
    | DepositQuestion(deposit: DepositClaim)
    | DepositAcceptance(deposit: DepositClaim)
    | MintAnswer(id: nat, minted: MintResult, kept: nat)
    | MintFinish(id: nat)
    | SafeBurn(id: nat)
    | RefundQuestion(refund: RefundClaim)
    | RefundAcceptance(refund: RefundClaim, now: nat)
    | RefundRejection(key: OutPoint, privileged: bool)
    | RefundExecution(key: OutPoint, account: AccountId, privileged: bool, now: nat)
    | RefundConfirmation(tx: Tx, confirmations: nat)
    | RefundRemoval(tx: Tx)

  /** Steps of the fee ledger, of management, and of the surroundings. */
  datatype LedgerEvent =
    | FeeDeposit(amount: nat)
    | FeeWithdrawal(amount: nat)
    | LostFoundClaim(account: AccountId)
    | TransferAnswer(id: nat, ok: bool)
    | TransferFinish(id: nat)
    | LimitChange(account: AccountId, limit: Option<nat>)
    | ConfigChange(cfg: Config)
    | Registration(account: AccountId)
    | Confirmation(tx: Tx, height: nat)
    | TipAdvance(tip: nat)
    | Donation(amount: nat)
    | Destruction(amount: nat)

  datatype Event = OfTx(tx: TxEvent) | OfDeposit(deposit: DepositEvent) | OfLedger(ledger: LedgerEvent)

  ghost predicate CanTx(w: World, e: TxEvent) {
    match e
    case Withdrawal(a, amount, target, t, gas, u, _) => CanWithdraw(w, a, amount, target, t, gas, u)
    case Management(a, t, _) => CanManage(w, a, t)
    case SignatureQuestion(t, i) => CanAskSignature(w, t, i)
    case Signature(t, i, a) => CanSignInput(w, t, i, a)
    case OrphanSigning(t) => CanSignAwayOrphan(w, t)
    case WithdrawalRbf(a, t, outputs, u, now) => CanWithdrawRbf(w, a, t, outputs, u, now)
    case WithdrawalCancel(t, outputs, isDao, now) => CanCancelWithdraw(w, t, outputs, isDao, now)
    case ManagementRbf(a, t, outputs, now) => CanManageRbf(w, a, t, outputs, now)
    case ManagementCancel(t, outputs, now) => CanCancelManage(w, t, outputs, now)
    case Clearing(t) => CanClear(w, t)
    case SpendQuestion(t, delta) => CanAskSpend(w, t, delta)
    case BurnStart(t, purpose, n) => CanStartBurn(w, t, purpose, n)
    case BurnAnswer(id, ok) => CanExecBurn(w, id, ok)
    case BurnFinish(id) => CanFinishBurn(w, id)
    case BurnFailure(id) => CanFailBurn(w, id)
  }

  ghost function DoTx(w: World, e: TxEvent): World
    requires CanTx(w, e)
  {
    hide CanWithdraw, CanManage, CanAskSignature, CanWithdrawRbf, CanCancelWithdraw, CanManageRbf, CanCancelManage,
         CanAskSpend, CanStartBurn, CanExecBurn, CanFinishBurn, CanFailBurn;
    match e
    case Withdrawal(a, amount, target, t, gas, u, now) => WithdrawRequest(w, a, amount, target, t, gas, u, now)
    case Management(a, t, now) => Manage(w, a, t, now)
    case SignatureQuestion(t, i) => AskSignature(w, t, i)
    case Signature(t, i, _) => Sign(w, t, i)
    case OrphanSigning(t) => Drop(w, t)
    case WithdrawalRbf(a, t, outputs, u, now) => WithdrawRbf(w, a, t, outputs, u, now)
    case WithdrawalCancel(t, outputs, isDao, now) => CancelWithdraw(w, t, outputs, isDao, now)
    case ManagementRbf(a, t, outputs, now) => ManageRbf(w, a, t, outputs, now)
    case ManagementCancel(t, outputs, now) => CancelManage(w, t, outputs, now)
    case Clearing(t) => Clear(w, t)
    case SpendQuestion(t, delta) => AskSpend(w, t, delta)
    case BurnStart(t, purpose, n) => StartBurn(w, t, purpose, n)
    case BurnAnswer(id, ok) => ExecBurn(w, id, ok)
    case BurnFinish(id) => FinishBurn(w, id)
    case BurnFailure(id) => FailBurn(w, id)
  }

  ghost predicate CanDeposit(w: World, e: DepositEvent) {
    match e
    case DepositQuestion(d) => CanAskDeposit(w, d)
    case DepositAcceptance(d) => CanAcceptDeposit(w, d)
    case MintAnswer(id, minted, kept) => CanExecMint(w, id, minted, kept)
    case MintFinish(id) => CanFinishMint(w, id)
    case SafeBurn(id) => CanExecSafeBurn(w, id)
    case RefundQuestion(r) => CanAskRefund(w, r)
    case RefundAcceptance(r, _) => CanRequestRefund(w, r)
    case RefundRejection(k, privileged) => CanRejectRefund(w, k, privileged)
    case RefundExecution(k, a, privileged, now) => CanExecuteRefund(w, k, a, privileged, now)
    case RefundConfirmation(t, n) => CanFinishRefund(w, t, n)
    case RefundRemoval(t) => CanRemoveRefund(w, t)
  }

  ghost function DoDeposit(w: World, e: DepositEvent): World
    requires CanDeposit(w, e)
  {
    hide CanAskDeposit, CanAcceptDeposit, CanExecMint, CanFinishMint, CanExecSafeBurn, CanAskRefund, CanRequestRefund,
         CanRejectRefund, CanExecuteRefund, CanFinishRefund;
    match e
    case DepositQuestion(d) => Ask(w, DepositCheck(d))
    case DepositAcceptance(d) => AcceptDeposit(w, d)
    case MintAnswer(id, minted, kept) => ExecMint(w, id, minted, kept)
    case MintFinish(id) => FinishMint(w, id)
    case SafeBurn(id) => ExecSafeBurn(w, id)
    case RefundQuestion(r) => Ask(w, RefundCheck(r))
    case RefundAcceptance(r, now) => RequestRefund(w, r, now)
    case RefundRejection(k, _) => RejectRefund(w, k)
    case RefundExecution(k, a, privileged, now) => ExecuteRefund(w, k, a, privileged, now)
    case RefundConfirmation(t, n) => FinishRefund(w, t, n)
    case RefundRemoval(t) => Drop(w, t)
  }

  ghost predicate CanLedger(w: World, e: LedgerEvent) {
    match e
    case FeeDeposit(amount) => CanDepositProtocolFee(w, amount)
    case FeeWithdrawal(amount) => CanWithdrawProtocolFee(w, amount)
    case LostFoundClaim(a) => CanClaimLostFound(w, a)
    case TransferAnswer(id, ok) => CanExecTransfer(w, id, ok)
    case TransferFinish(id) => CanFinishTransfer(w, id)
    case LimitChange(a, limit) => CanSetLimit(w, a, limit)
    case ConfigChange(c) => CanConfigure(w, c)
    case Registration(_) => true
    case Confirmation(t, height) => CanConfirm(w, t, height)
    case TipAdvance(tip) => w.chain.tip <= tip
    case Donation(amount) => CanDonate(w, amount)
    case Destruction(amount) => CanDestroy(w, amount)
  }

  ghost function DoLedger(w: World, e: LedgerEvent): World
    requires CanLedger(w, e)
  {
    hide CanDepositProtocolFee, CanWithdrawProtocolFee, CanClaimLostFound, CanExecTransfer, CanFinishTransfer,
         CanSetLimit, CanConfigure, CanConfirm, CanDonate, CanDestroy;
    match e
    case FeeDeposit(amount) => DepositProtocolFee(w, amount)
    case FeeWithdrawal(amount) => WithdrawProtocolFee(w, amount)
    case LostFoundClaim(a) => ClaimLostFound(w, a)
    case TransferAnswer(id, ok) => ExecTransfer(w, id, ok)
    case TransferFinish(id) => FinishTransfer(w, id)
    case LimitChange(a, limit) => SetLimit(w, a, limit)
    case ConfigChange(c) => Configure(w, c)
    case Registration(a) => Register(w, a)
    case Confirmation(t, height) => Confirm(w, t, height)
    case TipAdvance(tip) => AdvanceTip(w, tip)
    case Donation(amount) => Donate(w, amount)
    case Destruction(amount) => Destroy(w, amount)
  }

  ghost predicate Can(w: World, e: Event) {
    match e
    case OfTx(t) => CanTx(w, t)
    case OfDeposit(d) => CanDeposit(w, d)
    case OfLedger(l) => CanLedger(w, l)
  }

  ghost function Do(w: World, e: Event): World
    requires Can(w, e)
  {
    hide CanTx, CanDeposit, CanLedger;
    match e
    case OfTx(t) => DoTx(w, t)
    case OfDeposit(d) => DoDeposit(w, d)
    case OfLedger(l) => DoLedger(w, l)
  }

  // ----- reachable states -----

  /** All steps from states of p lead to states of p. */
  ghost predicate StaysIn(p: World -> bool) {
    forall u, e :: p(u) && Can(u, e) ==> p(Do(u, e))
  }

  ghost predicate StartsIn(p: World -> bool) {
    forall u :: Init(u) ==> p(u)
  }

  /** v lies in every set of states that contains w and that no step leaves. */
  ghost predicate Reaches(w: World, v: World) {
    forall p: World -> bool :: p(w) && StaysIn(p) ==> p(v)
  }

  /** w lies in every set of states that contains every freshly deployed bridge and that no step leaves. */
  ghost predicate Reachable(w: World) {
    forall p: World -> bool :: StartsIn(p) && StaysIn(p) ==> p(w)
  }

  lemma TxStepKeepsInv(w: World, e: TxEvent)
    requires Inv(w) && CanTx(w, e)
    ensures Inv(DoTx(w, e))
  {
    hide Inv, CanWithdraw, CanManage, CanAskSignature, CanSignInput, CanSignAwayOrphan, CanWithdrawRbf,
         CanCancelWithdraw, CanManageRbf, CanCancelManage, CanClear, CanAskSpend, CanStartBurn, CanExecBurn,
         CanFinishBurn, CanFailBurn, WithdrawRequest, Manage, AskSignature, Sign, Drop, WithdrawRbf, CancelWithdraw,
         ManageRbf, CancelManage, Clear, AskSpend, StartBurn, ExecBurn, FinishBurn, FailBurn;
    match e
    case Withdrawal(a, amount, target, t, gas, u, now) => WithdrawRequestKeepsInv(w, a, amount, target, t, gas, u, now);
    case Management(a, t, now) => ManageKeepsInv(w, a, t, now);
    case SignatureQuestion(t, i) => AskSignatureKeepsInv(w, t, i);
    case Signature(t, i, a) => SignKeepsInv(w, t, i, a);
    case OrphanSigning(t) => SignAwayKeepsInv(w, t);
    case WithdrawalRbf(a, t, outputs, u, now) => WithdrawRbfKeepsInv(w, a, t, outputs, u, now);
    case WithdrawalCancel(t, outputs, isDao, now) => CancelWithdrawKeepsInv(w, t, outputs, isDao, now);
    case ManagementRbf(a, t, outputs, now) => ManageRbfKeepsInv(w, a, t, outputs, now);
    case ManagementCancel(t, outputs, now) => CancelManageKeepsInv(w, t, outputs, now);
    case Clearing(t) => ClearKeepsInv(w, t);
    case SpendQuestion(t, delta) => AskSpendKeepsInv(w, t, delta);
    case BurnStart(t, purpose, n) => StartBurnKeepsInv(w, t, purpose, n);
    case BurnAnswer(id, ok) => ExecBurnKeepsInv(w, id, ok);
    case BurnFinish(id) => FinishBurnKeepsInv(w, id);
    case BurnFailure(id) => FailBurnKeepsInv(w, id);
  }

  lemma DepositStepKeepsInv(w: World, e: DepositEvent)
    requires Inv(w) && CanDeposit(w, e)
    ensures Inv(DoDeposit(w, e))
  {
    hide Inv, CanAskDeposit, CanAcceptDeposit, CanExecMint, CanFinishMint, CanExecSafeBurn, CanAskRefund,
         CanRequestRefund, CanRejectRefund, CanExecuteRefund, CanFinishRefund, CanRemoveRefund, Ask, AcceptDeposit,
         ExecMint, FinishMint, ExecSafeBurn, RequestRefund, RejectRefund, ExecuteRefund, FinishRefund, Drop;
    match e
    case DepositQuestion(d) => AskDepositKeepsInv(w, d);
    case DepositAcceptance(d) => AcceptDepositKeepsInv(w, d);
    case MintAnswer(id, minted, kept) => ExecMintKeepsInv(w, id, minted, kept);
    case MintFinish(id) => FinishMintKeepsInv(w, id);
    case SafeBurn(id) => ExecSafeBurnKeepsInv(w, id);
    case RefundQuestion(r) => AskRefundKeepsInv(w, r);
    case RefundAcceptance(r, now) => RequestRefundKeepsInv(w, r, now);
    case RefundRejection(k, privileged) => RejectRefundKeepsInv(w, k, privileged);
    case RefundExecution(k, a, privileged, now) => ExecuteRefundKeepsInv(w, k, a, privileged, now);
    case RefundConfirmation(t, n) => FinishRefundKeepsInv(w, t, n);
    case RefundRemoval(t) => RemoveRefundKeepsInv(w, t);
  }

  lemma LedgerStepKeepsInv(w: World, e: LedgerEvent)
    requires Inv(w) && CanLedger(w, e)
    ensures Inv(DoLedger(w, e))
  {
    hide Inv, CanDepositProtocolFee, CanWithdrawProtocolFee, CanClaimLostFound, CanExecTransfer, CanFinishTransfer,
         CanSetLimit, CanConfigure, CanConfirm, CanDonate, CanDestroy, DepositProtocolFee, WithdrawProtocolFee,
         ClaimLostFound, ExecTransfer, FinishTransfer, SetLimit, Configure, Register, Confirm, AdvanceTip, Donate,
         Destroy;
    match e
    case FeeDeposit(amount) => DepositProtocolFeeKeepsInv(w, amount);
    case FeeWithdrawal(amount) => WithdrawProtocolFeeKeepsInv(w, amount);
    case LostFoundClaim(a) => ClaimLostFoundKeepsInv(w, a);
    case TransferAnswer(id, ok) => ExecTransferKeepsInv(w, id, ok);
    case TransferFinish(id) => FinishTransferKeepsInv(w, id);
    case LimitChange(a, limit) => SetLimitKeepsInv(w, a, limit);
    case ConfigChange(c) => ConfigureKeepsInv(w, c);
    case Registration(a) => RegisterKeepsInv(w, a);
    case Confirmation(t, height) => ConfirmKeepsInv(w, t, height);
    case TipAdvance(tip) => AdvanceTipKeepsInv(w, tip);
    case Donation(amount) => DonateKeepsInv(w, amount);
    case Destruction(amount) => DestroyKeepsInv(w, amount);
  }

  /** Each step keeps the invariant. */
  lemma StepKeepsInv(w: World, e: Event)
    requires Inv(w) && Can(w, e)
    ensures Inv(Do(w, e))
  {
    hide Inv, CanTx, CanDeposit, CanLedger, DoTx, DoDeposit, DoLedger;
    match e
    case OfTx(t) => TxStepKeepsInv(w, t);
    case OfDeposit(d) => DepositStepKeepsInv(w, d);
    case OfLedger(l) => LedgerStepKeepsInv(w, l);
  }

  /** The invariant holds in every reachable state. */
  lemma ReachableKeepsInv(w: World)
    requires Reachable(w)
    ensures Inv(w)
  {
    hide Inv, Init, Can, Do;
    var p := (u: World) => Inv(u);
    forall u | Init(u) ensures p(u) {
      InitHolds(u);
    }
    forall u, e | p(u) && Can(u, e) ensures p(Do(u, e)) {
      StepKeepsInv(u, e);
    }
    assert StartsIn(p) && StaysIn(p);
    assert p(w);
  }

  lemma StartIsReachable(w: World)
    requires Init(w)
    ensures Reachable(w)
  {
    hide Init, StaysIn;
  }

  lemma ReachableStays(w: World, v: World)
    requires Reachable(w) && Reaches(w, v)
    ensures Reachable(v)
  {
    hide StartsIn, StaysIn;
    forall p: World -> bool | StartsIn(p) && StaysIn(p) ensures p(v) {
      assert p(w);
    }
  }

  lemma StepReaches(w: World, e: Event)
    requires Can(w, e)
    ensures Reaches(w, Do(w, e))
  {
    hide Can, Do;
  }

  lemma StepStaysReachable(w: World, e: Event)
    requires Reachable(w) && Can(w, e)
    ensures Reachable(Do(w, e))
  {
    hide Reachable, Reaches, Can, Do;
    StepReaches(w, e);
    ReachableStays(w, Do(w, e));
  }

  lemma TxStepStaysReachable(w: World, e: TxEvent)
    requires Reachable(w) && CanTx(w, e)
    ensures Reachable(DoTx(w, e))
  {
    hide Reachable, CanTx, DoTx;
    StepStaysReachable(w, OfTx(e));
  }

  lemma DepositStepStaysReachable(w: World, e: DepositEvent)
    requires Reachable(w) && CanDeposit(w, e)
    ensures Reachable(DoDeposit(w, e))
  {
    hide Reachable, CanDeposit, DoDeposit;
    StepStaysReachable(w, OfDeposit(e));
  }

  lemma LedgerStepStaysReachable(w: World, e: LedgerEvent)
    requires Reachable(w) && CanLedger(w, e)
    ensures Reachable(DoLedger(w, e))
  {
    hide Reachable, CanLedger, DoLedger;
    StepStaysReachable(w, OfLedger(e));
  }

  // ----- the same in terms of sequences of events -----

  ghost predicate CanRun(w: World, events: seq<Event>)
    decreases |events|, 0
  {
    events == [] || (CanRun(w, events[..|events| - 1]) && Can(Run(w, events[..|events| - 1]), events[|events| - 1]))
  }

  ghost function Run(w: World, events: seq<Event>): World
    requires CanRun(w, events)
    decreases |events|, 1
  {
    if events == [] then w else Do(Run(w, events[..|events| - 1]), events[|events| - 1])
  }

  ghost predicate Leads(w: World, events: seq<Event>, v: World) {
    CanRun(w, events) && Run(w, events) == v
  }

  lemma EmptyRunLeads(w: World)
    ensures Leads(w, [], w)
  {
  }

  lemma LongerRunLeads(w: World, events: seq<Event>, u: World, e: Event)
    requires Leads(w, events, u) && Can(u, e)
    ensures Leads(w, events + [e], Do(u, e))
  {
    hide Can, Do;
    var more := events + [e];
    assert more[..|more| - 1] == events;
  }

  lemma {:induction false} RunReaches(w: World, events: seq<Event>)
    requires CanRun(w, events)
    ensures Reaches(w, Run(w, events))
    decreases |events|
  {
    hide Can, Do;
    if events == [] {
    } else {
      var before := events[..|events| - 1];
      RunReaches(w, before);
      forall p: World -> bool | p(w) && StaysIn(p) ensures p(Run(w, events)) {
        assert p(Run(w, before));
      }
    }
  }

  lemma ReachedIsLedTo(w: World, v: World)
    requires Reaches(w, v)
    ensures exists events :: Leads(w, events, v)
  {
    hide Can, Do, Leads;
    var p := (u: World) => exists events :: Leads(w, events, u);
    EmptyRunLeads(w);
    forall u, e | p(u) && Can(u, e) ensures p(Do(u, e)) {
      var events :| Leads(w, events, u);
      LongerRunLeads(w, events, u, e);
    }
    assert StaysIn(p) && p(w);
    assert p(v);
  }

  /** v is reached from w exactly when some sequence of events leads from w to v. */
  lemma ReachedByRuns(w: World, v: World)
    ensures Reaches(w, v) <==> exists events :: Leads(w, events, v)
  {
    hide Can, Do, Reaches;
    if Reaches(w, v) {
      ReachedIsLedTo(w, v);
    }
    if events: seq<Event> :| Leads(w, events, v) {
      RunReaches(w, events);
    }
  }

  ghost predicate Deploys(start: World, w: World) {
    Init(start) && Reaches(start, w)
  }

  lemma ReachableIsDeployed(w: World)
    requires Reachable(w)
    ensures exists start :: Deploys(start, w)
  {
    hide Can, Do, Init, Reaches;
    var p := (u: World) => exists start :: Deploys(start, u);
    forall u | Init(u) ensures p(u) {
      ReachesItself(u);
      assert Deploys(u, u);
    }
    forall u, e | p(u) && Can(u, e) ensures p(Do(u, e)) {
      var start :| Deploys(start, u);
      ReachesFurther(start, u, e);
      assert Deploys(start, Do(u, e));
    }
    assert StartsIn(p) && StaysIn(p);
    assert p(w);
  }

  lemma ReachesItself(w: World)
    ensures Reaches(w, w)
  {
  }

  lemma ReachesFurther(w: World, u: World, e: Event)
    requires Reaches(w, u) && Can(u, e)
    ensures Reaches(w, Do(u, e))
  {
    hide Can, Do;
    forall p: World -> bool | p(w) && StaysIn(p) ensures p(Do(u, e)) {
      assert p(u);
    }
  }

  ghost predicate DeploysByRun(start: World, events: seq<Event>, w: World) {
    Init(start) && Leads(start, events, w)
  }

  /** A state is reachable exactly when some run of a freshly deployed bridge ends in it. */
  lemma ReachableByRuns(w: World)
    ensures Reachable(w) <==> exists start, events :: DeploysByRun(start, events, w)
  {
    hide Reachable, Reaches, Init, Leads;
    if Reachable(w) {
      ReachableIsDeployed(w);
      var start :| Deploys(start, w);
      ReachedByRuns(start, w);
      var events :| Leads(start, events, w);
      assert DeploysByRun(start, events, w);
    }
    if start: World, events: seq<Event> :| DeploysByRun(start, events, w) {
      ReachedByRuns(start, w);
      StartIsReachable(start);
      ReachableStays(start, w);
    }
  }
}
