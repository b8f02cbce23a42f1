/**
 * Which requests the bridge accepts, exactly: those for which a record on the terms can be made, and for which there is
 * room. So no check is missing, and none turns an honest request away.
 */
module Acceptance {
  import opened Wrappers
  import opened Sums
  import opened Bitcoin
  import opened BlockAmounts
  import opened Configuration
  import opened Psbt
  import opened BridgeState
  import opened Effects
  import opened Steps
  import opened Invariants
  import opened Runs
  import opened Terms
  import opened RecordOrigins
  import opened BurnOrigins
  import opened Guards
  import opened Completion

  // ----- the outputs of a withdrawal -----

  lemma {:induction false} NonePaid(outputs: seq<TxOut>, target: Script)
    requires forall j :: 0 <= j < |outputs| ==> outputs[j].script != target
    ensures CountTo(outputs, target) == 0 && PaidTo(outputs, target) == 0
  {
    if outputs == [] {
    } else {
      NonePaid(outputs[..|outputs| - 1], target);
    }
  }

  lemma {:induction false} OnePaymentCounts(outputs: seq<TxOut>, k: nat, target: Script, value: nat)
    requires k < |outputs| && IsThePayment(outputs, k, target, value)
    ensures CountTo(outputs, target) == 1 && PaidTo(outputs, target) == value
  {
    var before := outputs[..|outputs| - 1];
    if k == |outputs| - 1 {
      NonePaid(before, target);
    } else {
      OnePaymentCounts(before, k, target, value);
    }
  }

  lemma {:induction false} LeastIsAbove(coins: seq<nat>, value: nat)
    requires value < U128_MAX && forall k :: 0 <= k < |coins| ==> value < coins[k]
    ensures value < MinOf(coins)
  {
    if coins == [] {
    } else {
      LeastIsAbove(coins[..|coins| - 1], value);
    }
  }

  lemma {:induction false} PartOfTotal(outputs: seq<TxOut>, j: nat)
    requires j < |outputs|
    ensures outputs[j].value <= TotalOutput(outputs)
  {
    if j == |outputs| - 1 {
    } else {
      PartOfTotal(outputs[..|outputs| - 1], j);
    }
  }

  lemma DeliveryAllowsOutput(c: Config, coins: seq<nat>, outputs: seq<TxOut>, target: Script, amount: nat, fee: nat,
                             unrestricted: bool, received: nat, gas: nat, j: nat)
    requires Delivers(c, coins, outputs, target, amount, fee, unrestricted, received, gas) && j < |outputs|
    requires SumSeq(coins) <= U128_MAX
    ensures OutputAllowed(c, outputs[j], target, MinOf(coins), unrestricted)
  {
    if outputs[j].script != target && !unrestricted {
      PartOfTotal(outputs, j);
      LeastIsAbove(coins, outputs[j].value);
    }
  }

  lemma DeliveryIsAccepted(c: Config, coins: seq<nat>, outputs: seq<TxOut>, target: Script, amount: nat, fee: nat,
                           unrestricted: bool, received: nat, gas: nat)
    requires Delivers(c, coins, outputs, target, amount, fee, unrestricted, received, gas)
    requires SumSeq(coins) <= U128_MAX
    ensures AcceptsWithdrawal(c, coins, outputs, target, amount, fee, unrestricted)
    ensures received == PaidTo(outputs, target) && gas == GasFee(coins, outputs)
  {
    forall j | 0 <= j < |outputs| ensures OutputAllowed(c, outputs[j], target, MinOf(coins), unrestricted) {
      DeliveryAllowsOutput(c, coins, outputs, target, amount, fee, unrestricted, received, gas, j);
    }
    hide OutputAllowed, IsThePayment;
    var k :| 0 <= k < |outputs| && IsThePayment(outputs, k, target, received);
    OnePaymentCounts(outputs, k, target, received);
    PaymentLeavesChange(outputs, k, target, received);
  }

  lemma PaymentLeavesChange(outputs: seq<TxOut>, k: nat, target: Script, value: nat)
    requires k < |outputs| && IsThePayment(outputs, k, target, value)
    ensures ChangeNumber(outputs, target) == |outputs| - 1
  {
    OnePaymentCounts(outputs, k, target, value);
    if target != ChangeScript {
      ChangeIsTheRest(outputs, target);
    } else {
      AllPayTarget(outputs, target);
    }
  }

  /**
   * The check of a withdrawal's outputs accepts exactly what delivers the amount: one payment, the gas within its
   * range, and sound change. Amounts of 64 bits never add up to 128 bits, as the coins here must not.
   */
  lemma DeliveryIsAcceptedExactly(c: Config, coins: seq<nat>, outputs: seq<TxOut>, target: Script, amount: nat, fee: nat,
                                  unrestricted: bool)
    requires SumSeq(coins) <= U128_MAX
    ensures AcceptsWithdrawal(c, coins, outputs, target, amount, fee, unrestricted) <==>
      exists received: nat, gas: nat :: Delivers(c, coins, outputs, target, amount, fee, unrestricted, received, gas)
  {
    if AcceptsWithdrawal(c, coins, outputs, target, amount, fee, unrestricted) {
      AcceptedDelivers(c, coins, outputs, target, amount, fee, unrestricted);
    }
    hide AcceptsWithdrawal, Delivers;
    forall received: nat, gas: nat | Delivers(c, coins, outputs, target, amount, fee, unrestricted, received, gas)
      ensures AcceptsWithdrawal(c, coins, outputs, target, amount, fee, unrestricted)
    {
      DeliveryIsAccepted(c, coins, outputs, target, amount, fee, unrestricted, received, gas);
    }
  }

  // ----- new transactions -----

  /** The transaction spends coins of the bridge, each once; it is new, and its account may have one more signed. */
  ghost predicate HasRoom(w: World, account: AccountId, t: Tx) {
    && t == NewTx(t.inputs, t.outputs) && t.inputs != []
    && CanTake(w.coins.utxos, t.inputs)
    && t !in w.book.infos
    && HasSignCapacity(w.book, account)
  }

  ghost predicate OnTerms(w: World, e: Event, t: Tx, coins: seq<nat>) {
    exists i: Info :: i.coins == coins && Creates(w, e, t, i)
  }

  lemma WithdrawalIsAcceptedExactly(w: World, sender: AccountId, amount: nat, target: Script, t: Tx,
                                    maxGasFee: Option<nat>, unrestricted: bool, now: nat)
    requires Reachable(w)
    requires CanTake(w.coins.utxos, t.inputs) ==> SumSeq(Taken(w.coins.utxos, t.inputs)) <= U128_MAX
    ensures CanWithdraw(w, sender, amount, target, t, maxGasFee, unrestricted) <==>
      && Arrives(w, amount) && HasRoom(w, sender, t) && Steers(w, t, target)
      && OnTerms(w, OfTx(Withdrawal(sender, amount, target, t, maxGasFee, unrestricted, now)), t,
                 Taken(w.coins.utxos, t.inputs))
  {
    hide Reachable, Steers, WithinWithdrawLimits, AcceptsWithdrawal, IsFee, HasSignCapacity, CarriesOver, PaidTo, GasFee,
         Delivers;
    var e := OfTx(Withdrawal(sender, amount, target, t, maxGasFee, unrestricted, now));
    if CanWithdraw(w, sender, amount, target, t, maxGasFee, unrestricted) {
      WithdrawalCreates(w, sender, amount, target, t, maxGasFee, unrestricted, now);
      WithdrawLimitsSteerExactly(w, amount, w.cfg.withdrawFee.GetFee(amount), target, t, maxGasFee, unrestricted);
      assert Creates(w, e, t, WithdrawRequest(w, sender, amount, target, t, maxGasFee, unrestricted, now).book.infos[t]);
    }
    if HasRoom(w, sender, t) && OnTerms(w, e, t, Taken(w.coins.utxos, t.inputs)) {
      var i: Info :| i.coins == Taken(w.coins.utxos, t.inputs) && Creates(w, e, t, i);
      ChargedFeeIsDue(w.cfg.withdrawFee, amount);
      FeeDueIsUnique(w.cfg.withdrawFee, amount, i.withdrawFee, w.cfg.withdrawFee.GetFee(amount));
      DeliveryIsAccepted(w.cfg, i.coins, t.outputs, target, amount, i.withdrawFee, unrestricted, i.received, i.gasFee);
      WithdrawLimitsSteerExactly(w, amount, i.withdrawFee, target, t, maxGasFee, unrestricted);
      DeliveryPays(w.cfg, t, i, target, unrestricted);
    }
  }

  lemma DeliveryPays(c: Config, t: Tx, i: Info, target: Script, unrestricted: bool)
    requires WithdrawalTerms(c, t, i, target, unrestricted)
    ensures t.outputs != []
  {
  }

  lemma ManagementIsAcceptedExactly(w: World, account: AccountId, t: Tx, now: nat)
    ensures CanManage(w, account, t) <==>
      && t.outputs != [] && HasRoom(w, account, t)
      && OnTerms(w, OfTx(Management(account, t, now)), t, Taken(w.coins.utxos, t.inputs))
  {
    hide HasSignCapacity, CarriesOver;
    if CanManage(w, account, t) {
      ManagementCreates(w, account, t, now);
      assert Creates(w, OfTx(Management(account, t, now)), t, Manage(w, account, t, now).book.infos[t]);
    }
  }

  // ----- replacements -----

  /** The replacement is new, its account exists and may have one more signed, and the fee for its reserve is there. */
  ghost predicate HasRoomBeside(w: World, o: Tx, c: Tx, reserve: int) {
    && o in w.book.infos
    && c !in w.book.infos
    && w.book.infos[o].account in w.book.accounts
    && HasSignCapacity(w.book, w.book.infos[o].account)
    && reserve <= w.fees.available
  }

  ghost predicate ReplacesOnTerms(w: World, e: Event, c: Tx) {
    exists i: Info :: Creates(w, e, c, i)
  }

  /** A candidate of a family is on record, so what is not on record is no candidate. */
  lemma NoCandidateYet(w: World, o: Tx, c: Tx)
    requires Reachable(w) && c !in w.book.infos
    ensures c !in Candidates(w.book.rbf, o)
  {
    hide Reachable, ConfigOk, FeesOk, ReserveOk, InfosOk, FamiliesOk, OrphansOk, AccountsOk, BurnsOk, PlacesOk, ListedOk,
         RootsListed, LiveOk, ConsumersSpend, RefundsOk, MintsOk, ChainOk, AskedOk, Backed, Covered;
    ReachableKeepsInv(w);
  }

  lemma WithdrawalRbfIsAcceptedExactly(w: World, account: AccountId, o: Tx, outputs: seq<TxOut>, unrestricted: bool,
                                       now: nat)
    requires Reachable(w) && (o in w.book.infos ==> SumSeq(w.book.infos[o].coins) <= U128_MAX)
    ensures CanWithdrawRbf(w, account, o, outputs, unrestricted, now) <==>
      && HasRoomBeside(w, o, ReplacementTx(o, outputs), 0)
      && ReplacesOnTerms(w, OfTx(WithdrawalRbf(account, o, outputs, unrestricted, now)), ReplacementTx(o, outputs))
  {
    hide Reachable, HasSignCapacity, AcceptsWithdrawal, CarriesOver, PaidTo, GasFee, Delivers, Candidates;
    var e, c := OfTx(WithdrawalRbf(account, o, outputs, unrestricted, now)), ReplacementTx(o, outputs);
    if CanWithdrawRbf(w, account, o, outputs, unrestricted, now) {
      WithdrawalRbfCreates(w, account, o, outputs, unrestricted, now);
      assert Creates(w, e, c, WithdrawRbf(w, account, o, outputs, unrestricted, now).book.infos[c]);
    }
    if HasRoomBeside(w, o, c, 0) && ReplacesOnTerms(w, e, c) {
      var i: Info :| Creates(w, e, c, i);
      NoCandidateYet(w, o, c);
      DeliveryIsAccepted(w.cfg, i.coins, outputs, RecipientOf(o.outputs).value, i.transferAmount, i.withdrawFee,
                         unrestricted, i.received, i.gasFee);
    }
  }

  lemma WithdrawalCancelIsAcceptedExactly(w: World, o: Tx, outputs: seq<TxOut>, isDao: bool, now: nat)
    requires Reachable(w)
    ensures CanCancelWithdraw(w, o, outputs, isDao, now) <==>
      && o in w.book.infos
      && HasRoomBeside(w, o, ReplacementTx(o, outputs),
                       GasBeyondFunds(w.book.infos[o], outputs) - ReserveOf(w.book.infos[o]))
      && ReplacesOnTerms(w, OfTx(WithdrawalCancel(o, outputs, isDao, now)), ReplacementTx(o, outputs))
  {
    hide Reachable, HasSignCapacity, CarriesOver, Candidates;
    var e, c := OfTx(WithdrawalCancel(o, outputs, isDao, now)), ReplacementTx(o, outputs);
    if CanCancelWithdraw(w, o, outputs, isDao, now) {
      WithdrawalCancelCreates(w, o, outputs, isDao, now);
      assert Creates(w, e, c, CancelWithdraw(w, o, outputs, isDao, now).book.infos[c]);
    }
    if o in w.book.infos && c !in w.book.infos && ReplacesOnTerms(w, e, c) {
      NoCandidateYet(w, o, c);
      FeeIsPartOfTransfer(w, o);
    }
  }

  lemma FeeIsPartOfTransfer(w: World, o: Tx)
    requires Reachable(w) && o in w.book.infos && w.book.infos[o].purpose.Withdraw? && w.book.infos[o].role.Original?
    ensures w.book.infos[o].withdrawFee <= w.book.infos[o].transferAmount
  {
    hide Reachable, ConfigOk, FeesOk, ReserveOk, FamiliesOk, IndexOk, OrphansOk, AccountsOk, BurnsOk, PlacesOk, ListedOk,
         RootsListed, LiveOk, ConsumersSpend, RefundsOk, MintsOk, ChainOk, AskedOk, Backed, Covered;
    ReachableKeepsInv(w);
    assert InfoOk(o, w.book.infos[o]);
  }

  /** The reserve of active management grows by the gas beyond the most that any of the family pays so far. */
  function MoreGas(original: Info, outputs: seq<TxOut>): int {
    SumSeq(original.coins) - TotalOutput(outputs) - ReserveOf(original)
  }

  lemma ManagementRbfIsAcceptedExactly(w: World, account: AccountId, o: Tx, outputs: seq<TxOut>, now: nat)
    requires Reachable(w)
    ensures CanManageRbf(w, account, o, outputs, now) <==>
      && o in w.book.infos && HasRoomBeside(w, o, ReplacementTx(o, outputs), MoreGas(w.book.infos[o], outputs))
      && ReplacesOnTerms(w, OfTx(ManagementRbf(account, o, outputs, now)), ReplacementTx(o, outputs))
  {
    hide Reachable, HasSignCapacity, CarriesOver, Candidates;
    var e, c := OfTx(ManagementRbf(account, o, outputs, now)), ReplacementTx(o, outputs);
    if CanManageRbf(w, account, o, outputs, now) {
      ManagementRbfCreates(w, account, o, outputs, now);
      assert Creates(w, e, c, ManageRbf(w, account, o, outputs, now).book.infos[c]);
    }
    if c !in w.book.infos && ReplacesOnTerms(w, e, c) {
      NoCandidateYet(w, o, c);
    }
  }

  lemma ManagementCancelIsAcceptedExactly(w: World, o: Tx, outputs: seq<TxOut>, now: nat)
    requires Reachable(w)
    ensures CanCancelManage(w, o, outputs, now) <==>
      && o in w.book.infos && HasRoomBeside(w, o, ReplacementTx(o, outputs), MoreGas(w.book.infos[o], outputs))
      && ReplacesOnTerms(w, OfTx(ManagementCancel(o, outputs, now)), ReplacementTx(o, outputs))
  {
    hide Reachable, HasSignCapacity, CarriesOver, Candidates;
    var e, c := OfTx(ManagementCancel(o, outputs, now)), ReplacementTx(o, outputs);
    if CanCancelManage(w, o, outputs, now) {
      ManagementCancelCreates(w, o, outputs, now);
      assert Creates(w, e, c, CancelManage(w, o, outputs, now).book.infos[c]);
    }
    if c !in w.book.infos && ReplacesOnTerms(w, e, c) {
      NoCandidateYet(w, o, c);
    }
  }

  // ----- questions and refunds -----

  lemma SpendIsAskedExactly(w: World, t: Tx, delta: nat)
    requires Reachable(w)
    ensures CanAskSpend(w, t, delta) <==>
      && t in w.book.infos && w.book.infos[t].stage.PendingVerify?
      && exists n :: SpendTerms(w, t, delta, w.book.infos[t].purpose, n)
  {
    hide Reachable;
    if CanAskSpend(w, t, delta) {
      RootIsKept(w, t);
      assert SpendTerms(w, t, delta, w.book.infos[t].purpose, SpendConfirmations(w.cfg, w.book.infos[t], delta));
    }
  }

  /** Any input that still needs a signature may be signed next. */
  lemma SignatureIsAskedExactly(w: World, t: Tx, i: nat)
    ensures CanAskSignature(w, t, i) <==>
      && t in w.book.infos && w.book.infos[t].stage.PendingSign?
      && Asks(w, OfTx(SignatureQuestion(t, i)), SignatureOf(t, i, w.book.infos[t].account))
  {
  }

  /** A burn starts as soon as the transaction is the last of as many blocks as were asked for. */
  lemma BurnStartsExactly(w: World, t: Tx, purpose: Purpose, n: nat)
    requires Reachable(w) && SpendCheck(t, purpose, n) in w.flight.asked && !purpose.Refund?
    ensures CanStartBurn(w, t, purpose, n) <==>
      && t in w.book.infos && w.book.infos[t].stage.PendingVerify?
      && t in w.chain.confirmed && w.chain.confirmed[t] + n <= w.chain.tip + 1
  {
    hide Reachable;
    if t in w.chain.confirmed {
      ConfirmedBelowTip(w, t);
    }
  }

  lemma RootIsKept(w: World, t: Tx)
    requires t in w.book.infos && !IsOrphan(w, t)
    ensures Root(t, w.book.infos[t]) in w.book.infos
  {
  }

  lemma RefundIsRequestedExactly(w: World, q: RefundClaim, now: nat)
    requires Reachable(w) && w.cfg.tiers != map[]
    ensures CanRequestRefund(w, q) <==>
      && RefundCheck(q) in w.flight.asked
      && exists r :: Requests(w, OfDeposit(RefundAcceptance(q, now)), q.op, r)
  {
    hide Reachable, RequiresConfirmations, MaxRequiredConfirmations, ValidConfig;
    var e := OfDeposit(RefundAcceptance(q, now));
    if CanRequestRefund(w, q) {
      RequestMeetsTerms(w, q, now);
      assert Requests(w, e, q.op, RequestRefund(w, q, now).coins.refunds[q.op]);
    }
    if exists r :: Requests(w, e, q.op, r) {
      ConfigIsValid(w);
      var n := RefundsAreNotDeeper(w.cfg);
    }
  }

  lemma RefundIsExecutedExactly(w: World, k: OutPoint, caller: AccountId, privileged: bool, now: nat)
    ensures CanExecuteRefund(w, k, caller, privileged, now) <==>
      && RefundIsOpen(w, k, caller)
      && exists t, i: Info :: Creates(w, OfDeposit(RefundExecution(k, caller, privileged, now)), t, i)
  {
    hide HasSignCapacity;
    if CanExecuteRefund(w, k, caller, privileged, now) {
      var t := RefundTx(k, w.coins.refunds[k]);
      RefundCreates(w, k, caller, privileged, now);
      assert Creates(w, OfDeposit(RefundExecution(k, caller, privileged, now)), t,
                     ExecuteRefund(w, k, caller, privileged, now).book.infos[t]);
    }
  }
}
