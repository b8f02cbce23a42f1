/** Every pending transaction, burn and refund request goes back to the request that created it, on its terms. */
module RecordOrigins {
  import opened Wrappers
  import opened Bitcoin
  import opened BlockAmounts
  import opened Configuration
  import opened Psbt
  import opened BridgeState
  import opened Effects
  import opened Steps
  import opened Invariants
  import opened Runs
  import opened Terms
  import opened Origins

  // ----- the outputs of accepted transactions -----

  lemma {:induction false} OnePayment(outputs: seq<TxOut>, target: Script)
    requires CountTo(outputs, target) == 1
    requires forall j :: 0 <= j < |outputs| ==> outputs[j].script == target || outputs[j].script == ChangeScript
    ensures PaysOnce(outputs, target, PaidTo(outputs, target))
  {
    var before, last := outputs[..|outputs| - 1], outputs[|outputs| - 1];
    if last.script == target {
      CountedIsPresent(before, target);
      NothingPaid(before, target);
      forall j | 0 <= j < |before| ensures outputs[j].script != target {
        assert before[j].script != target;
      }
      assert IsThePayment(outputs, |outputs| - 1, target, PaidTo(outputs, target));
    } else {
      OnePayment(before, target);
      var k :| 0 <= k < |before| && IsThePayment(before, k, target, PaidTo(before, target));
      assert forall j :: 0 <= j < |before| ==> outputs[j] == before[j];
      assert IsThePayment(outputs, k, target, PaidTo(outputs, target));
    }
  }

  lemma {:induction false} NothingPaid(outputs: seq<TxOut>, script: Script)
    requires CountTo(outputs, script) == 0
    ensures PaidTo(outputs, script) == 0
  {
    if outputs == [] {
    } else {
      NothingPaid(outputs[..|outputs| - 1], script);
    }
  }

  lemma {:induction false} MinIsLeast(coins: seq<nat>, value: nat)
    requires value < MinOf(coins)
    ensures forall k :: 0 <= k < |coins| ==> value < coins[k]
  {
    if coins == [] {
    } else {
      var before := coins[..|coins| - 1];
      MinIsLeast(before, value);
      forall k | 0 <= k < |coins| ensures value < coins[k] {
        assert k < |before| ==> before[k] == coins[k];
      }
    }
  }

  /** Every output that does not pay the one target is change. */
  lemma {:induction false} ChangeIsTheRest(outputs: seq<TxOut>, target: Script)
    requires target != ChangeScript
    requires forall j :: 0 <= j < |outputs| ==> outputs[j].script == target || outputs[j].script == ChangeScript
    ensures CountTo(outputs, target) + CountTo(outputs, ChangeScript) == |outputs|
  {
    if outputs == [] {
    } else {
      ChangeIsTheRest(outputs[..|outputs| - 1], target);
    }
  }

  lemma AcceptedChangeIsSound(c: Config, coins: seq<nat>, outputs: seq<TxOut>, target: Script, amount: nat, fee: nat,
                              unrestricted: bool)
    requires AcceptsWithdrawal(c, coins, outputs, target, amount, fee, unrestricted)
    ensures ChangeIsSound(c, coins, outputs, target, unrestricted)
    ensures ChangeNumber(outputs, target) == |outputs| - 1
  {
    hide GasFee, PaidTo;
    assert forall j :: 0 <= j < |outputs| ==> OutputAllowed(c, outputs[j], target, MinOf(coins), unrestricted);
    if target != ChangeScript {
      ChangeIsTheRest(outputs, target);
    } else {
      AllPayTarget(outputs, target);
    }
    forall j | 0 <= j < |outputs| && outputs[j].script != target
      ensures !unrestricted ==> forall k :: 0 <= k < |coins| ==> outputs[j].value < coins[k]
    {
      if !unrestricted {
        MinIsLeast(coins, outputs[j].value);
      }
    }
  }

  lemma {:induction false} AllPayTarget(outputs: seq<TxOut>, target: Script)
    requires forall j :: 0 <= j < |outputs| ==> outputs[j].script == target
    ensures CountTo(outputs, target) == |outputs|
  {
    if outputs == [] {
    } else {
      AllPayTarget(outputs[..|outputs| - 1], target);
    }
  }

  lemma AcceptedDelivers(c: Config, coins: seq<nat>, outputs: seq<TxOut>, target: Script, amount: nat, fee: nat,
                         unrestricted: bool)
    requires AcceptsWithdrawal(c, coins, outputs, target, amount, fee, unrestricted)
    ensures Delivers(c, coins, outputs, target, amount, fee, unrestricted, PaidTo(outputs, target),
                     GasFee(coins, outputs))
  {
    hide PaysOnce, ChangeIsSound, ChangeNumber;
    assert forall j :: 0 <= j < |outputs| ==> OutputAllowed(c, outputs[j], target, MinOf(coins), unrestricted);
    OnePayment(outputs, target);
    AcceptedChangeIsSound(c, coins, outputs, target, amount, fee, unrestricted);
  }

  // ----- requests create records on their terms -----

  /** Records keep their terms and signatures, but for those dropped and a new one, which is not signed yet. */
  ghost predicate CarriesOver(before: map<Tx, Info>, after: map<Tx, Info>, newest: Tx) {
    && (forall t :: t in after && t != newest ==>
          t in before && SameTerms(before[t], after[t]) && after[t].signatures == before[t].signatures)
    && (newest in after ==> forall k :: 0 <= k < |after[newest].signatures| ==> !after[newest].signatures[k])
  }

  lemma SameTermsAsItself(i: Info)
    ensures SameTerms(i, i)
  {
  }

  lemma ProgressIsNoTerm(i: Info, stage: Stage, signatures: seq<bool>, signedBytes: bool)
    ensures SameTerms(i, i.(stage := stage, signatures := signatures, signedBytes := signedBytes))
  {
  }

  lemma RoleIsNoTerm(i: Info, role: Role)
    requires i.role.Original? && role.Original?
    ensures SameTerms(i, i.(role := role))
  {
  }

  lemma OriginalCarriesOver(w: World, t: Tx, info: Info, shift: nat)
    requires CanAddOriginal(w, t, info, shift) && info.signatures == Unsigned(|info.signatures|)
    ensures CarriesOver(w.book.infos, AddOriginal(w, t, info, shift).book.infos, t)
  {
    hide CanTake, HasSignCapacity, AddSignId, InputSet, ShiftToReserve, SameTerms;
    var before, after := w.book.infos, AddOriginal(w, t, info, shift).book.infos;
    forall s | s in after && s != t ensures s in before && SameTerms(before[s], after[s]) {
      SameTermsAsItself(before[s]);
    }
  }

  lemma ReplacementCarriesOver(w: World, o: Tx, c: Tx, info: Info, role: Role, shift: nat)
    requires CanAddReplacement(w, o, c, info, role, shift) && w.book.infos[o].role.Original? && role.Original?
    requires info.signatures == Unsigned(|info.signatures|)
    ensures CarriesOver(w.book.infos, AddReplacement(w, o, c, info, role, shift).book.infos, c)
  {
    hide HasSignCapacity, AddSignId, Candidates, ShiftToReserve, SameTerms;
    var before, after := w.book.infos, AddReplacement(w, o, c, info, role, shift).book.infos;
    forall t | t in after && t != c ensures t in before && SameTerms(before[t], after[t]) {
      SameTermsAsItself(before[t]);
      RoleIsNoTerm(before[o], role);
    }
  }

  lemma WithdrawalCreates(w: World, sender: AccountId, amount: nat, target: Script, t: Tx, maxGasFee: Option<nat>,
                          unrestricted: bool, now: nat)
    requires CanWithdraw(w, sender, amount, target, t, maxGasFee, unrestricted)
    ensures var v := WithdrawRequest(w, sender, amount, target, t, maxGasFee, unrestricted, now);
      && t in v.book.infos
      && CarriesOver(w.book.infos, v.book.infos, t)
      && Creates(w, OfTx(Withdrawal(sender, amount, target, t, maxGasFee, unrestricted, now)), t, v.book.infos[t])
  {
    hide Delivers, IsFee, HasSignCapacity, AddSignId, AcceptsWithdrawal, InputSet, CarriesOver;
    var v := WithdrawRequest(w, sender, amount, target, t, maxGasFee, unrestricted, now);
    OriginalCarriesOver(w, t, v.book.infos[t], 0);
    ChargedFeeIsDue(w.cfg.withdrawFee, amount);
    AcceptedDelivers(w.cfg, Taken(w.coins.utxos, t.inputs), t.outputs, target, amount,
                     w.cfg.withdrawFee.GetFee(amount), unrestricted);
    AcceptedChangeIsSound(w.cfg, Taken(w.coins.utxos, t.inputs), t.outputs, target, amount,
                          w.cfg.withdrawFee.GetFee(amount), unrestricted);
  }

  lemma ManagementCreates(w: World, account: AccountId, t: Tx, now: nat)
    requires CanManage(w, account, t)
    ensures var v := Manage(w, account, t, now);
      && t in v.book.infos && CarriesOver(w.book.infos, v.book.infos, t)
      && Creates(w, OfTx(Management(account, t, now)), t, v.book.infos[t])
  {
    hide HasSignCapacity, AddSignId, InputSet, CarriesOver;
    var info := Manage(w, account, t, now).book.infos[t];
    OriginalCarriesOver(w, t, info, info.gasFee);
  }

  lemma WithdrawalRbfCreates(w: World, account: AccountId, o: Tx, outputs: seq<TxOut>, unrestricted: bool, now: nat)
    requires CanWithdrawRbf(w, account, o, outputs, unrestricted, now)
    ensures var v := WithdrawRbf(w, account, o, outputs, unrestricted, now); var c := ReplacementTx(o, outputs);
      && c in v.book.infos
      && CarriesOver(w.book.infos, v.book.infos, c)
      && Creates(w, OfTx(WithdrawalRbf(account, o, outputs, unrestricted, now)), c, v.book.infos[c])
  {
    hide Delivers, HasSignCapacity, AddSignId, AcceptsWithdrawal, CarriesOver;
    var v := WithdrawRbf(w, account, o, outputs, unrestricted, now);
    var c := ReplacementTx(o, outputs);
    ReplacementCarriesOver(w, o, c, v.book.infos[c], v.book.infos[o].role, 0);
    var original := w.book.infos[o];
    AcceptedDelivers(w.cfg, original.coins, outputs, RecipientOf(o.outputs).value, original.transferAmount,
                     original.withdrawFee, unrestricted);
  }

  lemma WithdrawalCancelCreates(w: World, o: Tx, outputs: seq<TxOut>, isDao: bool, now: nat)
    requires CanCancelWithdraw(w, o, outputs, isDao, now)
    ensures var v := CancelWithdraw(w, o, outputs, isDao, now); var c := ReplacementTx(o, outputs);
      && c in v.book.infos && CarriesOver(w.book.infos, v.book.infos, c)
      && Creates(w, OfTx(WithdrawalCancel(o, outputs, isDao, now)), c, v.book.infos[c])
  {
    hide HasSignCapacity, AddSignId, CancelledRole, AdditionalReserve, CarriesOver;
    var gas := GasFee(w.book.infos[o].coins, outputs);
    CancelledIsOriginal(w.book.infos[o], gas);
    ReplacementCarriesOver(w, o, ReplacementTx(o, outputs), AllChangeReplacement(w, o, outputs, true, now),
                           CancelledRole(w.book.infos[o], gas), AdditionalReserve(w.book.infos[o], gas));
  }

  lemma CancelledIsOriginal(original: Info, gas: nat)
    requires original.role.Original?
    ensures CancelledRole(original, gas).Original?
  {
  }

  lemma ManagementRbfCreates(w: World, account: AccountId, o: Tx, outputs: seq<TxOut>, now: nat)
    requires CanManageRbf(w, account, o, outputs, now)
    ensures var v := ManageRbf(w, account, o, outputs, now); var c := ReplacementTx(o, outputs);
      && c in v.book.infos && CarriesOver(w.book.infos, v.book.infos, c)
      && Creates(w, OfTx(ManagementRbf(account, o, outputs, now)), c, v.book.infos[c])
  {
    hide HasSignCapacity, AddSignId, CarriesOver;
    var role, gas := w.book.infos[o].role, GasFee(w.book.infos[o].coins, outputs);
    ReplacementCarriesOver(w, o, ReplacementTx(o, outputs), AllChangeReplacement(w, o, outputs, false, now),
                           role.(maxGasFee := gas), gas - role.maxGasFee);
  }

  lemma ManagementCancelCreates(w: World, o: Tx, outputs: seq<TxOut>, now: nat)
    requires CanCancelManage(w, o, outputs, now)
    ensures var v := CancelManage(w, o, outputs, now); var c := ReplacementTx(o, outputs);
      && c in v.book.infos && CarriesOver(w.book.infos, v.book.infos, c)
      && Creates(w, OfTx(ManagementCancel(o, outputs, now)), c, v.book.infos[c])
  {
    hide HasSignCapacity, AddSignId, CarriesOver;
    var role, gas := w.book.infos[o].role, GasFee(w.book.infos[o].coins, outputs);
    ReplacementCarriesOver(w, o, ReplacementTx(o, outputs), AllChangeReplacement(w, o, outputs, true, now),
                           Original(gas, Some(0)), gas - role.maxGasFee);
  }

  lemma RefundCreates(w: World, k: OutPoint, account: AccountId, privileged: bool, now: nat)
    requires CanExecuteRefund(w, k, account, privileged, now)
    ensures var v := ExecuteRefund(w, k, account, privileged, now); var t := RefundTx(k, w.coins.refunds[k]);
      && t in v.book.infos && Creates(w, OfDeposit(RefundExecution(k, account, privileged, now)), t, v.book.infos[t])
  {
    hide HasSignCapacity, AddSignId;
  }

  // ----- every pending transaction -----

  lemma RequestCarriesOver(w: World, e: TxEvent) returns (c: Tx)
    requires CanTx(w, e)
    requires AddsRecord(e)
    ensures CarriesOver(w.book.infos, DoTx(w, e).book.infos, c)
    ensures c in DoTx(w, e).book.infos && Creates(w, OfTx(e), c, DoTx(w, e).book.infos[c])
  {
    hide CanWithdraw, CanManage, CanWithdrawRbf, CanCancelWithdraw, CanManageRbf, CanCancelManage, WithdrawRequest,
         Manage, WithdrawRbf, CancelWithdraw, ManageRbf, CancelManage, Creates, CarriesOver;
    match e
    case Withdrawal(a, amount, target, t, gas, u, now) => WithdrawalCreates(w, a, amount, target, t, gas, u, now); c := t;
    case Management(a, t, now) => ManagementCreates(w, a, t, now); c := t;
    case WithdrawalRbf(a, o, outputs, u, now) =>
      WithdrawalRbfCreates(w, a, o, outputs, u, now); c := ReplacementTx(o, outputs);
    case WithdrawalCancel(o, outputs, isDao, now) =>
      WithdrawalCancelCreates(w, o, outputs, isDao, now); c := ReplacementTx(o, outputs);
    case ManagementRbf(a, o, outputs, now) =>
      ManagementRbfCreates(w, a, o, outputs, now); c := ReplacementTx(o, outputs);
    case ManagementCancel(o, outputs, now) =>
      ManagementCancelCreates(w, o, outputs, now); c := ReplacementTx(o, outputs);
  }

  lemma OtherTxStepCarriesOver(w: World, e: TxEvent, t: Tx)
    requires CanTx(w, e) && !AddsRecord(e) && t in DoTx(w, e).book.infos
    ensures t in w.book.infos && SameTerms(w.book.infos[t], DoTx(w, e).book.infos[t])
  {
    OtherTxStepMovesOn(w, e, t);
    hide CanTx, DoTx, SameTerms;
    var i, j := w.book.infos[t], DoTx(w, e).book.infos[t];
    ProgressIsNoTerm(i, j.stage, j.signatures, j.signedBytes);
  }

  /** Only the progress of a record changed. */
  ghost predicate MovedOn(before: map<Tx, Info>, after: map<Tx, Info>, t: Tx)
    requires t in after
  {
    && t in before
    && var i, j := before[t], after[t];
    j == i.(stage := j.stage, signatures := j.signatures, signedBytes := j.signedBytes)
  }

  lemma BurnStepMovesOn(w: World, e: TxEvent, t: Tx)
    requires CanTx(w, e) && t in DoTx(w, e).book.infos
    requires e.BurnStart? || e.BurnAnswer? || e.BurnFinish? || e.BurnFailure?
    ensures MovedOn(w.book.infos, DoTx(w, e).book.infos, t)
  {
    hide CanWithdraw, CanManage, CanWithdrawRbf, CanCancelWithdraw, CanManageRbf, CanCancelManage, CanClear, CanAskSpend,
         CanExecBurn, CanSettle, DropVerifyId, FreshId, BurnOf, WithChange, Consume, Collect, Release, SpendIsConfirmed,
         WithdrawRequest, Manage, WithdrawRbf, CancelWithdraw, ManageRbf, CancelManage, Sign, Drop, Clear;
  }

  lemma OtherTxStepMovesOn(w: World, e: TxEvent, t: Tx)
    requires CanTx(w, e) && !AddsRecord(e) && t in DoTx(w, e).book.infos
    ensures MovedOn(w.book.infos, DoTx(w, e).book.infos, t)
  {
    hide CanWithdraw, CanManage, CanWithdrawRbf, CanCancelWithdraw, CanManageRbf, CanCancelManage, CanClear, CanAskSpend,
         CanStartBurn, CanExecBurn, CanFinishBurn, CanFailBurn, AllSigned, DropIds, DropSignId, WithdrawRequest, Manage,
         WithdrawRbf, CancelWithdraw, ManageRbf, CancelManage, StartBurn, ExecBurn, FinishBurn, FailBurn,
         SpendConfirmations;
    if e.BurnStart? || e.BurnAnswer? || e.BurnFinish? || e.BurnFailure? {
      BurnStepMovesOn(w, e, t);
    } else if e.Signature? {
      hide Ask, Drop, Clear;
    } else {
      hide Sign;
    }
  }

  lemma DepositStepCarriesOver(w: World, e: DepositEvent, t: Tx)
    requires CanDeposit(w, e) && t in DoDeposit(w, e).book.infos
    ensures (t in w.book.infos && SameTerms(w.book.infos[t], DoDeposit(w, e).book.infos[t]))
         || Creates(w, OfDeposit(e), t, DoDeposit(w, e).book.infos[t])
  {
    hide CanAskDeposit, CanAcceptDeposit, CanExecMint, CanExecSafeBurn, CanAskRefund, CanRequestRefund, CanRejectRefund,
         CanExecuteRefund, CanRemoveRefund, AddSignId, DropIds, DropVerifyId, WithAccount, FreshId, BumpCells,
         UnbumpCells, Creates, Collect;
    if e.RefundExecution? {
      RefundCreates(w, e.key, e.account, e.privileged, e.now);
    }
  }

  /** After any step, a record was there before with the same terms, or the step created it. */
  lemma StepCreates(w: World, e: Event, t: Tx)
    requires Can(w, e) && t in Do(w, e).book.infos
    ensures (t in w.book.infos && SameTerms(w.book.infos[t], Do(w, e).book.infos[t]))
         || Creates(w, e, t, Do(w, e).book.infos[t])
  {
    hide CanTx, CanDeposit, CanLedger, DoTx, DoDeposit, DoLedger, Creates, SameTerms;
    match e
    case OfTx(f) =>
      if AddsRecord(f) {
        var c := RequestCarriesOver(w, f);
      } else {
        OtherTxStepCarriesOver(w, f, t);
      }
    case OfDeposit(d) => DepositStepCarriesOver(w, d, t);
    case OfLedger(l) =>
      LedgerStepAsksNothing(w, l);
      SameTermsAsItself(w.book.infos[t]);
  }

  ghost predicate RecordKnown(w: World, t: Tx, i: Info) {
    exists u, e :: Earlier(u, e, w) && Creates(u, e, t, i)
  }

  ghost predicate RecordsKnown(w: World) {
    forall t :: t in w.book.infos ==> RecordKnown(w, t, w.book.infos[t])
  }

  lemma StepKeepsRecords(w: World, e: Event)
    requires Reachable(w) && RecordsKnown(w) && Can(w, e)
    ensures RecordsKnown(Do(w, e))
  {
    hide Reachable, Can, Do, Earlier, Creates, SameTerms;
    var v := Do(w, e);
    forall t | t in v.book.infos ensures RecordKnown(v, t, v.book.infos[t]) {
      StepCreates(w, e, t);
      if t in w.book.infos && SameTerms(w.book.infos[t], v.book.infos[t]) {
        var u, f :| Earlier(u, f, w) && Creates(u, f, t, w.book.infos[t]);
        StillEarlier(u, f, w, e);
        TermsOutlive(u, f, t, w.book.infos[t], v.book.infos[t]);
      } else {
        JustNow(w, e);
      }
    }
  }

  /** Every pending transaction was created by an earlier request, and its amounts and times are those of the request. */
  lemma RecordsHaveTheirTerms(w: World)
    requires Reachable(w)
    ensures RecordsKnown(w)
  {
    hide Can, Do, RecordKnown, Init;
    var p := (u: World) => Reachable(u) && RecordsKnown(u);
    forall u | Init(u) ensures p(u) {
      StartIsReachable(u);
      InitAsksNothing(u);
    }
    forall u, e | p(u) && Can(u, e) ensures p(Do(u, e)) {
      hide Reachable, RecordsKnown;
      StepStaysReachable(u, e);
      StepKeepsRecords(u, e);
    }
    assert StartsIn(p) && StaysIn(p);
    assert p(w);
  }

  /**
   * What a pending transaction pays: the miners get the difference of its inputs and outputs; a withdrawal that
   * is not cancelled pays the recipient, once, the transfer less gas and bridge fee; everything else is change.
   */
  ghost predicate MatchesOutputs(t: Tx, i: Info) {
    && PaysGas(t, i)
    && (i.purpose.Withdraw? && !IsCancelledWithdrawal(i) ==>
          && i.received + i.gasFee + i.withdrawFee == i.transferAmount
          && i.burnAmount == i.received + i.gasFee
          && exists target :: PaysOnce(t.outputs, target, i.received))
    && (IsCancelledWithdrawal(i) || i.purpose.ActiveManagement? ==>
          PaysOnlyChange(t.outputs) && i.received == TotalOutput(t.outputs) && i.burnAmount == i.gasFee)
  }

  lemma RefundPaysGas(t: Tx, i: Info, amount: nat, gas: nat, script: Script)
    requires gas <= amount && t.outputs == [TxOut(amount - gas, script)] && i.coins == [amount] && i.gasFee == gas
    ensures PaysGas(t, i)
  {
    assert t.outputs[..0] == [] && i.coins[1..] == [];
  }

  lemma CreatedMatchesOutputs(w: World, e: Event, t: Tx, i: Info)
    requires Creates(w, e, t, i)
    ensures MatchesOutputs(t, i)
  {
    hide PaysOnce, IsFee, ChangeIsSound, RecipientOf;
    if e.OfDeposit? {
      var r := w.coins.refunds[e.deposit.key];
      RefundPaysGas(t, i, r.amount, r.gasFee, r.script);
    }
  }

  lemma RecordsMatchOutputs(w: World, t: Tx)
    requires Reachable(w) && t in w.book.infos
    ensures MatchesOutputs(t, w.book.infos[t])
  {
    hide Reachable, Earlier, Creates, MatchesOutputs;
    RecordsHaveTheirTerms(w);
    var i := w.book.infos[t];
    assert RecordKnown(w, t, i);
    var u, e :| Earlier(u, e, w) && Creates(u, e, t, i);
    CreatedMatchesOutputs(u, e, t, i);
  }

  /** A new replacement pays the miners more than everything of its family that is still pending. */
  lemma ReplacementsPayMore(w: World, e: Event, c: Tx, s: Tx)
    requires Reachable(w) && Can(w, e) && c !in w.book.infos && c in Do(w, e).book.infos
    requires Do(w, e).book.infos[c].role.Replacement?
    requires s in w.book.infos && Root(s, w.book.infos[s]) == Do(w, e).book.infos[c].role.original
    ensures w.book.infos[s].gasFee < Do(w, e).book.infos[c].gasFee
  {
    hide Reachable, Can, Do, FeesOk, ReserveOk, IndexOk, OrphansOk, AccountsOk, BurnsOk, PlacesOk, ListedOk, RootsListed,
         LiveOk, ConsumersSpend, RefundsOk, MintsOk, ChainOk, AskedOk, Backed, Covered, ConfigOk, InputsOk, StageOk,
         AmountsOk, WithdrawalTerms, ReturnTerms, IsFee, SameTerms;
    StepCreates(w, e, c);
    ReachableKeepsInv(w);
    var o := Root(s, w.book.infos[s]);
    assert InfoOk(s, w.book.infos[s]);
    assert s != o ==> Related(s, w.book.infos[s], o, w.book.infos[o]);
  }

  // ----- signatures -----

  /** Whatever is signed was asked for, on behalf of the account of its record. */
  ghost predicate SignaturesKnown(w: World) {
    forall t, i :: t in w.book.infos && 0 <= i < |w.book.infos[t].signatures| && w.book.infos[t].signatures[i] ==>
      SignatureOf(t, i, w.book.infos[t].account) in w.flight.asked
  }

  lemma RequestSignsNothing(w: World, e: TxEvent)
    requires CanTx(w, e) && SignaturesKnown(w)
    requires AddsRecord(e)
    ensures SignaturesKnown(DoTx(w, e))
  {
    hide CanWithdraw, CanManage, CanWithdrawRbf, CanCancelWithdraw, CanManageRbf, CanCancelManage;
    RequestAsksNothing(w, e);
    hide DoTx, Creates;
    var c := RequestCarriesOver(w, e);
  }

  lemma RequestAsksNothing(w: World, e: TxEvent)
    requires CanTx(w, e)
    requires AddsRecord(e)
    ensures DoTx(w, e).flight == w.flight
  {
    hide CanWithdraw, CanManage, CanWithdrawRbf, CanCancelWithdraw, CanManageRbf, CanCancelManage, AddSignId;
  }

  lemma OtherTxStepSigns(w: World, e: TxEvent)
    requires CanTx(w, e) && SignaturesKnown(w) && !e.Signature? && !AddsRecord(e)
    ensures SignaturesKnown(DoTx(w, e))
  {
    hide CanSignAwayOrphan, CanClear, CanExecBurn, CanSettle, AllSigned, AddSignId, DropIds, DropSignId, DropVerifyId,
         FreshId, BurnOf, WithChange, Consume, Collect, Release;
  }

  lemma SigningSigns(w: World, t: Tx, i: nat, account: AccountId)
    requires CanSignInput(w, t, i, account) && SignaturesKnown(w)
    requires AskedOk(w.flight.asked, w.past.listed) && ListedOk(w.book.infos, w.past)
    ensures SignaturesKnown(Sign(w, t, i))
  {
    hide AllSigned;
    assert QuestionOk(SignatureOf(t, i, account), w.past.listed);
  }

  lemma TxStepSigns(w: World, e: TxEvent)
    requires CanTx(w, e) && SignaturesKnown(w) && AskedOk(w.flight.asked, w.past.listed) && ListedOk(w.book.infos, w.past)
    ensures SignaturesKnown(DoTx(w, e))
  {
    hide SignaturesKnown, AskedOk, ListedOk, CanWithdraw, CanManage, CanAskSignature, CanSignInput, CanSignAwayOrphan,
         CanWithdrawRbf, CanCancelWithdraw, CanManageRbf, CanCancelManage, CanClear, CanAskSpend, CanStartBurn,
         CanExecBurn, CanFinishBurn, CanFailBurn, Sign;
    if e.Signature? {
      SigningSigns(w, e.tx, e.index, e.account);
    } else if AddsRecord(e) {
      RequestSignsNothing(w, e);
    } else {
      OtherTxStepSigns(w, e);
    }
  }

  lemma DepositStepSigns(w: World, e: DepositEvent)
    requires CanDeposit(w, e) && SignaturesKnown(w)
    ensures SignaturesKnown(DoDeposit(w, e))
  {
    hide CanAskDeposit, CanAcceptDeposit, CanExecMint, CanExecSafeBurn, CanAskRefund, CanRequestRefund, CanRejectRefund,
         CanRemoveRefund, HasSignCapacity, AddSignId, DropIds, DropVerifyId, WithAccount, FreshId, BumpCells,
         UnbumpCells, Collect;
  }

  lemma StepKeepsSignatures(w: World, e: Event)
    requires Inv(w) && SignaturesKnown(w) && Can(w, e)
    ensures SignaturesKnown(Do(w, e))
  {
    hide CanTx, CanDeposit, CanLedger, DoTx, DoDeposit, DoLedger, AskedOk, ListedOk;
    match e
    case OfTx(t) => TxStepSigns(w, t);
    case OfDeposit(d) => DepositStepSigns(w, d);
    case OfLedger(l) => LedgerStepAsksNothing(w, l);
  }

  lemma InitSignsNothing(w: World)
    requires Init(w)
    ensures SignaturesKnown(w)
  {
    InitAsksNothing(w);
  }

  /** Every signature stored in a pending transaction was asked for while its input was unsigned. */
  lemma SignaturesWereAsked(w: World)
    requires Reachable(w)
    ensures SignaturesKnown(w)
  {
    hide Can, Do, SignaturesKnown, Init, Inv;
    var p := (u: World) => Inv(u) && SignaturesKnown(u);
    forall u | Init(u) ensures p(u) {
      InitHolds(u);
      InitSignsNothing(u);
    }
    forall u, e | p(u) && Can(u, e) ensures p(Do(u, e)) {
      StepKeepsInv(u, e);
      StepKeepsSignatures(u, e);
    }
    assert StartsIn(p) && StaysIn(p);
    assert p(w);
  }
}
