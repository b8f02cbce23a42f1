/** Who may do what, when, and to what effect: the exact rules that depend on amounts, on times, or on the coins. */
module Guards {
  import opened Wrappers
  import opened Sums
  import opened Bitcoin
  import opened Configuration
  import opened Psbt
  import opened BridgeState
  import opened Effects
  import opened Steps
  import opened Invariants
  import opened CoinProofs
  import opened BridgeLemmas
  import opened Runs
  import opened RecordOrigins
  import opened Terms

  // ----- cancelling a withdrawal -----

  /** What the cancellation burns beyond the nBTC that its user handed over, after the bridge fee. */
  function GasBeyondFunds(original: Info, outputs: seq<TxOut>): int {
    SumSeq(original.coins) - TotalOutput(outputs) + original.withdrawFee - original.transferAmount
  }

  /** A cancellation is open to everybody exactly when the user's own nBTC pays for its gas; else to the DAO alone. */
  lemma CancellationNeedsDaoExactly(w: World, o: Tx, outputs: seq<TxOut>, now: nat)
    ensures CanCancelWithdraw(w, o, outputs, false, now) <==>
      CanCancelWithdraw(w, o, outputs, true, now) && GasBeyondFunds(w.book.infos[o], outputs) <= 0
  {
    hide CanAddReplacement, AcceptsAllChange, PendingLongEnough;
  }

  /**
   * A cancellation puts so much protocol fee into the reserve that the reserve covers the gas beyond the user's
   * funds, and takes it from the available fee; if there is no such gas the fees stay as they are.
   */
  lemma CancellationMovesFees(w: World, o: Tx, outputs: seq<TxOut>, isDao: bool, now: nat)
    requires CanCancelWithdraw(w, o, outputs, isDao, now)
    ensures var before, v := w.book.infos[o], CancelWithdraw(w, o, outputs, isDao, now);
      var beyond := GasBeyondFunds(before, outputs);
      && (!isDao ==> v.fees == w.fees)
      && (beyond <= 0 ==> v.fees == w.fees)
      && (beyond > 0 ==>
            && ReserveOf(v.book.infos[o]) == (if ReserveOf(before) >= beyond then ReserveOf(before) else beyond)
            && v.fees.reserved - w.fees.reserved == ReserveOf(v.book.infos[o]) - ReserveOf(before)
            && v.fees.available + v.fees.reserved == w.fees.available + w.fees.reserved)
      && v.fees.collected == w.fees.collected && v.fees.claimed == w.fees.claimed
      && v.fees.spentOnGas == w.fees.spentOnGas
  {
    hide AcceptsAllChange, PendingLongEnough, HasSignCapacity, AddSignId, Candidates;
  }

  // ----- executing a refund -----

  /** Whether a refund may be executed at all, apart from how long it has waited. */
  ghost predicate RefundIsOpen(w: World, k: OutPoint, caller: AccountId) {
    && k in w.coins.refunds
    && (k in w.coins.verified ==> w.coins.refunds[k].executed)
    && w.coins.refunds[k].gasFee + w.cfg.minChangeAmount <= w.coins.refunds[k].amount
    && HasSignCapacity(w.book, caller)
    && RefundTx(k, w.coins.refunds[k]) !in w.book.infos
  }

  /** The wait is exact: privileged callers need not wait for an authorized address, and nobody waits less otherwise. */
  lemma RefundWaitIsExact(w: World, k: OutPoint, caller: AccountId, privileged: bool, now: nat)
    requires RefundIsOpen(w, k, caller)
    ensures var r := w.coins.refunds[k];
      && (r.authorized.None? ==>
            (CanExecuteRefund(w, k, caller, privileged, now) <==> r.createdAt + w.cfg.unsafeRefundTimelockSec <= now))
      && (r.authorized.Some? && !privileged ==>
            (CanExecuteRefund(w, k, caller, privileged, now) <==> r.createdAt + w.cfg.refundTimelockSec <= now))
      && (r.authorized.Some? && privileged ==>
            (CanExecuteRefund(w, k, caller, privileged, now) <==> r.createdAt <= now))
  {
  }

  /** Whoever may execute a refund to an address of the requester's choice may do so to the one the deposit names. */
  lemma NamedAddressWaitsNoLonger(c: Config, r: RefundRequest, named: Script, privileged: bool, now: nat)
    requires ValidConfig(c) && r.authorized.None? && r.createdAt + RefundTimelock(c, r, privileged) <= now
    ensures r.createdAt + RefundTimelock(c, r.(authorized := Some(named)), privileged) <= now
  {
  }

  // ----- steering the number of coins -----

  /** The coins once t is settled and nothing else has happened. */
  function AfterSettling(w: World, t: Tx): map<OutPoint, nat> {
    WithChange(w.coins.utxos - InputSet(t), t, |t.outputs|)
  }

  lemma {:induction false} ChangeCount(utxos: map<OutPoint, nat>, t: Tx, n: nat)
    requires n <= |t.outputs|
    requires forall i :: 0 <= i < |t.outputs| && t.outputs[i].script == ChangeScript ==> OutPoint(t, i) !in utxos
    ensures |WithChange(utxos, t, n)| == |utxos| + CountTo(t.outputs[..n], ChangeScript)
  {
    if n == 0 {
    } else {
      ChangeCount(utxos, t, n - 1);
      assert t.outputs[..n][..n - 1] == t.outputs[..n - 1];
      WithChangeHas(utxos, t, n - 1, OutPoint(t, n - 1));
    }
  }

  /** Nothing that spends a coin of the bridge was ever settled. */
  lemma NewTxHasNoCoins(w: World, t: Tx, i: nat)
    requires Reachable(w) && t.inputs != [] && CanTake(w.coins.utxos, t.inputs)
    requires i < |t.outputs| && t.outputs[i].script == ChangeScript
    ensures OutPoint(t, i) !in w.coins.utxos
  {
    hide Reachable, FeesOk, ReserveOk, InfosOk, FamiliesOk, IndexOk, OrphansOk, AccountsOk, BurnsOk, RootsListed, LiveOk,
         ConsumersSpend, RefundsOk, MintsOk, ChainOk, AskedOk, Backed, Covered, ValidConfig;
    ReachableKeepsInv(w);
    assert t.inputs[0] in w.coins.utxos;
    assert OutPoint(t, i) in w.coins.utxos ==> Registered(OutPoint(t, i), w.coins.verified, w.past.finalized);
  }

  lemma SettledCount(w: World, t: Tx)
    requires Reachable(w) && t.inputs != [] && CanTake(w.coins.utxos, t.inputs)
    ensures |AfterSettling(w, t)| + |t.inputs| == |w.coins.utxos| + CountTo(t.outputs, ChangeScript)
  {
    forall i | 0 <= i < |t.outputs| && t.outputs[i].script == ChangeScript
      ensures OutPoint(t, i) !in w.coins.utxos - InputSet(t)
    {
      NewTxHasNoCoins(w, t, i);
    }
    hide Reachable, InputSet;
    RemovedCount(w.coins.utxos, t);
    ChangeCount(w.coins.utxos - InputSet(t), t, |t.outputs|);
    assert t.outputs[..|t.outputs|] == t.outputs;
  }

  /**
   * Below the lower limit a withdrawal raises the number of coins once it is settled, and above the upper one lowers
   * it, unless it pays the bridge's own change address.
   */
  ghost predicate Steers(w: World, t: Tx, target: Script) {
    var before, after := |w.coins.utxos|, |AfterSettling(w, t)|;
    if before < w.cfg.passiveLowerLimit then before < after
    else w.cfg.passiveUpperLimit < before ==> after < before || target == ChangeScript
  }

  /** The further limits on a withdrawal, exactly: they steer the number of coins. */
  lemma WithdrawLimitsSteerExactly(w: World, amount: nat, fee: nat, target: Script, t: Tx, maxGasFee: Option<nat>,
                                   unrestricted: bool)
    requires Reachable(w) && t.inputs != [] && CanTake(w.coins.utxos, t.inputs)
    requires AcceptsWithdrawal(w.cfg, Taken(w.coins.utxos, t.inputs), t.outputs, target, amount, fee, unrestricted)
    ensures var coins := Taken(w.coins.utxos, t.inputs);
      WithinWithdrawLimits(w.cfg, SummaryOf(coins, t.outputs, target), maxGasFee, |w.coins.utxos|) <==>
        && (maxGasFee.Some? ==> GasFee(coins, t.outputs) <= maxGasFee.value)
        && |t.outputs| - 1 <= w.cfg.maxChangeNumber && |t.inputs| <= w.cfg.maxWithdrawalInputs
        && Steers(w, t, target)
  {
    hide Reachable, PaidTo, InputSet, HasSignCapacity, AfterSettling, GasFee, ChangeIsSound;
    SettledCount(w, t);
    AcceptedChangeIsSound(w.cfg, Taken(w.coins.utxos, t.inputs), t.outputs, target, amount, fee, unrestricted);
  }

  lemma ConfigIsValid(w: World)
    requires Reachable(w)
    ensures ValidConfig(w.cfg)
  {
    hide Reachable, FeesOk, ReserveOk, InfosOk, FamiliesOk, IndexOk, OrphansOk, AccountsOk, BurnsOk, PlacesOk, ListedOk,
         RootsListed, LiveOk, ConsumersSpend, RefundsOk, MintsOk, ChainOk, AskedOk, Backed, Covered, ValidConfig;
    ReachableKeepsInv(w);
  }

  /** The one exception: a single coin that goes to the change address comes back as a coin that is not counted. */
  lemma OneCoinToChangeKeepsTheNumber(w: World, sender: AccountId, amount: nat, target: Script, t: Tx,
                                      maxGasFee: Option<nat>, unrestricted: bool)
    requires Reachable(w) && CanWithdraw(w, sender, amount, target, t, maxGasFee, unrestricted)
    requires w.cfg.passiveUpperLimit < |w.coins.utxos|
    ensures |AfterSettling(w, t)| <= |w.coins.utxos|
    ensures |AfterSettling(w, t)| == |w.coins.utxos| <==> target == ChangeScript && |t.inputs| == 1
  {
    hide Reachable, PaidTo, InputSet, HasSignCapacity, AfterSettling, OutputAllowed;
    SettledCount(w, t);
    ConfigIsValid(w);
  }
}
