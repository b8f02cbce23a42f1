/** What the contract checks about a proposed transaction suffices for it to keep every invariant. */
module RequestProofs {
  import opened Wrappers
  import opened Bitcoin
  import opened Psbt
  import opened BridgeState
  import opened Effects
  import opened Steps
  import opened Invariants
  import opened OriginalProofs
  import opened ReplacementProofs

  lemma WithdrawalIsFresh(w: World, sender: AccountId, amount: nat, target: Script, t: Tx,
                          maxGasFee: Option<nat>, unrestricted: bool, now: nat)
    requires CanWithdraw(w, sender, amount, target, t, maxGasFee, unrestricted)
    ensures var coins := Taken(w.coins.utxos, t.inputs);
      0 <= GasFee(coins, t.outputs)
      && FreshOriginal(w, t, WithdrawInfo(sender, amount, w.cfg.withdrawFee.GetFee(amount), coins,
                                          PaidTo(t.outputs, target), GasFee(coins, t.outputs), now), 0)
  {
    hide WithinWithdrawLimits;
    AcceptedWithdrawalBalances(w.cfg, Taken(w.coins.utxos, t.inputs), t.outputs, target, amount,
                               w.cfg.withdrawFee.GetFee(amount), unrestricted);
  }

  lemma WithdrawRequestKeepsInv(w: World, sender: AccountId, amount: nat, target: Script, t: Tx,
                                maxGasFee: Option<nat>, unrestricted: bool, now: nat)
    requires Inv(w) && CanWithdraw(w, sender, amount, target, t, maxGasFee, unrestricted)
    ensures Inv(WithdrawRequest(w, sender, amount, target, t, maxGasFee, unrestricted, now))
  {
    hide Inv, AddOriginal, AcceptsWithdrawal, WithinWithdrawLimits, FreshOriginal;
    WithdrawalIsFresh(w, sender, amount, target, t, maxGasFee, unrestricted, now);
    var coins := Taken(w.coins.utxos, t.inputs);
    AddOriginalKeepsInv(w, t, WithdrawInfo(sender, amount, w.cfg.withdrawFee.GetFee(amount), coins,
                                           PaidTo(t.outputs, target), GasFee(coins, t.outputs), now), 0);
  }

  lemma ManagementIsFresh(w: World, account: AccountId, t: Tx, now: nat)
    requires CanManage(w, account, t) && w.token.balance <= w.token.supply
    ensures var coins := Taken(w.coins.utxos, t.inputs); var gas := GasFee(coins, t.outputs);
      0 <= gas && FreshOriginal(w, t, ManagementInfo(account, coins, TotalOutput(t.outputs), gas, now), gas)
  {
    AllChangePaysChange(t.outputs);
  }

  lemma BalanceIsPartOfSupply(w: World)
    requires Inv(w)
    ensures w.token.balance <= w.token.supply
  {
  }

  lemma ManageKeepsInv(w: World, account: AccountId, t: Tx, now: nat)
    requires Inv(w) && CanManage(w, account, t)
    ensures Inv(Manage(w, account, t, now))
  {
    hide Inv, AddOriginal, AcceptsActiveManagement, FreshOriginal;
    BalanceIsPartOfSupply(w);
    ManagementIsFresh(w, account, t, now);
    var coins := Taken(w.coins.utxos, t.inputs);
    var gas := GasFee(coins, t.outputs);
    AddOriginalKeepsInv(w, t, ManagementInfo(account, coins, TotalOutput(t.outputs), gas, now), gas);
  }

  lemma WithdrawRbfIsFresh(w: World, account: AccountId, o: Tx, outputs: seq<TxOut>, unrestricted: bool, now: nat)
    requires CanWithdrawRbf(w, account, o, outputs, unrestricted, now) && InfoOk(o, w.book.infos[o])
    ensures var original := w.book.infos[o];
      FreshReplacement(w, o, ReplacementTx(o, outputs), UserWithdrawReplacement(w, o, outputs, now),
                       original.role.(maxGasFee := GasFee(original.coins, outputs)), 0)
  {
    var original := w.book.infos[o];
    AcceptedWithdrawalBalances(w.cfg, original.coins, outputs, RecipientOf(o.outputs).value,
                               original.transferAmount, original.withdrawFee, unrestricted);
  }

  lemma WithdrawRbfKeepsInv(w: World, account: AccountId, o: Tx, outputs: seq<TxOut>, unrestricted: bool, now: nat)
    requires Inv(w) && CanWithdrawRbf(w, account, o, outputs, unrestricted, now)
    ensures Inv(WithdrawRbf(w, account, o, outputs, unrestricted, now))
  {
    hide Inv, AddReplacement, AcceptsWithdrawal, FreshReplacement, InfoOk, CanAddReplacement;
    var original := w.book.infos[o];
    RecordIsOk(w, o);
    WithdrawRbfIsFresh(w, account, o, outputs, unrestricted, now);
    AddReplacementKeepsInv(w, o, ReplacementTx(o, outputs), UserWithdrawReplacement(w, o, outputs, now),
                           original.role.(maxGasFee := GasFee(original.coins, outputs)), 0);
  }

  lemma RecordIsOk(w: World, t: Tx)
    requires Inv(w) && t in w.book.infos
    ensures InfoOk(t, w.book.infos[t])
  {
  }

  lemma CancelWithdrawIsFresh(w: World, o: Tx, outputs: seq<TxOut>, isDao: bool, now: nat)
    requires CanCancelWithdraw(w, o, outputs, isDao, now) && InfoOk(o, w.book.infos[o])
    ensures var original := w.book.infos[o]; var gas := GasFee(original.coins, outputs);
      FreshReplacement(w, o, ReplacementTx(o, outputs), AllChangeReplacement(w, o, outputs, true, now),
                       CancelledRole(original, gas), AdditionalReserve(original, gas))
  {
    AllChangePaysChange(outputs);
  }

  lemma CancelWithdrawKeepsInv(w: World, o: Tx, outputs: seq<TxOut>, isDao: bool, now: nat)
    requires Inv(w) && CanCancelWithdraw(w, o, outputs, isDao, now)
    ensures Inv(CancelWithdraw(w, o, outputs, isDao, now))
  {
    hide Inv, AddReplacement, AcceptsAllChange, FreshReplacement, InfoOk, CanAddReplacement, PendingLongEnough,
         GasFee;
    var original := w.book.infos[o];
    var gas := GasFee(original.coins, outputs);
    RecordIsOk(w, o);
    CancelWithdrawIsFresh(w, o, outputs, isDao, now);
    AddReplacementKeepsInv(w, o, ReplacementTx(o, outputs), AllChangeReplacement(w, o, outputs, true, now),
                           CancelledRole(original, gas), AdditionalReserve(original, gas));
  }

  lemma ManageRbfIsFresh(w: World, account: AccountId, o: Tx, outputs: seq<TxOut>, now: nat)
    requires CanManageRbf(w, account, o, outputs, now) && InfoOk(o, w.book.infos[o])
    ensures var original := w.book.infos[o]; var gas := GasFee(original.coins, outputs);
      FreshReplacement(w, o, ReplacementTx(o, outputs), AllChangeReplacement(w, o, outputs, false, now),
                       original.role.(maxGasFee := gas), gas - original.role.maxGasFee)
  {
    AllChangePaysChange(outputs);
  }

  lemma ManageRbfKeepsInv(w: World, account: AccountId, o: Tx, outputs: seq<TxOut>, now: nat)
    requires Inv(w) && CanManageRbf(w, account, o, outputs, now)
    ensures Inv(ManageRbf(w, account, o, outputs, now))
  {
    hide Inv, AddReplacement, AcceptsAllChange, FreshReplacement, InfoOk, CanAddReplacement, PendingLongEnough,
         GasFee;
    var original := w.book.infos[o];
    var gas := GasFee(original.coins, outputs);
    RecordIsOk(w, o);
    ManageRbfIsFresh(w, account, o, outputs, now);
    AddReplacementKeepsInv(w, o, ReplacementTx(o, outputs), AllChangeReplacement(w, o, outputs, false, now),
                           original.role.(maxGasFee := gas), gas - original.role.maxGasFee);
  }

  lemma CancelManageIsFresh(w: World, o: Tx, outputs: seq<TxOut>, now: nat)
    requires CanCancelManage(w, o, outputs, now) && InfoOk(o, w.book.infos[o])
    ensures var original := w.book.infos[o]; var gas := GasFee(original.coins, outputs);
      FreshReplacement(w, o, ReplacementTx(o, outputs), AllChangeReplacement(w, o, outputs, true, now),
                       Original(gas, Some(0)), gas - original.role.maxGasFee)
  {
    AllChangePaysChange(outputs);
  }

  lemma CancelManageKeepsInv(w: World, o: Tx, outputs: seq<TxOut>, now: nat)
    requires Inv(w) && CanCancelManage(w, o, outputs, now)
    ensures Inv(CancelManage(w, o, outputs, now))
  {
    hide Inv, AddReplacement, AcceptsAllChange, FreshReplacement, InfoOk, CanAddReplacement, PendingLongEnough,
         GasFee;
    var original := w.book.infos[o];
    var gas := GasFee(original.coins, outputs);
    RecordIsOk(w, o);
    CancelManageIsFresh(w, o, outputs, now);
    AddReplacementKeepsInv(w, o, ReplacementTx(o, outputs), AllChangeReplacement(w, o, outputs, true, now),
                           Original(gas, Some(0)), gas - original.role.maxGasFee);
  }
}
