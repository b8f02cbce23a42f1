/**
 * The contract as an object whose entry points and callbacks change its fields in place. Every method takes
 * the step that the state machine specifies, reverts where the contract panics, and keeps the invariant.
 */
module Bridge {
  import opened Wrappers
  import opened Bitcoin
  import opened BlockAmounts
  import opened Configuration
  import opened Psbt
  import opened BridgeState
  import opened Effects
  import opened Steps
  import opened Invariants
  import opened Runs
  import opened BridgeLemmas

  class Contract {
    const ring: BlockAmountRing
    var config: Config
    var coins: Coins
    var book: Book
    var fees: Fees
    var lostFound: map<AccountId, nat>

    /** The state of the contract and of its surroundings: token, promises under way, chain, history. */
    ghost var state: World

    /** The fields hold what the state says. */
    ghost predicate Holds()
      reads this, ring, ring.cells
    {
      && ring.Valid() && ring.cells[..] == state.ring
      && config == state.cfg
      && coins == state.coins
      && book == state.book
      && fees == state.fees
      && lostFound == state.lostFound
    }

    /** The same while the inputs of t are already taken out of the coins. */
    ghost predicate HoldsWithout(t: Tx)
      reads this, ring, ring.cells
    {
      && ring.Valid() && ring.cells[..] == state.ring
      && config == state.cfg
      && coins == state.coins.(utxos := state.coins.utxos - InputSet(t))
      && book == state.book
      && fees == state.fees
      && lostFound == state.lostFound
    }

    ghost predicate Valid()
      reads this, ring, ring.cells
    {
      Holds() && Reachable(state)
    }

    /** A new bridge, next to a chain of any history without it. */
    constructor (c: Config, capacity: nat, ghost surroundings: Chain)
      requires ValidConfig(c) && capacity == CapacityFor(c)
      requires ChainOk(surroundings, Past({}, {}, {}, map[], map[], {}, map[], 0, 0, 0, 0))
      ensures Valid() && Init(state) && fresh(ring) && fresh(ring.cells)
    {
      ring := new BlockAmountRing(capacity);
      config := c;
      coins := Coins(map[], map[], {}, map[]);
      book := Book(map[], map[], map[], map[]);
      fees := Fees(0, 0, 0, 0, 0);
      lostFound := map[];
      state := World(c, EmptyCells(capacity), Coins(map[], map[], {}, map[]), Book(map[], map[], map[], map[]),
                     Fees(0, 0, 0, 0, 0), map[], Token(0, 0), Flight(map[], map[], map[], map[], {}), surroundings,
                     Past({}, {}, {}, map[], map[], {}, map[], 0, 0, 0, 0));
      new;
      StartIsReachable(state);
    }

    // ----- coins (utxo.rs) -----

    /** Takes the coins of a transaction out of the map, one input after the other. */
    method RemoveVutxosByPsbt(psbt: Tx) returns (ok: bool, vutxos: seq<nat>)
      modifies `coins
      ensures ok == CanTake(old(coins.utxos), psbt.inputs)
      ensures ok ==> vutxos == Taken(old(coins.utxos), psbt.inputs)
      ensures coins == if ok then old(coins).(utxos := old(coins.utxos) - InputSet(psbt)) else old(coins)
    {
      var before, inputs := coins, psbt.inputs;
      ok, vutxos := true, [];
      var n := 0;
      while n < |inputs|
        invariant 0 <= n <= |inputs|
        invariant CanTake(before.utxos, inputs[..n])
        invariant vutxos == Taken(before.utxos, inputs[..n])
        invariant coins == before.(utxos := before.utxos - (set op | op in inputs[..n]))
      {
        if inputs[n] !in coins.utxos {
          TakingFails(before.utxos, inputs, n);
          coins := before;
          return false, [];
        }
        TakingGoesOn(before.utxos, inputs[..n], inputs[n], inputs[..n + 1]);
        vutxos := vutxos + [coins.utxos[inputs[n]]];
        coins := coins.(utxos := coins.utxos - {inputs[n]});
        n := n + 1;
      }
      assert inputs[..n] == inputs;
    }

    /** Registers the change outputs of a confirmed transaction as coins. */
    method AddChange(t: Tx)
      modifies `coins
      ensures coins == old(coins).(utxos := WithChange(old(coins.utxos), t, |t.outputs|))
    {
      var index := 0;
      while index < |t.outputs|
        invariant 0 <= index <= |t.outputs|
        invariant coins == old(coins).(utxos := WithChange(old(coins.utxos), t, index))
      {
        if t.outputs[index].script == ChangeScript {
          coins := coins.(utxos := coins.utxos[OutPoint(t, index) := t.outputs[index].value]);
        }
        index := index + 1;
      }
    }

    // ----- records of pending transactions -----

    /** Stores the record of a new original whose coins are taken out, and reserves `shift` of the protocol fee. */
    method InsertOriginal(t: Tx, info: Info, shift: nat)
      requires HoldsWithout(t) && CanAddOriginal(state, t, info, shift)
      modifies this
      ensures Holds() && state == AddOriginal(old(state), t, info, shift)
    {
      hide CanTake, HasSignCapacity, InputSet, AddSignId;
      fees := fees.(available := fees.available - shift, reserved := fees.reserved + shift);
      book := book.(infos := book.infos[t := info], accounts := AddSignId(book.accounts, info.account, t));
      state := AddOriginal(state, t, info, shift);
    }

    /** Stores a replacement c of the pending original o, whose role changes (rbf/mod.rs). */
    method SetRbfPendingInfo(o: Tx, c: Tx, info: Info, role: Role, shift: nat) returns (ok: bool)
      requires Holds() && o in book.infos && HasSignCapacity(book, info.account)
      modifies this
      ensures Holds() && ok == CanAddReplacement(old(state), o, c, info, role, shift)
      ensures state == if ok then AddReplacement(old(state), o, c, info, role, shift) else old(state)
    {
      hide HasSignCapacity, AddSignId, Candidates;
      var isCancel := info.role.Replacement? && info.role.cancel;
      if info.account !in book.accounts || c in book.infos || fees.available < shift {
        return false;
      }
      var rbfTxs := Candidates(book.rbf, o);
      if c in rbfTxs || (!isCancel && |rbfTxs| + 1 > config.rbfNumLimit) {
        return false;
      }
      fees := fees.(available := fees.available - shift, reserved := fees.reserved + shift);
      book := book.(infos := book.infos[o := book.infos[o].(role := role)][c := info],
                    rbf := book.rbf[o := rbfTxs + {c}],
                    accounts := AddSignId(book.accounts, info.account, c));
      ok, state := true, AddReplacement(state, o, c, info, role, shift);
    }

    // ----- nBTC sent to the bridge (api/token_receiver.rs) -----

    /** The tokens have arrived with the call; a panic sends them back. */
    method DepositProtocolFee(amount: nat) returns (ok: bool)
      requires Valid() && state.token.balance + amount <= state.token.supply
      modifies this
      ensures Valid() && ok == CanDepositProtocolFee(old(state), amount)
      ensures state == if ok then Steps.DepositProtocolFee(old(state), amount) else old(state)
    {
      hide Reachable;
      if amount < config.minWithdrawAmount {
        return false;
      }
      fees := fees.(collected := fees.collected + amount);
      fees := fees.(available := fees.available + amount);
      LedgerStepStaysReachable(state, FeeDeposit(amount));
      ok, state := true, Steps.DepositProtocolFee(state, amount);
    }

    /** The checks on a first withdrawal transaction (psbt.rs), after its coins were taken out. */
    method CheckWithdrawPsbtValid(target: Script, outputs: seq<TxOut>, vutxos: seq<nat>, amount: nat, fee: nat,
                                  maxGasFee: Option<nat>, unrestricted: bool) returns (r: Option<WithdrawalSummary>)
      ensures r.Some? <==>
        && AcceptsWithdrawal(config, vutxos, outputs, target, amount, fee, unrestricted)
        && WithinWithdrawLimits(config, SummaryOf(vutxos, outputs, target), maxGasFee, |coins.utxos| + |vutxos|)
      ensures r.Some? ==> r.value == SummaryOf(vutxos, outputs, target)
    {
      r := CheckWithdrawPsbt(config, vutxos, outputs, target, amount, fee, unrestricted);
      if r.Some? && !WithinWithdrawLimits(config, r.value, maxGasFee, |coins.utxos| + |vutxos|) {
        r := None;
      }
    }

    /** Takes the coins out and makes all checks; a failed one puts the coins back. */
    method PrepareWithdrawal(sender: AccountId, amount: nat, target: Script, t: Tx, maxGasFee: Option<nat>,
                             unrestricted: bool, now: nat) returns (r: Option<Info>)
      requires Holds() && t == NewTx(t.inputs, t.outputs) && state.token.balance + amount <= state.token.supply
      modifies `coins
      ensures r.Some? <==> CanWithdraw(state, sender, amount, target, t, maxGasFee, unrestricted)
      ensures r.Some? ==> HoldsWithout(t) && CanAddOriginal(state, t, r.value, 0)
      ensures r.Some? ==>
        AddOriginal(state, t, r.value, 0) == WithdrawRequest(state, sender, amount, target, t, maxGasFee, unrestricted, now)
      ensures r.None? ==> coins == old(coins)
    {
      hide CanTake, AcceptsWithdrawal, WithinWithdrawLimits, InputSet, Taken, AddOriginal, HasSignCapacity, PaidTo,
           TotalOutput, CountTo, ShiftToReserve, AddSignId;
      if amount < config.minWithdrawAmount || t.inputs == [] || t.outputs == [] {
        return None;
      }
      var before := coins;
      var taken, vutxos := RemoveVutxosByPsbt(t);
      if !taken {
        return None;
      }
      RemovedCount(before.utxos, t);
      var fee := config.withdrawFee.GetFee(amount);
      var summary := CheckWithdrawPsbtValid(target, t.outputs, vutxos, amount, fee, maxGasFee, unrestricted);
      if !HasSignCapacity(book, sender) || summary.None? || t in book.infos {
        coins := before;
        return None;
      }
      r := Some(WithdrawInfo(sender, amount, fee, vutxos, summary.value.received, summary.value.gasFee, now));
    }

    method Withdraw(sender: AccountId, amount: nat, target: Script, inputs: seq<OutPoint>, outputs: seq<TxOut>,
                    maxGasFee: Option<nat>, unrestricted: bool, now: nat) returns (ok: bool)
      requires Valid() && state.token.balance + amount <= state.token.supply
      modifies this
      ensures Valid()
      ensures ok == CanWithdraw(old(state), sender, amount, target, NewTx(inputs, outputs), maxGasFee, unrestricted)
      ensures state == if ok then WithdrawRequest(old(state), sender, amount, target, NewTx(inputs, outputs), maxGasFee,
                                                  unrestricted, now)
                       else old(state)
    {
      hide Reachable, CanWithdraw, WithdrawRequest, CanAddOriginal, AddOriginal, InputSet;
      var t := NewTx(inputs, outputs);
      var info := PrepareWithdrawal(sender, amount, target, t, maxGasFee, unrestricted, now);
      ok := info.Some?;
      if ok {
        TxStepStaysReachable(state, Withdrawal(sender, amount, target, t, maxGasFee, unrestricted, now));
        InsertOriginal(t, info.value, 0);
      }
    }

    // ----- active UTXO management (btc_light_client/active_utxo_management.rs) -----

    method ActiveUtxoManagement(account: AccountId, inputs: seq<OutPoint>, outputs: seq<TxOut>, now: nat) returns (ok: bool)
      requires Valid()
      modifies this
      ensures Valid() && ok == CanManage(old(state), account, NewTx(inputs, outputs))
      ensures state == if ok then Manage(old(state), account, NewTx(inputs, outputs), now) else old(state)
    {
      hide Reachable, CanTake, AcceptsActiveManagement, InputSet, Taken, AddOriginal, HasSignCapacity;
      var t := NewTx(inputs, outputs);
      if inputs == [] || outputs == [] || account !in book.accounts || !HasSignCapacity(book, account) {
        return false;
      }
      var before := coins;
      var taken, vutxos := RemoveVutxosByPsbt(t);
      if !taken {
        return false;
      }
      if !AcceptsActiveManagement(config, vutxos, outputs) || GasFee(vutxos, outputs) > fees.available
         || t in book.infos {
        coins := before;
        return false;
      }
      GasIsPaid(config, vutxos, outputs);
      var gas := GasFee(vutxos, outputs);
      TxStepStaysReachable(state, Management(account, t, now));
      InsertOriginal(t, ManagementInfo(account, vutxos, TotalOutput(outputs), gas, now), gas);
      ok := true;
    }

    // ----- signing (chain_signature.rs, api/chain_signatures.rs) -----

    /** Asks for the signature of one input; a replacement that lost its original is removed instead. */
    method SignBtcTransaction(t: Tx, i: nat) returns (ok: bool)
      requires Valid()
      modifies this
      ensures Valid() && ok == (CanSignAwayOrphan(old(state), t) || CanAskSignature(old(state), t, i))
      ensures state == if CanSignAwayOrphan(old(state), t) then Drop(old(state), t)
                       else if ok then AskSignature(old(state), t, i) else old(state)
    {
      hide Reachable, DropIds, SignIds;
      if t !in book.infos || !book.infos[t].stage.PendingSign? {
        return false;
      }
      var info := book.infos[t];
      if info.role.Replacement? && info.role.original !in book.infos {
        if t !in SignIds(book.accounts, info.account) {
          return false;
        }
        TxStepStaysReachable(state, OrphanSigning(t));
        SigningRecordHasOneList(state, t);
        book := book.(accounts := DropSignId(book.accounts, info.account, t));
        book := book.(infos := book.infos - {t});
        ok, state := true, Drop(state, t);
        return;
      }
      if i >= |info.signatures| || info.signatures[i] {
        return false;
      }
      TxStepStaysReachable(state, SignatureQuestion(t, i));
      ok, state := true, AskSignature(state, t, i);
    }

    /** The signer's answer for input i, asked for on behalf of `account`. */
    method SignBtcTransactionCallback(t: Tx, i: nat, account: AccountId) returns (ok: bool)
      requires Valid() && SignatureOf(t, i, account) in state.flight.asked
      modifies this
      ensures Valid() && ok == CanSignInput(old(state), t, i, account)
      ensures state == if ok then Sign(old(state), t, i) else old(state)
    {
      hide Reachable;
      if t !in book.infos || i >= |book.infos[t].signatures| || book.infos[t].signatures[i] {
        return false;
      }
      QuestionWasRight(state, t, i, account);
      var info := book.infos[t];
      info := info.(signatures := info.signatures[i := true]);
      if AllSigned(info.signatures) {
        info := info.(signedBytes := true);
        info := info.(stage := PendingVerify);
        if account !in book.accounts || t !in book.accounts[account].signIds {
          return false;
        }
        TxStepStaysReachable(state, Signature(t, i, account));
        var entry := book.accounts[account];
        entry := entry.(signIds := entry.signIds - {t});
        if info.role.Original? {
          entry := entry.(verifyList := entry.verifyList + {t});
        }
        book := book.(accounts := book.accounts[account := entry]);
      } else {
        TxStepStaysReachable(state, Signature(t, i, account));
      }
      book := book.(infos := book.infos[t := info]);
      ok, state := true, Sign(state, t, i);
    }

    // ----- replacements (rbf/, bitcoin_utils/contract_methods.rs) -----

    method WithdrawRbf(account: AccountId, o: Tx, outputs: seq<TxOut>, unrestricted: bool, now: nat) returns (ok: bool)
      requires Valid()
      modifies this
      ensures Valid() && ok == CanWithdrawRbf(old(state), account, o, outputs, unrestricted, now)
      ensures state == if ok then Steps.WithdrawRbf(old(state), account, o, outputs, unrestricted, now) else old(state)
    {
      hide Reachable, AcceptsWithdrawal, CanAddReplacement, AddReplacement, HasSignCapacity;
      if account !in book.accounts || !HasSignCapacity(book, account) || o !in book.infos {
        return false;
      }
      var original := book.infos[o];
      if original.account != account || !original.purpose.Withdraw? || !original.role.Original?
         || original.role.cancelReserved.Some? || !original.stage.PendingVerify? || |outputs| != |o.outputs| {
        return false;
      }
      var recipient := RecipientOf(o.outputs);
      if recipient.None? {
        return false;
      }
      var summary := CheckWithdrawPsbt(config, original.coins, outputs, recipient.value, original.transferAmount,
                                       original.withdrawFee, unrestricted);
      if summary.None? || summary.value.gasFee <= original.role.maxGasFee {
        return false;
      }
      var received, gas := summary.value.received, summary.value.gasFee;
      var info := ReplacementInfo(o, original, false, received, gas, received + gas, now);
      ghost var w := state;
      ok := SetRbfPendingInfo(o, ReplacementTx(o, outputs), info, original.role.(maxGasFee := gas), 0);
      if ok {
        TxStepStaysReachable(w, WithdrawalRbf(account, o, outputs, unrestricted, now));
      }
    }

    method CancelWithdraw(o: Tx, outputs: seq<TxOut>, isDao: bool, now: nat) returns (ok: bool)
      requires Valid()
      modifies this
      ensures Valid() && ok == CanCancelWithdraw(old(state), o, outputs, isDao, now)
      ensures state == if ok then Steps.CancelWithdraw(old(state), o, outputs, isDao, now) else old(state)
    {
      hide Reachable, AcceptsAllChange, AddReplacement, GasFee, HasSignCapacity, Candidates;
      if o !in book.infos {
        return false;
      }
      var original := book.infos[o];
      if !HasSignCapacity(book, original.account) || now < original.createTime
         || now - original.createTime <= config.maxPendingSec
         || !original.purpose.Withdraw? || !original.role.Original? || !original.stage.PendingVerify?
         || !AcceptsAllChange(config, original.coins, outputs, false, true) {
        return false;
      }
      GasIsThere(config, original.coins, outputs, false, true);
      var gas := GasFee(original.coins, outputs);
      if gas <= original.role.maxGasFee || original.transferAmount < original.withdrawFee {
        return false;
      }
      var prevReserved := match original.role.cancelReserved case Some(r) => r case None => 0;
      var excess := SaturatingSub(gas, original.transferAmount - original.withdrawFee);
      if excess > 0 && !isDao {
        return false;
      }
      var additional := SaturatingSub(excess, prevReserved);
      var info := ReplacementInfo(o, original, true, TotalOutput(outputs), gas, gas, now);
      var role := Original(Max(original.role.maxGasFee, gas), Some(Max(prevReserved, excess)));
      ghost var w := state;
      ok := SetRbfPendingInfo(o, ReplacementTx(o, outputs), info, role, additional);
      if ok {
        TxStepStaysReachable(w, WithdrawalCancel(o, outputs, isDao, now));
      }
    }

    method ActiveUtxoManagementRbf(account: AccountId, o: Tx, outputs: seq<TxOut>, now: nat) returns (ok: bool)
      requires Valid()
      modifies this
      ensures Valid() && ok == CanManageRbf(old(state), account, o, outputs, now)
      ensures state == if ok then ManageRbf(old(state), account, o, outputs, now) else old(state)
    {
      hide Reachable, AcceptsAllChange, CanAddReplacement, AddReplacement, GasFee, HasSignCapacity;
      if account !in book.accounts || !HasSignCapacity(book, account) || o !in book.infos {
        return false;
      }
      var original := book.infos[o];
      if original.account != account || !original.purpose.ActiveManagement? || !original.role.Original?
         || original.role.cancelReserved.Some? || !original.stage.PendingVerify? || |outputs| != |o.outputs|
         || !AcceptsAllChange(config, original.coins, outputs, true, false) {
        return false;
      }
      GasIsThere(config, original.coins, outputs, true, false);
      var gas := GasFee(original.coins, outputs);
      var additional := SaturatingSub(gas, original.role.maxGasFee);
      if additional == 0 {
        return false;
      }
      var info := ReplacementInfo(o, original, false, TotalOutput(outputs), gas, gas, now);
      ghost var w := state;
      ok := SetRbfPendingInfo(o, ReplacementTx(o, outputs), info, original.role.(maxGasFee := gas), additional);
      if ok {
        TxStepStaysReachable(w, ManagementRbf(account, o, outputs, now));
      }
    }

    method CancelActiveUtxoManagement(o: Tx, outputs: seq<TxOut>, now: nat) returns (ok: bool)
      requires Valid()
      modifies this
      ensures Valid() && ok == CanCancelManage(old(state), o, outputs, now)
      ensures state == if ok then CancelManage(old(state), o, outputs, now) else old(state)
    {
      hide Reachable, AcceptsAllChange, AddReplacement, GasFee, HasSignCapacity, Candidates;
      if o !in book.infos {
        return false;
      }
      var original := book.infos[o];
      if !HasSignCapacity(book, original.account) || now < original.createTime
         || now - original.createTime <= config.maxPendingSec
         || !original.purpose.ActiveManagement? || !original.role.Original? || !original.stage.PendingVerify?
         || !AcceptsAllChange(config, original.coins, outputs, true, true) {
        return false;
      }
      GasIsThere(config, original.coins, outputs, true, true);
      var gas := GasFee(original.coins, outputs);
      var additional := SaturatingSub(gas, original.role.maxGasFee);
      if additional == 0 {
        return false;
      }
      var info := ReplacementInfo(o, original, true, TotalOutput(outputs), gas, gas, now);
      ghost var w := state;
      var role := Original(Max(original.role.maxGasFee, gas), Some(0));
      ok := SetRbfPendingInfo(o, ReplacementTx(o, outputs), info, role, additional);
      if ok {
        TxStepStaysReachable(w, ManagementCancel(o, outputs, now));
      }
    }

    // ----- clearing (btc_pending_info.rs, api/bridge.rs) -----

    method ClearInvalidPendingVerifyRbf(c: Tx) returns (ok: bool)
      requires Valid()
      modifies this
      ensures Valid() && ok == CanClear(old(state), c)
      ensures state == if ok then Clear(old(state), c) else old(state)
    {
      hide Reachable, DropSignId;
      if c !in book.infos {
        return false;
      }
      var info := book.infos[c];
      if !info.role.Replacement? || info.role.original in book.rbf || info.account !in book.accounts {
        return false;
      }
      var removed := c in SignIds(book.accounts, info.account);
      if info.stage != (if removed then PendingSign else PendingVerify) {
        return false;
      }
      TxStepStaysReachable(state, Clearing(c));
      book := book.(infos := book.infos - {c}, accounts := DropSignId(book.accounts, info.account, c));
      ok, state := true, Clear(state, c);
    }

    /** Clears a whole list, or nothing: the first failure reverts the call. */
    method BatchClearInvalidPendingVerifyRbf(cs: seq<Tx>) returns (ok: bool)
      requires Valid()
      modifies this
      ensures Valid() && ok == CanClearAll(old(state), cs)
      ensures state == if ok then ClearedAll(old(state), cs) else old(state)
    {
      hide Reachable, CanClear, Clear;
      var before := book;
      ghost var w := state;
      var n := 0;
      while n < |cs|
        invariant 0 <= n <= |cs|
        invariant Valid() && CanClearAll(w, cs[..n]) && state == ClearedAll(w, cs[..n])
        invariant state == w.(book := book)
      {
        assert cs[..n + 1][..n] == cs[..n];
        var cleared := ClearInvalidPendingVerifyRbf(cs[n]);
        if !cleared {
          ClearingStops(w, cs, n);
          book, state := before, w;
          return false;
        }
        ClearMovesBookOnly(w, cs[..n + 1]);
        n := n + 1;
      }
      assert cs[..n] == cs;
      ok := true;
    }

    // ----- verification of confirmed transactions (api/bridge.rs, btc_light_client/) -----

    /** A relayer that is not on the white list waits for more confirmations. */
    method VerifyWithdraw(t: Tx, isWhiteListed: bool) returns (ok: bool)
      requires Valid()
      modifies this
      ensures var delta := if isWhiteListed then 0 else old(config).confirmationsDelta;
        && Valid() && ok == CanAskSpend(old(state), t, delta)
        && state == if ok then AskSpend(old(state), t, delta) else old(state)
    {
      hide Reachable;
      if t !in book.infos {
        return false;
      }
      var info := book.infos[t];
      if !info.stage.PendingVerify? || !info.signedBytes
         || (info.role.Replacement? && info.role.original !in book.infos) || config.tiers == map[] {
        return false;
      }
      var required := GetConfirmations(config.tiers, info.received);
      var delta := if isWhiteListed then 0 else config.confirmationsDelta;
      TxStepStaysReachable(state, SpendQuestion(t, delta));
      ok, state := true, Ask(state, SpendCheck(t, info.purpose, required + delta));
    }

    /** The light client confirmed t: its burn is scheduled. */
    method VerifyWithdrawCallback(t: Tx, purpose: Purpose, ghost confirmations: nat) returns (ok: bool)
      requires Valid() && SpendIsConfirmed(state, t, purpose, confirmations) && !purpose.Refund?
      modifies this
      ensures Valid() && ok == CanStartBurn(old(state), t, purpose, confirmations)
      ensures state == if ok then StartBurn(old(state), t, purpose, confirmations) else old(state)
    {
      hide Reachable, BurnOf;
      if t !in book.infos || !book.infos[t].stage.PendingVerify? {
        return false;
      }
      TxStepStaysReachable(state, BurnStart(t, purpose, confirmations));
      book := book.(infos := book.infos[t := book.infos[t].(stage := PendingBurn)]);
      ok, state := true, StartBurn(state, t, purpose, confirmations);
    }

    // ----- after the burn (nbtc/burn.rs) -----

    /** A failed burn puts the transaction back to verification. */
    method BackToVerification(t: Tx, ghost id: nat)
      requires Valid() && CanFailBurn(state, id) && state.flight.burns[id].tx == t
      modifies this
      ensures Valid() && state == FailBurn(old(state), id)
    {
      hide Reachable;
      TxStepStaysReachable(state, BurnFailure(id));
      book := book.(infos := book.infos[t := book.infos[t].(stage := PendingVerify)]);
      state := FailBurn(state, id);
    }

    /** Frees the reserve of a settled withdrawal but for what went to gas, and collects its protocol fee. */
    method SettleWithdrawalFees(reserved: nat, used: nat, protocolFee: nat)
      requires used <= reserved <= fees.reserved
      modifies `fees
      ensures fees == Collect(Release(old(fees), reserved, used), protocolFee)
    {
      if reserved > 0 {
        fees := fees.(reserved := fees.reserved - reserved);
        fees := fees.(spentOnGas := fees.spentOnGas + used);
        fees := fees.(available := fees.available + (reserved - used));
      }
      if protocolFee > 0 {
        fees := fees.(collected := fees.collected + protocolFee);
        fees := fees.(available := fees.available + protocolFee);
      }
    }

    /**
     * The callback of a withdrawal's burn never panics: the records it unwraps exist and none of its
     * subtractions underflows.
     */
    method VerifyWithdrawBurnCallback(t: Tx, protocolFee: nat, isSuccess: bool, ghost id: nat)
      requires Valid() && id in state.flight.burns
      requires var b := state.flight.burns[id];
        && b.tx == t && b.purpose.Withdraw? && b.protocolFee == protocolFee
        && b.result == (if isSuccess then Succeeded else Failed)
      modifies this
      ensures Valid()
      ensures isSuccess ==> CanFinishBurn(old(state), id) && state == FinishBurn(old(state), id)
      ensures !isSuccess ==> CanFailBurn(old(state), id) && state == FailBurn(old(state), id)
    {
      hide Reachable, DropVerifyId, WithChange, Collect, Release, CanFinishBurn, FinishBurn, CanFailBurn, FailBurn;
      BurnAnswerIsExpected(state, id);
      var info := book.infos[t];
      if !isSuccess {
        BackToVerification(t, id);
        return;
      }
      SettlementStores(state, id);
      TxStepStaysReachable(state, BurnFinish(id));
      AddChange(t);
      var root := match info.role case Replacement(o, _) => o case Original(_, _) => t;
      var reserved := match book.infos[root].role.cancelReserved case Some(r) => r case None => 0;
      var used := if reserved > 0 && info.role.Replacement? && info.role.cancel
        then SaturatingSub(info.burnAmount, info.transferAmount - info.withdrawFee) else 0;
      SettleWithdrawalFees(reserved, used, protocolFee);
      book := book.(infos := book.infos - {t, root}, rbf := book.rbf - {root},
                    accounts := DropVerifyId(book.accounts, info.account, root));
      state := FinishBurn(state, id);
    }

    method VerifyActiveUtxoManagementBurnCallback(t: Tx, isSuccess: bool, ghost id: nat)
      requires Valid() && id in state.flight.burns
      requires var b := state.flight.burns[id];
        b.tx == t && b.purpose.ActiveManagement? && b.result == if isSuccess then Succeeded else Failed
      modifies this
      ensures Valid()
      ensures isSuccess ==> CanFinishBurn(old(state), id) && state == FinishBurn(old(state), id)
      ensures !isSuccess ==> CanFailBurn(old(state), id) && state == FailBurn(old(state), id)
    {
      hide Reachable, DropVerifyId, WithChange, CanFinishBurn, FinishBurn, CanFailBurn, FailBurn;
      BurnAnswerIsExpected(state, id);
      var info := book.infos[t];
      if !isSuccess {
        BackToVerification(t, id);
        return;
      }
      SettlementStores(state, id);
      TxStepStaysReachable(state, BurnFinish(id));
      AddChange(t);
      var root := match info.role case Replacement(o, _) => o case Original(_, _) => t;
      var reserved := book.infos[root].role.maxGasFee;
      fees := fees.(reserved := fees.reserved - reserved, available := fees.available + (reserved - info.burnAmount),
                    spentOnGas := fees.spentOnGas + info.burnAmount);
      book := book.(infos := book.infos - {t, root}, rbf := book.rbf - {root},
                    accounts := DropVerifyId(book.accounts, info.account, root));
      state := FinishBurn(state, id);
    }

    // ----- deposits (btc_light_client/deposit.rs, nbtc/mint.rs) -----

    /** Counts the amount for its block and checks the depth; a failed check takes the count back. */
    method BumpAndCheckConfirmations(height: nat, tip: nat, amount: nat, delta: nat) returns (ok: bool)
      requires ring.Valid()
      modifies ring.cells
      ensures ok == (config.tiers != map[] &&
        ConfirmationsFor(config.tiers, CountedAmount(old(ring.cells[..]), height, amount)) + delta
        <= DepthAt(tip, height))
      ensures ring.cells[..] == if ok then BumpCells(old(ring.cells[..]), height, amount) else old(ring.cells[..])
    {
      if config.tiers == map[] {
        return false;
      }
      var cells := ring.cells;
      var i := Slot(height, cells.Length);
      var before := cells[i];
      var bumped := ring.Bump(height, amount);
      var required := GetConfirmations(config.tiers, if bumped.Some? then bumped.value else U128_MAX);
      ok := DepthAt(tip, height) >= required + delta;
      if !ok {
        cells[i] := before;
        assert cells[..] == BumpCells(old(ring.cells[..]), height, amount)[i := before];
      }
    }

    method VerifyDeposit(d: DepositClaim) returns (ok: bool)
      requires Valid()
      modifies this
      ensures Valid() && ok == CanAskDeposit(old(state), d)
      ensures state == if ok then Ask(old(state), DepositCheck(d)) else old(state)
    {
      hide Reachable;
      if d.txIndex == 0 || !Exists(d.op) || !ScriptOf(d.op).DepositScript? || ValueOf(d.op) == 0
         || ValueOf(d.op) < config.minDepositAmount {
        return false;
      }
      if d.safe {
        ok := d.mintAmount == ValueOf(d.op) && d.protocolFee == 0 && d.relayerFee == 0
          && d.delta in {0, config.confirmationsDelta};
      } else {
        var fee := config.depositFee.GetFee(ValueOf(d.op));
        var protocolFee := config.depositFee.ProtocolPart(fee);
        ok := fee <= ValueOf(d.op) && protocolFee <= fee
          && d.mintAmount == ValueOf(d.op) - fee && d.protocolFee == protocolFee && d.relayerFee == fee - protocolFee
          && d.delta in {0, config.confirmationsDelta, config.extraMsgConfirmationsDelta};
      }
      if ok {
        DepositStepStaysReachable(state, DepositQuestion(d));
        state := Ask(state, DepositCheck(d));
      }
    }

    /** The light client reported the deposit's block and the tip. */
    method VerifyDepositCallback(d: DepositClaim, height: nat, tip: nat) returns (ok: bool)
      requires Valid() && DepositCheck(d) in state.flight.asked && d.op.tx in state.chain.confirmed
      requires height == state.chain.confirmed[d.op.tx] && tip == state.chain.tip
      modifies this, ring.cells
      ensures Valid() && ok == CanAcceptDeposit(old(state), d)
      ensures state == if ok then AcceptDeposit(old(state), d) else old(state)
    {
      hide Reachable, BumpCells;
      AskedDepositExists(state, d);
      if d.op in coins.verified {
        return false;
      }
      ok := BumpAndCheckConfirmations(height, tip, ValueOf(d.op), d.delta);
      if ok {
        DepositStepStaysReachable(state, DepositAcceptance(d));
        coins := coins.(verified := coins.verified + {d.op}, inProgress := coins.inProgress[d.op := ValueOf(d.op)]);
        state := AcceptDeposit(state, d);
      }
    }

    /** The callback of a standard mint; it never panics. */
    method MintCallback(op: OutPoint, value: nat, recipient: AccountId, protocolFee: nat, height: nat, isSuccess: bool,
                        ghost id: nat)
      requires Valid() && id in state.flight.mints
      requires var m := state.flight.mints[id];
        && m.op == op && m.value == value && m.recipient == recipient && m.protocolFee == protocolFee
        && m.height == height && !m.safe && m.result == if isSuccess then Minted else NothingMinted
      modifies this, ring.cells
      ensures Valid() && CanFinishMint(old(state), id) && state == FinishMint(old(state), id)
    {
      hide Reachable, UnbumpCells, WithAccount;
      DepositStepStaysReachable(state, MintFinish(id));
      coins := coins.(inProgress := coins.inProgress - {op});
      if isSuccess {
        book := book.(accounts := WithAccount(book.accounts, recipient));
        if protocolFee > 0 {
          fees := fees.(collected := fees.collected + protocolFee, available := fees.available + protocolFee);
        }
        coins := coins.(utxos := coins.utxos[op := value]);
      } else {
        coins := coins.(verified := coins.verified - {op});
        ring.Unbump(height, value);
      }
      state := FinishMint(state, id);
    }

    /** The callback of a safe mint: only a reported use of zero reverts the deposit. */
    method SafeMintCallback(op: OutPoint, value: nat, height: nat, isRefundRequired: bool, ghost id: nat)
      requires Valid() && id in state.flight.mints
      requires var m := state.flight.mints[id];
        && m.op == op && m.value == value && m.height == height && m.safe && !m.result.MintWaiting?
        && (isRefundRequired <==> m.result.MintedUnused?)
      modifies this, ring.cells
      ensures Valid() && CanFinishMint(old(state), id) && state == FinishMint(old(state), id)
    {
      hide Reachable, UnbumpCells;
      DepositStepStaysReachable(state, MintFinish(id));
      SafeMintIsFree(state, id);
      coins := coins.(inProgress := coins.inProgress - {op});
      if !isRefundRequired {
        coins := coins.(utxos := coins.utxos[op := value]);
      } else {
        coins := coins.(verified := coins.verified - {op});
        ring.Unbump(height, value);
      }
      state := FinishMint(state, id);
    }

    // ----- transfers out of the bridge (token_transfer.rs, api/management.rs, api/bridge.rs) -----

    method WithdrawProtocolFee(amount: Option<nat>) returns (ok: bool)
      requires Valid()
      modifies this
      ensures var taken := if amount.Some? then amount.value else old(state).fees.available;
        && Valid() && ok == CanWithdrawProtocolFee(old(state), taken)
        && state == if ok then Steps.WithdrawProtocolFee(old(state), taken) else old(state)
    {
      hide Reachable, AddTransfer;
      var taken := if amount.Some? then amount.value else fees.available;
      if taken == 0 || taken > fees.available {
        return false;
      }
      LedgerStepStaysReachable(state, FeeWithdrawal(taken));
      fees := fees.(available := fees.available - taken, claimed := fees.claimed + taken);
      ok, state := true, Steps.WithdrawProtocolFee(state, taken);
    }

    /** A failed withdrawal of protocol fee is rolled back; the claimed fee never underflows. */
    method WithdrawProtocolFeeCallback(amount: nat, isSuccess: bool, ghost id: nat)
      requires Valid() && id in state.flight.transfers
      requires state.flight.transfers[id] == Transfer(None, amount, if isSuccess then Succeeded else Failed)
      modifies this
      ensures Valid() && CanFinishTransfer(old(state), id) && state == FinishTransfer(old(state), id)
    {
      hide Reachable;
      RollbackIsPossible(state, id);
      LedgerStepStaysReachable(state, TransferFinish(id));
      if !isSuccess {
        fees := fees.(available := fees.available + amount, claimed := fees.claimed - amount);
      }
      state := FinishTransfer(state, id);
    }

    method ClaimLostFound(account: AccountId) returns (ok: bool)
      requires Valid()
      modifies this
      ensures Valid() && ok == CanClaimLostFound(old(state), account)
      ensures state == if ok then Steps.ClaimLostFound(old(state), account) else old(state)
    {
      hide Reachable, AddTransfer;
      if account !in lostFound {
        return false;
      }
      LedgerStepStaysReachable(state, LostFoundClaim(account));
      lostFound := lostFound - {account};
      ok, state := true, Steps.ClaimLostFound(state, account);
    }

    /** A failed transfer to a user goes to lost and found. */
    method TransferNbtcCallback(account: AccountId, amount: nat, isSuccess: bool, ghost id: nat)
      requires Valid() && id in state.flight.transfers
      requires state.flight.transfers[id] == Transfer(Some(account), amount, if isSuccess then Succeeded else Failed)
      modifies this
      ensures Valid() && CanFinishTransfer(old(state), id) && state == FinishTransfer(old(state), id)
    {
      hide Reachable;
      LedgerStepStaysReachable(state, TransferFinish(id));
      if !isSuccess {
        lostFound := lostFound[account := if account in lostFound then lostFound[account] + amount else amount];
      }
      state := FinishTransfer(state, id);
    }

    // ----- refunds (refund.rs, bitcoin_utils/refund.rs, api/bridge.rs) -----

    method RequestRefund(r: RefundClaim) returns (ok: bool)
      requires Valid()
      modifies this
      ensures Valid() && ok == CanAskRefund(old(state), r)
      ensures state == if ok then Ask(old(state), RefundCheck(r)) else old(state)
    {
      hide Reachable;
      ok := Exists(r.op) && (r.authorized.Some? ==> r.authorized.value == r.script);
      if ok {
        DepositStepStaysReachable(state, RefundQuestion(r));
        state := Ask(state, RefundCheck(r));
      }
    }

    /** The light client reported the block of the deposit to refund and the tip. */
    method RequestRefundCallback(r: RefundClaim, height: nat, tip: nat, now: nat) returns (ok: bool)
      requires Valid() && RefundCheck(r) in state.flight.asked && r.op.tx in state.chain.confirmed
      requires height == state.chain.confirmed[r.op.tx] && tip == state.chain.tip
      modifies this
      ensures Valid() && ok == CanRequestRefund(old(state), r)
      ensures state == if ok then Steps.RequestRefund(old(state), r, now) else old(state)
    {
      hide Reachable;
      AskedRefundExists(state, r);
      var tier := MaxTierConfirmations(config.tiers);
      var delta := if config.confirmationsDelta >= config.extraMsgConfirmationsDelta then config.confirmationsDelta
                   else config.extraMsgConfirmationsDelta;
      if DepthAt(tip, height) < tier + delta || !ScriptOf(r.op).DepositScript?
         || r.op in coins.verified || r.op in coins.refunds {
        return false;
      }
      var gas := match r.gasFee case Some(g) => g case None => config.maxGasFee;
      if ValueOf(r.op) < gas || ValueOf(r.op) - gas < config.minChangeAmount {
        return false;
      }
      DepositStepStaysReachable(state, RefundAcceptance(r, now));
      coins := coins.(refunds := coins.refunds[r.op :=
        RefundRequest.RefundRequest(ValueOf(r.op), r.script, gas, now, r.authorized, false)]);
      ok, state := true, Steps.RequestRefund(state, r, now);
    }

    method RejectRefund(k: OutPoint, privileged: bool) returns (ok: bool)
      requires Valid()
      modifies this
      ensures Valid() && ok == CanRejectRefund(old(state), k, privileged)
      ensures state == if ok then Steps.RejectRefund(old(state), k) else old(state)
    {
      hide Reachable;
      if k !in coins.refunds || coins.refunds[k].executed
         || !(privileged || (k in coins.verified && k !in coins.inProgress)) {
        return false;
      }
      DepositStepStaysReachable(state, RefundRejection(k, privileged));
      coins := coins.(refunds := coins.refunds - {k});
      ok, state := true, Steps.RejectRefund(state, k);
    }

    method ExecuteRefund(k: OutPoint, caller: AccountId, privileged: bool, now: nat) returns (ok: bool)
      requires Valid()
      modifies this
      ensures Valid() && ok == CanExecuteRefund(old(state), k, caller, privileged, now)
      ensures state == if ok then Steps.ExecuteRefund(old(state), k, caller, privileged, now) else old(state)
    {
      hide Reachable, HasSignCapacity, AddSignId, RefundInfo;
      if k !in coins.refunds {
        return false;
      }
      var r := coins.refunds[k];
      if now < r.createdAt + RefundTimelock(config, r, privileged) || (k in coins.verified && !r.executed)
         || r.amount < r.gasFee || r.amount - r.gasFee < config.minChangeAmount || !HasSignCapacity(book, caller) {
        return false;
      }
      var t := RefundTx(k, r);
      if t in book.infos {
        return false;
      }
      DepositStepStaysReachable(state, RefundExecution(k, caller, privileged, now));
      book := book.(infos := book.infos[t := RefundInfo(caller, r, now)], accounts := AddSignId(book.accounts, caller, t));
      coins := coins.(verified := coins.verified + {k}, refunds := coins.refunds[k := r.(executed := true)]);
      ok, state := true, Steps.ExecuteRefund(state, k, caller, privileged, now);
    }

    /** The light client confirmed the refund transaction t. */
    method VerifyRefundFinalizeCallback(t: Tx, ghost confirmations: nat) returns (ok: bool)
      requires Valid() && SpendIsConfirmed(state, t, Refund, confirmations)
      modifies this
      ensures Valid() && ok == CanFinishRefund(old(state), t, confirmations)
      ensures state == if ok then FinishRefund(old(state), t, confirmations) else old(state)
    {
      hide Reachable, DropVerifyId, Consume;
      if t !in book.infos || !book.infos[t].purpose.Refund? || !book.infos[t].stage.PendingVerify?
         || |t.inputs| != 1 || book.infos[t].account !in book.accounts {
        return false;
      }
      DepositStepStaysReachable(state, RefundConfirmation(t, confirmations));
      coins := coins.(refunds := coins.refunds - {t.inputs[0]});
      book := book.(infos := book.infos - {t}, accounts := DropVerifyId(book.accounts, book.infos[t].account, t));
      ok, state := true, FinishRefund(state, t, confirmations);
    }

    method RemoveRefundPendingTxId(t: Tx) returns (ok: bool)
      requires Valid()
      modifies this
      ensures Valid() && ok == CanRemoveRefund(old(state), t)
      ensures state == if ok then Drop(old(state), t) else old(state)
    {
      hide Reachable, DropIds;
      if t !in book.infos || !book.infos[t].purpose.Refund? || |t.inputs| != 1 || t.inputs[0] in coins.refunds
         || book.infos[t].account !in book.accounts {
        return false;
      }
      DepositStepStaysReachable(state, RefundRemoval(t));
      book := book.(infos := book.infos - {t}, accounts := DropIds(book.accounts, book.infos[t].account, t));
      ok, state := true, Drop(state, t);
    }

    // ----- management (api/management.rs) -----

    method SetPendingTxLimit(account: AccountId, maxPending: Option<nat>) returns (ok: bool)
      requires Valid()
      modifies this
      ensures Valid() && ok == CanSetLimit(old(state), account, maxPending)
      ensures state == if ok then SetLimit(old(state), account, maxPending) else old(state)
    {
      hide Reachable;
      if maxPending.Some? {
        if maxPending.value < 1 {
          return false;
        }
        LedgerStepStaysReachable(state, LimitChange(account, maxPending));
        book := book.(limits := book.limits[account := maxPending.value]);
      } else {
        if account !in book.limits {
          return false;
        }
        LedgerStepStaysReachable(state, LimitChange(account, maxPending));
        book := book.(limits := book.limits - {account});
      }
      ok, state := true, SetLimit(state, account, maxPending);
    }

    /** Stores a valid configuration and gives the ring its capacity. */
    method Reconfigure(c: Config) returns (ok: bool)
      requires Valid() && TiersTyped(c.tiers) && IsOneChange(config, c)
      modifies this, ring
      ensures Valid() && ok == CanConfigure(old(state), c) == ValidConfig(c)
      ensures state == if ok then Configure(old(state), c) else old(state)
      ensures ring.cells == old(ring.cells) || fresh(ring.cells)
    {
      hide Reachable, ValidConfig, ResizedCells, CapacityFor, IsOneChange;
      ok := CheckValid(c);
      if ok {
        LedgerStepStaysReachable(state, ConfigChange(c));
        config := c;
        var capacity := CapacityOf(c);
        var resized := ring.Resize(capacity);
        state := Configure(state, c);
      }
    }

    /** Changes any fields but the tiers; the fields an update leaves out keep their values. */
    method UpdateConfig(update: Config) returns (ok: bool)
      requires Valid()
      modifies this, ring
      ensures var c := update.(tiers := old(config).tiers);
        && Valid() && ok == CanConfigure(old(state), c) == ValidConfig(c)
        && state == if ok then Configure(old(state), c) else old(state)
      ensures ring.cells == old(ring.cells) || fresh(ring.cells)
    {
      CurrentTiersAreTyped(state);
      ok := Reconfigure(update.(tiers := config.tiers));
    }

    /** Sets the tier of one bound. */
    method SetConfirmationsStrategy(bound: nat, confirmations: nat) returns (ok: bool)
      requires Valid() && bound <= U128_MAX
      modifies this, ring
      ensures var c := WithTier(old(config), bound, confirmations);
        && Valid() && ok == CanConfigure(old(state), c) == ValidConfig(c)
        && state == if ok then Configure(old(state), c) else old(state)
      ensures ring.cells == old(ring.cells) || fresh(ring.cells)
    {
      CurrentTiersAreTyped(state);
      ok := Reconfigure(WithTier(config, bound, confirmations));
    }

    /** Removes the tier of one bound, but not the last tier. */
    method RemoveConfirmationsStrategy(bound: nat) returns (ok: bool)
      requires Valid()
      modifies this, ring
      ensures var c := WithoutTier(old(config), bound);
        && Valid() && ok == (bound in old(config).tiers && c.tiers != map[] && CanConfigure(old(state), c))
        && state == if ok then Configure(old(state), c) else old(state)
      ensures ring.cells == old(ring.cells) || fresh(ring.cells)
    {
      CurrentTiersAreTyped(state);
      ok := bound in config.tiers && config.tiers - {bound} != map[];
      if ok {
        ok := Reconfigure(WithoutTier(config, bound));
      }
    }

    method RegisterAccount(account: AccountId)
      requires Valid()
      modifies this
      ensures Valid() && state == Register(old(state), account)
    {
      hide Reachable;
      LedgerStepStaysReachable(state, Registration(account));
      if account !in book.accounts {
        book := book.(accounts := book.accounts[account := Account({}, {})]);
      }
      state := Register(state, account);
    }

    /** What the token contract, the chain and the holders of nBTC do leaves the contract's fields alone. */
    ghost method Surroundings(e: Event)
      requires Valid() && Can(state, e) && IsOutside(e)
      modifies `state
      ensures Valid() && state == Do(old(state), e)
    {
      OutsideLeavesContract(state, e);
      hide Reachable, Can, Do;
      StepStaysReachable(state, e);
      state := Do(state, e);
    }
  }
}
