/**
 * Every step of the bridge: the contract's entry points and callbacks, and what the token contract and the
 * chain may do in between. A step that panics reverts, so it is a step that cannot be taken.
 */
module Steps {
  import opened Wrappers
  import opened Bitcoin
  import opened BlockAmounts
  import opened Configuration
  import opened Psbt
  import opened BridgeState
  import opened Effects

  // ----- nBTC sent to the bridge (api/token_receiver.rs) -----

  /** The sender's nBTC is outside the bridge before it arrives. */
  predicate Arrives(w: World, amount: nat) {
    w.cfg.minWithdrawAmount <= amount && w.token.balance + amount <= w.token.supply
  }

  predicate CanDepositProtocolFee(w: World, amount: nat) {
    Arrives(w, amount)
  }

  ghost function DepositProtocolFee(w: World, amount: nat): World {
    w.(fees := Collect(w.fees, amount), token := w.token.(balance := w.token.balance + amount))
  }

  function NewTx(inputs: seq<OutPoint>, outputs: seq<TxOut>): Tx {
    Tx(inputs, outputs, BRIDGE_HEADER)
  }

  function WithdrawInfo(sender: AccountId, amount: nat, fee: nat, coins: seq<nat>, received: nat, gas: nat, now: nat): Info {
    Info(sender, Withdraw, Original(gas, None), PendingSign, amount, received, fee, gas, received + gas,
         coins, Unsigned(|coins|), false, now)
  }

  predicate CanWithdraw(w: World, sender: AccountId, amount: nat, target: Script, t: Tx,
                        maxGasFee: Option<nat>, unrestricted: bool)
  {
    && Arrives(w, amount)
    && t == NewTx(t.inputs, t.outputs)
    && t.inputs != []
    && t.outputs != []
    && CanTake(w.coins.utxos, t.inputs)
    && HasSignCapacity(w.book, sender)
    && var coins := Taken(w.coins.utxos, t.inputs);
    && AcceptsWithdrawal(w.cfg, coins, t.outputs, target, amount, w.cfg.withdrawFee.GetFee(amount), unrestricted)
    && WithinWithdrawLimits(w.cfg, SummaryOf(coins, t.outputs, target), maxGasFee, |w.coins.utxos|)
    && t !in w.book.infos
  }

  ghost function WithdrawRequest(w: World, sender: AccountId, amount: nat, target: Script, t: Tx,
                                 maxGasFee: Option<nat>, unrestricted: bool, now: nat): World
    requires CanWithdraw(w, sender, amount, target, t, maxGasFee, unrestricted)
  {
    var coins := Taken(w.coins.utxos, t.inputs);
    var info := WithdrawInfo(sender, amount, w.cfg.withdrawFee.GetFee(amount), coins,
                             PaidTo(t.outputs, target), GasFee(coins, t.outputs), now);
    AddOriginal(w, t, info, 0)
  }

  // ----- active UTXO management (btc_light_client/active_utxo_management.rs) -----

  function ManagementInfo(account: AccountId, coins: seq<nat>, received: nat, gas: nat, now: nat): Info {
    Info(account, ActiveManagement, Original(gas, None), PendingSign, 0, received, 0, gas, gas,
         coins, Unsigned(|coins|), false, now)
  }

  predicate CanManage(w: World, account: AccountId, t: Tx) {
    && t == NewTx(t.inputs, t.outputs)
    && t.inputs != []
    && t.outputs != []
    && account in w.book.accounts
    && HasSignCapacity(w.book, account)
    && CanTake(w.coins.utxos, t.inputs)
    && var coins := Taken(w.coins.utxos, t.inputs);
    && AcceptsActiveManagement(w.cfg, coins, t.outputs)
    && GasFee(coins, t.outputs) <= w.fees.available
    && t !in w.book.infos
  }

  ghost function Manage(w: World, account: AccountId, t: Tx, now: nat): World
    requires CanManage(w, account, t)
  {
    var coins := Taken(w.coins.utxos, t.inputs);
    var gas := GasFee(coins, t.outputs);
    AddOriginal(w, t, ManagementInfo(account, coins, TotalOutput(t.outputs), gas, now), gas)
  }

  // ----- signing (chain_signature.rs, api/chain_signatures.rs) -----

  predicate CanAskSignature(w: World, t: Tx, i: nat) {
    && t in w.book.infos
    && w.book.infos[t].stage.PendingSign?
    && !IsOrphan(w, t)
    && i < |w.book.infos[t].signatures|
    && !w.book.infos[t].signatures[i]
  }

  ghost function Ask(w: World, question: Question): World {
    w.(flight := w.flight.(asked := w.flight.asked + {question}))
  }

  ghost function AskSignature(w: World, t: Tx, i: nat): World
    requires CanAskSignature(w, t, i)
  {
    Ask(w, SignatureOf(t, i, w.book.infos[t].account))
  }

  /** Asking to sign an orphan removes it instead. */
  predicate CanSignAwayOrphan(w: World, t: Tx) {
    && IsOrphan(w, t)
    && w.book.infos[t].stage.PendingSign?
    && t in SignIds(w.book.accounts, w.book.infos[t].account)
  }

  predicate CanSignInput(w: World, t: Tx, i: nat, account: AccountId) {
    SignatureOf(t, i, account) in w.flight.asked && CanSign(w, t, i)
  }

  // ----- replacements (rbf/) -----

  predicate CanReplace(w: World, o: Tx, purpose: Purpose) {
    && o in w.book.infos
    && w.book.infos[o].purpose == purpose
    && w.book.infos[o].role.Original?
    && w.book.infos[o].stage.PendingVerify?
  }

  function ReplacementTx(o: Tx, outputs: seq<TxOut>): Tx {
    NewTx(o.inputs, outputs)
  }

  predicate PaysMoreGas(original: Info, gas: int)
    requires original.role.Original?
  {
    original.role.maxGasFee < gas
  }

  function UserWithdrawReplacement(w: World, o: Tx, outputs: seq<TxOut>, now: nat): Info
    requires o in w.book.infos && RecipientOf(o.outputs).Some? && 0 <= GasFee(w.book.infos[o].coins, outputs)
  {
    var original := w.book.infos[o];
    var received := PaidTo(outputs, RecipientOf(o.outputs).value);
    var gas := GasFee(original.coins, outputs);
    ReplacementInfo(o, original, false, received, gas, received + gas, now)
  }

  predicate CanWithdrawRbf(w: World, account: AccountId, o: Tx, outputs: seq<TxOut>, unrestricted: bool, now: nat) {
    && account in w.book.accounts
    && HasSignCapacity(w.book, account)
    && CanReplace(w, o, Withdraw)
    && var original := w.book.infos[o];
    && original.account == account
    && original.role.cancelReserved.None?
    && |outputs| == |o.outputs|
    && RecipientOf(o.outputs).Some?
    && AcceptsWithdrawal(w.cfg, original.coins, outputs, RecipientOf(o.outputs).value,
                         original.transferAmount, original.withdrawFee, unrestricted)
    && PaysMoreGas(original, GasFee(original.coins, outputs))
    && CanAddReplacement(w, o, ReplacementTx(o, outputs), UserWithdrawReplacement(w, o, outputs, now),
                         original.role.(maxGasFee := GasFee(original.coins, outputs)), 0)
  }

  ghost function WithdrawRbf(w: World, account: AccountId, o: Tx, outputs: seq<TxOut>, unrestricted: bool, now: nat): World
    requires CanWithdrawRbf(w, account, o, outputs, unrestricted, now)
  {
    var original := w.book.infos[o];
    AddReplacement(w, o, ReplacementTx(o, outputs), UserWithdrawReplacement(w, o, outputs, now),
                   original.role.(maxGasFee := GasFee(original.coins, outputs)), 0)
  }

  function ReservedSoFar(original: Info): nat
    requires original.role.Original?
  {
    match original.role.cancelReserved
    case Some(reserved) => reserved
    case None => 0
  }

  function Max(a: nat, b: nat): nat {
    if a >= b then a else b
  }

  /** A cancellation, or a gas increase of active management: the burn is the gas. */
  function AllChangeReplacement(w: World, o: Tx, outputs: seq<TxOut>, cancel: bool, now: nat): Info
    requires o in w.book.infos && 0 <= GasFee(w.book.infos[o].coins, outputs)
  {
    var original := w.book.infos[o];
    var gas := GasFee(original.coins, outputs);
    ReplacementInfo(o, original, cancel, TotalOutput(outputs), gas, gas, now)
  }

  /** Protocol fee a cancellation must add to what earlier cancellations of the same withdrawal reserved. */
  function AdditionalReserve(original: Info, gas: nat): nat
    requires original.role.Original?
  {
    SaturatingSub(Excess(gas, original.transferAmount, original.withdrawFee), ReservedSoFar(original))
  }

  function CancelledRole(original: Info, gas: nat): Role
    requires original.role.Original?
  {
    Original(Max(original.role.maxGasFee, gas),
             Some(Max(ReservedSoFar(original), Excess(gas, original.transferAmount, original.withdrawFee))))
  }

  predicate PendingLongEnough(w: World, original: Info, now: nat) {
    original.createTime <= now && w.cfg.maxPendingSec < now - original.createTime
  }

  predicate CanCancelWithdraw(w: World, o: Tx, outputs: seq<TxOut>, isDao: bool, now: nat) {
    && CanReplace(w, o, Withdraw)
    && var original := w.book.infos[o];
    && PendingLongEnough(w, original, now)
    && AcceptsAllChange(w.cfg, original.coins, outputs, false, true)
    && var gas := GasFee(original.coins, outputs);
    && PaysMoreGas(original, gas)
    && original.withdrawFee <= original.transferAmount
    && (Excess(gas, original.transferAmount, original.withdrawFee) > 0 ==> isDao)
    && CanAddReplacement(w, o, ReplacementTx(o, outputs), AllChangeReplacement(w, o, outputs, true, now),
                         CancelledRole(original, gas), AdditionalReserve(original, gas))
  }

  ghost function CancelWithdraw(w: World, o: Tx, outputs: seq<TxOut>, isDao: bool, now: nat): World
    requires CanCancelWithdraw(w, o, outputs, isDao, now)
  {
    var original := w.book.infos[o];
    var gas := GasFee(original.coins, outputs);
    AddReplacement(w, o, ReplacementTx(o, outputs), AllChangeReplacement(w, o, outputs, true, now),
                   CancelledRole(original, gas), AdditionalReserve(original, gas))
  }

  predicate CanManageRbf(w: World, account: AccountId, o: Tx, outputs: seq<TxOut>, now: nat) {
    && account in w.book.accounts
    && HasSignCapacity(w.book, account)
    && CanReplace(w, o, ActiveManagement)
    && var original := w.book.infos[o];
    && original.account == account
    && original.role.cancelReserved.None?
    && |outputs| == |o.outputs|
    && AcceptsAllChange(w.cfg, original.coins, outputs, true, false)
    && var gas := GasFee(original.coins, outputs);
    && PaysMoreGas(original, gas)
    && CanAddReplacement(w, o, ReplacementTx(o, outputs), AllChangeReplacement(w, o, outputs, false, now),
                         original.role.(maxGasFee := gas), gas - original.role.maxGasFee)
  }

  ghost function ManageRbf(w: World, account: AccountId, o: Tx, outputs: seq<TxOut>, now: nat): World
    requires CanManageRbf(w, account, o, outputs, now)
  {
    var original := w.book.infos[o];
    var gas := GasFee(original.coins, outputs);
    AddReplacement(w, o, ReplacementTx(o, outputs), AllChangeReplacement(w, o, outputs, false, now),
                   original.role.(maxGasFee := gas), gas - original.role.maxGasFee)
  }

  predicate CanCancelManage(w: World, o: Tx, outputs: seq<TxOut>, now: nat) {
    && CanReplace(w, o, ActiveManagement)
    && var original := w.book.infos[o];
    && PendingLongEnough(w, original, now)
    && AcceptsAllChange(w.cfg, original.coins, outputs, true, true)
    && var gas := GasFee(original.coins, outputs);
    && PaysMoreGas(original, gas)
    && CanAddReplacement(w, o, ReplacementTx(o, outputs), AllChangeReplacement(w, o, outputs, true, now),
                         Original(gas, Some(0)), gas - original.role.maxGasFee)
  }

  ghost function CancelManage(w: World, o: Tx, outputs: seq<TxOut>, now: nat): World
    requires CanCancelManage(w, o, outputs, now)
  {
    var original := w.book.infos[o];
    var gas := GasFee(original.coins, outputs);
    AddReplacement(w, o, ReplacementTx(o, outputs), AllChangeReplacement(w, o, outputs, true, now),
                   Original(gas, Some(0)), gas - original.role.maxGasFee)
  }

  /** Clearing a replacement whose original has been settled (btc_pending_info.rs). */
  predicate CanClear(w: World, c: Tx) {
    && c in w.book.infos
    && w.book.infos[c].role.Replacement?
    && w.book.infos[c].role.original !in w.book.rbf
    && w.book.infos[c].account in w.book.accounts
    && w.book.infos[c].stage ==
         (if c in SignIds(w.book.accounts, w.book.infos[c].account) then PendingSign else PendingVerify)
  }

  ghost function Clear(w: World, c: Tx): World
    requires c in w.book.infos
  {
    w.(book := w.book.(infos := w.book.infos - {c},
                       accounts := DropSignId(w.book.accounts, w.book.infos[c].account, c)))
  }

  // ----- verification of a confirmed transaction -----

  /** `delta` is the relayer's: zero for one on the white list. */
  predicate CanAskSpend(w: World, t: Tx, delta: nat) {
    && t in w.book.infos
    && w.book.infos[t].stage.PendingVerify?
    && w.book.infos[t].signedBytes
    && !IsOrphan(w, t)
    && w.cfg.tiers != map[]
    && delta in {0, w.cfg.confirmationsDelta}
  }

  ghost function SpendConfirmations(c: Config, info: Info, delta: nat): nat
    requires c.tiers != map[]
  {
    ConfirmationsFor(c.tiers, info.received) + delta
  }

  ghost function AskSpend(w: World, t: Tx, delta: nat): World
    requires CanAskSpend(w, t, delta)
  {
    var info := w.book.infos[t];
    Ask(w, SpendCheck(t, info.purpose, SpendConfirmations(w.cfg, info, delta)))
  }

  function Depth(chain: Chain, height: nat): nat {
    DepthAt(chain.tip, height)
  }

  /** The light client finds the transaction under as many blocks as it was asked for. */
  predicate SpendIsConfirmed(w: World, t: Tx, purpose: Purpose, confirmations: nat) {
    && SpendCheck(t, purpose, confirmations) in w.flight.asked
    && t in w.chain.confirmed
    && confirmations <= Depth(w.chain, w.chain.confirmed[t])
  }

  /** The light client confirmed the transaction: its burn is scheduled. */
  predicate CanStartBurn(w: World, t: Tx, purpose: Purpose, confirmations: nat) {
    && !purpose.Refund?
    && SpendIsConfirmed(w, t, purpose, confirmations)
    && t in w.book.infos
    && w.book.infos[t].stage.PendingVerify?
  }

  function BurnOf(c: Config, t: Tx, info: Info, purpose: Purpose): Burn {
    var protocolFee := if purpose.Withdraw? then c.withdrawFee.ProtocolPart(info.withdrawFee) else 0;
    var relayerFee := if purpose.Withdraw? then SaturatingSub(info.withdrawFee, protocolFee) else 0;
    Burn(t, purpose, info.burnAmount, protocolFee, relayerFee, Waiting)
  }

  ghost function StartBurn(w: World, t: Tx, purpose: Purpose, confirmations: nat): World
    requires CanStartBurn(w, t, purpose, confirmations)
  {
    var burn := BurnOf(w.cfg, t, w.book.infos[t], purpose);
    SetStage(w, t, PendingBurn).(
      flight := w.flight.(burns := w.flight.burns[FreshId(w.flight.burns) := burn]))
  }

  /** The token contract burns and pays the relayer, or fails. */
  predicate CanExecBurn(w: World, id: nat, ok: bool) {
    && id in w.flight.burns
    && var b := w.flight.burns[id];
    && b.result.Waiting?
    && (ok ==> b.amount + b.relayerFee <= w.token.balance && b.amount <= w.token.supply)
  }

  ghost function ExecBurn(w: World, id: nat, ok: bool): World
    requires CanExecBurn(w, id, ok)
  {
    var b := w.flight.burns[id];
    w.(flight := w.flight.(burns := w.flight.burns[id := b.(result := if ok then Succeeded else Failed)]),
       token := if ok then Token(w.token.supply - b.amount, w.token.balance - b.amount - b.relayerFee) else w.token)
  }

  /** The callback after a successful burn (nbtc/burn.rs). */
  predicate CanFinishBurn(w: World, id: nat) {
    && id in w.flight.burns
    && w.flight.burns[id].result.Succeeded?
    && CanSettle(w, w.flight.burns[id].tx)
  }

  ghost function FinishBurn(w: World, id: nat): World
    requires CanFinishBurn(w, id)
  {
    var b := w.flight.burns[id];
    var settled := Settle(w, b.tx, b.protocolFee);
    settled.(flight := settled.flight.(burns := w.flight.burns - {id}))
  }

  predicate CanFailBurn(w: World, id: nat) {
    && id in w.flight.burns
    && w.flight.burns[id].result.Failed?
    && w.flight.burns[id].tx in w.book.infos
  }

  ghost function FailBurn(w: World, id: nat): World
    requires CanFailBurn(w, id)
  {
    SetStage(w, w.flight.burns[id].tx, PendingVerify).(
      flight := w.flight.(burns := w.flight.burns - {id}))
  }

  // ----- deposits (btc_light_client/deposit.rs, nbtc/mint.rs) -----

  /** A coinbase transaction, the first of its block, is no deposit. */
  predicate CanAskDeposit(w: World, d: DepositClaim) {
    && d.txIndex != 0
    && Exists(d.op)
    && ScriptOf(d.op).DepositScript?
    && 0 < ValueOf(d.op)
    && w.cfg.minDepositAmount <= ValueOf(d.op)
    && (if d.safe then
          && d.mintAmount == ValueOf(d.op) && d.protocolFee == 0 && d.relayerFee == 0
          && d.delta in {0, w.cfg.confirmationsDelta}
        else
          var fee := w.cfg.depositFee.GetFee(ValueOf(d.op));
          && fee <= ValueOf(d.op)
          && d.mintAmount == ValueOf(d.op) - fee
          && d.protocolFee == w.cfg.depositFee.ProtocolPart(fee)
          && d.protocolFee <= fee
          && d.relayerFee == fee - d.protocolFee
          && d.delta in {0, w.cfg.confirmationsDelta, w.cfg.extraMsgConfirmationsDelta})
  }

  function CountedAmount(ring: Cells, height: nat, amount: nat): nat
    requires |ring| > 0
  {
    match BumpResult(ring, height, amount)
    case Some(sats) => sats
    case None => U128_MAX
  }

  ghost predicate EnoughConfirmations(w: World, height: nat, amount: nat, delta: nat) {
    && |w.ring| > 0
    && w.cfg.tiers != map[]
    && ConfirmationsFor(w.cfg.tiers, CountedAmount(w.ring, height, amount)) + delta <= Depth(w.chain, height)
  }

  ghost predicate CanAcceptDeposit(w: World, d: DepositClaim) {
    && DepositCheck(d) in w.flight.asked
    && Exists(d.op)
    && d.op.tx in w.chain.confirmed
    && EnoughConfirmations(w, w.chain.confirmed[d.op.tx], ValueOf(d.op), d.delta)
    && d.op !in w.coins.verified
  }

  ghost function AcceptDeposit(w: World, d: DepositClaim): World
    requires CanAcceptDeposit(w, d)
  {
    var value, height := ValueOf(d.op), w.chain.confirmed[d.op.tx];
    var mint := Mint(d.op, value, d.recipient, d.mintAmount, d.protocolFee, d.relayerFee, d.safe, height, MintWaiting);
    w.(ring := BumpCells(w.ring, height, value),
       coins := w.coins.(verified := w.coins.verified + {d.op}, inProgress := w.coins.inProgress[d.op := value]),
       flight := w.flight.(mints := w.flight.mints[FreshId(w.flight.mints) := mint]),
       past := w.past.(accepted := w.past.accepted[d.op := Deposit(height, value)]))
  }

  /**
   * The token contract mints or fails. Of a safe mint `kept` stays with the bridge: all of it when the
   * recipient used nothing, less when the recipient used something or the transfer's outcome is unreadable.
   */
  predicate CanExecMint(w: World, id: nat, result: MintResult, kept: nat) {
    && id in w.flight.mints
    && var m := w.flight.mints[id];
    && m.result.MintWaiting?
    && !result.MintWaiting?
    && (if m.safe then kept <= m.mintAmount && (result.MintedUnused? ==> kept == m.mintAmount)
        else !result.MintedUnused? && kept == m.protocolFee)
  }

  ghost function ExecMint(w: World, id: nat, result: MintResult, kept: nat): World
    requires CanExecMint(w, id, result, kept)
  {
    var m := w.flight.mints[id];
    w.(flight := w.flight.(mints := w.flight.mints[id := m.(result := result)]),
       token := if result.NothingMinted? then w.token
                else Token(w.token.supply + m.mintAmount + m.protocolFee + m.relayerFee, w.token.balance + kept),
       past := w.past.(donated := w.past.donated + (if m.safe && result.Minted? then kept else 0)))
  }

  /** A standard mint counts as done when it succeeded, a safe one unless the token reported that nothing was used. */
  predicate MintAccepted(m: Mint) {
    if m.safe then !m.result.MintedUnused? else m.result.Minted?
  }

  predicate CanFinishMint(w: World, id: nat) {
    && id in w.flight.mints
    && !w.flight.mints[id].result.MintWaiting?
    && |w.ring| > 0
  }

  ghost function FinishMint(w: World, id: nat): World
    requires CanFinishMint(w, id)
  {
    var m := w.flight.mints[id];
    if MintAccepted(m) then
      w.(coins := w.coins.(inProgress := w.coins.inProgress - {m.op}, utxos := w.coins.utxos[m.op := m.value]),
         book := if m.safe then w.book else w.book.(accounts := WithAccount(w.book.accounts, m.recipient)),
         fees := Collect(w.fees, m.protocolFee),
         flight := w.flight.(mints := w.flight.mints - {id}),
         past := w.past.(deposited := w.past.deposited + {m.op},
                         unminted := w.past.unminted + (if m.result.NothingMinted? then m.value else 0)))
    else
      w.(ring := UnbumpCells(w.ring, m.height, m.value),
         coins := w.coins.(inProgress := w.coins.inProgress - {m.op}, verified := w.coins.verified - {m.op}),
         flight := w.flight.(mints := w.flight.mints - {id},
                             safeBurns := if m.safe then w.flight.safeBurns[FreshId(w.flight.safeBurns) := m.mintAmount]
                                          else w.flight.safeBurns),
         past := w.past.(accepted := w.past.accepted - {m.op}))
  }

  /** The detached burn of a safe mint nobody used. */
  predicate CanExecSafeBurn(w: World, id: nat) {
    id in w.flight.safeBurns && w.flight.safeBurns[id] <= w.token.balance && w.flight.safeBurns[id] <= w.token.supply
  }

  ghost function ExecSafeBurn(w: World, id: nat): World
    requires CanExecSafeBurn(w, id)
  {
    w.(flight := w.flight.(safeBurns := w.flight.safeBurns - {id}),
       token := Token(w.token.supply - w.flight.safeBurns[id], w.token.balance - w.flight.safeBurns[id]))
  }

  // ----- transfers out of the bridge (token_transfer.rs, api/management.rs, api/bridge.rs) -----

  ghost function AddTransfer(transfers: map<nat, Transfer>, to: Option<AccountId>, amount: nat): map<nat, Transfer> {
    transfers[FreshId(transfers) := Transfer(to, amount, Waiting)]
  }

  predicate CanWithdrawProtocolFee(w: World, amount: nat) {
    0 < amount <= w.fees.available
  }

  ghost function WithdrawProtocolFee(w: World, amount: nat): World
    requires CanWithdrawProtocolFee(w, amount)
  {
    w.(fees := w.fees.(available := w.fees.available - amount, claimed := w.fees.claimed + amount),
       flight := w.flight.(transfers := AddTransfer(w.flight.transfers, None, amount)))
  }

  predicate CanClaimLostFound(w: World, a: AccountId) {
    a in w.lostFound
  }

  ghost function ClaimLostFound(w: World, a: AccountId): World
    requires CanClaimLostFound(w, a)
  {
    w.(lostFound := w.lostFound - {a},
       flight := w.flight.(transfers := AddTransfer(w.flight.transfers, Some(a), w.lostFound[a])))
  }

  predicate CanExecTransfer(w: World, id: nat, ok: bool) {
    && id in w.flight.transfers
    && w.flight.transfers[id].result.Waiting?
    && (ok ==> w.flight.transfers[id].amount <= w.token.balance)
  }

  ghost function ExecTransfer(w: World, id: nat, ok: bool): World
    requires CanExecTransfer(w, id, ok)
  {
    var x := w.flight.transfers[id];
    w.(flight := w.flight.(transfers := w.flight.transfers[id := x.(result := if ok then Succeeded else Failed)]),
       token := if ok then w.token.(balance := w.token.balance - x.amount) else w.token)
  }

  predicate CanFinishTransfer(w: World, id: nat) {
    && id in w.flight.transfers
    && var x := w.flight.transfers[id];
    && !x.result.Waiting?
    && (x.result.Failed? && x.to.None? ==> x.amount <= w.fees.claimed)
  }

  /** A failed fee withdrawal is rolled back; a failed transfer to a user goes to lost and found. */
  ghost function FinishTransfer(w: World, id: nat): World
    requires CanFinishTransfer(w, id)
  {
    var x := w.flight.transfers[id];
    var rest := w.flight.(transfers := w.flight.transfers - {id});
    if x.result.Succeeded? then w.(flight := rest)
    else if x.to.None? then
      w.(flight := rest,
         fees := w.fees.(available := w.fees.available + x.amount, claimed := w.fees.claimed - x.amount))
    else
      var a := x.to.value;
      w.(flight := rest,
         lostFound := w.lostFound[a := (if a in w.lostFound then w.lostFound[a] else 0) + x.amount])
  }

  // ----- refunds of deposits that were never finalized (refund.rs, bitcoin_utils/refund.rs) -----

  /** An address named by the deposit message cannot be replaced by another one. */
  predicate CanAskRefund(w: World, r: RefundClaim) {
    Exists(r.op) && (r.authorized.Some? ==> r.authorized.value == r.script)
  }

  ghost predicate CanRequestRefund(w: World, r: RefundClaim) {
    && RefundCheck(r) in w.flight.asked
    && Exists(r.op)
    && r.op.tx in w.chain.confirmed
    && MaxRequiredConfirmations(w.cfg) <= Depth(w.chain, w.chain.confirmed[r.op.tx])
    && ScriptOf(r.op).DepositScript?
    && r.op !in w.coins.verified
    && r.op !in w.coins.refunds
    && RefundGas(w.cfg, r) + w.cfg.minChangeAmount <= ValueOf(r.op)
  }

  function RefundGas(c: Config, r: RefundClaim): nat {
    match r.gasFee
    case Some(gas) => gas
    case None => c.maxGasFee
  }

  ghost function RequestRefund(w: World, r: RefundClaim, now: nat): World
    requires CanRequestRefund(w, r)
  {
    w.(coins := w.coins.(refunds := w.coins.refunds[r.op :=
         RefundRequest(ValueOf(r.op), r.script, RefundGas(w.cfg, r), now, r.authorized, false)]))
  }

  predicate CanRejectRefund(w: World, k: OutPoint, privileged: bool) {
    && k in w.coins.refunds
    && !w.coins.refunds[k].executed
    && (privileged || (k in w.coins.verified && k !in w.coins.inProgress))
  }

  ghost function RejectRefund(w: World, k: OutPoint): World {
    w.(coins := w.coins.(refunds := w.coins.refunds - {k}))
  }

  function RefundTimelock(c: Config, r: RefundRequest, privileged: bool): nat {
    if r.authorized.Some? then (if privileged then 0 else c.refundTimelockSec) else c.unsafeRefundTimelockSec
  }

  function RefundTx(k: OutPoint, r: RefundRequest): Tx
    requires r.gasFee <= r.amount
  {
    NewTx([k], [TxOut(r.amount - r.gasFee, r.script)])
  }

  function RefundInfo(caller: AccountId, r: RefundRequest, now: nat): Info
    requires r.gasFee <= r.amount
  {
    Info(caller, Refund, Original(r.gasFee, None), PendingSign, 0, r.amount - r.gasFee, 0, r.gasFee, 0,
         [r.amount], Unsigned(1), false, now)
  }

  predicate CanExecuteRefund(w: World, k: OutPoint, caller: AccountId, privileged: bool, now: nat) {
    && k in w.coins.refunds
    && var r := w.coins.refunds[k];
    && r.createdAt + RefundTimelock(w.cfg, r, privileged) <= now
    && (k !in w.coins.verified || r.executed)
    && r.gasFee + w.cfg.minChangeAmount <= r.amount
    && HasSignCapacity(w.book, caller)
    && RefundTx(k, r) !in w.book.infos
  }

  ghost function ExecuteRefund(w: World, k: OutPoint, caller: AccountId, privileged: bool, now: nat): World
    requires CanExecuteRefund(w, k, caller, privileged, now)
  {
    var r := w.coins.refunds[k];
    var t := RefundTx(k, r);
    w.(coins := w.coins.(verified := w.coins.verified + {k}, refunds := w.coins.refunds[k := r.(executed := true)]),
       book := w.book.(infos := w.book.infos[t := RefundInfo(caller, r, now)],
                       accounts := AddSignId(w.book.accounts, caller, t)),
       past := w.past.(claimed := w.past.claimed + {k}, refunded := w.past.refunded + {k},
                       listed := w.past.listed[t := Listing(Refund, caller)]))
  }

  predicate CanFinishRefund(w: World, t: Tx, confirmations: nat) {
    && SpendIsConfirmed(w, t, Refund, confirmations)
    && t in w.book.infos
    && w.book.infos[t].purpose.Refund?
    && w.book.infos[t].stage.PendingVerify?
    && |t.inputs| == 1
    && w.book.infos[t].account in w.book.accounts
  }

  ghost function FinishRefund(w: World, t: Tx, confirmations: nat): World
    requires CanFinishRefund(w, t, confirmations)
  {
    w.(coins := w.coins.(refunds := w.coins.refunds - {t.inputs[0]}),
       book := w.book.(infos := w.book.infos - {t},
                       accounts := DropVerifyId(w.book.accounts, w.book.infos[t].account, t)),
       past := w.past.(consumed := Consume(w.past.consumed, t), finalized := w.past.finalized + {t}))
  }

  predicate CanRemoveRefund(w: World, t: Tx) {
    && t in w.book.infos
    && w.book.infos[t].purpose.Refund?
    && |t.inputs| == 1
    && t.inputs[0] !in w.coins.refunds
    && w.book.infos[t].account in w.book.accounts
  }

  // ----- management (api/management.rs) -----

  predicate CanSetLimit(w: World, a: AccountId, limit: Option<nat>) {
    if limit.Some? then limit.value >= 1 else a in w.book.limits
  }

  ghost function SetLimit(w: World, a: AccountId, limit: Option<nat>): World {
    w.(book := w.book.(limits :=
      if limit.Some? then w.book.limits[a := limit.value] else w.book.limits - {a}))
  }

  function WithTier(c: Config, bound: nat, confirmations: nat): Config {
    c.(tiers := c.tiers[bound := confirmations])
  }

  function WithoutTier(c: Config, bound: nat): Config {
    c.(tiers := c.tiers - {bound})
  }

  ghost predicate SetsTier(from: Config, to: Config) {
    exists bound, confirmations :: to == WithTier(from, bound, confirmations)
  }

  /** The last tier cannot be removed. */
  ghost predicate RemovesTier(from: Config, to: Config) {
    to.tiers != map[] && exists bound :: bound in from.tiers && to == WithoutTier(from, bound)
  }

  /** One call changes any fields but the tiers, or sets the tier of one bound, or removes one bound. */
  ghost predicate IsOneChange(from: Config, to: Config) {
    to.tiers == from.tiers || SetsTier(from, to) || RemovesTier(from, to)
  }

  ghost predicate CanConfigure(w: World, c: Config) {
    ValidConfig(c) && IsOneChange(w.cfg, c)
  }

  ghost function Configure(w: World, c: Config): World
  {
    w.(cfg := c, ring := ResizedCells(w.ring, CapacityFor(c)))
  }

  ghost function Register(w: World, a: AccountId): World {
    w.(book := w.book.(accounts := WithAccount(w.book.accounts, a)))
  }

  // ----- the surroundings -----

  /**
   * The chain confirms a transaction: none of its inputs is spent by another confirmed one, and an output
   * of the bridge is spent only by a transaction the contract has listed, since nothing else is signed.
   */
  ghost predicate CanConfirm(w: World, t: Tx, height: nat) {
    && t !in w.chain.confirmed
    && height <= w.chain.tip
    && (forall u :: u in w.chain.confirmed ==> Disjoint(t, u))
    && ((exists op :: op in t.inputs && BridgeOwned(op)) ==> t in w.past.listed)
  }

  ghost function Confirm(w: World, t: Tx, height: nat): World {
    w.(chain := w.chain.(confirmed := w.chain.confirmed[t := height]))
  }

  ghost function AdvanceTip(w: World, tip: nat): World {
    w.(chain := w.chain.(tip := tip))
  }

  /** Anyone may send nBTC to the bridge. */
  predicate CanDonate(w: World, amount: nat) {
    w.token.balance + amount <= w.token.supply
  }

  ghost function Donate(w: World, amount: nat): World {
    w.(token := w.token.(balance := w.token.balance + amount),
       past := w.past.(donated := w.past.donated + amount))
  }

  predicate CanDestroy(w: World, amount: nat) {
    w.token.balance + amount <= w.token.supply
  }

  /** Holders other than the bridge may destroy nBTC, for instance by closing their token account. */
  ghost function Destroy(w: World, amount: nat): World
    requires CanDestroy(w, amount)
  {
    w.(token := w.token.(supply := w.token.supply - amount), past := w.past.(destroyed := w.past.destroyed + amount))
  }
}
