/**
 * What the bridge agrees to when it accepts a request, said in terms of amounts, outputs and times: the terms of
 * deposits, questions, burns, pending transactions and refunds.
 */
module Terms {
  import opened Wrappers
  import opened Sums
  import opened Bitcoin
  import opened Configuration
  import opened Psbt
  import opened BridgeState
  import opened Effects
  import opened Runs

  // ----- deposits -----

  /** What is left of an amount after the fee due for it, which is shared by protocol and relayer. */
  ghost predicate IsCharged(rates: BridgeFee, amount: nat, rest: nat, protocolPart: nat, relayerPart: nat) {
    && IsFee(rates, amount, protocolPart + relayerPart)
    && IsProtocolPart(rates, protocolPart + relayerPart, protocolPart)
    && rest + protocolPart + relayerPart == amount
  }

  ghost predicate DepositTerms(c: Config, d: DepositClaim) {
    && d.txIndex != 0
    && Exists(d.op) && ScriptOf(d.op).DepositScript?
    && 0 < ValueOf(d.op) && c.minDepositAmount <= ValueOf(d.op)
    && (if d.safe then d.mintAmount == ValueOf(d.op) && d.protocolFee == 0 && d.relayerFee == 0
        else IsCharged(c.depositFee, ValueOf(d.op), d.mintAmount, d.protocolFee, d.relayerFee))
    && (d.delta == 0 || d.delta == c.confirmationsDelta || (!d.safe && d.delta == c.extraMsgConfirmationsDelta))
  }

  /** The mint carries the terms of the deposit. */
  ghost predicate Carries(m: Mint, d: DepositClaim) {
    && m.op == d.op && m.recipient == d.recipient && m.safe == d.safe
    && m.mintAmount == d.mintAmount && m.protocolFee == d.protocolFee && m.relayerFee == d.relayerFee
  }

  // ----- spends -----

  /**
   * The confirmations for the amount that the transaction pays out, and the relayer's delta; its original is still
   * pending.
   */
  ghost predicate SpendTerms(w: World, t: Tx, delta: nat, purpose: Purpose, confirmations: nat) {
    && t in w.book.infos && w.book.infos[t].purpose == purpose && w.book.infos[t].signedBytes
    && Root(t, w.book.infos[t]) in w.book.infos
    && (delta == 0 || delta == w.cfg.confirmationsDelta)
    && delta <= confirmations
    && RequiresConfirmations(w.cfg.tiers, w.book.infos[t].received, confirmations - delta)
  }

  ghost predicate BurnTerms(w: World, confirmations: nat, b: Burn) {
    && b.tx in w.book.infos && w.book.infos[b.tx].purpose == b.purpose
    && b.tx in w.chain.confirmed && w.chain.confirmed[b.tx] + confirmations <= w.chain.tip + 1
    && b.amount == w.book.infos[b.tx].burnAmount
    && (if b.purpose.Withdraw? then
          && b.protocolFee + b.relayerFee == w.book.infos[b.tx].withdrawFee
          && IsProtocolPart(w.cfg.withdrawFee, w.book.infos[b.tx].withdrawFee, b.protocolFee)
        else b.protocolFee == 0 && b.relayerFee == 0)
  }

  /** The question was put by this step, on these terms. */
  ghost predicate Asks(w: World, e: Event, q: Question) {
    match e
    case OfTx(SpendQuestion(t, delta)) =>
      q.SpendCheck? && q.tx == t && SpendTerms(w, t, delta, q.purpose, q.confirmations)
    case OfTx(SignatureQuestion(t, i)) =>
      && t in w.book.infos && q == SignatureOf(t, i, w.book.infos[t].account)
      && i < |w.book.infos[t].signatures| && !w.book.infos[t].signatures[i]
      && Root(t, w.book.infos[t]) in w.book.infos
    case OfDeposit(DepositQuestion(d)) => q == DepositCheck(d) && DepositTerms(w.cfg, d)
    case OfDeposit(RefundQuestion(r)) => q == RefundCheck(r) && Exists(r.op) && r.authorized in {None, Some(r.script)}
    case _ => false
  }

  // ----- pending transactions -----

  /** One output pays the value to the target, and every other one is change. */
  ghost predicate PaysOnce(outputs: seq<TxOut>, target: Script, value: nat) {
    exists k :: 0 <= k < |outputs| && IsThePayment(outputs, k, target, value)
  }

  ghost predicate IsThePayment(outputs: seq<TxOut>, k: nat, target: Script, value: nat)
    requires k < |outputs|
  {
    && outputs[k] == TxOut(value, target)
    && forall j :: 0 <= j < |outputs| && j != k ==> outputs[j].script == ChangeScript && target != ChangeScript
  }

  /** The miners get what goes in and does not come out. */
  ghost predicate PaysGas(t: Tx, i: Info) {
    TotalOutput(t.outputs) + i.gasFee == SumSeq(i.coins)
  }

  /** Change is not dust, and unless the caller may choose freely it is smaller than every coin that is spent. */
  ghost predicate ChangeIsSound(c: Config, coins: seq<nat>, outputs: seq<TxOut>, target: Script, unrestricted: bool) {
    forall j :: 0 <= j < |outputs| && outputs[j].script != target ==>
      && c.minChangeAmount <= outputs[j].value
      && (!unrestricted ==> forall k :: 0 <= k < |coins| ==> outputs[j].value < coins[k])
      && (|outputs| - 1 < |coins| ==> outputs[j].value < c.maxChangeAmount)
  }

  /** The coins pay the target the amount less fee and gas, the miners the gas, and the bridge its change. */
  ghost predicate Delivers(c: Config, coins: seq<nat>, outputs: seq<TxOut>, target: Script, amount: nat, fee: nat,
                           unrestricted: bool, received: nat, gas: nat)
  {
    && TotalOutput(outputs) + gas == SumSeq(coins)
    && c.minGasFee <= gas <= c.maxGasFee
    && PaysOnce(outputs, target, received)
    && received + gas + fee == amount
    && ChangeIsSound(c, coins, outputs, target, unrestricted)
  }

  /** A withdrawal pays its recipient the transfer less bridge fee and gas, and burns what leaves the bridge. */
  ghost predicate WithdrawalTerms(c: Config, t: Tx, i: Info, target: Script, unrestricted: bool) {
    && i.purpose.Withdraw?
    && Delivers(c, i.coins, t.outputs, target, i.transferAmount, i.withdrawFee, unrestricted, i.received, i.gasFee)
    && i.burnAmount == i.received + i.gasFee
  }

  /** Everything comes back as change within the limits, and the gas is burned. */
  ghost predicate ReturnTerms(c: Config, t: Tx, i: Info, healthy: bool) {
    && PaysGas(t, i)
    && i.received == TotalOutput(t.outputs)
    && i.burnAmount == i.gasFee
    && forall j :: 0 <= j < |t.outputs| ==>
         && t.outputs[j].script == ChangeScript && t.outputs[j].value <= c.maxChangeAmount
         && (if healthy then c.unhealthyUtxoAmount < t.outputs[j].value else c.minChangeAmount <= t.outputs[j].value)
  }

  ghost predicate GasInRange(c: Config, i: Info) {
    c.minGasFee <= i.gasFee <= c.maxGasFee
  }

  /** t replaces the pending original o: same coins and terms, and more gas than anything of its family so far. */
  ghost predicate Replaces(w: World, o: Tx, t: Tx, i: Info, cancel: bool) {
    && o in w.book.infos && w.book.infos[o].role.Original? && w.book.infos[o].stage.PendingVerify?
    && t.inputs == o.inputs
    && i.role == Replacement(o, cancel)
    && i.account == w.book.infos[o].account && i.purpose == w.book.infos[o].purpose
    && i.transferAmount == w.book.infos[o].transferAmount && i.withdrawFee == w.book.infos[o].withdrawFee
    && i.coins == w.book.infos[o].coins
    && w.book.infos[o].role.maxGasFee < i.gasFee
  }

  /** A replacement by the account itself: none after a cancellation, and no more than the limit in all. */
  ghost predicate ReplacesOwn(w: World, account: AccountId, o: Tx, t: Tx, i: Info) {
    && Replaces(w, o, t, i, false)
    && i.account == account
    && w.book.infos[o].role.cancelReserved.None?
    && |t.outputs| == |o.outputs|
    && |Candidates(w.book.rbf, o)| < w.cfg.rbfNumLimit
  }

  ghost predicate Overdue(w: World, o: Tx, now: nat) {
    o in w.book.infos && w.book.infos[o].createTime + w.cfg.maxPendingSec < now
  }

  /** How long a refund must have been requested: not at all, a short time, or a long one. */
  ghost predicate WaitedLongEnough(c: Config, r: RefundRequest, privileged: bool, now: nat) {
    && r.createdAt <= now
    && (r.authorized.Some? && !privileged ==> c.refundTimelockSec <= now - r.createdAt)
    && (r.authorized.None? ==> c.unsafeRefundTimelockSec <= now - r.createdAt)
  }

  /** The record of the pending transaction t was created by this step, on these terms. */
  ghost predicate Creates(w: World, e: Event, t: Tx, i: Info) {
    match e
    case OfTx(Withdrawal(sender, amount, target, tx, maxGasFee, unrestricted, now)) =>
      && t == tx && i.account == sender && i.role.Original? && i.createTime == now
      && i.transferAmount == amount && w.cfg.minWithdrawAmount <= amount
      && IsFee(w.cfg.withdrawFee, amount, i.withdrawFee)
      && WithdrawalTerms(w.cfg, t, i, target, unrestricted)
      && (maxGasFee.Some? ==> i.gasFee <= maxGasFee.value)
      && |t.inputs| <= w.cfg.maxWithdrawalInputs
      && |t.outputs| - 1 <= w.cfg.maxChangeNumber
    case OfTx(Management(account, tx, now)) =>
      && t == tx && i.account == account && account in w.book.accounts && i.role.Original? && i.createTime == now
      && i.purpose.ActiveManagement? && i.transferAmount == 0 && i.withdrawFee == 0
      && ReturnTerms(w.cfg, t, i, true) && GasInRange(w.cfg, i) && i.gasFee <= w.fees.available
      && (|| (|t.inputs| <= w.cfg.maxActiveInputs && |t.outputs| <= w.cfg.maxActiveOutputs)
          || (|t.outputs| == 1 && forall k :: 0 <= k < |i.coins| ==> i.coins[k] <= w.cfg.unhealthyUtxoAmount))
    case OfTx(WithdrawalRbf(account, o, outputs, unrestricted, now)) =>
      && t.outputs == outputs && i.createTime == now
      && ReplacesOwn(w, account, o, t, i)
      && RecipientOf(o.outputs).Some?
      && WithdrawalTerms(w.cfg, t, i, RecipientOf(o.outputs).value, unrestricted)
    case OfTx(WithdrawalCancel(o, outputs, isDao, now)) =>
      && t.outputs == outputs && i.createTime == now
      && Replaces(w, o, t, i, true) && i.purpose.Withdraw?
      && ReturnTerms(w.cfg, t, i, false)
      && Overdue(w, o, now)
      && (isDao || i.gasFee + i.withdrawFee <= i.transferAmount)
    case OfTx(ManagementRbf(account, o, outputs, now)) =>
      && t.outputs == outputs && i.createTime == now
      && ReplacesOwn(w, account, o, t, i) && i.purpose.ActiveManagement?
      && ReturnTerms(w.cfg, t, i, true) && GasInRange(w.cfg, i)
    case OfTx(ManagementCancel(o, outputs, now)) =>
      && t.outputs == outputs && i.createTime == now
      && Replaces(w, o, t, i, true) && i.purpose.ActiveManagement?
      && ReturnTerms(w.cfg, t, i, true)
      && Overdue(w, o, now)
    case OfDeposit(RefundExecution(k, account, privileged, now)) =>
      && k in w.coins.refunds
      && var r := w.coins.refunds[k];
      && WaitedLongEnough(w.cfg, r, privileged, now)
      && r.gasFee + w.cfg.minChangeAmount <= r.amount
      && t.inputs == [k] && t.outputs == [TxOut(r.amount - r.gasFee, r.script)]
      && i.account == account && i.role.Original? && i.createTime == now
      && i.purpose.Refund? && i.coins == [r.amount] && i.gasFee == r.gasFee && i.received == r.amount - r.gasFee
      && i.burnAmount == 0
    case _ => false
  }

  /** What never changes about the record of a pending transaction. */
  ghost predicate SameTerms(i: Info, j: Info) {
    j == i.(role := j.role, stage := j.stage, signatures := j.signatures, signedBytes := j.signedBytes)
    && (if i.role.Replacement? then j.role == i.role else j.role.Original?)
  }

  lemma TermsOutlive(w: World, e: Event, t: Tx, i: Info, j: Info)
    requires Creates(w, e, t, i) && SameTerms(i, j)
    ensures Creates(w, e, t, j)
  {
  }

  // ----- refunds -----

  /** The request of a refund was accepted by this step: the deposit lay as deep as any deposit has to. */
  ghost predicate Requests(w: World, e: Event, k: OutPoint, r: RefundRequest) {
    match e
    case OfDeposit(RefundAcceptance(q, now)) =>
      && k == q.op && Exists(k) && ScriptOf(k).DepositScript?
      && k !in w.coins.verified && k !in w.coins.refunds
      && k.tx in w.chain.confirmed
      && (forall amount: nat, n: nat :: RequiresConfirmations(w.cfg.tiers, amount, n) ==>
            && w.chain.confirmed[k.tx] + n + w.cfg.confirmationsDelta <= w.chain.tip + 1
            && w.chain.confirmed[k.tx] + n + w.cfg.extraMsgConfirmationsDelta <= w.chain.tip + 1)
      && r.amount == ValueOf(k) && r.script == q.script && r.authorized == q.authorized && r.createdAt == now
      && r.gasFee == (if q.gasFee.Some? then q.gasFee.value else w.cfg.maxGasFee)
      && r.gasFee + w.cfg.minChangeAmount <= ValueOf(k)
    case _ => false
  }
}
