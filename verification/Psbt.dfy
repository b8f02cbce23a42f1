/** Checks on the transactions a caller proposes (contracts/satoshi-bridge/src/psbt.rs). */
module Psbt {
  import opened Wrappers
  import opened Sums
  import opened Bitcoin
  import opened BlockAmounts
  import opened Configuration

  /** Input minus output value; a negative difference is an underflow, which reverts the call. */
  function GasFee(coins: seq<nat>, outputs: seq<TxOut>): int {
    SumSeq(coins) - TotalOutput(outputs)
  }

  predicate PaysOnlyChange(outputs: seq<TxOut>) {
    forall i :: 0 <= i < |outputs| ==> outputs[i].script == ChangeScript
  }

  predicate ChangeInRange(c: Config, value: nat, forceHealthy: bool) {
    value <= c.maxChangeAmount && (if forceHealthy then value > c.unhealthyUtxoAmount else value >= c.minChangeAmount)
  }

  /** Change that is large enough for active management is no dust either. */
  lemma HealthyChangeIsInRange(c: Config, value: nat)
    requires ScalarsValid(c) && ChangeInRange(c, value, true)
    ensures ChangeInRange(c, value, false)
  {
  }

  /** The check of active management and of both cancellations: every output is change of a valid size. */
  predicate AcceptsAllChange(c: Config, coins: seq<nat>, outputs: seq<TxOut>, forceHealthy: bool, isCancel: bool) {
    && PaysOnlyChange(outputs)
    && (forall i :: 0 <= i < |outputs| ==> ChangeInRange(c, outputs[i].value, forceHealthy))
    && 0 <= GasFee(coins, outputs)
    && (isCancel || c.minGasFee <= GasFee(coins, outputs) <= c.maxGasFee)
  }

  predicate MergesUnhealthy(c: Config, coins: seq<nat>, outputs: seq<TxOut>) {
    |outputs| == 1 && forall i :: 0 <= i < |coins| ==> coins[i] <= c.unhealthyUtxoAmount
  }

  predicate AcceptsActiveManagement(c: Config, coins: seq<nat>, outputs: seq<TxOut>) {
    && (MergesUnhealthy(c, coins, outputs) || (|coins| <= c.maxActiveInputs && |outputs| <= c.maxActiveOutputs))
    && AcceptsAllChange(c, coins, outputs, true, false)
  }

  function MinOf(coins: seq<nat>): nat {
    if coins == [] then U128_MAX
    else
      var rest := MinOf(coins[..|coins| - 1]);
      if coins[|coins| - 1] < rest then coins[|coins| - 1] else rest
  }

  /** An output is change when it pays the change address and the withdrawal does not itself target that address. */
  predicate IsChange(output: TxOut, target: Script) {
    output.script == ChangeScript && output.script != target
  }

  predicate OutputAllowed(c: Config, output: TxOut, target: Script, minInput: nat, unrestricted: bool) {
    || output.script == target
    || (IsChange(output, target) && c.minChangeAmount <= output.value && (unrestricted || output.value < minInput))
  }

  function ChangeNumber(outputs: seq<TxOut>, target: Script): nat {
    if target == ChangeScript then 0 else CountTo(outputs, ChangeScript)
  }

  /** What the contract demands of the outputs of a withdrawal of `amount` with bridge fee `fee`. */
  predicate AcceptsWithdrawal(c: Config, coins: seq<nat>, outputs: seq<TxOut>, target: Script,
                              amount: nat, fee: nat, unrestricted: bool)
  {
    var gas := GasFee(coins, outputs);
    && (forall i :: 0 <= i < |outputs| ==> OutputAllowed(c, outputs[i], target, MinOf(coins), unrestricted))
    && CountTo(outputs, target) == 1
    && (|coins| > ChangeNumber(outputs, target) ==>
          forall i :: 0 <= i < |outputs| && IsChange(outputs[i], target) ==> outputs[i].value < c.maxChangeAmount)
    && 0 <= gas
    && fee + gas <= amount
    && PaidTo(outputs, target) == amount - fee - gas
    && c.minGasFee <= gas <= c.maxGasFee
  }

  datatype WithdrawalSummary = WithdrawalSummary(inputs: nat, changes: nat, received: nat, gasFee: nat)

  method LeastAndTotal(coins: seq<nat>) returns (least: nat, total: nat)
    ensures least == MinOf(coins) && total == SumSeq(coins)
  {
    least, total := U128_MAX, 0;
    var n := 0;
    while n < |coins|
      invariant 0 <= n <= |coins|
      invariant least == MinOf(coins[..n]) && total == SumSeq(coins[..n])
    {
      SumSeqTake(coins, n);
      assert coins[..n + 1][..n] == coins[..n];
      least := if coins[n] < least then coins[n] else least;
      total := total + coins[n];
      n := n + 1;
    }
    assert coins[..n] == coins;
  }

  /** All of the change among the first n outputs is below the largest change amount. */
  ghost predicate ChangeBelow(c: Config, outputs: seq<TxOut>, target: Script, n: nat)
    requires n <= |outputs|
  {
    forall i :: 0 <= i < n && IsChange(outputs[i], target) ==> outputs[i].value < c.maxChangeAmount
  }

  predicate AllBelow(values: seq<nat>, bound: nat) {
    forall j :: 0 <= j < |values| ==> values[j] < bound
  }

  lemma AppendBelow(values: seq<nat>, v: nat, bound: nat)
    ensures AllBelow(values + [v], bound) <==> AllBelow(values, bound) && v < bound
  {
    var more := values + [v];
    assert more[|values|] == v && forall j :: 0 <= j < |values| ==> more[j] == values[j];
  }

  datatype Split = Split(total: nat, received: seq<nat>, changes: seq<nat>)

  /** The first n outputs sorted into payments to the target and change. */
  ghost predicate IsSplit(c: Config, outputs: seq<TxOut>, target: Script, n: nat, s: Split)
    requires n <= |outputs|
  {
    && s.total == TotalOutput(outputs[..n])
    && |s.received| == CountTo(outputs[..n], target)
    && (|s.received| == 0 ==> PaidTo(outputs[..n], target) == 0)
    && (|s.received| == 1 ==> PaidTo(outputs[..n], target) == s.received[0])
    && |s.changes| == ChangeNumber(outputs[..n], target)
    && (AllBelow(s.changes, c.maxChangeAmount) <==> ChangeBelow(c, outputs, target, n))
  }

  lemma SplitGrows(c: Config, outputs: seq<TxOut>, target: Script, n: nat, s: Split)
    requires n < |outputs| && IsSplit(c, outputs, target, n, s)
    requires outputs[n].script == target || outputs[n].script == ChangeScript
    ensures var v := outputs[n].value;
      IsSplit(c, outputs, target, n + 1,
              if outputs[n].script == target then Split(s.total + v, s.received + [v], s.changes)
              else Split(s.total + v, s.received, s.changes + [v]))
  {
    assert outputs[..n + 1][..n] == outputs[..n];
    AppendBelow(s.changes, outputs[n].value, c.maxChangeAmount);
    hide AllBelow;
  }

  method SplitOutputs(c: Config, outputs: seq<TxOut>, target: Script, minInput: nat, unrestricted: bool)
    returns (r: Option<Split>)
    ensures r.Some? <==> forall i :: 0 <= i < |outputs| ==> OutputAllowed(c, outputs[i], target, minInput, unrestricted)
    ensures r.Some? ==> IsSplit(c, outputs, target, |outputs|, r.value)
  {
    hide IsSplit;
    var totalOutput: nat, received: seq<nat>, changes: seq<nat> := 0, [], [];
    EmptySplit(c, outputs, target);
    var n := 0;
    while n < |outputs|
      invariant 0 <= n <= |outputs|
      invariant forall i :: 0 <= i < n ==> OutputAllowed(c, outputs[i], target, minInput, unrestricted)
      invariant IsSplit(c, outputs, target, n, Split(totalOutput, received, changes))
    {
      var output := outputs[n];
      if output.script != target && output.script != ChangeScript {
        return None;
      }
      SplitGrows(c, outputs, target, n, Split(totalOutput, received, changes));
      totalOutput := totalOutput + output.value;
      if output.script == target {
        received := received + [output.value];
      } else {
        if output.value < c.minChangeAmount || !(unrestricted || output.value < minInput) {
          return None;
        }
        changes := changes + [output.value];
      }
      n := n + 1;
    }
    r := Some(Split(totalOutput, received, changes));
  }

  lemma EmptySplit(c: Config, outputs: seq<TxOut>, target: Script)
    ensures IsSplit(c, outputs, target, 0, Split(0, [], []))
  {
  }

  /** The checks on a proposed withdrawal, in the order in which the contract makes them. */
  method CheckWithdrawPsbt(c: Config, coins: seq<nat>, outputs: seq<TxOut>, target: Script,
                           amount: nat, fee: nat, unrestricted: bool)
    returns (r: Option<WithdrawalSummary>)
    ensures r.Some? <==> AcceptsWithdrawal(c, coins, outputs, target, amount, fee, unrestricted)
    ensures r.Some? ==>
      && r.value.inputs == |coins|
      && r.value.changes == ChangeNumber(outputs, target)
      && r.value.received == PaidTo(outputs, target)
      && r.value.gasFee == GasFee(coins, outputs)
  {
    var minInput, totalInput := LeastAndTotal(coins);
    var split := SplitOutputs(c, outputs, target, minInput, unrestricted);
    if split.None? {
      return None;
    }
    var Split(totalOutput, received, changes) := split.value;
    assert outputs[..|outputs|] == outputs;
    if |received| != 1 {
      return None;
    }
    if |coins| > |changes| && !AllBelow(changes, c.maxChangeAmount) {
      return None;
    }
    if totalInput < totalOutput {
      return None;
    }
    var gas := totalInput - totalOutput;
    if amount < fee + gas || received[0] != amount - fee - gas || gas < c.minGasFee || gas > c.maxGasFee {
      return None;
    }
    r := Some(WithdrawalSummary(|coins|, |changes|, received[0], gas));
  }

  /** The further limits on a first withdrawal transaction; `utxos` is the number of coins before it. */
  predicate WithinWithdrawLimits(c: Config, summary: WithdrawalSummary, maxGasFee: Option<nat>, utxos: nat) {
    && (maxGasFee.Some? ==> summary.gasFee <= maxGasFee.value)
    && summary.changes <= c.maxChangeNumber
    && summary.inputs <= c.maxWithdrawalInputs
    && (if utxos < c.passiveLowerLimit then summary.inputs < summary.changes
        else utxos > c.passiveUpperLimit ==> summary.inputs > summary.changes)
  }

  function SummaryOf(coins: seq<nat>, outputs: seq<TxOut>, target: Script): WithdrawalSummary
    requires 0 <= GasFee(coins, outputs)
  {
    WithdrawalSummary(|coins|, ChangeNumber(outputs, target), PaidTo(outputs, target), GasFee(coins, outputs))
  }

  /** The recipient a replacement of a withdrawal must keep: the first output that is not change. */
  function RecipientOf(outputs: seq<TxOut>): Option<Script> {
    if outputs == [] then None
    else if outputs[0].script != ChangeScript then Some(outputs[0].script)
    else RecipientOf(outputs[1..])
  }

  predicate OnlyTargetOrChange(outputs: seq<TxOut>, target: Script) {
    forall i :: 0 <= i < |outputs| ==> outputs[i].script == target || outputs[i].script == ChangeScript
  }

  lemma {:induction false} OutputsSplit(outputs: seq<TxOut>, target: Script)
    requires OnlyTargetOrChange(outputs, target) && target != ChangeScript
    ensures TotalOutput(outputs) == PaidTo(outputs, target) + PaidTo(outputs, ChangeScript)
  {
    if outputs == [] {
    } else {
      OutputsSplit(outputs[..|outputs| - 1], target);
    }
  }

  lemma {:induction false} AllChangePaysChange(outputs: seq<TxOut>)
    requires PaysOnlyChange(outputs)
    ensures TotalOutput(outputs) == PaidTo(outputs, ChangeScript)
  {
    if outputs == [] {
    } else {
      AllChangePaysChange(outputs[..|outputs| - 1]);
    }
  }

  /**
   * In an accepted withdrawal the inputs are the payment, the change and the gas, and the payment, the gas
   * and the bridge fee are the transfer. A withdrawal to the change address has no change of its own.
   */
  lemma AcceptedWithdrawalBalances(c: Config, coins: seq<nat>, outputs: seq<TxOut>, target: Script,
                                   amount: nat, fee: nat, unrestricted: bool)
    requires AcceptsWithdrawal(c, coins, outputs, target, amount, fee, unrestricted)
    ensures var received, gas := PaidTo(outputs, target), GasFee(coins, outputs);
      && received + gas + fee == amount
      && (target != ChangeScript ==> SumSeq(coins) == received + PaidTo(outputs, ChangeScript) + gas)
      && (target == ChangeScript ==> SumSeq(coins) == received + gas && PaysOnlyChange(outputs))
  {
    if target != ChangeScript {
      OutputsSplit(outputs, target);
    } else {
      AllChangePaysChange(outputs);
    }
  }

  /**
   * All accepted transactions of one withdrawal, the original and every later replacement by the user,
   * burn the same amount and return the same total change, whatever their gas.
   */
  lemma AcceptedWithdrawalsAgree(c: Config, d: Config, coins: seq<nat>, first: seq<TxOut>, second: seq<TxOut>,
                                 target: Script, amount: nat, fee: nat, u: bool, v: bool)
    requires target != ChangeScript
    requires AcceptsWithdrawal(c, coins, first, target, amount, fee, u)
    requires AcceptsWithdrawal(d, coins, second, target, amount, fee, v)
    ensures PaidTo(first, target) + GasFee(coins, first) == PaidTo(second, target) + GasFee(coins, second)
    ensures PaidTo(first, ChangeScript) == PaidTo(second, ChangeScript)
  {
    AcceptedWithdrawalBalances(c, coins, first, target, amount, fee, u);
    AcceptedWithdrawalBalances(d, coins, second, target, amount, fee, v);
  }

  lemma {:induction false} OneTargetIsFound(outputs: seq<TxOut>, target: Script)
    requires OnlyTargetOrChange(outputs, target) && target != ChangeScript
    ensures RecipientOf(outputs) == (if exists i :: 0 <= i < |outputs| && outputs[i].script == target
                                     then Some(target) else None)
  {
    if outputs == [] {
    } else {
      OneTargetIsFound(outputs[1..], target);
      if i :| 0 <= i < |outputs| && outputs[i].script == target && outputs[0].script == ChangeScript {
        assert outputs[1..][i - 1].script == target;
      }
    }
  }

  lemma {:induction false} CountedIsPresent(outputs: seq<TxOut>, script: Script)
    ensures CountTo(outputs, script) > 0 <==> exists i :: 0 <= i < |outputs| && outputs[i].script == script
  {
    if outputs == [] {
    } else {
      CountedIsPresent(outputs[..|outputs| - 1], script);
      if i :| 0 <= i < |outputs| && outputs[i].script == script {
        assert i < |outputs| - 1 ==> outputs[..|outputs| - 1][i].script == script;
      }
    }
  }

  /**
   * The recipient read back from an accepted withdrawal is the one it was checked against; a withdrawal to
   * the change address has none.
   */
  lemma RecipientIsKept(c: Config, coins: seq<nat>, outputs: seq<TxOut>, target: Script,
                        amount: nat, fee: nat, unrestricted: bool)
    requires AcceptsWithdrawal(c, coins, outputs, target, amount, fee, unrestricted)
    ensures RecipientOf(outputs) == if target == ChangeScript then None else Some(target)
  {
    CountedIsPresent(outputs, target);
    if target != ChangeScript {
      OneTargetIsFound(outputs, target);
    } else {
      OnlyChangeHasNoRecipient(outputs);
    }
  }

  lemma {:induction false} OnlyChangeHasNoRecipient(outputs: seq<TxOut>)
    requires PaysOnlyChange(outputs)
    ensures RecipientOf(outputs) == None
  {
    if outputs == [] {
    } else {
      OnlyChangeHasNoRecipient(outputs[1..]);
    }
  }
}
