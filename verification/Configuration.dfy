/** Contract configuration (contracts/satoshi-bridge/src/config.rs). */
module Configuration {
  import opened BlockAmounts

  const MAX_RATIO: nat := 10000

  datatype BridgeFee = BridgeFee(feeMin: nat, feeRate: nat, protocolFeeRate: nat)
  {
    predicate Valid() {
      feeRate < MAX_RATIO && protocolFeeRate <= MAX_RATIO
    }

    function GetFee(amount: nat): nat {
      var proportional := amount * feeRate / MAX_RATIO;
      if proportional >= feeMin then proportional else feeMin
    }

    function ProtocolPart(fee: nat): nat {
      fee * protocolFeeRate / MAX_RATIO
    }
  }

  /** The fee due for an amount: the proportional one rounded down, but at least the minimum. */
  ghost predicate IsFee(rates: BridgeFee, amount: nat, fee: nat) {
    && rates.feeMin <= fee
    && amount * rates.feeRate < (fee + 1) * MAX_RATIO
    && (fee == rates.feeMin || fee * MAX_RATIO <= amount * rates.feeRate)
  }

  /** The protocol's part of a fee, rounded down. */
  ghost predicate IsProtocolPart(rates: BridgeFee, fee: nat, part: nat) {
    part * MAX_RATIO <= fee * rates.protocolFeeRate < (part + 1) * MAX_RATIO
  }

  lemma ChargedFeeIsDue(rates: BridgeFee, amount: nat)
    ensures IsFee(rates, amount, rates.GetFee(amount))
  {
    var product := amount * rates.feeRate;
    assert product / MAX_RATIO * MAX_RATIO <= product < (product / MAX_RATIO + 1) * MAX_RATIO;
  }

  lemma FeeDueIsUnique(rates: BridgeFee, amount: nat, fee: nat, other: nat)
    requires IsFee(rates, amount, fee) && IsFee(rates, amount, other)
    ensures fee == other
  {
  }

  lemma ProtocolPartIsDue(rates: BridgeFee, fee: nat)
    ensures IsProtocolPart(rates, fee, rates.ProtocolPart(fee))
  {
  }

  lemma ProtocolPartIsUnique(rates: BridgeFee, fee: nat, part: nat, other: nat)
    requires IsProtocolPart(rates, fee, part) && IsProtocolPart(rates, fee, other)
    ensures part == other
  {
  }

  /** The relayer gets what the protocol does not: the subtraction in the split of a fee never underflows. */
  lemma ProtocolPartWithinFee(rates: BridgeFee, fee: nat)
    requires rates.Valid()
    ensures rates.ProtocolPart(fee) <= fee
  {
    assert fee * rates.protocolFeeRate <= fee * MAX_RATIO by {
      assert fee * (MAX_RATIO - rates.protocolFeeRate) >= 0;
    }
  }

  /** Upper bound of the block amount (exclusive) to the confirmations required below it. */
  type Tiers = map<nat, nat>

  datatype Config = Config(
    tiers: Tiers,
    confirmationsDelta: nat,
    extraMsgConfirmationsDelta: nat,
    depositFee: BridgeFee,
    withdrawFee: BridgeFee,
    minDepositAmount: nat,
    minWithdrawAmount: nat,
    minChangeAmount: nat,
    maxChangeAmount: nat,
    minGasFee: nat,
    maxGasFee: nat,
    maxWithdrawalInputs: nat,
    maxChangeNumber: nat,
    maxActiveInputs: nat,
    maxActiveOutputs: nat,
    activeLowerLimit: nat,
    activeUpperLimit: nat,
    passiveLowerLimit: nat,
    passiveUpperLimit: nat,
    rbfNumLimit: nat,
    maxPendingSec: nat,
    unhealthyUtxoAmount: nat,
    refundTimelockSec: nat,
    unsafeRefundTimelockSec: nat)

  ghost predicate TiersInRange(tiers: Tiers) {
    forall k :: k in tiers ==> 2 <= tiers[k] <= 100
  }

  ghost predicate TiersNonDecreasing(tiers: Tiers) {
    forall j, k :: j in tiers && k in tiers && j <= k ==> tiers[j] <= tiers[k]
  }

  /** Bounds are 128-bit amounts. */
  ghost predicate TiersTyped(tiers: Tiers) {
    forall k :: k in tiers ==> k <= U128_MAX
  }

  predicate ScalarsValid(c: Config) {
    && c.depositFee.Valid()
    && c.withdrawFee.Valid()
    && c.minChangeAmount < c.maxChangeAmount
    && c.minGasFee < c.maxGasFee
    && c.activeLowerLimit < c.activeUpperLimit
    && c.passiveLowerLimit < c.passiveUpperLimit
    && c.minChangeAmount < c.unhealthyUtxoAmount
    && c.refundTimelockSec <= c.unsafeRefundTimelockSec
    && c.depositFee.feeMin < c.minDepositAmount
  }

  ghost predicate ValidConfig(c: Config) {
    TiersTyped(c.tiers) && TiersInRange(c.tiers) && TiersNonDecreasing(c.tiers) && ScalarsValid(c)
  }

  // ----- what the rates and minima of a valid configuration are for -----

  /** No positive amount is eaten up by its proportional fee, and the protocol never gets more than the fee. */
  ghost predicate RatesAreFair(rates: BridgeFee) {
    (forall amount: nat :: 0 < amount ==> FeeByRate(rates, amount) < amount)
    && forall fee: nat :: rates.ProtocolPart(fee) <= fee
  }

  function FeeByRate(rates: BridgeFee, amount: nat): nat {
    amount * rates.feeRate / MAX_RATIO
  }

  lemma RateLeavesSomething(rates: BridgeFee, amount: nat)
    requires rates.feeRate < MAX_RATIO && 0 < amount
    ensures FeeByRate(rates, amount) < amount
  {
    var product, rest := amount * rates.feeRate, MAX_RATIO - rates.feeRate;
    assert amount * rest > 0;
    assert product < amount * MAX_RATIO by {
      assert amount * MAX_RATIO == product + amount * rest;
    }
  }

  lemma RatesAreFairExactly(rates: BridgeFee)
    ensures rates.Valid() <==> RatesAreFair(rates)
  {
    if rates.Valid() {
      forall amount: nat | 0 < amount ensures FeeByRate(rates, amount) < amount {
        RateLeavesSomething(rates, amount);
      }
      forall fee: nat ensures rates.ProtocolPart(fee) <= fee {
        ProtocolPartWithinFee(rates, fee);
      }
    }
    if RatesAreFair(rates) {
      assert FeeByRate(rates, MAX_RATIO) < MAX_RATIO;
      assert rates.ProtocolPart(MAX_RATIO) <= MAX_RATIO;
    }
  }

  ghost predicate DepositsLeaveSomething(c: Config) {
    forall amount: nat :: c.minDepositAmount <= amount ==> c.depositFee.GetFee(amount) < amount
  }

  /** Every deposit large enough leaves something for its recipient exactly when the minimum exceeds the fee's. */
  lemma DepositsLeaveSomethingExactly(c: Config)
    requires RatesAreFair(c.depositFee)
    ensures DepositsLeaveSomething(c) <==> c.depositFee.feeMin < c.minDepositAmount
  {
    if c.depositFee.feeMin < c.minDepositAmount {
      forall amount: nat | c.minDepositAmount <= amount ensures c.depositFee.GetFee(amount) < amount {
        assert FeeByRate(c.depositFee, amount) < amount;
      }
    }
    if DepositsLeaveSomething(c) {
      assert c.depositFee.GetFee(c.minDepositAmount) < c.minDepositAmount;
    }
  }

  /** The least bound above an amount. */
  ghost predicate IsNextBound(tiers: Tiers, amount: nat, bound: nat) {
    bound in tiers && amount < bound && forall k :: k in tiers && amount < k ==> bound <= k
  }

  ghost predicate IsLastBound(tiers: Tiers, bound: nat) {
    bound in tiers && forall k :: k in tiers ==> k <= bound
  }

  /** The confirmations required for an amount: those of the next bound, or of the last one. */
  ghost predicate RequiresConfirmations(tiers: Tiers, amount: nat, confirmations: nat) {
    || (exists b :: IsNextBound(tiers, amount, b) && tiers[b] == confirmations)
    || ((forall k :: k in tiers ==> k <= amount) && exists b :: IsLastBound(tiers, b) && tiers[b] == confirmations)
  }

  ghost function ConfirmationsFor(tiers: Tiers, amount: nat): (r: nat)
    requires tiers != map[]
    ensures RequiresConfirmations(tiers, amount, r)
  {
    SomeConfirmations(tiers, amount);
    var r :| RequiresConfirmations(tiers, amount, r);
    r
  }

  lemma {:induction false} LeastOf(s: set<nat>) returns (least: nat)
    requires s != {}
    ensures least in s && forall k :: k in s ==> least <= k
  {
    var first :| first in s;
    var rest := s - {first};
    assert forall k :: k in s ==> k == first || k in rest;
    least := first;
    if rest != {} {
      var other := LeastOf(rest);
      least := if other < first then other else first;
    }
  }

  lemma {:induction false} GreatestOf(s: set<nat>) returns (greatest: nat)
    requires s != {}
    ensures greatest in s && forall k :: k in s ==> k <= greatest
  {
    var first :| first in s;
    var rest := s - {first};
    assert forall k :: k in s ==> k == first || k in rest;
    greatest := first;
    if rest != {} {
      var other := GreatestOf(rest);
      greatest := if other > first then other else first;
    }
  }

  lemma SomeConfirmations(tiers: Tiers, amount: nat)
    requires tiers != map[]
    ensures exists r :: RequiresConfirmations(tiers, amount, r)
  {
    var above := set k | k in tiers && amount < k;
    if above == {} {
      assert tiers.Keys != {} by {
        var k :| k in tiers;
        assert k in tiers.Keys;
      }
      var b := GreatestOf(tiers.Keys);
      assert forall k :: k in tiers && k > amount ==> k in above;
      assert IsLastBound(tiers, b);
      assert RequiresConfirmations(tiers, amount, tiers[b]);
    } else {
      var b := LeastOf(above);
      assert forall k :: k in tiers && amount < k ==> k in above;
      assert IsNextBound(tiers, amount, b);
      assert RequiresConfirmations(tiers, amount, tiers[b]);
    }
  }

  lemma ConfirmationsAreUnique(tiers: Tiers, amount: nat, r: nat)
    requires tiers != map[] && RequiresConfirmations(tiers, amount, r)
    ensures r == ConfirmationsFor(tiers, amount)
  {
  }

  /** A bound is exclusive: just below it its own tier applies, and from it on that of the next bound. */
  lemma BoundsAreExclusive(tiers: Tiers, bound: nat, next: nat)
    requires bound in tiers && next in tiers && 0 < bound < next
    requires forall k :: k in tiers ==> k <= bound || next <= k
    ensures ConfirmationsFor(tiers, bound - 1) == tiers[bound] && ConfirmationsFor(tiers, bound) == tiers[next]
    ensures ConfirmationsFor(tiers, next - 1) == tiers[next]
  {
    assert IsNextBound(tiers, bound - 1, bound) && IsNextBound(tiers, bound, next) && IsNextBound(tiers, next - 1, next);
    ConfirmationsAreUnique(tiers, bound - 1, tiers[bound]);
    ConfirmationsAreUnique(tiers, bound, tiers[next]);
    ConfirmationsAreUnique(tiers, next - 1, tiers[next]);
  }

  /** A larger block amount never needs fewer confirmations. */
  lemma ConfirmationsAreMonotone(tiers: Tiers, less: nat, more: nat)
    requires tiers != map[] && TiersNonDecreasing(tiers) && less <= more
    ensures ConfirmationsFor(tiers, less) <= ConfirmationsFor(tiers, more)
  {
  }

  ghost predicate IsMaxTier(tiers: Tiers, r: nat) {
    if tiers == map[] then r == 0
    else (exists k :: k in tiers && tiers[k] == r) && forall k :: k in tiers ==> tiers[k] <= r
  }

  ghost function MaxTier(tiers: Tiers): (r: nat)
    ensures IsMaxTier(tiers, r)
  {
    if tiers == map[] then 0
    else
      var k0 :| k0 in tiers;
      assert tiers[k0] in (set k | k in tiers :: tiers[k]);
      MaxTierExists(tiers);
      var r: nat :| IsMaxTier(tiers, r);
      r
  }

  lemma MaxTierExists(tiers: Tiers)
    requires tiers != map[]
    ensures exists r: nat :: IsMaxTier(tiers, r)
  {
    var values := set k | k in tiers :: tiers[k];
    var k0 :| k0 in tiers;
    assert tiers[k0] in values;
    var r := GreatestOf(values);
    assert forall k :: k in tiers ==> tiers[k] in values;
    assert IsMaxTier(tiers, r);
  }

  lemma ConfirmationsAreATier(tiers: Tiers, amount: nat) returns (k: nat)
    requires tiers != map[]
    ensures k in tiers && tiers[k] == ConfirmationsFor(tiers, amount)
    ensures (forall j :: j in tiers ==> j <= amount) ==> IsLastBound(tiers, k)
  {
    var r := ConfirmationsFor(tiers, amount);
    if b: nat :| IsNextBound(tiers, amount, b) && tiers[b] == r {
      k := b;
    } else {
      k :| IsLastBound(tiers, k) && tiers[k] == r;
    }
  }

  /** No amount needs more than the greatest tier, which an unbounded amount does need. */
  lemma MaxTierBounds(tiers: Tiers, amount: nat)
    requires tiers != map[] && TiersTyped(tiers) && TiersNonDecreasing(tiers)
    ensures ConfirmationsFor(tiers, amount) <= MaxTier(tiers)
    ensures ConfirmationsFor(tiers, U128_MAX) == MaxTier(tiers)
  {
    var k := ConfirmationsAreATier(tiers, amount);
    var last := ConfirmationsAreATier(tiers, U128_MAX);
    assert IsMaxTier(tiers, MaxTier(tiers));
  }

  const RING_CAPACITY_SLACK: nat := 5

  /** Ring capacity: a block this far below the newest one is deeper than any requirement. */
  ghost function CapacityFor(c: Config): (r: nat)
    ensures r > 0
  {
    MaxTier(c.tiers) + c.confirmationsDelta + c.extraMsgConfirmationsDelta + RING_CAPACITY_SLACK
  }

  ghost function MaxRequiredConfirmations(c: Config): nat {
    MaxTier(c.tiers)
    + (if c.confirmationsDelta >= c.extraMsgConfirmationsDelta then c.confirmationsDelta
       else c.extraMsgConfirmationsDelta)
  }

  ghost predicate Sorted(keys: seq<nat>) {
    forall i, j :: 0 <= i < j < |keys| ==> keys[i] < keys[j]
  }

  lemma InsertionKeepsSorted(keys: seq<nat>, key: nat, at: nat)
    requires Sorted(keys) && key !in keys && at <= |keys|
    requires (forall i :: 0 <= i < at ==> keys[i] < key) && (at < |keys| ==> key <= keys[at])
    ensures var more := keys[..at] + [key] + keys[at..];
      Sorted(more) && forall k :: k in more <==> k == key || k in keys
  {
    assert keys == keys[..at] + keys[at..];
  }

  /** The keys of the strategy in a sorted vector. */
  method SortedBounds(tiers: Tiers) returns (keys: seq<nat>)
    ensures Sorted(keys) && forall k :: k in keys <==> k in tiers
  {
    keys := [];
    var rest := tiers.Keys;
    while rest != {}
      invariant Sorted(keys)
      invariant forall k :: k in tiers <==> k in keys || k in rest
      invariant forall k :: k in keys ==> k !in rest
      decreases rest
    {
      var key :| key in rest;
      rest := rest - {key};
      var at := 0;
      while at < |keys| && keys[at] < key
        invariant 0 <= at <= |keys|
        invariant forall i :: 0 <= i < at ==> keys[i] < key
      {
        at := at + 1;
      }
      InsertionKeepsSorted(keys, key, at);
      keys := keys[..at] + [key] + keys[at..];
    }
  }

  /** Scans the sorted bounds for the first one above the amount. */
  method GetConfirmations(tiers: Tiers, amount: nat) returns (r: nat)
    requires tiers != map[]
    ensures r == ConfirmationsFor(tiers, amount)
  {
    var keys := SortedBounds(tiers);
    var i := 0;
    while i < |keys|
      invariant 0 <= i <= |keys|
      invariant forall j :: 0 <= j < i ==> keys[j] <= amount
    {
      var key: nat := keys[i];
      if key > amount {
        assert key in keys;
        forall k | k in tiers && amount < k ensures key <= k {
          assert k in keys;
          var j :| 0 <= j < |keys| && keys[j] == k;
        }
        assert IsNextBound(tiers, amount, key);
        ConfirmationsAreUnique(tiers, amount, tiers[key]);
        return tiers[key];
      }
      i := i + 1;
    }
    assert keys != [] by {
      var k :| k in tiers;
      assert k in keys;
    }
    var last := keys[|keys| - 1];
    forall k | k in tiers ensures k <= last && k <= amount {
      assert k in keys;
      var j :| 0 <= j < |keys| && keys[j] == k;
    }
    assert last in keys;
    assert IsLastBound(tiers, last);
    ConfirmationsAreUnique(tiers, amount, tiers[last]);
    r := tiers[last];
  }

  ghost function TierAt(tiers: Tiers, key: nat): nat {
    if key in tiers then tiers[key] else 0
  }

  /** The first n keys have tiers in range. */
  ghost predicate InRangeUpTo(tiers: Tiers, keys: seq<nat>, n: nat) {
    forall i :: 0 <= i < n && i < |keys| ==> 2 <= TierAt(tiers, keys[i]) <= 100
  }

  /** No tier among the first n keys is below the one before it. */
  ghost predicate NeighboursUpTo(tiers: Tiers, keys: seq<nat>, n: nat) {
    forall i :: 0 < i < n && i < |keys| ==> TierAt(tiers, keys[i - 1]) <= TierAt(tiers, keys[i])
  }

  lemma KeysDecideRange(tiers: Tiers, keys: seq<nat>)
    requires forall k :: k in keys <==> k in tiers
    ensures TiersInRange(tiers) <==> InRangeUpTo(tiers, keys, |keys|)
  {
    assert forall i :: 0 <= i < |keys| ==> keys[i] in keys;
  }

  lemma {:induction false} NeighboursOrder(tiers: Tiers, keys: seq<nat>, a: nat, b: nat)
    requires NeighboursUpTo(tiers, keys, |keys|) && a <= b < |keys|
    ensures TierAt(tiers, keys[a]) <= TierAt(tiers, keys[b])
    decreases b
  {
    if a < b {
      NeighboursOrder(tiers, keys, a, b - 1);
      assert TierAt(tiers, keys[b - 1]) <= TierAt(tiers, keys[b]);
    }
  }

  /** Neighbours decide whether tiers decrease between any two bounds. */
  lemma NeighboursDecideOrder(tiers: Tiers, keys: seq<nat>)
    requires Sorted(keys) && forall k :: k in keys <==> k in tiers
    ensures TiersNonDecreasing(tiers) <==> NeighboursUpTo(tiers, keys, |keys|)
  {
    assert forall i :: 0 <= i < |keys| ==> keys[i] in keys;
    if NeighboursUpTo(tiers, keys, |keys|) {
      forall j, k | j in tiers && k in tiers && j <= k ensures tiers[j] <= tiers[k] {
        assert j in keys && k in keys;
        var a :| 0 <= a < |keys| && keys[a] == j;
        var b :| 0 <= b < |keys| && keys[b] == k;
        NeighboursOrder(tiers, keys, a, b);
      }
    }
  }

  /** Checks the configuration as the contract does: neighbouring tiers only, after sorting. */
  method CheckValid(c: Config) returns (ok: bool)
    requires TiersTyped(c.tiers)
    ensures ok == ValidConfig(c)
  {
    hide ScalarsValid, TiersInRange, TiersNonDecreasing, Sorted;
    var keys := SortedBounds(c.tiers);
    KeysDecideRange(c.tiers, keys);
    NeighboursDecideOrder(c.tiers, keys);
    assert forall i :: 0 <= i < |keys| ==> keys[i] in keys;
    var i := 0;
    while i < |keys|
      invariant 0 <= i <= |keys|
      invariant InRangeUpTo(c.tiers, keys, i)
    {
      if c.tiers[keys[i]] < 2 || c.tiers[keys[i]] > 100 {
        assert TierAt(c.tiers, keys[i]) == c.tiers[keys[i]];
        return false;
      }
      i := i + 1;
    }
    i := 1;
    while i < |keys|
      invariant 1 <= i && (keys == [] || i <= |keys|)
      invariant NeighboursUpTo(c.tiers, keys, i)
    {
      if c.tiers[keys[i - 1]] > c.tiers[keys[i]] {
        assert TierAt(c.tiers, keys[i - 1]) > TierAt(c.tiers, keys[i]);
        return false;
      }
      i := i + 1;
    }
    ok := ScalarsValid(c);
  }

  method MaxTierConfirmations(tiers: Tiers) returns (r: nat)
    ensures r == MaxTier(tiers)
  {
    var keys := SortedBounds(tiers);
    assert forall i :: 0 <= i < |keys| ==> keys[i] in keys;
    r := 0;
    var i := 0;
    while i < |keys|
      invariant 0 <= i <= |keys|
      invariant forall j :: 0 <= j < i ==> TierAt(tiers, keys[j]) <= r
      invariant r == 0 || exists j :: 0 <= j < i && TierAt(tiers, keys[j]) == r
    {
      if tiers[keys[i]] > r {
        r := tiers[keys[i]];
      }
      i := i + 1;
    }
    assert tiers == map[] <==> keys == [] by {
      assert keys != [] ==> keys[0] in keys;
      if tiers != map[] {
        var k :| k in tiers;
        assert k in keys;
      }
    }
    forall k | k in tiers ensures tiers[k] <= r {
      assert k in keys;
      var j :| 0 <= j < |keys| && keys[j] == k;
      assert TierAt(tiers, keys[j]) <= r;
    }
    if tiers != map[] {
      assert exists k :: k in tiers && tiers[k] == r by {
        if r == 0 {
          assert TierAt(tiers, keys[0]) <= 0;
        } else {
          var j :| 0 <= j < |keys| && TierAt(tiers, keys[j]) == r;
        }
      }
    }
    assert IsMaxTier(tiers, r);
  }

  method CapacityOf(config: Config) returns (r: nat)
    ensures r == CapacityFor(config)
  {
    var tier := MaxTierConfirmations(config.tiers);
    r := tier + config.confirmationsDelta + config.extraMsgConfirmationsDelta + RING_CAPACITY_SLACK;
  }
}
