/** Taking coins out for a transaction, and registering its change. */
module CoinProofs {
  import opened Sums
  import opened Bitcoin
  import opened Effects
  import opened Invariants

  lemma {:induction false} TakenSum(utxos: map<OutPoint, nat>, inputs: seq<OutPoint>)
    requires CanTake(utxos, inputs)
    ensures SumBy(utxos - (set op | op in inputs), Itself) + SumSeq(Taken(utxos, inputs)) == SumBy(utxos, Itself)
  {
    if inputs == [] {
      assert utxos - (set op | op in inputs) == utxos;
    } else {
      var first, rest := inputs[0], inputs[1..];
      var fewer := utxos - {first};
      assert forall i :: 0 <= i < |rest| ==> rest[i] == inputs[i + 1];
      TakenSum(fewer, rest);
      SumRemove(utxos, first, Itself);
      assert utxos - (set op | op in inputs) == fewer - (set op | op in rest);
      assert Taken(utxos, inputs)[1..] == Taken(fewer, rest);
    }
  }

  /** The registered change: exactly the change outputs among the first n. */
  lemma {:induction false} WithChangeHas(utxos: map<OutPoint, nat>, t: Tx, n: nat, op: OutPoint)
    requires n <= |t.outputs|
    ensures op in WithChange(utxos, t, n) <==>
      op in utxos || (op.tx == t && op.vout < n && t.outputs[op.vout].script == ChangeScript)
    ensures op in WithChange(utxos, t, n) ==>
      (WithChange(utxos, t, n)[op] ==
       if op.tx == t && op.vout < n && t.outputs[op.vout].script == ChangeScript then t.outputs[op.vout].value
       else utxos[op])
  {
    if n == 0 {
    } else {
      WithChangeHas(utxos, t, n - 1, op);
    }
  }

  lemma {:induction false} WithChangeSum(utxos: map<OutPoint, nat>, t: Tx, n: nat)
    requires n <= |t.outputs|
    requires forall i :: 0 <= i < |t.outputs| && t.outputs[i].script == ChangeScript ==> OutPoint(t, i) !in utxos
    ensures SumBy(WithChange(utxos, t, n), Itself) == SumBy(utxos, Itself) + PaidTo(t.outputs[..n], ChangeScript)
  {
    if n == 0 {
    } else {
      WithChangeSum(utxos, t, n - 1);
      assert t.outputs[..n][..n - 1] == t.outputs[..n - 1];
      WithChangeHas(utxos, t, n - 1, OutPoint(t, n - 1));
      SumInsert(WithChange(utxos, t, n - 1), OutPoint(t, n - 1), t.outputs[n - 1].value, Itself);
    }
  }
}
