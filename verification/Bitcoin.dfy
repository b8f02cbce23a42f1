/**
 * The Bitcoin side as the contract sees it. A transaction stands for its own id: two transactions have
 * the same id exactly when they have the same inputs, outputs and remaining header fields, and no
 * transaction can spend an output of itself.
 */
module Bitcoin {

  /** Locking scripts: the bridge's change address, a deposit address derived from a message path, or any other. */
  datatype Script = ChangeScript | DepositScript(path: nat) | ForeignScript(id: nat)

  datatype TxOut = TxOut(value: nat, script: Script)

  datatype OutPoint = OutPoint(tx: Tx, vout: nat)

  datatype Tx = Tx(inputs: seq<OutPoint>, outputs: seq<TxOut>, header: nat)

  /** Version 2, no lock time, replaceable inputs: the header fields of every transaction the bridge builds. */
  const BRIDGE_HEADER: nat := 2

  predicate Exists(op: OutPoint) {
    op.vout < |op.tx.outputs|
  }

  function ValueOf(op: OutPoint): nat
    requires Exists(op)
  {
    op.tx.outputs[op.vout].value
  }

  function ScriptOf(op: OutPoint): Script
    requires Exists(op)
  {
    op.tx.outputs[op.vout].script
  }

  /** Outputs that only the bridge's derived keys can spend. */
  predicate BridgeOwned(op: OutPoint) {
    Exists(op) && !ScriptOf(op).ForeignScript?
  }

  function TotalOutput(outputs: seq<TxOut>): nat {
    if outputs == [] then 0 else TotalOutput(outputs[..|outputs| - 1]) + outputs[|outputs| - 1].value
  }

  /** What the outputs pay to one script. */
  function PaidTo(outputs: seq<TxOut>, script: Script): nat {
    if outputs == [] then 0
    else
      var last := outputs[|outputs| - 1];
      PaidTo(outputs[..|outputs| - 1], script) + (if last.script == script then last.value else 0)
  }

  /** How many outputs pay to one script. */
  function CountTo(outputs: seq<TxOut>, script: Script): nat {
    if outputs == [] then 0
    else
      var last := outputs[|outputs| - 1];
      CountTo(outputs[..|outputs| - 1], script) + (if last.script == script then 1 else 0)
  }

  predicate Distinct<T(==)>(s: seq<T>) {
    forall i, j :: 0 <= i < j < |s| ==> s[i] != s[j]
  }

  ghost predicate Disjoint(a: Tx, b: Tx) {
    forall op :: op in a.inputs ==> op !in b.inputs
  }
}
