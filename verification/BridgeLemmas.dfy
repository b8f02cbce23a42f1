/** Facts about single loops and callbacks of the contract object. */
module BridgeLemmas {
  import opened Bitcoin
  import opened Configuration
  import opened Psbt
  import opened BridgeState
  import opened Effects
  import opened Steps
  import opened Invariants
  import opened BookProofs
  import opened ProgressProofs
  import opened SettleProofs
  import opened LedgerProofs
  import opened Runs

  /** An input that is no longer there was never there, or is taken twice. */
  lemma TakingFails(utxos: map<OutPoint, nat>, inputs: seq<OutPoint>, n: nat)
    requires n < |inputs| && inputs[n] !in utxos - (set op | op in inputs[..n])
    ensures !CanTake(utxos, inputs)
  {
    if inputs[n] in utxos {
      assert inputs[n] in inputs[..n];
      var i :| 0 <= i < n && inputs[..n][i] == inputs[n];
      assert inputs[i] == inputs[n];
    }
  }

  lemma TakingGoesOn(utxos: map<OutPoint, nat>, before: seq<OutPoint>, next: OutPoint, after: seq<OutPoint>)
    requires CanTake(utxos, before) && next in utxos - (set op | op in before) && after == before + [next]
    ensures CanTake(utxos, after)
    ensures Taken(utxos, after) == Taken(utxos, before) + [utxos[next]]
    ensures utxos - (set op | op in after) == utxos - (set op | op in before) - {next}
  {
    assert next !in before;
  }

  lemma {:induction false} DistinctCount(inputs: seq<OutPoint>)
    requires Distinct(inputs)
    ensures |set op | op in inputs| == |inputs|
  {
    if inputs == [] {
    } else {
      var last, rest := inputs[|inputs| - 1], inputs[..|inputs| - 1];
      DistinctCount(rest);
      assert inputs == rest + [last];
      assert (set op | op in inputs) == (set op | op in rest) + {last};
    }
  }

  /** Taking the inputs out lowers the number of coins by the number of inputs. */
  lemma RemovedCount(utxos: map<OutPoint, nat>, t: Tx)
    requires CanTake(utxos, t.inputs)
    ensures |utxos - InputSet(t)| + |t.inputs| == |utxos|
  {
    DistinctCount(t.inputs);
    var rest := utxos - InputSet(t);
    assert utxos.Keys == rest.Keys + InputSet(t) && rest.Keys !! InputSet(t);
    assert |utxos.Keys| == |rest.Keys| + |InputSet(t)|;
    assert |utxos| == |utxos.Keys| && |rest| == |rest.Keys|;
  }

  lemma GasIsPaid(c: Config, coins: seq<nat>, outputs: seq<TxOut>)
    requires AcceptsActiveManagement(c, coins, outputs)
    ensures 0 <= GasFee(coins, outputs)
  {
  }

  lemma GasIsThere(c: Config, coins: seq<nat>, outputs: seq<TxOut>, forceHealthy: bool, isCancel: bool)
    requires AcceptsAllChange(c, coins, outputs, forceHealthy, isCancel)
    ensures 0 <= GasFee(coins, outputs)
  {
  }

  /** A record still to be signed is in one list of its account only. */
  lemma SigningRecordHasOneList(w: World, t: Tx)
    requires Reachable(w) && t in w.book.infos && w.book.infos[t].stage.PendingSign?
    ensures var a := w.book.infos[t].account; DropSignId(w.book.accounts, a, t) == DropIds(w.book.accounts, a, t)
  {
    hide Reachable, InfosOk, FamiliesOk, IndexOk, OrphansOk, AccountsOk, BurnsOk, PlacesOk, ListedOk, LiveOk,
         RefundsOk, MintsOk, ChainOk, AskedOk, Backed, Covered, DropSignId, DropIds;
    ReachableKeepsInv(w);
    DropOneList(w.book.infos, w.book.accounts, t);
  }

  // ----- clearing a list -----

  ghost predicate CanClearAll(w: World, cs: seq<Tx>)
    decreases |cs|, 0
  {
    cs == [] || (CanClearAll(w, cs[..|cs| - 1]) && CanClear(ClearedAll(w, cs[..|cs| - 1]), cs[|cs| - 1]))
  }

  /** The state after clearing the transactions of the list in order. */
  ghost function ClearedAll(w: World, cs: seq<Tx>): World
    requires CanClearAll(w, cs)
    decreases |cs|, 1
  {
    if cs == [] then w else Clear(ClearedAll(w, cs[..|cs| - 1]), cs[|cs| - 1])
  }

  lemma {:induction false} ClearMovesBookOnly(w: World, cs: seq<Tx>)
    requires CanClearAll(w, cs)
    ensures ClearedAll(w, cs) == w.(book := ClearedAll(w, cs).book)
  {
    if cs == [] {
    } else {
      ClearMovesBookOnly(w, cs[..|cs| - 1]);
    }
  }

  /** A list cannot be cleared when one of its prefixes cannot be extended. */
  lemma {:induction false} ClearingStops(w: World, cs: seq<Tx>, n: nat)
    requires n < |cs| && CanClearAll(w, cs[..n]) && !CanClear(ClearedAll(w, cs[..n]), cs[n])
    ensures !CanClearAll(w, cs)
    decreases |cs|
  {
    if n == |cs| - 1 {
    } else {
      var fewer := cs[..|cs| - 1];
      assert fewer[..n] == cs[..n];
      ClearingStops(w, fewer, n);
    }
  }

  // ----- what a callback may count on -----

  /** The record of a burn's transaction is there, and the callback's arithmetic is safe. */
  lemma BurnAnswerIsExpected(w: World, id: nat)
    requires Reachable(w) && id in w.flight.burns && !w.flight.burns[id].result.Waiting?
    ensures w.flight.burns[id].result.Succeeded? ==> CanFinishBurn(w, id)
    ensures w.flight.burns[id].result.Failed? ==> CanFailBurn(w, id)
    ensures var t := w.flight.burns[id].tx;
      t in w.book.infos && w.book.infos[t].purpose == w.flight.burns[id].purpose
      && (w.book.infos[t].purpose.Withdraw? ==> w.book.infos[t].withdrawFee <= w.book.infos[t].transferAmount)
      && (!w.book.infos[t].purpose.Withdraw? ==> w.flight.burns[id].protocolFee == 0)
  {
    hide Reachable, FamiliesOk, IndexOk, OrphansOk, AccountsOk, PlacesOk, ListedOk, LiveOk, RefundsOk, MintsOk,
         ChainOk, AskedOk, FeesOk, Backed, Covered, CanSettle;
    ReachableKeepsInv(w);
    var t := w.flight.burns[id].tx;
    assert BurnOk(w.flight.burns[id], w.book.infos, w.chain.confirmed);
    assert InfoOk(t, w.book.infos[t]);
    if w.flight.burns[id].result.Succeeded? {
      SettlementNeverSticks(w, id);
    }
  }

  /** The fields of the contract after the settlement of a burn. */
  lemma SettlementStores(w: World, id: nat)
    requires CanFinishBurn(w, id)
    ensures var b, v := w.flight.burns[id], FinishBurn(w, id);
      && b.tx in w.book.infos
      && var info := w.book.infos[b.tx];
      var root := Root(b.tx, info);
      && root in w.book.infos && w.book.infos[root].role.Original? && w.book.infos[root].purpose == info.purpose
      && var reserve := FamilyReserve(w.book.infos, b.tx);
      && ReserveUsed(info, reserve) <= reserve <= w.fees.reserved
      && v.cfg == w.cfg && v.ring == w.ring && v.lostFound == w.lostFound
      && v.coins == w.coins.(utxos := WithChange(w.coins.utxos, b.tx, |b.tx.outputs|))
      && v.book == w.book.(infos := w.book.infos - {b.tx, root}, rbf := w.book.rbf - {root},
                           accounts := DropVerifyId(w.book.accounts, info.account, root))
      && v.fees == Collect(Release(w.fees, reserve, ReserveUsed(info, reserve)), b.protocolFee)
  {
  }

  lemma AskedDepositExists(w: World, d: DepositClaim)
    requires Reachable(w) && DepositCheck(d) in w.flight.asked
    ensures Exists(d.op)
  {
    hide Reachable;
    ReachableKeepsInv(w);
    assert QuestionOk(DepositCheck(d), w.past.listed);
  }

  lemma AskedRefundExists(w: World, r: RefundClaim)
    requires Reachable(w) && RefundCheck(r) in w.flight.asked
    ensures Exists(r.op)
  {
    hide Reachable;
    ReachableKeepsInv(w);
    assert QuestionOk(RefundCheck(r), w.past.listed);
  }

  lemma CurrentTiersAreTyped(w: World)
    requires Reachable(w)
    ensures TiersTyped(w.cfg.tiers)
  {
    hide Reachable;
    ReachableKeepsInv(w);
  }

  /** No fee is charged on a safe deposit. */
  lemma SafeMintIsFree(w: World, id: nat)
    requires Reachable(w) && id in w.flight.mints && w.flight.mints[id].safe
    ensures w.flight.mints[id].protocolFee == 0
  {
    hide Reachable;
    ReachableKeepsInv(w);
    assert MintOk(w.flight.mints[id], w.coins, w.past);
  }

  lemma QuestionWasRight(w: World, t: Tx, i: nat, account: AccountId)
    requires Reachable(w) && SignatureOf(t, i, account) in w.flight.asked && t in w.book.infos
    ensures w.book.infos[t].account == account
  {
    hide Reachable, Inv;
    ReachableKeepsInv(w);
    AskedAboutPending(w, t, SignatureOf(t, i, account));
  }

  lemma RollbackIsPossible(w: World, id: nat)
    requires Reachable(w) && id in w.flight.transfers && !w.flight.transfers[id].result.Waiting?
    ensures CanFinishTransfer(w, id)
  {
    hide Reachable, Inv;
    ReachableKeepsInv(w);
    TransferCallbackNeverSticks(w, id);
  }

  /** Steps that happen outside the contract. */
  predicate IsOutside(e: Event) {
    match e
    case OfTx(t) => t.BurnAnswer?
    case OfDeposit(d) => d.MintAnswer? || d.SafeBurn?
    case OfLedger(l) => l.TransferAnswer? || l.Confirmation? || l.TipAdvance? || l.Donation? || l.Destruction?
  }

  lemma OutsideLeavesContract(w: World, e: Event)
    requires Can(w, e) && IsOutside(e)
    ensures var v := Do(w, e);
      v == w.(token := v.token, flight := v.flight, chain := v.chain, past := v.past)
  {
  }
}
