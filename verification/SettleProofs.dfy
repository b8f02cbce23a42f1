/** Settling a confirmed transaction after its burn: always possible, and it keeps every invariant. */
module SettleProofs {
  import opened Wrappers
  import opened Sums
  import opened Bitcoin
  import opened BridgeState
  import opened Effects
  import opened Steps
  import opened Invariants
  import opened CoinProofs
  import opened BookProofs

  /** A pending transaction whose family can be settled by it. */
  ghost predicate Settleable(w: World, t: Tx) {
    && t in w.book.infos
    && t in w.chain.confirmed
    && !w.book.infos[t].purpose.Refund?
    && w.book.infos[t].stage.PendingBurn?
    && Root(t, w.book.infos[t]) in w.book.infos
    && IsSpendingOriginal(w.book.infos[Root(t, w.book.infos[t])])
    && Root(t, w.book.infos[t]).inputs == t.inputs
  }

  /** A confirmed transaction is no orphan: its inputs cannot have gone to another confirmed one. */
  lemma ConfirmedHasItsOriginal(w: World, t: Tx)
    requires t in w.book.infos && t in w.chain.confirmed
    requires ChainOk(w.chain, w.past) && OrphansOk(w.book.infos, w.past.consumed, w.chain.confirmed)
    requires ConsumersSpend(w.past)
    ensures !IsOrphan(w, t)
  {
    assert IsOrphan(w, t) ==> t.inputs[0] in t.inputs && Disjoint(t, w.past.consumed[t.inputs[0]]);
  }

  lemma BurnIsSettleable(w: World, id: nat)
    requires id in w.flight.burns && BurnsOk(w.flight.burns, w.book.infos, w.chain.confirmed)
    requires ChainOk(w.chain, w.past) && OrphansOk(w.book.infos, w.past.consumed, w.chain.confirmed)
    requires ConsumersSpend(w.past)
    requires FamiliesOk(w.book.infos) && InfosOk(w.book.infos)
    ensures Settleable(w, w.flight.burns[id].tx)
  {
    var t := w.flight.burns[id].tx;
    assert BurnOk(w.flight.burns[id], w.book.infos, w.chain.confirmed);
    ConfirmedHasItsOriginal(w, t);
    assert InfoOk(t, w.book.infos[t]);
  }

  /** What the confirmation of t uses of its family's reserve never exceeds it. */
  lemma ReserveSuffices(w: World, t: Tx)
    requires Settleable(w, t) && FamiliesOk(w.book.infos) && InfosOk(w.book.infos)
    ensures var info := w.book.infos[t]; var reserve := FamilyReserve(w.book.infos, t);
      && ReserveUsed(info, reserve) <= reserve
      && (info.purpose.Withdraw? ==> info.withdrawFee <= info.transferAmount)
      && (IsCancelledWithdrawal(info) ==>
            ReserveUsed(info, reserve) == Excess(info.burnAmount, info.transferAmount, info.withdrawFee))
  {
    var root := Root(t, w.book.infos[t]);
    assert InfoOk(t, w.book.infos[t]);
    assert InfoOk(root, w.book.infos[root]);
    assert t != root ==> Related(t, w.book.infos[t], root, w.book.infos[root]);
  }

  /**
   * Once the token contract has burned, the callback cannot panic: the original is still there and no
   * subtraction underflows.
   */
  lemma SettlementNeverSticks(w: World, id: nat)
    requires Inv(w) && id in w.flight.burns && w.flight.burns[id].result.Succeeded?
    ensures CanFinishBurn(w, id)
  {
    var t := w.flight.burns[id].tx;
    BurnIsSettleable(w, id);
    SettleableCanSettle(w, t);
  }

  lemma SettleableCanSettle(w: World, t: Tx)
    requires Settleable(w, t) && FamiliesOk(w.book.infos) && InfosOk(w.book.infos)
    requires AccountsOk(w.book.infos, w.book.accounts) && ReserveOk(w.fees.reserved, w.book.infos)
    ensures CanSettle(w, t)
  {
    var root := Root(t, w.book.infos[t]);
    ReserveSuffices(w, t);
    SumRemove(w.book.infos, root, ReserveOf);
    assert InfoOk(t, w.book.infos[t]);
    assert t != root ==> Related(t, w.book.infos[t], root, w.book.infos[root]);
  }

  lemma NoChangeYet(w: World, t: Tx, i: nat)
    requires t in w.book.infos && PlacesOk(w.coins, w.past) && ListedOk(w.book.infos, w.past)
    requires i < |t.outputs| && t.outputs[i].script == ChangeScript
    ensures var op := OutPoint(t, i);
      op !in w.coins.utxos && op !in w.coins.inProgress && op !in w.past.claimed
  {
  }

  lemma PlacesStayOk(w: World, t: Tx, protocolFee: nat)
    requires CanSettle(w, t) && PlacesOk(w.coins, w.past) && ListedOk(w.book.infos, w.past)
    ensures var v := Settle(w, t, protocolFee); PlacesOk(v.coins, v.past)
  {
    var v := Settle(w, t, protocolFee);
    forall op | op in v.coins.utxos
      ensures Registered(op, v.coins.verified, v.past.finalized) && v.coins.utxos[op] == ValueOf(op)
           && op !in v.coins.inProgress && op !in v.past.claimed
    {
      WithChangeHas(w.coins.utxos, t, |t.outputs|, op);
      if op.tx == t && op.vout < |t.outputs| && t.outputs[op.vout].script == ChangeScript {
        NoChangeYet(w, t, op.vout);
      }
    }
  }

  lemma HistoryStaysOk(w: World, t: Tx, protocolFee: nat)
    requires CanSettle(w, t) && Settleable(w, t)
    requires ListedOk(w.book.infos, w.past) && RootsListed(w.book.infos, w.past.listed)
    requires LiveOk(w.book.infos, w.past) && FamiliesOk(w.book.infos) && ConsumersSpend(w.past)
    ensures var v := Settle(w, t, protocolFee);
      && ListedOk(v.book.infos, v.past) && RootsListed(v.book.infos, v.past.listed)
      && LiveOk(v.book.infos, v.past) && ConsumersSpend(v.past)
  {
    hide CanSettle, ListedOk, LiveOk, FamiliesOk, PaidTo, SumSeq;
    var after := Settle(w, t, protocolFee).past;
    SettlingKeepsListed(w.book.infos, w.past, t, Root(t, w.book.infos[t]), after);
    SettlingKeepsLive(w.book.infos, w.past, t, after);
  }

  lemma DepositsStayOk(w: World, t: Tx, protocolFee: nat)
    requires CanSettle(w, t) && LiveOk(w.book.infos, w.past)
    requires RefundsOk(w.coins, w.past) && MintsOk(w.flight.mints, w.coins, w.past)
    ensures var v := Settle(w, t, protocolFee);
      RefundsOk(v.coins, v.past) && MintsOk(v.flight.mints, v.coins, v.past)
  {
    hide LiveOk;
    var v := Settle(w, t, protocolFee);
    forall id | id in w.flight.mints ensures MintOk(w.flight.mints[id], v.coins, v.past) {
      assert MintOk(w.flight.mints[id], w.coins, w.past);
    }
    SpendingLeavesRefunds(w.book.infos, w.past, t);
  }

  lemma SpendingLeavesRefunds(infos: Infos, past: Past, t: Tx)
    requires t in infos && !infos[t].purpose.Refund? && LiveOk(infos, past)
    ensures forall op :: op in InputSet(t) ==> op !in past.refunded
  {
  }

  lemma BookStaysOk(w: World, t: Tx, protocolFee: nat)
    requires CanSettle(w, t) && Settleable(w, t)
    requires InfosOk(w.book.infos) && FamiliesOk(w.book.infos) && IndexOk(w.book.infos, w.book.rbf)
    requires OrphansOk(w.book.infos, w.past.consumed, w.chain.confirmed) && LiveOk(w.book.infos, w.past)
    requires AccountsOk(w.book.infos, w.book.accounts)
    ensures var v := Settle(w, t, protocolFee);
      && InfosOk(v.book.infos) && FamiliesOk(v.book.infos) && IndexOk(v.book.infos, v.book.rbf)
      && OrphansOk(v.book.infos, v.past.consumed, v.chain.confirmed)
      && AccountsOk(v.book.infos, v.book.accounts)
  {
    var root := Root(t, w.book.infos[t]);
    RemoveKeepsFamilies(w.book.infos, {t, root});
    RemoveFamilyKeepsIndex(w.book.infos, w.book.rbf, t);
    SettlingMakesOrphans(w.book.infos, w.past, w.chain.confirmed, t);
    RemoveFamilyKeepsAccounts(w.book.infos, w.book.accounts, t);
  }

  /** A family has at most one burn under way. */
  lemma OneBurnPerFamily(w: World, i: nat, j: nat)
    requires i in w.flight.burns && j in w.flight.burns
    requires BurnsOk(w.flight.burns, w.book.infos, w.chain.confirmed) && ChainOk(w.chain, w.past)
    requires Settleable(w, w.flight.burns[i].tx) && Settleable(w, w.flight.burns[j].tx)
    requires InfosOk(w.book.infos)
    requires var s, t := w.flight.burns[i].tx, w.flight.burns[j].tx;
      Root(s, w.book.infos[s]) == Root(t, w.book.infos[t])
    ensures i == j
  {
    var s, t := w.flight.burns[i].tx, w.flight.burns[j].tx;
    assert InfoOk(s, w.book.infos[s]);
    assert s.inputs[0] in s.inputs && s.inputs[0] in t.inputs;
    assert !Disjoint(s, t);
  }

  lemma BurnsStayOk(w: World, id: nat)
    requires CanFinishBurn(w, id) && BurnsOk(w.flight.burns, w.book.infos, w.chain.confirmed)
    requires ChainOk(w.chain, w.past) && InfosOk(w.book.infos)
    requires forall j :: j in w.flight.burns ==> Settleable(w, w.flight.burns[j].tx)
    ensures var v := FinishBurn(w, id); BurnsOk(v.flight.burns, v.book.infos, v.chain.confirmed)
  {
    hide CanSettle, BurnsOk, ChainOk, InfosOk;
    var root := Root(w.flight.burns[id].tx, w.book.infos[w.flight.burns[id].tx]);
    forall j | j in w.flight.burns && w.flight.burns[j].tx == root ensures j == id {
      OneBurnPerFamily(w, j, id);
    }
    FinishKeepsBurns(w.flight.burns, w.book.infos, w.chain.confirmed, id, root);
  }

  /** Settling t turns its family's coins into change and burn, and what it pays the change address in excess. */
  lemma SettledSats(w: World, t: Tx)
    requires Settleable(w, t) && InfosOk(w.book.infos) && FamiliesOk(w.book.infos)
    requires PlacesOk(w.coins, w.past) && ListedOk(w.book.infos, w.past)
    ensures var infos := w.book.infos; var root := Root(t, infos[t]);
      SumBy(WithChange(w.coins.utxos, t, |t.outputs|), Itself) + SumBy(infos - {t, root}, LockedOf) + infos[t].burnAmount
      == SumBy(w.coins.utxos, Itself) + SumBy(infos, LockedOf) + Overpaid(t, infos[t])
  {
    var infos := w.book.infos;
    var root := Root(t, infos[t]);
    assert InfoOk(t, infos[t]);
    assert t != root ==> Related(t, infos[t], root, infos[root]);
    forall i: nat | i < |t.outputs| && t.outputs[i].script == ChangeScript ensures OutPoint(t, i) !in w.coins.utxos {
      NoChangeYet(w, t, i);
    }
    hide PlacesOk, ListedOk, InfosOk, FamiliesOk;
    WithChangeSum(w.coins.utxos, t, |t.outputs|);
    assert t.outputs[..|t.outputs|] == t.outputs;
    SumRemovePair(infos, t, root, LockedOf);
  }

  lemma BackingStaysOk(w: World, id: nat)
    requires CanFinishBurn(w, id) && Backed(w) && Settleable(w, w.flight.burns[id].tx)
    requires BurnOk(w.flight.burns[id], w.book.infos, w.chain.confirmed)
    requires InfosOk(w.book.infos) && FamiliesOk(w.book.infos)
    requires PlacesOk(w.coins, w.past) && ListedOk(w.book.infos, w.past)
    ensures Backed(FinishBurn(w, id))
  {
    hide PlacesOk, ListedOk, InfosOk, FamiliesOk, CanSettle, Settleable;
    SettledSats(w, w.flight.burns[id].tx);
    SumRemove(w.flight.burns, id, BurnDone);
  }

  /** The refund a cancelled withdrawal is still owed. */
  lemma RefundIsOwed(transfers: map<nat, Transfer>, account: AccountId, refund: nat)
    ensures var after := transfers[FreshId(transfers) := Transfer(Some(account), refund, Waiting)];
      && SumBy(after, OwedOf) == SumBy(transfers, OwedOf) + refund
      && SumBy(after, FeeClaim) == SumBy(transfers, FeeClaim)
  {
    var x := Transfer(Some(account), refund, Waiting);
    SumInsert(transfers, FreshId(transfers), x, OwedOf);
    SumInsert(transfers, FreshId(transfers), x, FeeClaim);
  }

  lemma SettledReserve(w: World, t: Tx)
    requires Settleable(w, t) && ReserveOk(w.fees.reserved, w.book.infos)
    requires InfosOk(w.book.infos) && FamiliesOk(w.book.infos)
    ensures var infos := w.book.infos; var root := Root(t, infos[t]);
      && SumBy(infos - {t, root}, ReserveOf) + FamilyReserve(infos, t) == w.fees.reserved
      && SumBy(infos - {t, root}, DueOf) + (if infos[t].purpose.Withdraw? then infos[t].transferAmount else 0)
         == SumBy(infos, DueOf)
  {
    var infos := w.book.infos;
    var root := Root(t, infos[t]);
    assert InfoOk(root, infos[root]);
    assert t != root ==> Related(t, infos[t], root, infos[root]);
    SumRemovePair(infos, t, root, ReserveOf);
    SumRemovePair(infos, t, root, DueOf);
  }

  /** What the settlement frees covers the burn, the relayer's part and the refund it schedules. */
  lemma SettlementPaysItsWay(w: World, id: nat)
    requires id in w.flight.burns && BurnOk(w.flight.burns[id], w.book.infos, w.chain.confirmed)
    requires var t := w.flight.burns[id].tx; Settleable(w, t) && InfosOk(w.book.infos) && FamiliesOk(w.book.infos)
    ensures var b := w.flight.burns[id]; var info := w.book.infos[b.tx];
      ReserveUsed(info, FamilyReserve(w.book.infos, b.tx)) + (if info.purpose.Withdraw? then info.transferAmount else 0)
      == b.amount + b.relayerFee + b.protocolFee + RefundDue(info)
  {
    var b := w.flight.burns[id];
    ReserveSuffices(w, b.tx);
    assert InfoOk(b.tx, w.book.infos[b.tx]);
  }

  lemma CoverStaysOk(w: World, id: nat)
    requires CanFinishBurn(w, id) && Covered(w) && Settleable(w, w.flight.burns[id].tx)
    requires BurnOk(w.flight.burns[id], w.book.infos, w.chain.confirmed)
    requires InfosOk(w.book.infos) && FamiliesOk(w.book.infos)
    requires ReserveOk(w.fees.reserved, w.book.infos) && FeesOk(w.fees, w.flight.transfers)
    ensures var v := FinishBurn(w, id);
      Covered(v) && ReserveOk(v.fees.reserved, v.book.infos) && FeesOk(v.fees, v.flight.transfers)
  {
    hide InfosOk, FamiliesOk, Settleable, BurnOk, ReserveOf, DueOf, RefundDue, ReserveUsed;
    var t := w.flight.burns[id].tx;
    SettledReserve(w, t);
    SettlementPaysItsWay(w, id);
    SumRemove(w.flight.burns, id, GoneOf);
    RefundIsOwed(w.flight.transfers, w.book.infos[t].account, RefundDue(w.book.infos[t]));
  }

  lemma ChainStaysOk(w: World, t: Tx, protocolFee: nat)
    requires CanSettle(w, t) && t in w.chain.confirmed && ChainOk(w.chain, w.past)
    ensures ChainOk(w.chain, Settle(w, t, protocolFee).past)
  {
  }

  lemma FinishBurnKeepsInv(w: World, id: nat)
    requires Inv(w) && CanFinishBurn(w, id)
    ensures Inv(FinishBurn(w, id))
  {
    hide InfosOk, FamiliesOk, IndexOk, OrphansOk, AccountsOk, PlacesOk, ListedOk, RootsListed, LiveOk, ConsumersSpend,
         RefundsOk, MintsOk, ChainOk, AskedOk, Backed, Covered, ReserveOk, FeesOk, CanSettle;
    var b := w.flight.burns[id];
    assert BurnOk(b, w.book.infos, w.chain.confirmed);
    forall j | j in w.flight.burns ensures Settleable(w, w.flight.burns[j].tx) {
      BurnIsSettleable(w, j);
    }
    PlacesStayOk(w, b.tx, b.protocolFee);
    HistoryStaysOk(w, b.tx, b.protocolFee);
    DepositsStayOk(w, b.tx, b.protocolFee);
    BookStaysOk(w, b.tx, b.protocolFee);
    BurnsStayOk(w, id);
    BackingStaysOk(w, id);
    CoverStaysOk(w, id);
    ChainStaysOk(w, b.tx, b.protocolFee);
  }
}
