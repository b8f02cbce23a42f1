/** A new withdrawal or management transaction keeps every invariant. */
module OriginalProofs {
  import opened Sums
  import opened Bitcoin
  import opened BridgeState
  import opened Effects
  import opened Invariants
  import opened CoinProofs
  import opened BookProofs

  /** What the checks on the proposed transaction establish about its record. */
  ghost predicate FreshOriginal(w: World, t: Tx, info: Info, shift: nat) {
    && CanAddOriginal(w, t, info, shift)
    && info.role.Original? && info.role.cancelReserved.None? && info.gasFee <= info.role.maxGasFee
    && !info.purpose.Refund?
    && info.stage.PendingSign? && !info.signedBytes
    && info.coins == Taken(w.coins.utxos, t.inputs)
    && info.signatures == Unsigned(|t.inputs|)
    && AmountsOk(t, info)
    && ReserveOf(info) == shift
    && DueOf(info) == info.transferAmount
    && w.token.balance + info.transferAmount <= w.token.supply
  }

  lemma NewRecordIsOk(w: World, t: Tx, info: Info, shift: nat)
    requires FreshOriginal(w, t, info, shift) && PlacesOk(w.coins, w.past)
    ensures InfoOk(t, info)
  {
    assert t.inputs[0] in w.coins.utxos;
    assert !info.signatures[0];
  }

  lemma InfosStayOk(w: World, t: Tx, info: Info, shift: nat)
    requires FreshOriginal(w, t, info, shift) && PlacesOk(w.coins, w.past) && InfosOk(w.book.infos)
    ensures InfosOk(AddOriginal(w, t, info, shift).book.infos)
  {
    NewRecordIsOk(w, t, info, shift);
  }

  /** The new transaction was never listed and replaces nothing: its inputs were coins until now. */
  lemma NotListedBefore(w: World, t: Tx, info: Info, shift: nat)
    requires FreshOriginal(w, t, info, shift)
    requires PlacesOk(w.coins, w.past) && ListedOk(w.book.infos, w.past)
    ensures t !in w.past.listed
    ensures forall s :: s in w.past.listed ==> Disjoint(s, t) && Disjoint(t, s)
  {
    assert t.inputs[0] in w.coins.utxos;
  }

  lemma NothingReplacesIt(w: World, t: Tx, info: Info, shift: nat)
    requires FreshOriginal(w, t, info, shift)
    requires PlacesOk(w.coins, w.past) && ListedOk(w.book.infos, w.past) && RootsListed(w.book.infos, w.past.listed)
    ensures Unreplaced(w.book.infos, t)
  {
    NotListedBefore(w, t, info, shift);
  }

  lemma PlacesStayOk(w: World, t: Tx, info: Info, shift: nat)
    requires FreshOriginal(w, t, info, shift) && PlacesOk(w.coins, w.past)
    ensures var v := AddOriginal(w, t, info, shift); PlacesOk(v.coins, v.past)
  {
  }

  lemma ListedStaysOk(w: World, t: Tx, info: Info, shift: nat)
    requires FreshOriginal(w, t, info, shift)
    requires PlacesOk(w.coins, w.past) && ListedOk(w.book.infos, w.past) && RootsListed(w.book.infos, w.past.listed)
    ensures var v := AddOriginal(w, t, info, shift);
      ListedOk(v.book.infos, v.past) && RootsListed(v.book.infos, v.past.listed)
  {
    NotListedBefore(w, t, info, shift);
    InsertKeepsListed(w.book.infos, w.past, t, info, w.past.claimed + InputSet(t));
  }

  lemma LiveStaysOk(w: World, t: Tx, info: Info, shift: nat)
    requires FreshOriginal(w, t, info, shift)
    requires PlacesOk(w.coins, w.past) && ListedOk(w.book.infos, w.past) && LiveOk(w.book.infos, w.past)
    requires RefundsOk(w.coins, w.past) && Unreplaced(w.book.infos, t)
    ensures var v := AddOriginal(w, t, info, shift); LiveOk(v.book.infos, v.past)
  {
    NotListedBefore(w, t, info, shift);
    assert forall op :: op in t.inputs ==> op in w.coins.utxos && op !in w.past.claimed;
    InsertOriginalKeepsLive(w.book.infos, w.past, t, info);
  }

  lemma DepositsStayOk(w: World, t: Tx, info: Info, shift: nat)
    requires FreshOriginal(w, t, info, shift)
    requires RefundsOk(w.coins, w.past) && MintsOk(w.flight.mints, w.coins, w.past)
    ensures var v := AddOriginal(w, t, info, shift);
      RefundsOk(v.coins, v.past) && MintsOk(v.flight.mints, v.coins, v.past)
  {
    var v := AddOriginal(w, t, info, shift);
    forall id | id in v.flight.mints ensures MintOk(v.flight.mints[id], v.coins, v.past) {
      assert MintOk(w.flight.mints[id], w.coins, w.past);
    }
  }

  lemma ChainStaysOk(w: World, t: Tx, info: Info, shift: nat)
    requires FreshOriginal(w, t, info, shift)
    requires ChainOk(w.chain, w.past) && AskedOk(w.flight.asked, w.past.listed) && t !in w.past.listed
    ensures var v := AddOriginal(w, t, info, shift);
      ChainOk(v.chain, v.past) && AskedOk(v.flight.asked, v.past.listed)
  {
    var v := AddOriginal(w, t, info, shift);
    forall q | q in v.flight.asked ensures QuestionOk(q, v.past.listed) {
      assert QuestionOk(q, w.past.listed);
    }
  }

  lemma SumsStayOk(w: World, t: Tx, info: Info, shift: nat)
    requires FreshOriginal(w, t, info, shift) && FeesOk(w.fees, w.flight.transfers)
    requires ReserveOk(w.fees.reserved, w.book.infos) && Backed(w) && Covered(w)
    ensures var v := AddOriginal(w, t, info, shift);
      && FeesOk(v.fees, v.flight.transfers) && ReserveOk(v.fees.reserved, v.book.infos)
      && Backed(v) && Covered(v)
  {
    hide SumBy, SumSeq, AddSignId, HasSignCapacity, PaidTo;
    SumInsert(w.book.infos, t, info, ReserveOf);
    SumInsert(w.book.infos, t, info, DueOf);
    SumInsert(w.book.infos, t, info, LockedOf);
    TakenSum(w.coins.utxos, t.inputs);
  }

  lemma AddOriginalKeepsInv(w: World, t: Tx, info: Info, shift: nat)
    requires Inv(w) && FreshOriginal(w, t, info, shift)
    ensures Inv(AddOriginal(w, t, info, shift))
  {
    NotListedBefore(w, t, info, shift);
    NothingReplacesIt(w, t, info, shift);
    InfosStayOk(w, t, info, shift);
    InsertKeepsFamilies(w.book.infos, t, info);
    InsertOriginalKeepsIndex(w.book.infos, w.book.rbf, t, info);
    InsertKeepsOrphans(w.book.infos, w.past.consumed, w.chain.confirmed, t, info);
    InsertKeepsAccounts(w.book.infos, w.book.accounts, t, info);
    InsertKeepsBurns(w.flight.burns, w.book.infos, w.chain.confirmed, t, info);
    PlacesStayOk(w, t, info, shift);
    ListedStaysOk(w, t, info, shift);
    LiveStaysOk(w, t, info, shift);
    DepositsStayOk(w, t, info, shift);
    ChainStaysOk(w, t, info, shift);
    SumsStayOk(w, t, info, shift);
  }
}
