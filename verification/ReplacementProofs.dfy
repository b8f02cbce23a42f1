/** A replacement of a pending original keeps every invariant. */
module ReplacementProofs {
  import opened Sums
  import opened Bitcoin
  import opened BridgeState
  import opened Effects
  import opened Invariants
  import opened BookProofs

  /** What the checks on a replacement establish about it and about its original's new role. */
  ghost predicate FreshReplacement(w: World, o: Tx, c: Tx, info: Info, role: Role, shift: nat) {
    && CanAddReplacement(w, o, c, info, role, shift)
    && IsSpendingOriginal(w.book.infos[o])
    && info.role.Replacement? && info.role.original == o
    && info.stage.PendingSign? && !info.signedBytes
    && info.signatures == Unsigned(|w.book.infos[o].signatures|)
    && AmountsOk(c, info)
    && Raises(w.book.infos[o].role, role)
    && AmountsOk(o, w.book.infos[o].(role := role))
    && Related(c, info, o, w.book.infos[o].(role := role))
    && ReserveOf(w.book.infos[o].(role := role)) == ReserveOf(w.book.infos[o]) + shift
  }

  lemma NotListedBefore(w: World, o: Tx, c: Tx, info: Info, role: Role, shift: nat)
    requires FreshReplacement(w, o, c, info, role, shift)
    requires InfosOk(w.book.infos) && ListedOk(w.book.infos, w.past) && RootsListed(w.book.infos, w.past.listed)
    requires LiveOk(w.book.infos, w.past)
    ensures c !in w.past.listed && Unreplaced(w.book.infos, c)
  {
    assert InfoOk(o, w.book.infos[o]);
    assert o.inputs[0] in o.inputs;
    assert Root(o, w.book.infos[o]) == o;
  }

  lemma InfosStayOk(w: World, o: Tx, c: Tx, info: Info, role: Role, shift: nat)
    requires FreshReplacement(w, o, c, info, role, shift) && InfosOk(w.book.infos)
    ensures InfosOk(AddReplacement(w, o, c, info, role, shift).book.infos)
  {
    assert InfoOk(o, w.book.infos[o]);
    assert InfoOk(o, w.book.infos[o].(role := role));
    assert !info.signatures[0];
    assert InfoOk(c, info);
  }

  lemma BookStaysOk(w: World, o: Tx, c: Tx, info: Info, role: Role, shift: nat)
    requires FreshReplacement(w, o, c, info, role, shift) && c !in w.past.listed && Unreplaced(w.book.infos, c)
    requires FamiliesOk(w.book.infos) && IndexOk(w.book.infos, w.book.rbf)
    requires OrphansOk(w.book.infos, w.past.consumed, w.chain.confirmed)
    ensures var v := AddReplacement(w, o, c, info, role, shift);
      && FamiliesOk(v.book.infos) && IndexOk(v.book.infos, v.book.rbf)
      && OrphansOk(v.book.infos, v.past.consumed, v.chain.confirmed)
  {
    var raised := w.book.infos[o].(role := role);
    var infos := w.book.infos[o := raised];
    RaiseKeepsFamilies(w.book.infos, o, role);
    UpdateKeepsIndex(w.book.infos, w.book.rbf, o, raised);
    UpdateKeepsOrphans(w.book.infos, w.past.consumed, w.chain.confirmed, o, raised);
    InsertKeepsFamilies(infos, c, info);
    InsertReplacementKeepsIndex(infos, w.book.rbf, c, info);
    InsertKeepsOrphans(infos, w.past.consumed, w.chain.confirmed, c, info);
  }

  lemma AccountsStayOk(w: World, o: Tx, c: Tx, info: Info, role: Role, shift: nat)
    requires FreshReplacement(w, o, c, info, role, shift)
    requires AccountsOk(w.book.infos, w.book.accounts) && BurnsOk(w.flight.burns, w.book.infos, w.chain.confirmed)
    ensures var v := AddReplacement(w, o, c, info, role, shift);
      && AccountsOk(v.book.infos, v.book.accounts)
      && BurnsOk(v.flight.burns, v.book.infos, v.chain.confirmed)
  {
    var raised := w.book.infos[o].(role := role);
    var infos := w.book.infos[o := raised];
    UpdateKeepsAccounts(w.book.infos, w.book.accounts, o, raised);
    InsertKeepsAccounts(infos, w.book.accounts, c, info);
    UpdateKeepsBurns(w.flight.burns, w.book.infos, w.chain.confirmed, o, raised);
    InsertKeepsBurns(w.flight.burns, infos, w.chain.confirmed, c, info);
  }

  lemma HistoryStaysOk(w: World, o: Tx, c: Tx, info: Info, role: Role, shift: nat)
    requires FreshReplacement(w, o, c, info, role, shift) && c !in w.past.listed && Unreplaced(w.book.infos, c)
    requires ListedOk(w.book.infos, w.past) && RootsListed(w.book.infos, w.past.listed)
    ensures var v := AddReplacement(w, o, c, info, role, shift);
      ListedOk(v.book.infos, v.past) && RootsListed(v.book.infos, v.past.listed)
  {
    var raised := w.book.infos[o].(role := role);
    var infos := w.book.infos[o := raised];
    assert InputsClaimed(o, w.past.claimed);
    UpdateKeepsListed(w.book.infos, w.past, o, raised);
    InsertKeepsListed(infos, w.past, c, info, w.past.claimed);
  }

  lemma LiveStaysOk(w: World, o: Tx, c: Tx, info: Info, role: Role, shift: nat)
    requires FreshReplacement(w, o, c, info, role, shift) && Unreplaced(w.book.infos, c)
    requires LiveOk(w.book.infos, w.past)
    ensures var v := AddReplacement(w, o, c, info, role, shift); LiveOk(v.book.infos, v.past)
  {
    var raised := w.book.infos[o].(role := role);
    var infos := w.book.infos[o := raised];
    UpdateKeepsLive(w.book.infos, w.past, o, raised);
    InsertReplacementKeepsLive(infos, w.past, c, info);
  }

  lemma RestStaysOk(w: World, o: Tx, c: Tx, info: Info, role: Role, shift: nat)
    requires FreshReplacement(w, o, c, info, role, shift) && c !in w.past.listed
    requires ChainOk(w.chain, w.past) && AskedOk(w.flight.asked, w.past.listed)
    requires MintsOk(w.flight.mints, w.coins, w.past)
    ensures var v := AddReplacement(w, o, c, info, role, shift);
      && ChainOk(v.chain, v.past) && AskedOk(v.flight.asked, v.past.listed)
      && MintsOk(v.flight.mints, v.coins, v.past)
  {
    var v := AddReplacement(w, o, c, info, role, shift);
    forall q | q in v.flight.asked ensures QuestionOk(q, v.past.listed) {
      assert QuestionOk(q, w.past.listed);
    }
    forall id | id in v.flight.mints ensures MintOk(v.flight.mints[id], v.coins, v.past) {
      assert MintOk(w.flight.mints[id], w.coins, w.past);
    }
  }

  lemma SumsStayOk(w: World, o: Tx, c: Tx, info: Info, role: Role, shift: nat)
    requires FreshReplacement(w, o, c, info, role, shift) && FeesOk(w.fees, w.flight.transfers)
    requires ReserveOk(w.fees.reserved, w.book.infos) && Backed(w) && Covered(w)
    ensures var v := AddReplacement(w, o, c, info, role, shift);
      && FeesOk(v.fees, v.flight.transfers) && ReserveOk(v.fees.reserved, v.book.infos)
      && Backed(v) && Covered(v)
  {
    hide SumBy, Candidates, AddSignId, SumSeq;
    var raised := w.book.infos[o].(role := role);
    var infos := w.book.infos[o := raised];
    SumInsert(w.book.infos, o, raised, ReserveOf);
    SumInsert(w.book.infos, o, raised, DueOf);
    SumInsert(w.book.infos, o, raised, LockedOf);
    SumInsert(infos, c, info, ReserveOf);
    SumInsert(infos, c, info, DueOf);
    SumInsert(infos, c, info, LockedOf);
  }

  lemma AddReplacementKeepsInv(w: World, o: Tx, c: Tx, info: Info, role: Role, shift: nat)
    requires Inv(w) && FreshReplacement(w, o, c, info, role, shift)
    ensures Inv(AddReplacement(w, o, c, info, role, shift))
  {
    NotListedBefore(w, o, c, info, role, shift);
    InfosStayOk(w, o, c, info, role, shift);
    BookStaysOk(w, o, c, info, role, shift);
    AccountsStayOk(w, o, c, info, role, shift);
    HistoryStaysOk(w, o, c, info, role, shift);
    LiveStaysOk(w, o, c, info, role, shift);
    RestStaysOk(w, o, c, info, role, shift);
    SumsStayOk(w, o, c, info, role, shift);
  }
}
