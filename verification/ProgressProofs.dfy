/** Asking, signing, burning and clearing keep every invariant. */
module ProgressProofs {
  import opened Sums
  import opened Bitcoin
  import opened Configuration
  import opened BridgeState
  import opened Effects
  import opened Steps
  import opened Invariants
  import opened BookProofs

  // ----- questions -----

  lemma AskKeepsInv(w: World, q: Question)
    requires Inv(w) && QuestionOk(q, w.past.listed)
    ensures Inv(Ask(w, q))
  {
    hide InfosOk, FamiliesOk, IndexOk, OrphansOk, AccountsOk, BurnsOk, PlacesOk, ListedOk, RootsListed, LiveOk,
         ConsumersSpend, RefundsOk, MintsOk, ChainOk, ReserveOk, FeesOk, QuestionOk;
  }

  lemma AskSignatureKeepsInv(w: World, t: Tx, i: nat)
    requires Inv(w) && CanAskSignature(w, t, i)
    ensures Inv(AskSignature(w, t, i))
  {
    hide Inv;
    PendingIsListed(w, t);
    AskKeepsInv(w, SignatureOf(t, i, w.book.infos[t].account));
  }

  lemma AskSpendKeepsInv(w: World, t: Tx, delta: nat)
    requires Inv(w) && CanAskSpend(w, t, delta)
    ensures Inv(AskSpend(w, t, delta))
  {
    hide Inv;
    PendingIsListed(w, t);
    AskKeepsInv(w, SpendCheck(t, w.book.infos[t].purpose, SpendConfirmations(w.cfg, w.book.infos[t], delta)));
  }

  lemma PendingIsListed(w: World, t: Tx)
    requires Inv(w) && t in w.book.infos
    ensures t in w.past.listed && w.past.listed[t] == Listing(w.book.infos[t].purpose, w.book.infos[t].account)
  {
  }

  /** An asked question about a pending transaction named its purpose and account correctly. */
  lemma AskedAboutPending(w: World, t: Tx, q: Question)
    requires Inv(w) && t in w.book.infos && q in w.flight.asked
    ensures q.SpendCheck? && q.tx == t ==> q.purpose == w.book.infos[t].purpose
    ensures q.SignatureOf? && q.tx == t ==> q.account == w.book.infos[t].account
  {
    assert QuestionOk(q, w.past.listed);
  }

  // ----- changes of one record that move no amounts -----

  /** The record of t advances; accounts and promises follow as given. */
  ghost predicate Advanced(w: World, t: Tx, info: Info, v: World) {
    && t in w.book.infos
    && Advances(w.book.infos[t], info)
    && v == w.(book := w.book.(infos := w.book.infos[t := info], accounts := v.book.accounts),
               flight := w.flight.(burns := v.flight.burns))
  }

  lemma AdvanceKeepsSums(infos: Infos, t: Tx, info: Info)
    requires t in infos && Advances(infos[t], info)
    ensures SumBy(infos[t := info], ReserveOf) == SumBy(infos, ReserveOf)
    ensures SumBy(infos[t := info], DueOf) == SumBy(infos, DueOf)
    ensures SumBy(infos[t := info], LockedOf) == SumBy(infos, LockedOf)
  {
    SumInsert(infos, t, info, ReserveOf);
    SumInsert(infos, t, info, DueOf);
    SumInsert(infos, t, info, LockedOf);
  }

  lemma AdvanceKeepsBook(w: World, t: Tx, info: Info, v: World)
    requires Advanced(w, t, info, v) && InfoOk(t, info)
    requires InfosOk(w.book.infos) && FamiliesOk(w.book.infos) && IndexOk(w.book.infos, w.book.rbf)
    requires OrphansOk(w.book.infos, w.past.consumed, w.chain.confirmed)
    requires ListedOk(w.book.infos, w.past) && RootsListed(w.book.infos, w.past.listed) && LiveOk(w.book.infos, w.past)
    ensures InfosOk(v.book.infos) && FamiliesOk(v.book.infos) && IndexOk(v.book.infos, v.book.rbf)
    ensures OrphansOk(v.book.infos, v.past.consumed, v.chain.confirmed)
    ensures ListedOk(v.book.infos, v.past) && RootsListed(v.book.infos, v.past.listed) && LiveOk(v.book.infos, v.past)
  {
    hide FamiliesOk, IndexOk, OrphansOk, ListedOk, LiveOk, InfoOk;
    AdvanceKeepsFamilies(w.book.infos, t, info);
    UpdateKeepsIndex(w.book.infos, w.book.rbf, t, info);
    UpdateKeepsOrphans(w.book.infos, w.past.consumed, w.chain.confirmed, t, info);
    UpdateKeepsListed(w.book.infos, w.past, t, info);
    UpdateKeepsLive(w.book.infos, w.past, t, info);
  }

  lemma AdvanceKeepsInv(w: World, t: Tx, info: Info, v: World)
    requires Inv(w) && Advanced(w, t, info, v) && InfoOk(t, info)
    requires AccountsOk(v.book.infos, v.book.accounts)
    requires BurnsOk(v.flight.burns, v.book.infos, v.chain.confirmed)
    requires SumBy(v.flight.burns, BurnDone) == SumBy(w.flight.burns, BurnDone)
    requires SumBy(v.flight.burns, GoneOf) == SumBy(w.flight.burns, GoneOf)
    ensures Inv(v)
  {
    hide InfosOk, FamiliesOk, IndexOk, OrphansOk, AccountsOk, BurnsOk, PlacesOk, ListedOk, RootsListed, LiveOk,
         ConsumersSpend, RefundsOk, MintsOk, ChainOk, AskedOk, FeesOk, InfoOk;
    AdvanceKeepsBook(w, t, info, v);
    AdvanceKeepsSums(w.book.infos, t, info);
  }

  // ----- signing -----

  /** The record after the signature of input i. */
  function SignedInfo(info: Info, i: nat): Info
    requires i < |info.signatures|
  {
    var signatures := info.signatures[i := true];
    if AllSigned(signatures) then info.(signatures := signatures, signedBytes := true, stage := PendingVerify)
    else info.(signatures := signatures)
  }

  lemma SignedInfoIsOk(t: Tx, info: Info, i: nat)
    requires InfoOk(t, info) && i < |info.signatures| && !info.signatures[i]
    ensures InfoOk(t, SignedInfo(info, i)) && Advances(info, SignedInfo(info, i)) && info.stage.PendingSign?
  {
  }

  lemma SignKeepsInv(w: World, t: Tx, i: nat, account: AccountId)
    requires Inv(w) && CanSignInput(w, t, i, account)
    ensures Inv(Sign(w, t, i))
  {
    hide FamiliesOk, IndexOk, OrphansOk, AccountsOk, BurnsOk, PlacesOk, ListedOk, RootsListed, LiveOk, ConsumersSpend,
         RefundsOk, MintsOk, ChainOk, AskedOk, FeesOk, InfoOk, Backed, Covered, ReserveOk;
    var info := w.book.infos[t];
    var signed := SignedInfo(info, i);
    var v := Sign(w, t, i);
    SignedInfoIsOk(t, info, i);
    if AllSigned(signed.signatures) {
      SigningMovesAccounts(w.book.infos, w.book.accounts, t, signed);
    } else {
      UpdateKeepsAccounts(w.book.infos, w.book.accounts, t, signed);
    }
    UpdateKeepsBurns(w.flight.burns, w.book.infos, w.chain.confirmed, t, signed);
    AdvanceKeepsInv(w, t, signed, v);
  }

  // ----- burns -----

  lemma StartKeepsBurns(burns: map<nat, Burn>, infos: Infos, confirmed: map<Tx, nat>, t: Tx, id: nat, b: Burn)
    requires BurnsOk(burns, infos, confirmed) && t in infos && id !in burns && infos[t].stage.PendingVerify?
    requires b.tx == t && BurnOk(b, infos[t := infos[t].(stage := PendingBurn)], confirmed)
    ensures BurnsOk(burns[id := b], infos[t := infos[t].(stage := PendingBurn)], confirmed)
  {
    var after, more := infos[t := infos[t].(stage := PendingBurn)], burns[id := b];
    forall j | j in burns ensures j in more && BurnOk(more[j], after, confirmed) {
      assert BurnOk(burns[j], infos, confirmed);
    }
    assert more[id].tx == t;
    forall s | s in after && s != t && after[s].stage.PendingBurn? ensures exists j :: j in more && more[j].tx == s {
      assert s in infos;
      var j :| j in burns && burns[j].tx == s;
      assert more[j].tx == s;
    }
  }

  lemma StopKeepsBurns(burns: map<nat, Burn>, infos: Infos, confirmed: map<Tx, nat>, id: nat)
    requires BurnsOk(burns, infos, confirmed) && id in burns && burns[id].tx in infos
    ensures var t := burns[id].tx; BurnsOk(burns - {id}, infos[t := infos[t].(stage := PendingVerify)], confirmed)
  {
    var t := burns[id].tx;
    var after := infos[t := infos[t].(stage := PendingVerify)];
    forall j | j in burns - {id} ensures BurnOk((burns - {id})[j], after, confirmed) {
      assert BurnOk(burns[j], infos, confirmed);
    }
    forall s | s in after && after[s].stage.PendingBurn?
      ensures exists j :: j in burns - {id} && (burns - {id})[j].tx == s
    {
      assert s in infos;
      var j :| j in burns && burns[j].tx == s;
      assert j in burns - {id};
    }
  }

  /** The fee split leaves nothing out: the protocol's and the relayer's part add up to the fee charged. */
  lemma NewBurnIsOk(w: World, t: Tx, purpose: Purpose)
    requires t in w.book.infos && t in w.chain.confirmed && w.book.infos[t].purpose == purpose
    requires ValidConfig(w.cfg)
    ensures BurnOk(BurnOf(w.cfg, t, w.book.infos[t], purpose),
                   w.book.infos[t := w.book.infos[t].(stage := PendingBurn)], w.chain.confirmed)
  {
    ProtocolPartWithinFee(w.cfg.withdrawFee, w.book.infos[t].withdrawFee);
  }

  lemma StartBurnKeepsInv(w: World, t: Tx, purpose: Purpose, confirmations: nat)
    requires Inv(w) && CanStartBurn(w, t, purpose, confirmations)
    ensures Inv(StartBurn(w, t, purpose, confirmations))
  {
    hide FamiliesOk, IndexOk, OrphansOk, AccountsOk, BurnsOk, PlacesOk, ListedOk, RootsListed, LiveOk, ConsumersSpend,
         RefundsOk, MintsOk, ChainOk, AskedOk, FeesOk, BurnOk, Backed, Covered, ReserveOk, ValidConfig,
         SumBy, PaidTo, SumSeq;
    var info := w.book.infos[t];
    AskedAboutPending(w, t, SpendCheck(t, purpose, confirmations));
    assert InfoOk(t, info);
    NewBurnIsOk(w, t, purpose);
    var id, b := FreshId(w.flight.burns), BurnOf(w.cfg, t, info, purpose);
    var started := info.(stage := PendingBurn);
    StartKeepsBurns(w.flight.burns, w.book.infos, w.chain.confirmed, t, id, b);
    UpdateKeepsAccounts(w.book.infos, w.book.accounts, t, started);
    SumInsert(w.flight.burns, id, b, BurnDone);
    SumInsert(w.flight.burns, id, b, GoneOf);
    AdvanceKeepsInv(w, t, started, StartBurn(w, t, purpose, confirmations));
  }

  lemma BurnIsPending(w: World, id: nat)
    requires id in w.flight.burns && BurnsOk(w.flight.burns, w.book.infos, w.chain.confirmed)
    ensures w.flight.burns[id].tx in w.book.infos && w.book.infos[w.flight.burns[id].tx].stage.PendingBurn?
  {
    assert BurnOk(w.flight.burns[id], w.book.infos, w.chain.confirmed);
  }

  lemma FailBurnKeepsInv(w: World, id: nat)
    requires Inv(w) && CanFailBurn(w, id)
    ensures Inv(FailBurn(w, id))
  {
    hide FamiliesOk, IndexOk, OrphansOk, AccountsOk, PlacesOk, ListedOk, RootsListed, LiveOk, ConsumersSpend,
         RefundsOk, MintsOk, ChainOk, AskedOk, FeesOk, Backed, Covered, ReserveOk, ConfigOk, BurnsOk;
    var t := w.flight.burns[id].tx;
    assert InfoOk(t, w.book.infos[t]);
    BurnIsPending(w, id);
    var stopped := w.book.infos[t].(stage := PendingVerify);
    StopKeepsBurns(w.flight.burns, w.book.infos, w.chain.confirmed, id);
    UpdateKeepsAccounts(w.book.infos, w.book.accounts, t, stopped);
    SumRemove(w.flight.burns, id, BurnDone);
    SumRemove(w.flight.burns, id, GoneOf);
    AdvanceKeepsInv(w, t, stopped, FailBurn(w, id));
  }

  lemma AnswerKeepsBurns(burns: map<nat, Burn>, infos: Infos, confirmed: map<Tx, nat>, id: nat, result: Result)
    requires BurnsOk(burns, infos, confirmed) && id in burns
    ensures BurnsOk(burns[id := burns[id].(result := result)], infos, confirmed)
  {
    var after := burns[id := burns[id].(result := result)];
    forall j | j in after ensures BurnOk(after[j], infos, confirmed) {
      assert BurnOk(burns[j], infos, confirmed);
    }
    forall s | s in infos && infos[s].stage.PendingBurn? ensures exists j :: j in after && after[j].tx == s {
      var j :| j in burns && burns[j].tx == s;
      assert after[j].tx == s;
    }
  }

  lemma ExecBurnKeepsInv(w: World, id: nat, ok: bool)
    requires Inv(w) && CanExecBurn(w, id, ok)
    ensures Inv(ExecBurn(w, id, ok))
  {
    hide InfosOk, FamiliesOk, IndexOk, OrphansOk, AccountsOk, BurnsOk, PlacesOk, ListedOk, RootsListed, LiveOk,
         ConsumersSpend, RefundsOk, MintsOk, ChainOk, AskedOk, FeesOk, ReserveOk;
    var result := if ok then Succeeded else Failed;
    AnswerKeepsBurns(w.flight.burns, w.book.infos, w.chain.confirmed, id, result);
    SumInsert(w.flight.burns, id, w.flight.burns[id].(result := result), BurnDone);
    SumInsert(w.flight.burns, id, w.flight.burns[id].(result := result), GoneOf);
  }

  // ----- removal of records that can no longer be settled -----

  /** Nothing is bound by the record of t, and its input is already gone. */
  ghost predicate Spent(w: World, t: Tx) {
    && t in w.book.infos
    && !w.book.infos[t].stage.PendingBurn?
    && Unreplaced(w.book.infos, t)
    && (w.book.infos[t].role.Replacement? ==> w.book.infos[t].role.original !in w.book.infos)
    && (w.book.infos[t].role.Original? ==> w.book.infos[t].purpose.Refund?)
    && t.inputs != [] && t.inputs[0] in w.past.consumed
  }

  lemma DropKeepsSums(infos: Infos, t: Tx)
    requires t in infos && (infos[t].role.Original? ==> infos[t].purpose.Refund?)
    ensures SumBy(infos - {t}, ReserveOf) == SumBy(infos, ReserveOf)
    ensures SumBy(infos - {t}, DueOf) == SumBy(infos, DueOf)
    ensures SumBy(infos - {t}, LockedOf) == SumBy(infos, LockedOf)
  {
    SumRemove(infos, t, ReserveOf);
    SumRemove(infos, t, DueOf);
    SumRemove(infos, t, LockedOf);
  }

  lemma DropKeepsInv(w: World, t: Tx)
    requires Inv(w) && Spent(w, t)
    ensures Inv(Drop(w, t))
  {
    hide FamiliesOk, IndexOk, OrphansOk, AccountsOk, BurnsOk, PlacesOk, ListedOk, LiveOk, ConsumersSpend, RefundsOk,
         MintsOk, ChainOk, AskedOk, FeesOk, InfoOk, Unreplaced;
    DropKeepsSums(w.book.infos, t);
    RemoveKeepsFamilies(w.book.infos, {t});
    RemoveLoneKeepsIndex(w.book.infos, w.book.rbf, t);
    RemoveLoneKeepsOrphans(w.book.infos, w.past.consumed, w.chain.confirmed, t);
    DropKeepsAccounts(w.book.infos, w.book.accounts, t);
    RemoveKeepsBurns(w.flight.burns, w.book.infos, w.chain.confirmed, t);
    RemoveKeepsListed(w.book.infos, w.past, t);
    RemoveKeepsLive(w.book.infos, w.past, t);
  }

  lemma OrphanIsSpent(w: World, t: Tx)
    requires Inv(w) && IsOrphan(w, t) && !w.book.infos[t].stage.PendingBurn?
    ensures Spent(w, t)
  {
    hide IndexOk, AccountsOk, BurnsOk, PlacesOk, ListedOk, LiveOk, ConsumersSpend, RefundsOk, MintsOk, ChainOk,
         AskedOk, FeesOk, Backed, Covered, ReserveOk, ConfigOk;
    ReplacementsAreUnreplaced(w.book.infos, t);
  }

  lemma SignAwayKeepsInv(w: World, t: Tx)
    requires Inv(w) && CanSignAwayOrphan(w, t)
    ensures Inv(Drop(w, t))
  {
    hide Inv;
    OrphanIsSpent(w, t);
    DropKeepsInv(w, t);
  }

  /** A replacement that is listed under no original has lost its original. */
  lemma UnlistedIsOrphan(w: World, c: Tx)
    requires IndexOk(w.book.infos, w.book.rbf)
    requires c in w.book.infos && w.book.infos[c].role.Replacement? && w.book.infos[c].role.original !in w.book.rbf
    ensures IsOrphan(w, c)
  {
  }

  lemma ClearKeepsInv(w: World, c: Tx)
    requires Inv(w) && CanClear(w, c)
    ensures Clear(w, c) == Drop(w, c) && Inv(Clear(w, c))
  {
    hide InfosOk, FamiliesOk, IndexOk, OrphansOk, AccountsOk, BurnsOk, PlacesOk, ListedOk, LiveOk, ConsumersSpend,
         RefundsOk, MintsOk, ChainOk, AskedOk, FeesOk, InfoOk, Unreplaced, Backed, Covered;
    UnlistedIsOrphan(w, c);
    DropOneList(w.book.infos, w.book.accounts, c);
    OrphanIsSpent(w, c);
    DropKeepsInv(w, c);
  }

  lemma RefundInputIsRefunded(w: World, t: Tx)
    requires t in w.book.infos && w.book.infos[t].purpose.Refund? && t.inputs != [] && LiveOk(w.book.infos, w.past)
    ensures t.inputs[0] in w.past.refunded
  {
    assert t.inputs[0] in t.inputs;
  }

  lemma RemoveRefundKeepsInv(w: World, t: Tx)
    requires Inv(w) && CanRemoveRefund(w, t)
    ensures Inv(Drop(w, t))
  {
    hide IndexOk, OrphansOk, AccountsOk, BurnsOk, PlacesOk, ListedOk, LiveOk, ConsumersSpend, MintsOk, ChainOk,
         AskedOk, FeesOk, Unreplaced, Backed, Covered;
    assert InfoOk(t, w.book.infos[t]);
    RefundInputIsRefunded(w, t);
    ReplacementsAreUnreplaced(w.book.infos, t);
    DropKeepsInv(w, t);
  }
}
