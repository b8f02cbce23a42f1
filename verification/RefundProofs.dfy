/** Refunds of deposits that were never finalized keep every invariant. */
module RefundProofs {
  import opened Sums
  import opened Bitcoin
  import opened BridgeState
  import opened Effects
  import opened Steps
  import opened Invariants
  import opened BookProofs
  import opened ProgressProofs

  lemma AskRefundKeepsInv(w: World, r: RefundClaim)
    requires Inv(w) && CanAskRefund(w, r)
    ensures Inv(Ask(w, RefundCheck(r)))
  {
    hide Inv;
    AskKeepsInv(w, RefundCheck(r));
  }

  // ----- requests -----

  lemma RequestsDoNotMoveCoins(mints: map<nat, Mint>, coins: Coins, past: Past, refunds: map<OutPoint, RefundRequest>)
    ensures PlacesOk(coins, past) ==> PlacesOk(coins.(refunds := refunds), past)
    ensures MintsOk(mints, coins, past) ==> MintsOk(mints, coins.(refunds := refunds), past)
  {
    if MintsOk(mints, coins, past) {
      forall id | id in mints ensures MintOk(mints[id], coins.(refunds := refunds), past) {
        assert MintOk(mints[id], coins, past);
      }
    }
  }

  lemma RequestedRefundsOk(coins: Coins, past: Past, k: OutPoint, r: RefundRequest)
    requires RefundsOk(coins, past) && Exists(k) && ScriptOf(k).DepositScript? && r.amount == ValueOf(k)
    requires !r.executed && k !in coins.verified && (r.authorized.Some? ==> r.authorized.value == r.script)
    ensures RefundsOk(coins.(refunds := coins.refunds[k := r]), past)
  {
  }

  lemma AskedRefundIsAuthorized(w: World, r: RefundClaim)
    requires RefundCheck(r) in w.flight.asked && AskedOk(w.flight.asked, w.past.listed)
    ensures r.authorized.Some? ==> r.authorized.value == r.script
  {
    assert QuestionOk(RefundCheck(r), w.past.listed);
  }

  lemma RequestRefundKeepsInv(w: World, r: RefundClaim, now: nat)
    requires Inv(w) && CanRequestRefund(w, r)
    ensures Inv(RequestRefund(w, r, now))
  {
    hide InfosOk, FamiliesOk, IndexOk, OrphansOk, AccountsOk, BurnsOk, PlacesOk, ListedOk, RootsListed, LiveOk,
         ConsumersSpend, RefundsOk, MintsOk, ChainOk, FeesOk, ReserveOk, AskedOk;
    var v := RequestRefund(w, r, now);
    RequestsDoNotMoveCoins(w.flight.mints, w.coins, w.past, v.coins.refunds);
    AskedRefundIsAuthorized(w, r);
    RequestedRefundsOk(w.coins, w.past, r.op, v.coins.refunds[r.op]);
  }

  lemma RejectedRefundsOk(coins: Coins, past: Past, k: OutPoint)
    requires RefundsOk(coins, past) && k in coins.refunds && !coins.refunds[k].executed
    ensures RefundsOk(coins.(refunds := coins.refunds - {k}), past)
  {
  }

  lemma RejectRefundKeepsInv(w: World, k: OutPoint, privileged: bool)
    requires Inv(w) && CanRejectRefund(w, k, privileged)
    ensures Inv(RejectRefund(w, k))
  {
    hide InfosOk, FamiliesOk, IndexOk, OrphansOk, AccountsOk, BurnsOk, PlacesOk, ListedOk, RootsListed, LiveOk,
         ConsumersSpend, RefundsOk, MintsOk, ChainOk, FeesOk, ReserveOk, AskedOk;
    RequestsDoNotMoveCoins(w.flight.mints, w.coins, w.past, w.coins.refunds - {k});
    RejectedRefundsOk(w.coins, w.past, k);
  }

  // ----- execution -----

  /** A deposit whose refund may be executed is free, or already taken by its own refund. */
  lemma ExecutableIsFree(coins: Coins, past: Past, k: OutPoint)
    requires PlacesOk(coins, past) && RefundsOk(coins, past)
    requires k in coins.refunds && (k !in coins.verified || coins.refunds[k].executed)
    ensures k !in coins.utxos && k !in coins.inProgress && k !in past.deposited
    ensures k in past.claimed ==> k in past.refunded && k !in past.consumed
    ensures Exists(k) && ScriptOf(k).DepositScript? && coins.refunds[k].amount == ValueOf(k)
  {
  }

  /** What executing the refund of k changes in coins and history. */
  ghost predicate RefundExecuted(coins: Coins, past: Past, k: OutPoint, t: Tx, account: AccountId, after: Coins, v: Past)
  {
    && k in coins.refunds
    && after == coins.(verified := coins.verified + {k},
                       refunds := coins.refunds[k := coins.refunds[k].(executed := true)])
    && v == past.(claimed := past.claimed + {k}, refunded := past.refunded + {k},
                  listed := past.listed[t := Listing(Refund, account)])
  }

  lemma ExecutedPlacesOk(coins: Coins, past: Past, k: OutPoint, t: Tx, account: AccountId, after: Coins, v: Past)
    requires PlacesOk(coins, past) && RefundExecuted(coins, past, k, t, account, after, v)
    requires BridgeOwned(k) && ScriptOf(k).DepositScript? && k !in coins.utxos && k !in coins.inProgress
    ensures PlacesOk(after, v)
  {
  }

  lemma ExecutedCoinsOk(coins: Coins, past: Past, k: OutPoint, t: Tx, account: AccountId, after: Coins, v: Past)
    requires PlacesOk(coins, past) && RefundsOk(coins, past) && RefundExecuted(coins, past, k, t, account, after, v)
    requires k !in coins.verified || coins.refunds[k].executed
    requires k in past.consumed ==> k in past.claimed
    ensures PlacesOk(after, v) && RefundsOk(after, v)
  {
    hide PlacesOk;
    ExecutableIsFree(coins, past, k);
    ExecutedPlacesOk(coins, past, k, t, account, after, v);
  }

  lemma ExecutedMintsOk(mints: map<nat, Mint>, coins: Coins, past: Past, k: OutPoint, t: Tx, account: AccountId,
                        after: Coins, v: Past)
    requires MintsOk(mints, coins, past) && RefundExecuted(coins, past, k, t, account, after, v)
    ensures MintsOk(mints, after, v)
  {
    forall id | id in mints ensures MintOk(mints[id], after, v) {
      assert MintOk(mints[id], coins, past);
    }
  }

  /** The refund transaction was not listed before: its only input is unspent. */
  lemma RefundIsNew(w: World, k: OutPoint, t: Tx)
    requires PlacesOk(w.coins, w.past) && RefundsOk(w.coins, w.past) && ListedOk(w.book.infos, w.past)
    requires RootsListed(w.book.infos, w.past.listed) && t.inputs == [k] && t !in w.book.infos
    requires k in w.coins.refunds && (k !in w.coins.verified || w.coins.refunds[k].executed)
    ensures t !in w.past.listed && Unreplaced(w.book.infos, t)
  {
    hide PlacesOk, RefundsOk;
    ExecutableIsFree(w.coins, w.past, k);
    assert t in w.past.listed ==> InputsClaimed(t, w.past.claimed);
  }

  /** Whatever spends k is a refund, before and after. */
  lemma ExecutedLiveOk(infos: Infos, coins: Coins, past: Past, k: OutPoint, t: Tx, info: Info, v: Past)
    requires LiveOk(infos, past) && ListedOk(infos, past) && t !in infos && Unreplaced(infos, t)
    requires t.inputs == [k] && info.purpose.Refund? && info.role.Original?
    requires k in past.claimed ==> k in past.refunded
    requires v == past.(claimed := v.claimed, refunded := past.refunded + {k}, listed := v.listed)
    ensures LiveOk(infos[t := info], v)
  {
    forall s | s in infos && k in s.inputs ensures infos[s].purpose.Refund? {
      assert InputsClaimed(s, past.claimed);
    }
  }

  lemma ListingKeepsQuestions(asked: set<Question>, listed: map<Tx, Listing>, t: Tx, l: Listing)
    requires AskedOk(asked, listed) && t !in listed
    ensures AskedOk(asked, listed[t := l])
  {
    forall q | q in asked ensures QuestionOk(q, listed[t := l]) {
      assert QuestionOk(q, listed);
    }
  }

  lemma ListingKeepsChain(chain: Chain, past: Past, v: Past)
    requires ChainOk(chain, past) && v.finalized == past.finalized
    requires forall t :: t in past.listed ==> t in v.listed
    ensures ChainOk(chain, v)
  {
  }

  lemma RefundInfoIsOk(k: OutPoint, r: RefundRequest, caller: AccountId, now: nat)
    requires r.gasFee <= r.amount && BridgeOwned(k) && r.amount == ValueOf(k)
    ensures InfoOk(RefundTx(k, r), RefundInfo(caller, r, now))
  {
    assert !RefundInfo(caller, r, now).signatures[0];
  }

  lemma ZeroInsertKeepsSums(infos: Infos, t: Tx, info: Info)
    requires t !in infos && (info.role.Original? ==> info.purpose.Refund?)
    ensures SumBy(infos[t := info], ReserveOf) == SumBy(infos, ReserveOf)
    ensures SumBy(infos[t := info], DueOf) == SumBy(infos, DueOf)
    ensures SumBy(infos[t := info], LockedOf) == SumBy(infos, LockedOf)
  {
    SumInsert(infos, t, info, ReserveOf);
    SumInsert(infos, t, info, DueOf);
    SumInsert(infos, t, info, LockedOf);
  }

  lemma ExecuteRefundKeepsInv(w: World, k: OutPoint, caller: AccountId, privileged: bool, now: nat)
    requires Inv(w) && CanExecuteRefund(w, k, caller, privileged, now)
    ensures Inv(ExecuteRefund(w, k, caller, privileged, now))
  {
    hide FamiliesOk, IndexOk, OrphansOk, AccountsOk, BurnsOk, PlacesOk, ListedOk, LiveOk, ConsumersSpend, RefundsOk,
         MintsOk, ChainOk, FeesOk, AskedOk, InfoOk, Unreplaced, AddSignId, SumBy, RootsListed;
    var v := ExecuteRefund(w, k, caller, privileged, now);
    var r := w.coins.refunds[k];
    var t, info := RefundTx(k, r), RefundInfo(caller, r, now);
    RefundIsNew(w, k, t);
    ExecutableIsFree(w.coins, w.past, k);
    RefundInfoIsOk(k, r, caller, now);
    InsertKeepsFamilies(w.book.infos, t, info);
    InsertOriginalKeepsIndex(w.book.infos, w.book.rbf, t, info);
    InsertKeepsOrphans(w.book.infos, w.past.consumed, w.chain.confirmed, t, info);
    InsertKeepsAccounts(w.book.infos, w.book.accounts, t, info);
    InsertKeepsBurns(w.flight.burns, w.book.infos, w.chain.confirmed, t, info);
    ExecutedHistoryOk(w, k, t, info, v);
    ExecutedMintsOk(w.flight.mints, w.coins, w.past, k, t, caller, v.coins, v.past);
    ListingKeepsQuestions(w.flight.asked, w.past.listed, t, Listing(Refund, caller));
    ListingKeepsChain(w.chain, w.past, v.past);
    ZeroInsertKeepsSums(w.book.infos, t, info);
  }

  lemma ExecutedListedOk(infos: Infos, past: Past, k: OutPoint, t: Tx, info: Info, v: Past)
    requires ListedOk(infos, past) && ConsumersSpend(past) && t !in past.listed && t.inputs == [k]
    requires v == past.(claimed := past.claimed + {k}, refunded := v.refunded,
                        listed := past.listed[t := Listing(info.purpose, info.account)])
    requires RootsListed(infos, past.listed) && info.role.Original?
    ensures ListedOk(infos[t := info], v) && ConsumersSpend(v) && RootsListed(infos[t := info], v.listed)
  {
    InsertKeepsListed(infos, past, t, info, past.claimed + {k});
  }

  lemma ExecutedHistoryOk(w: World, k: OutPoint, t: Tx, info: Info, v: World)
    requires PlacesOk(w.coins, w.past) && RefundsOk(w.coins, w.past) && ListedOk(w.book.infos, w.past)
    requires LiveOk(w.book.infos, w.past) && Unreplaced(w.book.infos, t) && ConsumersSpend(w.past)
    requires RootsListed(w.book.infos, w.past.listed)
    requires RefundExecuted(w.coins, w.past, k, t, info.account, v.coins, v.past)
    requires t.inputs == [k] && t !in w.book.infos && t !in w.past.listed && info.purpose.Refund? && info.role.Original?
    requires k !in w.coins.verified || w.coins.refunds[k].executed
    requires v.book.infos == w.book.infos[t := info]
    ensures PlacesOk(v.coins, v.past) && RefundsOk(v.coins, v.past) && ListedOk(v.book.infos, v.past)
    ensures LiveOk(v.book.infos, v.past) && ConsumersSpend(v.past) && RootsListed(v.book.infos, v.past.listed)
  {
    hide PlacesOk, RefundsOk, LiveOk, Unreplaced, ConsumersSpend, ListedOk, RootsListed;
    ExecutableIsFree(w.coins, w.past, k);
    ConsumedIsClaimed(w.book.infos, w.past, k);
    ExecutedCoinsOk(w.coins, w.past, k, t, info.account, v.coins, v.past);
    ExecutedLiveOk(w.book.infos, w.coins, w.past, k, t, info, v.past);
    ExecutedListedOk(w.book.infos, w.past, k, t, info, v.past);
  }

  lemma ConsumedIsClaimed(infos: Infos, past: Past, k: OutPoint)
    requires ListedOk(infos, past)
    ensures k in past.consumed ==> k in past.claimed
  {
  }

  // ----- confirmation of a refund -----

  /** What the confirmation of the refund t changes in coins and history. */
  ghost predicate RefundFinished(coins: Coins, past: Past, t: Tx, after: Coins, v: Past) {
    && |t.inputs| == 1
    && after == coins.(refunds := coins.refunds - {t.inputs[0]})
    && v == past.(consumed := Consume(past.consumed, t), finalized := past.finalized + {t})
  }

  lemma FinishedPlacesOk(coins: Coins, past: Past, t: Tx, after: Coins, v: Past)
    requires PlacesOk(coins, past) && RefundFinished(coins, past, t, after, v)
    ensures PlacesOk(after, v)
  {
    hide Consume;
  }

  lemma FinishedRefundsOk(coins: Coins, past: Past, t: Tx, after: Coins, v: Past)
    requires RefundsOk(coins, past) && RefundFinished(coins, past, t, after, v)
    ensures RefundsOk(after, v)
  {
    assert InputSet(t) == {t.inputs[0]};
    assert forall op :: op in Consume(past.consumed, t) <==> op in past.consumed || op == t.inputs[0];
    hide Consume;
  }

  lemma FinishedMintsOk(mints: map<nat, Mint>, coins: Coins, past: Past, t: Tx, after: Coins, v: Past)
    requires MintsOk(mints, coins, past) && RefundFinished(coins, past, t, after, v)
    ensures MintsOk(mints, after, v)
  {
    forall id | id in mints ensures MintOk(mints[id], after, v) {
      assert MintOk(mints[id], coins, past);
    }
  }

  lemma FinishedLiveOk(infos: Infos, past: Past, t: Tx, v: Past)
    requires LiveOk(infos, past) && t in infos && infos[t].purpose.Refund?
    requires v == past.(consumed := Consume(past.consumed, t), finalized := v.finalized)
    ensures LiveOk(infos - {t}, v)
  {
    assert forall op :: op in InputSet(t) ==> op in past.refunded;
  }

  lemma FinishedListedOk(infos: Infos, past: Past, t: Tx, v: Past)
    requires ListedOk(infos, past) && ConsumersSpend(past) && t in infos
    requires v == past.(consumed := Consume(past.consumed, t), finalized := past.finalized + {t})
    ensures ListedOk(infos - {t}, v) && ConsumersSpend(v)
  {
    hide ListedOk;
    SettlingKeepsListed(infos, past, t, t, v);
    assert infos - {t, t} == infos - {t};
  }

  lemma FinishedOrphansOk(infos: Infos, past: Past, confirmed: map<Tx, nat>, t: Tx)
    requires OrphansOk(infos, past.consumed, confirmed) && LiveOk(infos, past) && FamiliesOk(infos) && InfosOk(infos)
    requires t in infos && t in confirmed && infos[t].purpose.Refund?
    ensures OrphansOk(infos - {t}, Consume(past.consumed, t), confirmed)
  {
    hide LiveOk, FamiliesOk, InfosOk;
    ReplacementsAreUnreplaced(infos, t);
    forall c | c in infos && infos[c].role.Replacement? && infos[c].role.original !in infos
      ensures c.inputs[0] !in t.inputs
    {
      ReplacementIsNoRefund(infos, past, c, t);
    }
  }

  lemma ReplacementIsNoRefund(infos: Infos, past: Past, c: Tx, t: Tx)
    requires LiveOk(infos, past) && InfosOk(infos) && c in infos && t in infos
    requires infos[c].role.Replacement? && infos[t].purpose.Refund?
    ensures c.inputs != [] && c.inputs[0] !in t.inputs
  {
    assert InfoOk(c, infos[c]);
    assert c.inputs[0] in c.inputs;
    assert c.inputs[0] !in past.refunded;
  }

  lemma RefundIsOriginal(t: Tx, info: Info)
    requires InfoOk(t, info) && info.purpose.Refund?
    ensures info.role.Original? && !info.stage.PendingBurn?
  {
  }

  lemma FinishedChainOk(chain: Chain, past: Past, t: Tx, v: Past)
    requires ChainOk(chain, past) && t in chain.confirmed
    requires v.listed == past.listed && v.finalized == past.finalized + {t}
    ensures ChainOk(chain, v)
  {
  }

  lemma FinishRefundKeepsBook(w: World, t: Tx, confirmations: nat)
    requires CanFinishRefund(w, t, confirmations) && InfosOk(w.book.infos) && FamiliesOk(w.book.infos)
    requires IndexOk(w.book.infos, w.book.rbf) && OrphansOk(w.book.infos, w.past.consumed, w.chain.confirmed)
    requires AccountsOk(w.book.infos, w.book.accounts) && LiveOk(w.book.infos, w.past)
    requires BurnsOk(w.flight.burns, w.book.infos, w.chain.confirmed)
    ensures var v := FinishRefund(w, t, confirmations);
      && InfosOk(v.book.infos) && FamiliesOk(v.book.infos) && IndexOk(v.book.infos, v.book.rbf)
      && OrphansOk(v.book.infos, v.past.consumed, v.chain.confirmed)
      && AccountsOk(v.book.infos, v.book.accounts)
      && BurnsOk(v.flight.burns, v.book.infos, v.chain.confirmed)
  {
    hide FamiliesOk, IndexOk, OrphansOk, AccountsOk, BurnsOk, LiveOk, Unreplaced, InfoOk, Consume, DropIds;
    RefundIsOriginal(t, w.book.infos[t]);
    ReplacementsAreUnreplaced(w.book.infos, t);
    RemoveKeepsFamilies(w.book.infos, {t});
    RemoveLoneKeepsIndex(w.book.infos, w.book.rbf, t);
    FinishedOrphansOk(w.book.infos, w.past, w.chain.confirmed, t);
    DropOneList(w.book.infos, w.book.accounts, t);
    DropKeepsAccounts(w.book.infos, w.book.accounts, t);
    RemoveKeepsBurns(w.flight.burns, w.book.infos, w.chain.confirmed, t);
  }

  lemma FinishRefundKeepsInv(w: World, t: Tx, confirmations: nat)
    requires Inv(w) && CanFinishRefund(w, t, confirmations)
    ensures Inv(FinishRefund(w, t, confirmations))
  {
    hide InfosOk, FamiliesOk, IndexOk, OrphansOk, AccountsOk, BurnsOk, PlacesOk, ListedOk, LiveOk, ConsumersSpend,
         ChainOk, RefundsOk, MintsOk, FeesOk, AskedOk, Consume, SumBy, DropVerifyId, InputSet;
    var v := FinishRefund(w, t, confirmations);
    FinishRefundKeepsBook(w, t, confirmations);
    FinishedChainOk(w.chain, w.past, t, v.past);
    FinishedPlacesOk(w.coins, w.past, t, v.coins, v.past);
    FinishedRefundsOk(w.coins, w.past, t, v.coins, v.past);
    FinishedMintsOk(w.flight.mints, w.coins, w.past, t, v.coins, v.past);
    FinishedLiveOk(w.book.infos, w.past, t, v.past);
    FinishedListedOk(w.book.infos, w.past, t, v.past);
    DropKeepsSums(w.book.infos, t);
  }
}
