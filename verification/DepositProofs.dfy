/** Deposits, from the proof of inclusion to the minted tokens, keep every invariant. */
module DepositProofs {
  import opened Sums
  import opened Bitcoin
  import opened BlockAmounts
  import opened BridgeState
  import opened Steps
  import opened Invariants
  import opened BookProofs
  import opened ProgressProofs

  /** Two histories that differ at most in what concerns deposits and surpluses. */
  ghost predicate SameSpending(p: Past, q: Past) {
    q == p.(deposited := q.deposited, accepted := q.accepted, paidToSelf := q.paidToSelf,
            unminted := q.unminted, destroyed := q.destroyed, donated := q.donated)
  }

  lemma SpendingHistoryCarriesOver(infos: Infos, chain: Chain, p: Past, q: Past)
    requires SameSpending(p, q)
    ensures ListedOk(infos, p) ==> ListedOk(infos, q)
    ensures LiveOk(infos, p) ==> LiveOk(infos, q)
    ensures ConsumersSpend(p) ==> ConsumersSpend(q)
    ensures ChainOk(chain, p) ==> ChainOk(chain, q)
  {
  }

  /** What is only recorded as a surplus concerns no coin and no mint. */
  lemma SurplusLeavesCoins(w: World, q: Past)
    requires q == w.past.(destroyed := q.destroyed, donated := q.donated)
    ensures PlacesOk(w.coins, w.past) ==> PlacesOk(w.coins, q)
    ensures RefundsOk(w.coins, w.past) ==> RefundsOk(w.coins, q)
    ensures MintsOk(w.flight.mints, w.coins, w.past) ==> MintsOk(w.flight.mints, w.coins, q)
  {
    if MintsOk(w.flight.mints, w.coins, w.past) {
      forall id | id in w.flight.mints ensures MintOk(w.flight.mints[id], w.coins, q) {
        assert MintOk(w.flight.mints[id], w.coins, w.past);
      }
    }
  }

  lemma AskDepositKeepsInv(w: World, d: DepositClaim)
    requires Inv(w) && CanAskDeposit(w, d)
    ensures Inv(Ask(w, DepositCheck(d)))
  {
    hide Inv;
    AskKeepsInv(w, DepositCheck(d));
  }

  // ----- acceptance -----

  lemma AcceptedPlacesOk(coins: Coins, past: Past, op: OutPoint, accepted: map<OutPoint, Deposit>)
    requires PlacesOk(coins, past) && Exists(op) && ScriptOf(op).DepositScript? && op !in coins.verified
    ensures PlacesOk(coins.(verified := coins.verified + {op}, inProgress := coins.inProgress[op := ValueOf(op)]),
                     past.(accepted := accepted))
  {
  }

  lemma AcceptedRefundsOk(coins: Coins, past: Past, op: OutPoint, accepted: map<OutPoint, Deposit>)
    requires RefundsOk(coins, past) && Exists(op) && op !in coins.verified
    ensures RefundsOk(coins.(verified := coins.verified + {op}, inProgress := coins.inProgress[op := ValueOf(op)]),
                      past.(accepted := accepted))
  {
  }

  lemma AddedMintsMatch(mints: map<nat, Mint>, inProgress: map<OutPoint, nat>, id: nat, m: Mint)
    requires MintsMatch(mints, inProgress) && id !in mints && forall j :: j in mints ==> mints[j].op != m.op
    ensures MintsMatch(mints[id := m], inProgress[m.op := m.value])
  {
    var more := mints[id := m];
    assert more[id].op == m.op;
    forall op | op in inProgress ensures exists j :: j in more && more[j].op == op {
      var j :| j in mints && mints[j].op == op;
      assert more[j].op == op;
    }
  }

  lemma AcceptedMintsOk(mints: map<nat, Mint>, coins: Coins, past: Past, id: nat, m: Mint)
    requires MintsOk(mints, coins, past) && m.op !in coins.inProgress && id !in mints
    requires m.mintAmount + m.protocolFee + m.relayerFee == m.value && m.result.MintWaiting?
    requires m.safe ==> m.protocolFee == 0 && m.relayerFee == 0
    ensures MintsOk(mints[id := m],
                    coins.(verified := coins.verified + {m.op}, inProgress := coins.inProgress[m.op := m.value]),
                    past.(accepted := past.accepted[m.op := Deposit(m.height, m.value)]))
  {
    hide MintsMatch;
    var after := coins.(verified := coins.verified + {m.op}, inProgress := coins.inProgress[m.op := m.value]);
    var v := past.(accepted := past.accepted[m.op := Deposit(m.height, m.value)]);
    forall j | j in mints ensures MintOk(mints[j], after, v) && mints[j].op != m.op {
      assert MintOk(mints[j], coins, past);
    }
    AddedMintsMatch(mints, coins.inProgress, id, m);
  }

  lemma UnverifiedIsNew(coins: Coins, past: Past, op: OutPoint)
    requires PlacesOk(coins, past) && op !in coins.verified
    ensures op !in coins.inProgress
  {
  }

  lemma AcceptDepositKeepsInv(w: World, d: DepositClaim)
    requires Inv(w) && CanAcceptDeposit(w, d)
    ensures Inv(AcceptDeposit(w, d))
  {
    hide InfosOk, FamiliesOk, IndexOk, OrphansOk, AccountsOk, BurnsOk, PlacesOk, ListedOk, RootsListed, LiveOk,
         ConsumersSpend, RefundsOk, MintsOk, ChainOk, FeesOk, ReserveOk, EnoughConfirmations, BumpCells;
    var v := AcceptDeposit(w, d);
    assert QuestionOk(DepositCheck(d), w.past.listed);
    UnverifiedIsNew(w.coins, w.past, d.op);
    var id := FreshId(w.flight.mints);
    var m := v.flight.mints[id];
    AcceptedPlacesOk(w.coins, w.past, d.op, v.past.accepted);
    AcceptedRefundsOk(w.coins, w.past, d.op, v.past.accepted);
    AcceptedMintsOk(w.flight.mints, w.coins, w.past, id, m);
    SpendingHistoryCarriesOver(w.book.infos, w.chain, w.past, v.past);
    SumInsert(w.coins.inProgress, d.op, ValueOf(d.op), Itself);
    SumInsert(w.flight.mints, id, m, NotMinted);
    SumInsert(w.flight.mints, id, m, HeldOf);
  }

  // ----- minting -----

  lemma AnsweredMintOk(m: Mint, coins: Coins, past: Past, result: MintResult)
    requires MintOk(m, coins, past) && (result.MintedUnused? ==> m.safe)
    ensures MintOk(m.(result := result), coins, past)
  {
  }

  /** The match of mints and deposits in progress does not depend on the token's answers. */
  lemma AnsweredMintsMatch(mints: map<nat, Mint>, inProgress: map<OutPoint, nat>, id: nat, m: Mint)
    requires MintsMatch(mints, inProgress) && id in mints && m.op == mints[id].op
    ensures MintsMatch(mints[id := m], inProgress)
  {
    var after := mints[id := m];
    assert forall j :: j in after ==> j in mints && after[j].op == mints[j].op;
    forall op | op in inProgress ensures exists j :: j in after && after[j].op == op {
      var j :| j in mints && mints[j].op == op;
      assert after[j].op == op;
    }
  }

  lemma AnsweredMintsOk(mints: map<nat, Mint>, coins: Coins, past: Past, id: nat, result: MintResult)
    requires MintsOk(mints, coins, past) && id in mints && (result.MintedUnused? ==> mints[id].safe)
    ensures MintsOk(mints[id := mints[id].(result := result)], coins, past)
  {
    hide MintOk, MintsMatch;
    AnsweredMintOk(mints[id], coins, past, result);
    AnsweredMintsMatch(mints, coins.inProgress, id, mints[id].(result := result));
  }

  lemma MintIsOk(mints: map<nat, Mint>, coins: Coins, past: Past, id: nat)
    requires MintsOk(mints, coins, past) && id in mints
    ensures MintOk(mints[id], coins, past)
  {
  }

  lemma ExecMintSums(w: World, id: nat, result: MintResult, kept: nat)
    requires CanExecMint(w, id, result, kept) && MintOk(w.flight.mints[id], w.coins, w.past)
    requires Backed(w) && Covered(w)
    ensures var v := ExecMint(w, id, result, kept); Backed(v) && Covered(v)
  {
    hide SumBy;
    SumInsert(w.flight.mints, id, w.flight.mints[id].(result := result), NotMinted);
    SumInsert(w.flight.mints, id, w.flight.mints[id].(result := result), HeldOf);
  }

  lemma ExecMintKeepsInv(w: World, id: nat, result: MintResult, kept: nat)
    requires Inv(w) && CanExecMint(w, id, result, kept)
    ensures Inv(ExecMint(w, id, result, kept))
  {
    hide InfosOk, FamiliesOk, IndexOk, OrphansOk, AccountsOk, BurnsOk, PlacesOk, ListedOk, RootsListed, LiveOk,
         ConsumersSpend, RefundsOk, ChainOk, FeesOk, ReserveOk, AskedOk, MintsOk, Backed, Covered, MintOk;
    var v := ExecMint(w, id, result, kept);
    MintIsOk(w.flight.mints, w.coins, w.past, id);
    AnsweredMintsOk(w.flight.mints, w.coins, w.past, id, result);
    SpendingHistoryCarriesOver(w.book.infos, w.chain, w.past, v.past);
    SurplusLeavesCoins(w.(flight := v.flight), v.past);
    ExecMintSums(w, id, result, kept);
  }

  // ----- the callback of a mint -----

  lemma FinishedMintsOk(mints: map<nat, Mint>, coins: Coins, past: Past, id: nat, after: Coins, v: Past)
    requires MintsOk(mints, coins, past) && id in mints
    requires after.inProgress == coins.inProgress - {mints[id].op}
    requires v.accepted == past.accepted || v.accepted == past.accepted - {mints[id].op}
    ensures MintsOk(mints - {id}, after, v)
  {
    forall j | j in mints - {id} ensures MintOk((mints - {id})[j], after, v) {
      assert MintOk(mints[j], coins, past);
    }
    forall op | op in after.inProgress ensures exists j :: j in mints - {id} && (mints - {id})[j].op == op {
      var j :| j in mints && mints[j].op == op;
      assert j in mints - {id};
    }
  }

  /** A deposit in progress is nowhere else: no coin, no input of anything, and not refunded. */
  lemma InProgressIsNowhereElse(coins: Coins, past: Past, op: OutPoint)
    requires PlacesOk(coins, past) && RefundsOk(coins, past) && op in coins.inProgress
    ensures op !in coins.utxos && op !in past.claimed && op !in past.refunded && op !in past.deposited
    ensures op in coins.verified && Exists(op) && ScriptOf(op).DepositScript? && coins.inProgress[op] == ValueOf(op)
  {
  }

  lemma MintedCoinsOk(coins: Coins, past: Past, op: OutPoint, v: Past)
    requires PlacesOk(coins, past) && RefundsOk(coins, past) && op in coins.inProgress
    requires v == past.(deposited := past.deposited + {op}, unminted := v.unminted)
    ensures var after := coins.(inProgress := coins.inProgress - {op}, utxos := coins.utxos[op := ValueOf(op)]);
      PlacesOk(after, v) && RefundsOk(after, v)
  {
    InProgressIsNowhereElse(coins, past, op);
  }

  lemma RevertedCoinsOk(coins: Coins, past: Past, op: OutPoint)
    requires PlacesOk(coins, past) && RefundsOk(coins, past) && op in coins.inProgress
    ensures var after := coins.(inProgress := coins.inProgress - {op}, verified := coins.verified - {op});
      var v := past.(accepted := past.accepted - {op});
      PlacesOk(after, v) && RefundsOk(after, v)
  {
    InProgressIsNowhereElse(coins, past, op);
  }

  lemma FinishMintRemoves(w: World, id: nat)
    requires id in w.flight.mints && MintOk(w.flight.mints[id], w.coins, w.past)
    ensures var m := w.flight.mints[id];
      && SumBy(w.flight.mints - {id}, NotMinted) + NotMinted(m) == SumBy(w.flight.mints, NotMinted)
      && SumBy(w.flight.mints - {id}, HeldOf) + HeldOf(m) == SumBy(w.flight.mints, HeldOf)
      && SumBy(w.coins.inProgress - {m.op}, Itself) + m.value == SumBy(w.coins.inProgress, Itself)
  {
    SumRemove(w.flight.mints, id, NotMinted);
    SumRemove(w.flight.mints, id, HeldOf);
    SumRemove(w.coins.inProgress, w.flight.mints[id].op, Itself);
  }

  lemma AcceptedMintSums(w: World, id: nat)
    requires CanFinishMint(w, id) && MintOk(w.flight.mints[id], w.coins, w.past) && MintAccepted(w.flight.mints[id])
    requires w.flight.mints[id].op !in w.coins.utxos
    requires FeesOk(w.fees, w.flight.transfers) && Backed(w) && Covered(w)
    ensures var v := FinishMint(w, id); FeesOk(v.fees, v.flight.transfers) && Backed(v) && Covered(v)
  {
    hide SumBy;
    var m := w.flight.mints[id];
    FinishMintRemoves(w, id);
    SumInsert(w.coins.utxos, m.op, m.value, Itself);
  }

  lemma RevertedMintSums(w: World, id: nat)
    requires CanFinishMint(w, id) && MintOk(w.flight.mints[id], w.coins, w.past) && !MintAccepted(w.flight.mints[id])
    requires Backed(w) && Covered(w)
    ensures var v := FinishMint(w, id); Backed(v) && Covered(v)
  {
    hide SumBy, UnbumpCells;
    var m := w.flight.mints[id];
    FinishMintRemoves(w, id);
    SumInsert(w.flight.safeBurns, FreshId(w.flight.safeBurns), m.mintAmount, Itself);
  }

  lemma FinishMintKeepsInv(w: World, id: nat)
    requires Inv(w) && CanFinishMint(w, id)
    ensures Inv(FinishMint(w, id))
  {
    hide InfosOk, FamiliesOk, IndexOk, OrphansOk, AccountsOk, BurnsOk, PlacesOk, ListedOk, RootsListed, LiveOk,
         ConsumersSpend, RefundsOk, ChainOk, FeesOk, ReserveOk, AskedOk, Backed, Covered, UnbumpCells, MintsOk;
    var v := FinishMint(w, id);
    var m := w.flight.mints[id];
    MintIsOk(w.flight.mints, w.coins, w.past, id);
    InProgressIsNowhereElse(w.coins, w.past, m.op);
    FinishedMintsOk(w.flight.mints, w.coins, w.past, id, v.coins, v.past);
    if MintAccepted(m) {
      MintedCoinsOk(w.coins, w.past, m.op, v.past);
      WithAccountKeepsAccounts(w.book.infos, w.book.accounts, m.recipient);
      AcceptedMintSums(w, id);
    } else {
      RevertedCoinsOk(w.coins, w.past, m.op);
      RevertedMintSums(w, id);
    }
    SpendingHistoryCarriesOver(w.book.infos, w.chain, w.past, v.past);
  }

  lemma ExecSafeBurnKeepsInv(w: World, id: nat)
    requires Inv(w) && CanExecSafeBurn(w, id)
    ensures Inv(ExecSafeBurn(w, id))
  {
    hide InfosOk, FamiliesOk, IndexOk, OrphansOk, AccountsOk, BurnsOk, PlacesOk, ListedOk, RootsListed, LiveOk,
         ConsumersSpend, RefundsOk, MintsOk, ChainOk, FeesOk, ReserveOk, AskedOk;
    SumRemove(w.flight.safeBurns, id, Itself);
  }
}
