/** What every reachable state of the bridge guarantees. */
module Safety {
  import opened Sums
  import opened Bitcoin
  import opened BridgeState
  import opened Effects
  import opened Steps
  import opened Invariants
  import opened SettleProofs
  import opened LedgerProofs
  import opened Runs

  // ----- backing -----

  /** nBTC minus the burns already scheduled never exceeds the satoshis under the contract's control. */
  lemma SupplyIsBacked(w: World)
    requires Reachable(w)
    ensures w.token.supply <= Sats(w.coins, w.book.infos) + SumBy(w.flight.safeBurns, Itself)
  {
    hide SumBy, Reachable;
    ReachableKeepsInv(w);
  }

  ghost predicate Quiet(w: World) {
    w.flight.burns == map[] && w.flight.mints == map[] && w.flight.safeBurns == map[]
  }

  /**
   * With no burn and no mint under way, supply and satoshis are equal exactly when every registered deposit
   * was minted, no withdrawal paid the change address, and no holder destroyed nBTC.
   */
  lemma QuietSupplyIsExact(w: World)
    requires Reachable(w) && Quiet(w)
    ensures w.token.supply == Sats(w.coins, w.book.infos) <==>
      w.past.unminted == 0 && w.past.paidToSelf == 0 && w.past.destroyed == 0
  {
    hide Reachable;
    ReachableKeepsInv(w);
  }

  // ----- the bridge's own balance -----

  function PledgeOf(i: Info): nat { DueOf(i) + ReserveOf(i) }

  /** What a burn takes out of the balance, unless it failed. */
  function CostOf(b: Burn): nat {
    if b.result.Failed? then 0 else b.amount + b.relayerFee
  }

  function WaitingCost(b: Burn): nat {
    if b.result.Waiting? then b.amount + b.relayerFee else 0
  }

  lemma {:induction false} PledgesAddUp(infos: map<Tx, Info>)
    ensures SumBy(infos, PledgeOf) == SumBy(infos, DueOf) + SumBy(infos, ReserveOf)
    decreases |infos|
  {
    if infos != map[] {
      var t :| t in infos;
      SumRemove(infos, t, PledgeOf);
      SumRemove(infos, t, DueOf);
      SumRemove(infos, t, ReserveOf);
      PledgesAddUp(infos - {t});
    }
  }

  lemma {:induction false} CostsAddUp(burns: map<nat, Burn>)
    ensures SumBy(burns, CostOf) == SumBy(burns, WaitingCost) + SumBy(burns, GoneOf)
    decreases |burns|
  {
    if burns != map[] {
      var id :| id in burns;
      SumRemove(burns, id, CostOf);
      SumRemove(burns, id, WaitingCost);
      SumRemove(burns, id, GoneOf);
      CostsAddUp(burns - {id});
    }
  }

  /** A burn costs no more than its family set aside. */
  lemma CostIsPledged(w: World, id: nat)
    requires Inv(w) && id in w.flight.burns
    ensures Settleable(w, w.flight.burns[id].tx)
    ensures var t := w.flight.burns[id].tx;
      CostOf(w.flight.burns[id]) <= PledgeOf(w.book.infos[Root(t, w.book.infos[t])])
  {
    hide IndexOk, AccountsOk, PlacesOk, ListedOk, RootsListed, LiveOk, RefundsOk, MintsOk, AskedOk, FeesOk, Backed,
         Covered, ReserveOk, ConfigOk;
    var t := w.flight.burns[id].tx;
    var root := Root(t, w.book.infos[t]);
    BurnIsSettleable(w, id);
    ReserveSuffices(w, t);
    assert BurnOk(w.flight.burns[id], w.book.infos, w.chain.confirmed);
    assert InfoOk(t, w.book.infos[t]);
    assert t != root ==> Related(t, w.book.infos[t], root, w.book.infos[root]);
  }

  lemma CostsArePledged(w: World)
    requires Inv(w)
    ensures SumBy(w.flight.burns, CostOf) <= SumBy(w.book.infos, PledgeOf)
  {
    hide Inv, CostOf, PledgeOf, Settleable;
    var burns, infos := w.flight.burns, w.book.infos;
    forall id | id in burns
      ensures burns[id].tx in infos && Root(burns[id].tx, infos[burns[id].tx]) in infos
           && CostOf(burns[id]) <= PledgeOf(infos[Root(burns[id].tx, infos[burns[id].tx])])
    {
      CostIsPledged(w, id);
      SettleableHasRoot(w, burns[id].tx);
    }
    var link := map id | id in burns :: Root(burns[id].tx, infos[burns[id].tx]);
    forall i, j | i in burns && j in burns && link[i] == link[j] ensures i == j {
      CostIsPledged(w, i);
      CostIsPledged(w, j);
      BurnsOfOneFamily(w, i, j);
    }
    SumWithin(burns, CostOf, infos, PledgeOf, link);
  }

  lemma SettleableHasRoot(w: World, t: Tx)
    requires Settleable(w, t)
    ensures t in w.book.infos && Root(t, w.book.infos[t]) in w.book.infos
  {
  }

  lemma BurnsOfOneFamily(w: World, i: nat, j: nat)
    requires Inv(w) && i in w.flight.burns && j in w.flight.burns
    requires Settleable(w, w.flight.burns[i].tx) && Settleable(w, w.flight.burns[j].tx)
    requires var s, t := w.flight.burns[i].tx, w.flight.burns[j].tx;
      Root(s, w.book.infos[s]) == Root(t, w.book.infos[t])
    ensures i == j
  {
    OneBurnPerFamily(w, i, j);
  }

  /**
   * The bridge can make all its payments at once: every scheduled burn with its relayer's part, every
   * transfer, every burn of an unused mint, all lost-and-found amounts, and the available protocol fee.
   */
  lemma BalanceCoversEverything(w: World)
    requires Reachable(w)
    ensures SumBy(w.flight.burns, WaitingCost) + SumBy(w.flight.transfers, OwedOf) + SumBy(w.flight.safeBurns, Itself)
      + SumBy(w.flight.mints, HeldOf) + SumBy(w.lostFound, Itself) + w.fees.available <= w.token.balance <= w.token.supply
  {
    hide Reachable, SumBy, ConfigOk, FeesOk, InfosOk, FamiliesOk, IndexOk, OrphansOk, AccountsOk, BurnsOk, PlacesOk,
         ListedOk, RootsListed, LiveOk, ConsumersSpend, RefundsOk, MintsOk, ChainOk, AskedOk, Backed;
    ReachableKeepsInv(w);
    CostsArePledged(w);
    CostsAddUp(w.flight.burns);
    PledgesAddUp(w.book.infos);
  }

  /**
   * To the last unit, what the bridge has is the available and the reserved fee, the transfers of pending
   * withdrawals, everything unpaid, and what it was given; burns that are done but not settled are already gone.
   */
  lemma BalanceIsExact(w: World)
    requires Reachable(w)
    ensures w.token.balance + SumBy(w.flight.burns, GoneOf)
      == w.fees.available + w.fees.reserved + SumBy(w.book.infos, DueOf) + SumBy(w.lostFound, Itself)
         + SumBy(w.flight.transfers, OwedOf) + SumBy(w.flight.safeBurns, Itself) + SumBy(w.flight.mints, HeldOf)
         + w.past.donated
  {
    hide Reachable, SumBy, ConfigOk, FeesOk, ReserveOk, InfosOk, FamiliesOk, IndexOk, OrphansOk, AccountsOk, BurnsOk,
         PlacesOk, ListedOk, RootsListed, LiveOk, ConsumersSpend, RefundsOk, MintsOk, ChainOk, AskedOk, Backed;
    ReachableKeepsInv(w);
  }

  /** So no single payment that is under way can lack balance. */
  lemma EveryPaymentIsPossible(w: World, id: nat)
    requires Reachable(w)
    ensures id in w.flight.burns && w.flight.burns[id].result.Waiting? ==> CanExecBurn(w, id, true)
    ensures id in w.flight.transfers && w.flight.transfers[id].result.Waiting? ==> CanExecTransfer(w, id, true)
    ensures id in w.flight.safeBurns ==> CanExecSafeBurn(w, id)
  {
    hide Reachable;
    BalanceCoversEverything(w);
    if id in w.flight.burns {
      SumRemove(w.flight.burns, id, WaitingCost);
    }
    if id in w.flight.transfers {
      SumRemove(w.flight.transfers, id, OwedOf);
    }
    if id in w.flight.safeBurns {
      SumRemove(w.flight.safeBurns, id, Itself);
    }
  }

  /** No callback can panic: whatever the token contract answered, its callback goes through. */
  lemma EveryCallbackIsPossible(w: World, id: nat)
    requires Reachable(w)
    ensures id in w.flight.burns && w.flight.burns[id].result.Succeeded? ==> CanFinishBurn(w, id)
    ensures id in w.flight.burns && w.flight.burns[id].result.Failed? ==> CanFailBurn(w, id)
    ensures id in w.flight.mints && !w.flight.mints[id].result.MintWaiting? ==> CanFinishMint(w, id)
    ensures id in w.flight.transfers && !w.flight.transfers[id].result.Waiting? ==> CanFinishTransfer(w, id)
  {
    hide Reachable, CanSettle, CanFinishTransfer, SumBy;
    ReachableKeepsInv(w);
    if id in w.flight.burns {
      assert BurnOk(w.flight.burns[id], w.book.infos, w.chain.confirmed);
      if w.flight.burns[id].result.Succeeded? {
        SettlementNeverSticks(w, id);
      }
    }
    if id in w.flight.transfers && !w.flight.transfers[id].result.Waiting? {
      TransferCallbackNeverSticks(w, id);
    }
  }

  // ----- fee ledger and reserve -----

  lemma FeesAreConserved(w: World)
    requires Reachable(w)
    ensures w.fees.collected == w.fees.available + w.fees.claimed + w.fees.reserved + w.fees.spentOnGas
    ensures SumBy(w.flight.transfers, FeeClaim) <= w.fees.claimed
    ensures w.fees.reserved == SumBy(w.book.infos, ReserveOf)
  {
    hide Reachable, SumBy;
    ReachableKeepsInv(w);
  }

  // ----- no double spend -----

  /** An output is a coin, a deposit in progress, or claimed by a transaction, and never two of these. */
  lemma OutputsAreInOnePlace(w: World, op: OutPoint)
    requires Reachable(w)
    ensures op in w.coins.utxos ==> op !in w.coins.inProgress && op !in w.past.claimed
    ensures op in w.coins.inProgress ==> op !in w.past.claimed
    ensures forall t :: t in w.book.infos && op in t.inputs ==> op in w.past.claimed
  {
    hide Reachable, FeesOk, ReserveOk, FamiliesOk, IndexOk, OrphansOk, AccountsOk, BurnsOk, RootsListed, LiveOk,
         MintsOk, ChainOk, AskedOk, Backed, Covered;
    ReachableKeepsInv(w);
    forall t | t in w.book.infos && op in t.inputs ensures op in w.past.claimed {
      assert InputsClaimed(t, w.past.claimed);
    }
  }

  /**
   * Pending transactions share an input only inside one family, whose members all have the same inputs, or as
   * refunds of the same deposit; and no transaction has an input twice. This includes replacements whose
   * original is gone: they share inputs with one another if they replace the same original, and with no family
   * that can still be settled.
   */
  lemma SharedInputsMeanOneFamily(w: World, s: Tx, t: Tx, op: OutPoint)
    requires Reachable(w) && s in w.book.infos && t in w.book.infos && op in s.inputs && op in t.inputs
    ensures Distinct(s.inputs)
    ensures w.book.infos[s].purpose.Refund? <==> w.book.infos[t].purpose.Refund?
    ensures !w.book.infos[s].purpose.Refund? ==>
      Root(s, w.book.infos[s]) == Root(t, w.book.infos[t]) && s.inputs == t.inputs
    ensures !w.book.infos[s].purpose.Refund? ==> (IsOrphan(w, s) <==> IsOrphan(w, t))
  {
    hide Reachable, FeesOk, ReserveOk, FamiliesOk, IndexOk, OrphansOk, AccountsOk, BurnsOk, RootsListed, RefundsOk,
         MintsOk, ChainOk, AskedOk, Backed, Covered, PlacesOk, ListedOk;
    ReachableKeepsInv(w);
    var infos := w.book.infos;
    assert InfoOk(s, infos[s]) && InfoOk(t, infos[t]);
    assert infos[s].purpose.Refund? <==> op in w.past.refunded;
  }

  /** The contract never holds as a coin what a confirmed transaction has spent. */
  lemma CoinsAreUnspent(w: World, op: OutPoint, t: Tx)
    requires Reachable(w) && t in w.chain.confirmed && op in t.inputs
    ensures op !in w.coins.utxos && op !in w.coins.inProgress
  {
    hide Reachable, FeesOk, ReserveOk, FamiliesOk, IndexOk, OrphansOk, AccountsOk, BurnsOk, RootsListed, LiveOk,
         MintsOk, AskedOk, Backed, Covered;
    ReachableKeepsInv(w);
    if BridgeOwned(op) {
      assert InputsClaimed(t, w.past.claimed);
    }
  }

  // ----- families -----

  lemma IndexIsExact(infos: map<Tx, Info>, rbf: map<Tx, set<Tx>>, o: Tx, c: Tx)
    requires IndexOk(infos, rbf)
    ensures c in Candidates(rbf, o) <==>
      c in infos && infos[c].role.Replacement? && infos[c].role.original == o && o in infos
    ensures c in infos && infos[c].role.Replacement? && infos[c].role.original == o ==> (o in rbf <==> o in infos)
  {
  }

  /** c is listed under o exactly when c is a pending replacement of the pending original o. */
  lemma FamilyIndexIsExact(w: World, o: Tx, c: Tx)
    requires Reachable(w)
    ensures c in Candidates(w.book.rbf, o) <==>
      && c in w.book.infos && w.book.infos[c].role.Replacement? && w.book.infos[c].role.original == o
      && o in w.book.infos
  {
    hide Reachable, FeesOk, ReserveOk, FamiliesOk, IndexOk, OrphansOk, AccountsOk, BurnsOk, RootsListed, LiveOk,
         MintsOk, AskedOk, PlacesOk, ListedOk, RefundsOk, ChainOk, InfosOk, ConsumersSpend, Backed, Covered, ConfigOk;
    ReachableKeepsInv(w);
    IndexIsExact(w.book.infos, w.book.rbf, o, c);
  }

  /** The two tests for a lost original agree, and only what lost its original can be cleared or signed away. */
  lemma OrphanTestsAgree(w: World, c: Tx)
    requires Reachable(w) && c in w.book.infos && w.book.infos[c].role.Replacement?
    ensures w.book.infos[c].role.original !in w.book.rbf <==> IsOrphan(w, c)
    ensures CanClear(w, c) || CanSignAwayOrphan(w, c) ==> IsOrphan(w, c)
    ensures IsOrphan(w, c) ==> CanClear(w, c) && c !in w.chain.confirmed
  {
    hide Reachable, FeesOk, ReserveOk, FamiliesOk, IndexOk, OrphansOk, AccountsOk, BurnsOk, RootsListed, LiveOk,
         MintsOk, AskedOk, PlacesOk, ListedOk, RefundsOk, ChainOk, InfosOk, ConsumersSpend, Backed, Covered, ConfigOk;
    ReachableKeepsInv(w);
    IndexIsExact(w.book.infos, w.book.rbf, w.book.infos[c].role.original, c);
    AccountsAreExact(w.book.infos, w.book.accounts, w.book.infos[c].account, c);
    if c in w.chain.confirmed {
      ConfirmedHasItsOriginal(w, c);
    }
    if w.book.infos[c].stage.PendingBurn? {
      BurningIsConfirmed(w, c);
    }
  }

  /**
   * Whichever candidate of a pending withdrawal confirms, the same amount is burned, unless the withdrawal is
   * cancelled: then it is the gas, and gas beyond the user's funds is covered by the reserve of the original.
   */
  lemma CandidatesBurnAlike(w: World, c: Tx)
    requires Reachable(w) && c in w.book.infos && w.book.infos[c].purpose.Withdraw?
    requires w.book.infos[c].role.Replacement? && w.book.infos[c].role.original in w.book.infos
    ensures var candidate := w.book.infos[c]; var original := w.book.infos[candidate.role.original];
      && original.role.Original? && original.purpose.Withdraw? && c.inputs == candidate.role.original.inputs
      && (if candidate.role.cancel then
            && candidate.burnAmount == candidate.gasFee
            && candidate.burnAmount <= original.transferAmount - original.withdrawFee + ReserveOf(original)
          else candidate.burnAmount == original.burnAmount == original.transferAmount - original.withdrawFee)
  {
    hide Reachable, FeesOk, ReserveOk, IndexOk, OrphansOk, AccountsOk, BurnsOk, RootsListed, LiveOk, MintsOk, AskedOk,
         PlacesOk, ListedOk, RefundsOk, ChainOk, ConsumersSpend, Backed, Covered, ConfigOk;
    ReachableKeepsInv(w);
    var o := w.book.infos[c].role.original;
    assert InfoOk(c, w.book.infos[c]) && InfoOk(o, w.book.infos[o]);
    assert Related(c, w.book.infos[c], o, w.book.infos[o]);
  }

  lemma BurningIsConfirmed(w: World, t: Tx)
    requires BurnsOk(w.flight.burns, w.book.infos, w.chain.confirmed)
    requires t in w.book.infos && w.book.infos[t].stage.PendingBurn?
    ensures t in w.chain.confirmed
  {
    var id :| id in w.flight.burns && w.flight.burns[id].tx == t;
    assert BurnOk(w.flight.burns[id], w.book.infos, w.chain.confirmed);
  }

  // ----- stages -----

  /** Fully signed, bytes present, and past signing are the same; burning means exactly one burn under way. */
  lemma StagesAreExact(w: World, t: Tx)
    requires Reachable(w) && t in w.book.infos
    ensures var info := w.book.infos[t];
      && (AllSigned(info.signatures) <==> info.signedBytes)
      && (info.signedBytes <==> !info.stage.PendingSign?)
      && (info.stage.PendingBurn? <==> exists id :: id in w.flight.burns && w.flight.burns[id].tx == t)
    ensures forall i, j :: (i in w.flight.burns && j in w.flight.burns
      && w.flight.burns[i].tx == t && w.flight.burns[j].tx == t) ==> i == j
  {
    hide Reachable, FeesOk, ReserveOk, FamiliesOk, RootsListed, LiveOk, MintsOk, AskedOk, PlacesOk, OrphansOk,
         AccountsOk, IndexOk, ListedOk, RefundsOk, ChainOk, Backed, Covered;
    ReachableKeepsInv(w);
    assert InfoOk(t, w.book.infos[t]);
    forall id | id in w.flight.burns && w.flight.burns[id].tx == t ensures w.book.infos[t].stage.PendingBurn? {
      assert BurnOk(w.flight.burns[id], w.book.infos, w.chain.confirmed);
    }
  }

  /** When a burn is scheduled, nothing that shares an input has a burn under way or was settled before. */
  lemma BurnedAtMostOnce(w: World, t: Tx, purpose: Purpose, confirmations: nat, s: Tx)
    requires Reachable(w) && CanStartBurn(w, t, purpose, confirmations)
    requires s in w.past.finalized || exists id :: id in w.flight.burns && w.flight.burns[id].tx == s
    ensures s != t && Disjoint(s, t)
  {
    hide Reachable, FeesOk, ReserveOk, FamiliesOk, RootsListed, LiveOk, MintsOk, AskedOk, PlacesOk, OrphansOk,
         AccountsOk, IndexOk, RefundsOk, Backed, Covered, InfosOk;
    ReachableKeepsInv(w);
    if id :| id in w.flight.burns && w.flight.burns[id].tx == s {
      assert BurnOk(w.flight.burns[id], w.book.infos, w.chain.confirmed);
    }
  }

  // ----- account indexes -----

  lemma AccountsAreExact(infos: map<Tx, Info>, accounts: map<AccountId, Account>, a: AccountId, t: Tx)
    requires AccountsOk(infos, accounts)
    ensures t in infos ==> infos[t].account in accounts
    ensures t in SignIds(accounts, a) <==> t in infos && infos[t].account == a && infos[t].stage.PendingSign?
    ensures t in VerifyList(accounts, a) <==>
      t in infos && infos[t].account == a && !infos[t].stage.PendingSign? && infos[t].role.Original?
  {
  }

  /** The two lists of an account hold exactly its transactions to sign and its originals to verify. */
  lemma AccountIndexIsExact(w: World, a: AccountId, t: Tx)
    requires Reachable(w)
    ensures t in SignIds(w.book.accounts, a) <==>
      t in w.book.infos && w.book.infos[t].account == a && w.book.infos[t].stage.PendingSign?
    ensures t in VerifyList(w.book.accounts, a) <==>
      && t in w.book.infos && w.book.infos[t].account == a && !w.book.infos[t].stage.PendingSign?
      && w.book.infos[t].role.Original?
  {
    hide Reachable, FeesOk, ReserveOk, FamiliesOk, IndexOk, OrphansOk, AccountsOk, BurnsOk, RootsListed, LiveOk,
         MintsOk, AskedOk, PlacesOk, ListedOk, RefundsOk, ChainOk, InfosOk, ConsumersSpend, Backed, Covered, ConfigOk;
    ReachableKeepsInv(w);
    AccountsAreExact(w.book.infos, w.book.accounts, a, t);
  }

  // ----- deposits and refunds -----

  /** A deposit is never both registered as a coin and refunded; either one rules the other out. */
  lemma DepositsAndRefundsExclude(w: World, op: OutPoint)
    requires Reachable(w)
    ensures !(op in w.past.deposited && op in w.past.refunded)
    ensures op in w.coins.inProgress || op in w.past.deposited ==>
      forall a, privileged, now :: !CanExecuteRefund(w, op, a, privileged, now)
    ensures op in w.past.refunded ==>
      && op in w.coins.verified && op !in w.coins.inProgress
      && (forall d: DepositClaim :: d.op == op ==> !CanAcceptDeposit(w, d))
  {
    hide Reachable, FeesOk, ReserveOk, FamiliesOk, RootsListed, LiveOk, MintsOk, AskedOk, OrphansOk, BurnsOk, IndexOk,
         AccountsOk, Backed, Covered, InfosOk, ListedOk, ChainOk, EnoughConfirmations;
    ReachableKeepsInv(w);
  }

  /** A refund address that the deposit message names is what an executed refund pays, in full but for the gas. */
  lemma AuthorizedRefundPaysItsAddress(w: World, k: OutPoint, a: AccountId, privileged: bool, now: nat)
    requires Reachable(w) && CanExecuteRefund(w, k, a, privileged, now) && w.coins.refunds[k].authorized.Some?
    ensures var r := w.coins.refunds[k];
      && Exists(k) && r.gasFee <= ValueOf(k)
      && RefundTx(k, r).inputs == [k]
      && RefundTx(k, r).outputs == [TxOut(ValueOf(k) - r.gasFee, r.authorized.value)]
  {
    hide Reachable, ConfigOk, FeesOk, ReserveOk, InfosOk, FamiliesOk, IndexOk, OrphansOk, AccountsOk, BurnsOk, PlacesOk,
         ListedOk, RootsListed, LiveOk, ConsumersSpend, MintsOk, ChainOk, AskedOk, Backed, Covered;
    ReachableKeepsInv(w);
  }
}
