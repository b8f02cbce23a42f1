/** Fees, transfers, management and the surroundings keep every invariant. */
module LedgerProofs {
  import opened Wrappers
  import opened Sums
  import opened Bitcoin
  import opened Configuration
  import opened BridgeState
  import opened Effects
  import opened Steps
  import opened Invariants
  import opened BookProofs
  import opened DepositProofs

  lemma DepositProtocolFeeKeepsInv(w: World, amount: nat)
    requires Inv(w) && CanDepositProtocolFee(w, amount)
    ensures Inv(DepositProtocolFee(w, amount))
  {
    hide InfosOk, FamiliesOk, IndexOk, OrphansOk, AccountsOk, BurnsOk, PlacesOk, ListedOk, RootsListed, LiveOk,
         ConsumersSpend, RefundsOk, MintsOk, ChainOk, AskedOk, SumBy;
  }

  lemma NewTransferSums(transfers: map<nat, Transfer>, to: Option<AccountId>, amount: nat)
    ensures var after := AddTransfer(transfers, to, amount);
      && SumBy(after, OwedOf) == SumBy(transfers, OwedOf) + amount
      && SumBy(after, FeeClaim) == SumBy(transfers, FeeClaim) + (if to.None? then amount else 0)
  {
    SumInsert(transfers, FreshId(transfers), Transfer(to, amount, Waiting), OwedOf);
    SumInsert(transfers, FreshId(transfers), Transfer(to, amount, Waiting), FeeClaim);
  }

  lemma WithdrawProtocolFeeKeepsInv(w: World, amount: nat)
    requires Inv(w) && CanWithdrawProtocolFee(w, amount)
    ensures Inv(WithdrawProtocolFee(w, amount))
  {
    hide InfosOk, FamiliesOk, IndexOk, OrphansOk, AccountsOk, BurnsOk, PlacesOk, ListedOk, RootsListed, LiveOk,
         ConsumersSpend, RefundsOk, MintsOk, ChainOk, AskedOk, SumBy, AddTransfer;
    NewTransferSums(w.flight.transfers, None, amount);
  }

  lemma ClaimLostFoundKeepsInv(w: World, a: AccountId)
    requires Inv(w) && CanClaimLostFound(w, a)
    ensures Inv(ClaimLostFound(w, a))
  {
    hide InfosOk, FamiliesOk, IndexOk, OrphansOk, AccountsOk, BurnsOk, PlacesOk, ListedOk, RootsListed, LiveOk,
         ConsumersSpend, RefundsOk, MintsOk, ChainOk, AskedOk, SumBy, AddTransfer;
    NewTransferSums(w.flight.transfers, Some(a), w.lostFound[a]);
    SumRemove(w.lostFound, a, Itself);
  }

  lemma ExecTransferKeepsInv(w: World, id: nat, ok: bool)
    requires Inv(w) && CanExecTransfer(w, id, ok)
    ensures Inv(ExecTransfer(w, id, ok))
  {
    hide InfosOk, FamiliesOk, IndexOk, OrphansOk, AccountsOk, BurnsOk, PlacesOk, ListedOk, RootsListed, LiveOk,
         ConsumersSpend, RefundsOk, MintsOk, ChainOk, AskedOk, SumBy;
    var x := w.flight.transfers[id].(result := if ok then Succeeded else Failed);
    SumInsert(w.flight.transfers, id, x, OwedOf);
    SumInsert(w.flight.transfers, id, x, FeeClaim);
  }

  /** A failed withdrawal of protocol fee can always be rolled back. */
  lemma TransferCallbackNeverSticks(w: World, id: nat)
    requires Inv(w) && id in w.flight.transfers && !w.flight.transfers[id].result.Waiting?
    ensures CanFinishTransfer(w, id)
  {
    SumRemove(w.flight.transfers, id, FeeClaim);
  }

  lemma FinishTransferKeepsInv(w: World, id: nat)
    requires Inv(w) && CanFinishTransfer(w, id)
    ensures Inv(FinishTransfer(w, id))
  {
    hide InfosOk, FamiliesOk, IndexOk, OrphansOk, AccountsOk, BurnsOk, PlacesOk, ListedOk, RootsListed, LiveOk,
         ConsumersSpend, RefundsOk, MintsOk, ChainOk, AskedOk, SumBy;
    var x := w.flight.transfers[id];
    SumRemove(w.flight.transfers, id, OwedOf);
    SumRemove(w.flight.transfers, id, FeeClaim);
    if x.to.Some? {
      var a := x.to.value;
      var total: nat := (if a in w.lostFound then w.lostFound[a] else 0) + x.amount;
      SumInsert(w.lostFound, a, total, Itself);
    }
  }

  // ----- management -----

  lemma SetLimitKeepsInv(w: World, a: AccountId, limit: Option<nat>)
    requires Inv(w) && CanSetLimit(w, a, limit)
    ensures Inv(SetLimit(w, a, limit))
  {
    hide InfosOk, FamiliesOk, IndexOk, OrphansOk, AccountsOk, BurnsOk, PlacesOk, ListedOk, RootsListed, LiveOk,
         ConsumersSpend, RefundsOk, MintsOk, ChainOk, AskedOk, FeesOk, SumBy;
  }

  lemma ConfigureKeepsInv(w: World, c: Config)
    requires Inv(w) && CanConfigure(w, c)
    ensures Inv(Configure(w, c))
  {
    hide InfosOk, FamiliesOk, IndexOk, OrphansOk, AccountsOk, BurnsOk, PlacesOk, ListedOk, RootsListed, LiveOk,
         ConsumersSpend, RefundsOk, MintsOk, ChainOk, AskedOk, FeesOk, SumBy, ValidConfig;
  }

  lemma RegisterKeepsInv(w: World, a: AccountId)
    requires Inv(w)
    ensures Inv(Register(w, a))
  {
    hide InfosOk, FamiliesOk, IndexOk, OrphansOk, AccountsOk, BurnsOk, PlacesOk, ListedOk, RootsListed, LiveOk,
         ConsumersSpend, RefundsOk, MintsOk, ChainOk, AskedOk, FeesOk, SumBy, WithAccount;
    WithAccountKeepsAccounts(w.book.infos, w.book.accounts, a);
  }

  // ----- the surroundings -----

  lemma ConfirmKeepsChain(chain: Chain, past: Past, t: Tx, height: nat)
    requires ChainOk(chain, past) && t !in chain.confirmed && height <= chain.tip
    requires forall u :: u in chain.confirmed ==> Disjoint(t, u)
    requires (exists op :: op in t.inputs && BridgeOwned(op)) ==> t in past.listed
    ensures ChainOk(chain.(confirmed := chain.confirmed[t := height]), past)
  {
    assert forall u :: u in chain.confirmed ==> Disjoint(u, t);
  }

  lemma ConfirmKeepsBurns(burns: map<nat, Burn>, infos: map<Tx, Info>, confirmed: map<Tx, nat>, t: Tx, height: nat)
    requires BurnsOk(burns, infos, confirmed)
    ensures BurnsOk(burns, infos, confirmed[t := height])
  {
    forall id | id in burns ensures BurnOk(burns[id], infos, confirmed[t := height]) {
      assert BurnOk(burns[id], infos, confirmed);
    }
  }

  lemma ConfirmKeepsInv(w: World, t: Tx, height: nat)
    requires Inv(w) && CanConfirm(w, t, height)
    ensures Inv(Confirm(w, t, height))
  {
    hide InfosOk, FamiliesOk, IndexOk, AccountsOk, BurnsOk, PlacesOk, ListedOk, RootsListed, LiveOk, ConsumersSpend,
         RefundsOk, MintsOk, ChainOk, AskedOk, FeesOk, SumBy;
    ConfirmKeepsChain(w.chain, w.past, t, height);
    ConfirmKeepsBurns(w.flight.burns, w.book.infos, w.chain.confirmed, t, height);
  }

  lemma AdvanceTipKeepsInv(w: World, tip: nat)
    requires Inv(w) && w.chain.tip <= tip
    ensures Inv(AdvanceTip(w, tip))
  {
    hide InfosOk, FamiliesOk, IndexOk, OrphansOk, AccountsOk, BurnsOk, PlacesOk, ListedOk, RootsListed, LiveOk,
         ConsumersSpend, RefundsOk, MintsOk, AskedOk, FeesOk, SumBy;
  }

  lemma DonateKeepsInv(w: World, amount: nat)
    requires Inv(w) && CanDonate(w, amount)
    ensures Inv(Donate(w, amount))
  {
    hide InfosOk, FamiliesOk, IndexOk, OrphansOk, AccountsOk, BurnsOk, PlacesOk, ListedOk, RootsListed, LiveOk,
         ConsumersSpend, RefundsOk, MintsOk, ChainOk, AskedOk, FeesOk, SumBy;
    var v := Donate(w, amount);
    SpendingHistoryCarriesOver(w.book.infos, w.chain, w.past, v.past);
    SurplusLeavesCoins(w, v.past);
  }

  lemma DestroyKeepsInv(w: World, amount: nat)
    requires Inv(w) && CanDestroy(w, amount)
    ensures Inv(Destroy(w, amount))
  {
    hide InfosOk, FamiliesOk, IndexOk, OrphansOk, AccountsOk, BurnsOk, PlacesOk, ListedOk, RootsListed, LiveOk,
         ConsumersSpend, RefundsOk, MintsOk, ChainOk, AskedOk, FeesOk, SumBy;
    var v := Destroy(w, amount);
    SpendingHistoryCarriesOver(w.book.infos, w.chain, w.past, v.past);
    SurplusLeavesCoins(w, v.past);
  }
}
