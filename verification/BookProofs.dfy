/**
 * How inserting, changing and removing records of pending transactions affects the family index, the
 * account indexes and the history, apart from the steps that do it.
 */
module BookProofs {
  import opened Bitcoin
  import opened BridgeState
  import opened Effects
  import opened Invariants

  type Infos = map<Tx, Info>

  /** Nothing pending replaces t. */
  ghost predicate Unreplaced(infos: Infos, t: Tx) {
    forall c :: c in infos && infos[c].role.Replacement? ==> infos[c].role.original != t
  }

  /** A change that leaves alone what other records rely on. */
  ghost predicate Advances(i: Info, j: Info) {
    && j == i.(stage := j.stage, signatures := j.signatures, signedBytes := j.signedBytes)
    && (j.stage.PendingSign? ==> i.stage.PendingSign?)
  }

  /** A role that sets aside no less than before. */
  ghost predicate Raises(before: Role, after: Role) {
    && before.Original? && after.Original?
    && before.maxGasFee <= after.maxGasFee
    && (before.cancelReserved.Some? ==>
          after.cancelReserved.Some? && before.cancelReserved.value <= after.cancelReserved.value)
  }

  // ----- families -----

  lemma InsertKeepsFamilies(infos: Infos, t: Tx, info: Info)
    requires t !in infos && FamiliesOk(infos) && Unreplaced(infos, t)
    requires info.role.Replacement? ==>
      && info.role.original in infos
      && Related(t, info, info.role.original, infos[info.role.original])
    ensures FamiliesOk(infos[t := info])
  {
  }

  lemma AdvanceKeepsFamilies(infos: Infos, t: Tx, info: Info)
    requires t in infos && FamiliesOk(infos) && Advances(infos[t], info)
    ensures FamiliesOk(infos[t := info])
  {
  }

  lemma RaiseKeepsFamilies(infos: Infos, o: Tx, role: Role)
    requires o in infos && FamiliesOk(infos) && Raises(infos[o].role, role)
    ensures FamiliesOk(infos[o := infos[o].(role := role)])
  {
  }

  lemma RemoveKeepsFamilies(infos: Infos, gone: set<Tx>)
    requires FamiliesOk(infos)
    ensures FamiliesOk(infos - gone)
  {
  }

  /** Only an original has replacements, and a refund has none. */
  lemma ReplacementsAreUnreplaced(infos: Infos, t: Tx)
    requires FamiliesOk(infos) && InfosOk(infos) && t in infos
    requires infos[t].role.Replacement? || infos[t].purpose.Refund?
    ensures Unreplaced(infos, t)
  {
    forall c | c in infos && infos[c].role.Replacement? ensures infos[c].role.original != t {
      assert InfoOk(c, infos[c]);
    }
  }

  // ----- index of replacements -----

  lemma InsertOriginalKeepsIndex(infos: Infos, rbf: map<Tx, set<Tx>>, t: Tx, info: Info)
    requires t !in infos && info.role.Original? && IndexOk(infos, rbf) && Unreplaced(infos, t)
    ensures IndexOk(infos[t := info], rbf)
  {
  }

  lemma InsertReplacementKeepsIndex(infos: Infos, rbf: map<Tx, set<Tx>>, c: Tx, info: Info)
    requires c !in infos && info.role.Replacement? && info.role.original in infos
    requires IndexOk(infos, rbf) && Unreplaced(infos, c)
    ensures var o := info.role.original;
      IndexOk(infos[c := info], rbf[o := Candidates(rbf, o) + {c}])
  {
    var o := info.role.original;
    assert c in rbf[o := Candidates(rbf, o) + {c}][o];
  }

  lemma UpdateKeepsIndex(infos: Infos, rbf: map<Tx, set<Tx>>, t: Tx, info: Info)
    requires t in infos && IndexOk(infos, rbf)
    requires info.role.Replacement? == infos[t].role.Replacement?
    requires info.role.Replacement? ==> info.role.original == infos[t].role.original
    ensures IndexOk(infos[t := info], rbf)
  {
  }

  lemma RemoveLoneKeepsIndex(infos: Infos, rbf: map<Tx, set<Tx>>, t: Tx)
    requires t in infos && IndexOk(infos, rbf) && Unreplaced(infos, t)
    requires infos[t].role.Replacement? ==> infos[t].role.original !in infos
    ensures IndexOk(infos - {t}, rbf)
  {
    forall o | o in rbf ensures o in infos - {t} {
      var c :| c in rbf[o];
      assert infos[c].role.original == o;
    }
  }

  lemma RemoveFamilyKeepsIndex(infos: Infos, rbf: map<Tx, set<Tx>>, t: Tx)
    requires t in infos && IndexOk(infos, rbf) && FamiliesOk(infos)
    requires Root(t, infos[t]) in infos && infos[Root(t, infos[t])].role.Original?
    ensures IndexOk(infos - {t, Root(t, infos[t])}, rbf - {Root(t, infos[t])})
  {
    var root := Root(t, infos[t]);
    forall o | o in rbf - {root} ensures o in infos - {t, root} {
      var c :| c in rbf[o];
      assert infos[c].role.original == o;
    }
  }

  // ----- account indexes -----

  lemma InsertKeepsSignIds(infos: Infos, accounts: map<AccountId, Account>, t: Tx, info: Info)
    requires t !in infos && info.stage.PendingSign? && HaveAccounts(infos, accounts) && SignIdsOk(infos, accounts)
    ensures var after := AddSignId(accounts, info.account, t);
      HaveAccounts(infos[t := info], after) && SignIdsOk(infos[t := info], after)
  {
  }

  lemma InsertKeepsVerifyLists(infos: Infos, accounts: map<AccountId, Account>, t: Tx, info: Info)
    requires t !in infos && info.stage.PendingSign? && HaveAccounts(infos, accounts) && VerifyListsOk(infos, accounts)
    ensures var after := AddSignId(accounts, info.account, t);
      HaveAccounts(infos[t := info], after) && VerifyListsOk(infos[t := info], after)
  {
  }

  lemma InsertKeepsAccounts(infos: Infos, accounts: map<AccountId, Account>, t: Tx, info: Info)
    requires t !in infos && info.stage.PendingSign? && AccountsOk(infos, accounts)
    ensures AccountsOk(infos[t := info], AddSignId(accounts, info.account, t))
  {
    hide HaveAccounts, SignIdsOk, VerifyListsOk, AddSignId;
    InsertKeepsSignIds(infos, accounts, t, info);
    InsertKeepsVerifyLists(infos, accounts, t, info);
  }

  lemma UpdateKeepsAccounts(infos: Infos, accounts: map<AccountId, Account>, t: Tx, info: Info)
    requires t in infos && AccountsOk(infos, accounts)
    requires info.account == infos[t].account && info.stage.PendingSign? == infos[t].stage.PendingSign?
    requires info.role.Original? == infos[t].role.Original?
    ensures AccountsOk(infos[t := info], accounts)
  {
  }

  lemma SigningMovesAccounts(infos: Infos, accounts: map<AccountId, Account>, t: Tx, info: Info)
    requires t in infos && AccountsOk(infos, accounts) && infos[t].stage.PendingSign?
    requires info.account == infos[t].account && info.stage.PendingVerify? && info.role == infos[t].role
    ensures var account := accounts[info.account];
      AccountsOk(infos[t := info], accounts[info.account := Account(account.signIds - {t},
        if info.role.Original? then account.verifyList + {t} else account.verifyList)])
  {
  }

  lemma DropKeepsSignIds(infos: Infos, accounts: map<AccountId, Account>, t: Tx)
    requires t in infos && HaveAccounts(infos, accounts) && SignIdsOk(infos, accounts)
    ensures var after := DropIds(accounts, infos[t].account, t);
      HaveAccounts(infos - {t}, after) && SignIdsOk(infos - {t}, after)
  {
  }

  lemma DropKeepsVerifyLists(infos: Infos, accounts: map<AccountId, Account>, t: Tx)
    requires t in infos && HaveAccounts(infos, accounts) && VerifyListsOk(infos, accounts)
    ensures var after := DropIds(accounts, infos[t].account, t);
      HaveAccounts(infos - {t}, after) && VerifyListsOk(infos - {t}, after)
  {
  }

  lemma DropKeepsAccounts(infos: Infos, accounts: map<AccountId, Account>, t: Tx)
    requires t in infos && AccountsOk(infos, accounts)
    ensures AccountsOk(infos - {t}, DropIds(accounts, infos[t].account, t))
  {
    hide HaveAccounts, SignIdsOk, VerifyListsOk, DropIds;
    DropKeepsSignIds(infos, accounts, t);
    DropKeepsVerifyLists(infos, accounts, t);
  }

  /** Where a record can be in one list only, dropping it from that list is dropping it altogether. */
  lemma DropOneList(infos: Infos, accounts: map<AccountId, Account>, t: Tx)
    requires t in infos && AccountsOk(infos, accounts)
    ensures infos[t].role.Replacement? || infos[t].stage.PendingSign? ==>
      DropSignId(accounts, infos[t].account, t) == DropIds(accounts, infos[t].account, t)
    ensures !infos[t].stage.PendingSign? ==>
      DropVerifyId(accounts, infos[t].account, t) == DropIds(accounts, infos[t].account, t)
  {
    var a := infos[t].account;
    assert t !in accounts[a].verifyList ==> accounts[a].verifyList - {t} == accounts[a].verifyList;
    assert t !in accounts[a].signIds ==> accounts[a].signIds - {t} == accounts[a].signIds;
  }

  lemma RemoveFamilyKeepsAccounts(infos: Infos, accounts: map<AccountId, Account>, t: Tx)
    requires t in infos && AccountsOk(infos, accounts) && FamiliesOk(infos)
    requires Root(t, infos[t]) in infos && !infos[t].stage.PendingSign?
    ensures var root := Root(t, infos[t]);
      AccountsOk(infos - {t, root}, DropVerifyId(accounts, infos[t].account, root))
  {
    var root := Root(t, infos[t]);
    DropOneList(infos, accounts, root);
    DropKeepsAccounts(infos, accounts, root);
    var dropped := DropIds(accounts, infos[t].account, root);
    if t != root {
      assert (infos - {root}) - {t} == infos - {t, root};
      DropKeepsAccounts(infos - {root}, dropped, t);
      DropOneList(infos - {root}, dropped, t);
      assert t !in dropped[infos[t].account].verifyList && t !in dropped[infos[t].account].signIds;
      assert dropped[infos[t].account].signIds - {t} == dropped[infos[t].account].signIds;
      assert dropped[infos[t].account].verifyList - {t} == dropped[infos[t].account].verifyList;
      assert DropIds(dropped, infos[t].account, t) == dropped;
    } else {
      assert infos - {t, root} == infos - {root};
    }
  }

  /** An account's record may come into being empty. */
  lemma WithAccountKeepsAccounts(infos: Infos, accounts: map<AccountId, Account>, a: AccountId)
    requires AccountsOk(infos, accounts)
    ensures AccountsOk(infos, WithAccount(accounts, a))
  {
  }

  // ----- orphans -----

  lemma InsertKeepsOrphans(infos: Infos, consumed: map<OutPoint, Tx>, confirmed: map<Tx, nat>, t: Tx, info: Info)
    requires OrphansOk(infos, consumed, confirmed) && t !in infos
    requires info.role.Replacement? ==> info.role.original in infos
    ensures OrphansOk(infos[t := info], consumed, confirmed)
  {
  }

  lemma UpdateKeepsOrphans(infos: Infos, consumed: map<OutPoint, Tx>, confirmed: map<Tx, nat>, t: Tx, info: Info)
    requires OrphansOk(infos, consumed, confirmed) && t in infos
    requires info.role.Replacement? ==> info.role == infos[t].role
    ensures OrphansOk(infos[t := info], consumed, confirmed)
  {
  }

  lemma RemoveLoneKeepsOrphans(infos: Infos, consumed: map<OutPoint, Tx>, confirmed: map<Tx, nat>, t: Tx)
    requires OrphansOk(infos, consumed, confirmed) && t in infos && Unreplaced(infos, t)
    ensures OrphansOk(infos - {t}, consumed, confirmed)
  {
  }

  /** Settling t orphans its rivals, all of which lose their inputs to t. */
  lemma SettlingMakesOrphans(infos: Infos, past: Past, confirmed: map<Tx, nat>, t: Tx)
    requires OrphansOk(infos, past.consumed, confirmed) && FamiliesOk(infos) && InfosOk(infos)
    requires LiveOk(infos, past) && t in infos && !infos[t].purpose.Refund?
    requires t in confirmed && Root(t, infos[t]) in infos
    ensures OrphansOk(infos - {t, Root(t, infos[t])}, Consume(past.consumed, t), confirmed)
  {
    hide FamiliesOk, InfosOk, LiveOk;
    var rest := infos - {t, Root(t, infos[t])};
    LiveInputsUnspent(infos, past, t);
    forall c | c in rest && rest[c].role.Replacement? && rest[c].role.original !in rest
      ensures c.inputs != [] && c.inputs[0] in Consume(past.consumed, t)
           && Consume(past.consumed, t)[c.inputs[0]] != c && Consume(past.consumed, t)[c.inputs[0]] in confirmed
    {
      if infos[c].role.original in infos {
        RivalSharesInputs(infos, t, c);
        assert c.inputs[0] in t.inputs;
      } else {
        assert c.inputs[0] !in t.inputs;
      }
    }
  }

  lemma LiveInputsUnspent(infos: Infos, past: Past, t: Tx)
    requires LiveOk(infos, past) && t in infos && !infos[t].purpose.Refund? && Root(t, infos[t]) in infos
    ensures forall op :: op in t.inputs ==> op !in past.consumed
  {
  }

  lemma RivalSharesInputs(infos: Infos, t: Tx, c: Tx)
    requires t in infos && c in infos && FamiliesOk(infos) && InfosOk(infos)
    requires infos[c].role.Replacement? && Root(t, infos[t]) in infos
    requires infos[c].role.original in {t, Root(t, infos[t])}
    ensures c.inputs == t.inputs != []
  {
    assert InfoOk(c, infos[c]);
  }

  // ----- burns -----

  lemma InsertKeepsBurns(burns: map<nat, Burn>, infos: Infos, confirmed: map<Tx, nat>, t: Tx, info: Info)
    requires BurnsOk(burns, infos, confirmed) && t !in infos && !info.stage.PendingBurn?
    ensures BurnsOk(burns, infos[t := info], confirmed)
  {
  }

  lemma UpdateKeepsBurns(burns: map<nat, Burn>, infos: Infos, confirmed: map<Tx, nat>, t: Tx, info: Info)
    requires BurnsOk(burns, infos, confirmed) && t in infos
    requires info.stage.PendingBurn? == infos[t].stage.PendingBurn?
    requires info.purpose == infos[t].purpose && info.burnAmount == infos[t].burnAmount
    requires info.withdrawFee == infos[t].withdrawFee
    ensures BurnsOk(burns, infos[t := info], confirmed)
  {
  }

  lemma RemoveKeepsBurns(burns: map<nat, Burn>, infos: Infos, confirmed: map<Tx, nat>, t: Tx)
    requires BurnsOk(burns, infos, confirmed) && t in infos && !infos[t].stage.PendingBurn?
    ensures BurnsOk(burns, infos - {t}, confirmed)
  {
    forall s | s in infos - {t} && infos[s].stage.PendingBurn?
      ensures exists id :: id in burns && burns[id].tx == s
    {
      assert s in infos;
    }
  }

  /** A finished burn leaves with its family, in which no other burn is under way. */
  lemma FinishKeepsBurns(burns: map<nat, Burn>, infos: Infos, confirmed: map<Tx, nat>, id: nat, root: Tx)
    requires BurnsOk(burns, infos, confirmed) && id in burns
    requires forall j :: j in burns && burns[j].tx == root ==> j == id
    ensures BurnsOk(burns - {id}, infos - {burns[id].tx, root}, confirmed)
  {
    var rest := infos - {burns[id].tx, root};
    forall j | j in burns - {id} ensures BurnOk(burns[j], rest, confirmed) {
      assert BurnOk(burns[j], infos, confirmed);
    }
    forall s | s in rest && rest[s].stage.PendingBurn? ensures exists j :: j in burns - {id} && burns[j].tx == s {
      assert s in infos;
      var j :| j in burns && burns[j].tx == s;
      assert j in burns - {id};
    }
  }

  // ----- history of listings -----

  lemma InsertKeepsListed(infos: Infos, past: Past, t: Tx, info: Info, claimed: set<OutPoint>)
    requires ListedOk(infos, past) && t !in past.listed
    requires past.claimed <= claimed && InputsClaimed(t, claimed)
    ensures ListedOk(infos[t := info],
                     past.(claimed := claimed, listed := past.listed[t := Listing(info.purpose, info.account)]))
  {
  }

  lemma UpdateKeepsListed(infos: Infos, past: Past, t: Tx, info: Info)
    requires ListedOk(infos, past) && t in infos
    requires info.purpose == infos[t].purpose && info.account == infos[t].account
    ensures ListedOk(infos[t := info], past)
  {
  }

  lemma RemoveKeepsListed(infos: Infos, past: Past, t: Tx)
    requires ListedOk(infos, past) && t in infos && t.inputs[0] in past.consumed
    ensures ListedOk(infos - {t}, past)
  {
  }

  /** What the settlement of t adds to the history. */
  ghost predicate Settled(before: Past, t: Tx, after: Past) {
    after == before.(consumed := Consume(before.consumed, t), finalized := before.finalized + {t},
                     paidToSelf := after.paidToSelf)
  }

  lemma SettlingKeepsListed(infos: Infos, past: Past, t: Tx, root: Tx, after: Past)
    requires ListedOk(infos, past) && t in infos && root in infos && root.inputs == t.inputs
    requires Settled(past, t, after)
    ensures ListedOk(infos - {t, root}, after)
  {
    assert InputsClaimed(t, past.claimed);
    assert t.inputs[0] in InputSet(t);
    forall op | op in after.consumed ensures op in after.claimed {
      if op in InputSet(t) {
        var i :| 0 <= i < |t.inputs| && t.inputs[i] == op;
      }
    }
    forall s | s in after.listed && s !in infos - {t, root} ensures s.inputs[0] in after.consumed {
      assert InputsClaimed(s, past.claimed);
    }
  }

  // ----- families that can still be settled -----

  lemma InsertOriginalKeepsLive(infos: Infos, past: Past, t: Tx, info: Info)
    requires LiveOk(infos, past) && t !in infos && Unreplaced(infos, t) && IsSpendingOriginal(info)
    requires forall s :: s in infos ==> Disjoint(s, t)
    requires forall op :: op in t.inputs ==> op !in past.consumed && op !in past.refunded
    ensures LiveOk(infos[t := info], past)
  {
  }

  lemma InsertReplacementKeepsLive(infos: Infos, past: Past, c: Tx, info: Info)
    requires LiveOk(infos, past) && c !in infos && Unreplaced(infos, c)
    requires info.role.Replacement? && info.role.original in infos
    requires Related(c, info, info.role.original, infos[info.role.original])
    ensures LiveOk(infos[c := info], past)
  {
    var o := info.role.original;
    assert Root(o, infos[o]) == o;
  }

  lemma UpdateKeepsLive(infos: Infos, past: Past, t: Tx, info: Info)
    requires LiveOk(infos, past) && t in infos
    requires info.purpose == infos[t].purpose && Root(t, info) == Root(t, infos[t])
    requires info.role.Original? == infos[t].role.Original?
    ensures LiveOk(infos[t := info], past)
  {
  }

  lemma RemoveKeepsLive(infos: Infos, past: Past, t: Tx)
    requires LiveOk(infos, past) && t in infos
    ensures LiveOk(infos - {t}, past)
  {
  }

  lemma SettlingKeepsLive(infos: Infos, past: Past, t: Tx, after: Past)
    requires LiveOk(infos, past) && FamiliesOk(infos) && Settled(past, t, after)
    requires t in infos && Root(t, infos[t]) in infos && !infos[t].purpose.Refund?
    requires infos[Root(t, infos[t])].role.Original?
    ensures LiveOk(infos - {t, Root(t, infos[t])}, after)
  {
    var root := Root(t, infos[t]);
    var rest := infos - {t, root};
    forall s, op | s in rest && !rest[s].purpose.Refund? && Root(s, rest[s]) in rest && op in s.inputs
      ensures op !in Consume(past.consumed, t)
    {
      assert Root(s, rest[s]) != root;
    }
  }
}
