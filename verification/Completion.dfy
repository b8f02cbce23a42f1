/** What was begun can be completed: from every reachable state the remaining steps are enabled. */
module Completion {
  import opened Bitcoin
  import opened BridgeState
  import opened Effects
  import opened Steps
  import opened Invariants
  import opened SettleProofs
  import opened Runs
  import opened Safety
  import opened History

  lemma TxStepReaches(w: World, u: World, e: TxEvent)
    requires Reachable(w) && Reaches(w, u) && CanTx(u, e)
    ensures Reaches(w, DoTx(u, e)) && Reachable(DoTx(u, e))
  {
    hide Reachable, Reaches, CanTx, DoTx;
    ReachesFurther(w, u, OfTx(e));
    ReachableStays(w, DoTx(u, e));
  }

  lemma DepositStepReaches(w: World, u: World, e: DepositEvent)
    requires Reachable(w) && Reaches(w, u) && CanDeposit(u, e)
    ensures Reaches(w, DoDeposit(u, e)) && Reachable(DoDeposit(u, e))
  {
    hide Reachable, Reaches, CanDeposit, DoDeposit;
    ReachesFurther(w, u, OfDeposit(e));
    ReachableStays(w, DoDeposit(u, e));
  }

  lemma LedgerStepReaches(w: World, u: World, e: LedgerEvent)
    requires Reachable(w) && Reaches(w, u) && CanLedger(u, e)
    ensures Reaches(w, DoLedger(u, e)) && Reachable(DoLedger(u, e))
  {
    hide Reachable, Reaches, CanLedger, DoLedger;
    ReachesFurther(w, u, OfLedger(e));
    ReachableStays(w, DoLedger(u, e));
  }

  // ----- confirmed transactions -----

  lemma ConfirmedCanBeAskedAbout(w: World, t: Tx)
    requires Reachable(w) && t in w.book.infos && t in w.chain.confirmed && w.book.infos[t].stage.PendingVerify?
    requires w.cfg.tiers != map[]
    ensures CanAskSpend(w, t, 0)
  {
    hide Reachable, FeesOk, ReserveOk, InfosOk, FamiliesOk, IndexOk, AccountsOk, BurnsOk, RootsListed, LiveOk, MintsOk,
         AskedOk, PlacesOk, ListedOk, RefundsOk, Backed, Covered, ConfigOk, OrphansOk, ChainOk, ConsumersSpend;
    ReachableKeepsInv(w);
    StagesAreExact(w, t);
    ConfirmedHasItsOriginal(w, t);
  }

  lemma ConfirmedBelowTip(w: World, t: Tx)
    requires Reachable(w) && t in w.chain.confirmed
    ensures w.chain.confirmed[t] <= w.chain.tip
  {
    hide Reachable;
    ReachableKeepsInv(w);
  }

  lemma StartedBurn(w: World, t: Tx, purpose: Purpose, n: nat)
    requires CanStartBurn(w, t, purpose, n)
    ensures var id := FreshId(w.flight.burns); var v := StartBurn(w, t, purpose, n);
      id in v.flight.burns && v.flight.burns[id].tx == t && v.flight.burns[id].result.Waiting?
  {
  }

  lemma FinishedBurn(w: World, id: nat)
    requires CanFinishBurn(w, id)
    ensures FinishBurn(w, id).past.finalized == w.past.finalized + {w.flight.burns[id].tx}
  {
  }

  /** Deep enough below a later tip, a confirmed transaction is checked and its burn scheduled. */
  lemma ConfirmedCanStartBurn(w: World, t: Tx) returns (v: World)
    requires Reachable(w) && t in w.book.infos && t in w.chain.confirmed
    requires w.book.infos[t].stage.PendingVerify? && !w.book.infos[t].purpose.Refund? && w.cfg.tiers != map[]
    ensures Reaches(w, v) && Reachable(v)
    ensures exists id :: id in v.flight.burns && v.flight.burns[id].tx == t && v.flight.burns[id].result.Waiting?
  {
    hide Reachable, Reaches, StartBurn, SpendConfirmations;
    var purpose := w.book.infos[t].purpose;
    ReachesItself(w);
    ConfirmedCanBeAskedAbout(w, t);
    TxStepReaches(w, w, SpendQuestion(t, 0));
    var n := SpendConfirmations(w.cfg, w.book.infos[t], 0);
    var asked := AskSpend(w, t, 0);
    LedgerStepReaches(w, asked, TipAdvance(w.chain.tip + n));
    var buried := AdvanceTip(asked, w.chain.tip + n);
    ConfirmedBelowTip(w, t);
    TxStepReaches(w, buried, BurnStart(t, purpose, n));
    v := StartBurn(buried, t, purpose, n);
    StartedBurn(buried, t, purpose, n);
  }

  /** A burn the token has not answered can be done and settled. */
  lemma BurnCanBeSettled(w: World, u: World, id: nat) returns (v: World)
    requires Reachable(w) && Reaches(w, u) && Reachable(u)
    requires id in u.flight.burns && u.flight.burns[id].result.Waiting?
    ensures Reaches(w, v) && u.flight.burns[id].tx in v.past.finalized && u.flight.burns[id].tx !in v.book.infos
  {
    hide Reachable, Reaches, CanFinishBurn, FinishBurn, CanExecBurn;
    EveryPaymentIsPossible(u, id);
    TxStepReaches(w, u, BurnAnswer(id, true));
    var burned := ExecBurn(u, id, true);
    EveryCallbackIsPossible(burned, id);
    TxStepReaches(w, burned, BurnFinish(id));
    v := FinishBurn(burned, id);
    FinishedBurn(burned, id);
    FinalizedIsGone(v, u.flight.burns[id].tx);
  }

  /**
   * A withdrawal or management transaction that is waiting for verification and confirmed can always be settled:
   * once the tip is high enough, the check, the burn, and the callback are enabled one after the other, whatever
   * else is under way.
   */
  lemma ConfirmedCanBeSettled(w: World, t: Tx) returns (v: World)
    requires Reachable(w) && t in w.book.infos && t in w.chain.confirmed
    requires w.book.infos[t].stage.PendingVerify? && !w.book.infos[t].purpose.Refund? && w.cfg.tiers != map[]
    ensures Reaches(w, v) && t in v.past.finalized && t !in v.book.infos
  {
    hide Reachable, Reaches;
    var started := ConfirmedCanStartBurn(w, t);
    var id :| id in started.flight.burns && started.flight.burns[id].tx == t && started.flight.burns[id].result.Waiting?;
    v := BurnCanBeSettled(w, started, id);
  }

  // ----- signatures -----

  function Missing(signatures: seq<bool>): nat {
    if signatures == [] then 0 else (if signatures[0] then 0 else 1) + Missing(signatures[1..])
  }

  lemma {:induction false} SigningReducesMissing(signatures: seq<bool>, i: nat)
    requires i < |signatures| && !signatures[i]
    ensures Missing(signatures[i := true]) == Missing(signatures) - 1
  {
    if i == 0 {
      assert signatures[0 := true][1..] == signatures[1..];
    } else {
      SigningReducesMissing(signatures[1..], i - 1);
      assert signatures[i := true][1..] == signatures[1..][i - 1 := true];
    }
  }

  lemma SignOne(w: World, u: World, t: Tx, i: nat) returns (v: World)
    requires Reachable(w) && Reaches(w, u) && Reachable(u) && CanAskSignature(u, t, i)
    ensures Reaches(w, v) && Reachable(v) && t in v.book.infos && !IsOrphan(v, t)
    ensures v.book.infos[t].signatures == u.book.infos[t].signatures[i := true]
  {
    hide Reachable, Reaches;
    TxStepReaches(w, u, SignatureQuestion(t, i));
    var asked := AskSignature(u, t, i);
    AccountIndexIsExact(asked, asked.book.infos[t].account, t);
    TxStepReaches(w, asked, Signature(t, i, asked.book.infos[t].account));
    v := Sign(asked, t, i);
  }

  /** All that is pending, but for replacements whose original is gone, can be signed, input by input. */
  lemma SigningCanBeCompleted(w: World, u: World, t: Tx) returns (v: World)
    requires Reachable(w) && Reaches(w, u) && Reachable(u)
    requires t in u.book.infos && !IsOrphan(u, t)
    ensures Reaches(w, v) && t in v.book.infos && v.book.infos[t].signedBytes && !v.book.infos[t].stage.PendingSign?
    decreases Missing(u.book.infos[t].signatures)
  {
    hide Reachable, Reaches, IsOrphan;
    StagesAreExact(u, t);
    var signatures := u.book.infos[t].signatures;
    if AllSigned(signatures) {
      v := u;
    } else {
      var i: nat :| i < |signatures| && !signatures[i];
      var next := SignOne(w, u, t, i);
      SigningReducesMissing(signatures, i);
      v := SigningCanBeCompleted(w, next, t);
    }
  }

  // ----- deposits -----

  /** A deposit that is deep enough and not marked can always be minted and registered as a coin. */
  lemma DepositCanBeRegistered(w: World, d: DepositClaim) returns (v: World)
    requires Reachable(w) && CanAskDeposit(w, d) && d.op.tx in w.chain.confirmed && d.op !in w.coins.verified
    requires EnoughConfirmations(w, w.chain.confirmed[d.op.tx], ValueOf(d.op), d.delta)
    ensures Reaches(w, v) && d.op in v.coins.utxos && d.op in v.past.deposited
    ensures v.token.supply == w.token.supply + d.mintAmount + d.protocolFee + d.relayerFee
  {
    hide Reachable, Reaches, EnoughConfirmations;
    ReachesItself(w);
    DepositStepReaches(w, w, DepositQuestion(d));
    var asked := Ask(w, DepositCheck(d));
    assert CanAcceptDeposit(asked, d) by {
      AskingChangesNothingElse(w, d);
    }
    DepositStepReaches(w, asked, DepositAcceptance(d));
    var accepted, id := AcceptDeposit(asked, d), FreshId(asked.flight.mints);
    var kept := if d.safe then 0 else d.protocolFee;
    DepositStepReaches(w, accepted, MintAnswer(id, Minted, kept));
    var minted := ExecMint(accepted, id, Minted, kept);
    EveryCallbackIsPossible(minted, id);
    DepositStepReaches(w, minted, MintFinish(id));
    v := FinishMint(minted, id);
  }

  lemma AskingChangesNothingElse(w: World, d: DepositClaim)
    requires d.op.tx in w.chain.confirmed && Exists(d.op)
    ensures var v := Ask(w, DepositCheck(d));
      EnoughConfirmations(w, w.chain.confirmed[d.op.tx], ValueOf(d.op), d.delta) ==>
        EnoughConfirmations(v, v.chain.confirmed[d.op.tx], ValueOf(d.op), d.delta)
  {
  }
}
