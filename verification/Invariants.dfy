/** What holds in every reachable state of the bridge. */
module Invariants {
  import opened Wrappers
  import opened Sums
  import opened Bitcoin
  import opened BlockAmounts
  import opened Configuration
  import opened BridgeState
  import opened Effects

  // ----- fee ledger -----

  /** Claimed fee that may still come back. */
  function FeeClaim(x: Transfer): nat {
    if x.to.None? && !x.result.Succeeded? then x.amount else 0
  }

  ghost predicate FeesOk(f: Fees, transfers: map<nat, Transfer>) {
    && f.collected == f.available + f.claimed + f.reserved + f.spentOnGas
    && SumBy(transfers, FeeClaim) <= f.claimed
  }

  /** The reserve is exactly what the pending originals set aside. */
  ghost predicate ReserveOk(reserved: nat, infos: map<Tx, Info>) {
    reserved == SumBy(infos, ReserveOf)
  }

  // ----- one pending transaction -----

  ghost predicate InputsOk(t: Tx, coins: seq<nat>) {
    && t.inputs != []
    && Distinct(t.inputs)
    && |coins| == |t.inputs|
    && forall i :: 0 <= i < |coins| ==> BridgeOwned(t.inputs[i]) && coins[i] == ValueOf(t.inputs[i])
  }

  ghost predicate StageOk(i: Info) {
    && (i.signedBytes <==> AllSigned(i.signatures))
    && (i.stage.PendingSign? <==> !i.signedBytes)
    && (i.purpose.Refund? ==> !i.stage.PendingBurn?)
  }

  ghost predicate AmountsOk(t: Tx, i: Info) {
    match i.purpose
    case Withdraw =>
      && i.withdrawFee <= i.transferAmount
      && (if IsCancelledWithdrawal(i) then i.burnAmount == i.gasFee else i.burnAmount + i.withdrawFee == i.transferAmount)
      && SumSeq(i.coins) <= i.burnAmount + PaidTo(t.outputs, ChangeScript)
    case ActiveManagement =>
      && i.burnAmount == i.gasFee
      && (i.role.Original? ==> i.burnAmount <= i.role.maxGasFee && i.role.cancelReserved in {None, Some(0)})
      && SumSeq(i.coins) <= i.burnAmount + PaidTo(t.outputs, ChangeScript)
    case Refund =>
      i.role.Original? && |t.inputs| == 1
  }

  /** A replacement spends what its original spends. */
  ghost predicate InfoOk(t: Tx, i: Info) {
    && InputsOk(t, i.coins) && |i.signatures| == |t.inputs| && StageOk(i) && AmountsOk(t, i)
    && (i.role.Original? ==> i.gasFee <= i.role.maxGasFee)
    && (i.role.Replacement? ==> t.inputs == i.role.original.inputs)
  }

  ghost predicate InfosOk(infos: map<Tx, Info>) {
    forall t :: t in infos ==> InfoOk(t, infos[t])
  }

  // ----- families of replacements -----

  /** A replacement and its pending original. */
  ghost predicate Related(c: Tx, i: Info, o: Tx, original: Info) {
    && c != o
    && original.role.Original?
    && !original.stage.PendingSign?
    && c.inputs == o.inputs
    && i.purpose == original.purpose
    && i.account == original.account
    && i.transferAmount == original.transferAmount
    && i.withdrawFee == original.withdrawFee
    && i.coins == original.coins
    && i.gasFee <= original.role.maxGasFee
    && (i.purpose.ActiveManagement? ==> i.burnAmount <= original.role.maxGasFee)
    && (IsCancelledWithdrawal(i) ==>
          && original.role.cancelReserved.Some?
          && Excess(i.burnAmount, i.transferAmount, i.withdrawFee) <= original.role.cancelReserved.value)
  }

  ghost predicate FamiliesOk(infos: map<Tx, Info>) {
    forall c :: c in infos && infos[c].role.Replacement? && infos[c].role.original in infos ==>
      Related(c, infos[c], infos[c].role.original, infos[infos[c].role.original])
  }

  /** c is listed under o exactly when c is a pending replacement of the pending original o. */
  ghost predicate IndexOk(infos: map<Tx, Info>, rbf: map<Tx, set<Tx>>) {
    && (forall o :: o in rbf ==> o in infos && rbf[o] != {})
    && (forall o, c :: o in rbf && c in rbf[o] ==> c in infos && infos[c].role.Replacement? && infos[c].role.original == o)
    && (forall c :: c in infos && infos[c].role.Replacement? && infos[c].role.original in infos ==>
          infos[c].role.original in rbf && c in rbf[infos[c].role.original])
  }

  /** An orphan lost its inputs to another confirmed transaction. */
  ghost predicate OrphansOk(infos: map<Tx, Info>, consumed: map<OutPoint, Tx>, confirmed: map<Tx, nat>) {
    forall c :: c in infos && infos[c].role.Replacement? && infos[c].role.original !in infos ==>
      c.inputs != [] && c.inputs[0] in consumed && consumed[c.inputs[0]] != c && consumed[c.inputs[0]] in confirmed
  }

  // ----- account indexes -----

  ghost predicate HaveAccounts(infos: map<Tx, Info>, accounts: map<AccountId, Account>) {
    forall t :: t in infos ==> infos[t].account in accounts
  }

  ghost predicate SignIdsOk(infos: map<Tx, Info>, accounts: map<AccountId, Account>)
    requires HaveAccounts(infos, accounts)
  {
    && (forall a, t :: a in accounts && t in accounts[a].signIds ==>
          t in infos && infos[t].account == a && infos[t].stage.PendingSign?)
    && (forall t :: t in infos && infos[t].stage.PendingSign? ==> t in accounts[infos[t].account].signIds)
  }

  ghost predicate VerifyListsOk(infos: map<Tx, Info>, accounts: map<AccountId, Account>)
    requires HaveAccounts(infos, accounts)
  {
    && (forall a, t :: a in accounts && t in accounts[a].verifyList ==>
          t in infos && infos[t].account == a && !infos[t].stage.PendingSign? && infos[t].role.Original?)
    && (forall t :: t in infos && !infos[t].stage.PendingSign? && infos[t].role.Original? ==>
          t in accounts[infos[t].account].verifyList)
  }

  ghost predicate AccountsOk(infos: map<Tx, Info>, accounts: map<AccountId, Account>) {
    HaveAccounts(infos, accounts) && SignIdsOk(infos, accounts) && VerifyListsOk(infos, accounts)
  }

  // ----- burns under way -----

  ghost predicate BurnOk(b: Burn, infos: map<Tx, Info>, confirmed: map<Tx, nat>) {
    && b.tx in infos
    && b.tx in confirmed
    && infos[b.tx].stage.PendingBurn?
    && infos[b.tx].purpose == b.purpose
    && infos[b.tx].burnAmount == b.amount
    && b.protocolFee + b.relayerFee == (if b.purpose.Withdraw? then infos[b.tx].withdrawFee else 0)
  }

  ghost predicate BurnsOk(burns: map<nat, Burn>, infos: map<Tx, Info>, confirmed: map<Tx, nat>) {
    && (forall id :: id in burns ==> BurnOk(burns[id], infos, confirmed))
    && (forall i, j :: i in burns && j in burns && burns[i].tx == burns[j].tx ==> i == j)
    && (forall t :: t in infos && infos[t].stage.PendingBurn? ==> exists id :: id in burns && burns[id].tx == t)
  }

  // ----- where every output is -----

  /** An output the contract has a right to: change of a finalized transaction, or a verified deposit. */
  ghost predicate Registered(op: OutPoint, verified: set<OutPoint>, finalized: set<Tx>) {
    && Exists(op)
    && match ScriptOf(op)
       case ChangeScript => op.tx in finalized
       case DepositScript(_) => op in verified
       case ForeignScript(_) => false
  }

  ghost predicate PlacesOk(coins: Coins, past: Past) {
    && (forall op :: op in coins.utxos ==>
          && Registered(op, coins.verified, past.finalized)
          && coins.utxos[op] == ValueOf(op)
          && op !in coins.inProgress
          && op !in past.claimed)
    && (forall op :: op in coins.inProgress ==>
          && Exists(op)
          && ScriptOf(op).DepositScript?
          && coins.inProgress[op] == ValueOf(op)
          && op in coins.verified
          && op !in past.claimed)
    && (forall op :: op in past.claimed ==> Registered(op, coins.verified, past.finalized))
  }

  ghost predicate InputsClaimed(t: Tx, claimed: set<OutPoint>) {
    t.inputs != [] && forall i :: 0 <= i < |t.inputs| ==> t.inputs[i] in claimed
  }

  /** What a pending transaction replaces was itself pending once. */
  ghost predicate RootsListed(infos: map<Tx, Info>, listed: map<Tx, Listing>) {
    forall t :: t in infos && infos[t].role.Replacement? ==> infos[t].role.original in listed
  }

  ghost predicate ListedOk(infos: map<Tx, Info>, past: Past) {
    && (forall t :: t in infos ==> t in past.listed && past.listed[t] == Listing(infos[t].purpose, infos[t].account))
    && (forall t :: t in past.listed ==> InputsClaimed(t, past.claimed))
    && (forall t :: t in past.listed && t !in infos ==> t.inputs[0] in past.consumed)
    && (forall t :: t in past.finalized ==> t in past.listed && t !in infos)
    && (forall op :: op in past.consumed ==> op in past.claimed)
  }

  /** What is recorded as the spender of an output does spend it. */
  ghost predicate ConsumersSpend(past: Past) {
    forall op :: op in past.consumed ==> op in past.consumed[op].inputs
  }

  /** An original that spends coins, as opposed to refunding a deposit. */
  predicate IsSpendingOriginal(i: Info) {
    i.role.Original? && !i.purpose.Refund?
  }

  /** Inputs of families that can still be settled are unspent; families, lost or not, share no inputs. */
  ghost predicate LiveOk(infos: map<Tx, Info>, past: Past) {
    && (forall t, op :: t in infos && !infos[t].purpose.Refund? && Root(t, infos[t]) in infos && op in t.inputs ==>
          op !in past.consumed)
    && (forall s, t, op :: (s in infos && t in infos && op in s.inputs && op in t.inputs
                              && !infos[s].purpose.Refund? && !infos[t].purpose.Refund?)
          ==> Root(s, infos[s]) == Root(t, infos[t]))
    && (forall t, op :: t in infos && op in t.inputs ==> (infos[t].purpose.Refund? <==> op in past.refunded))
  }

  // ----- refunds and deposits -----

  ghost predicate RefundsOk(coins: Coins, past: Past) {
    && (forall k :: k in coins.refunds ==>
          && Exists(k) && ScriptOf(k).DepositScript? && coins.refunds[k].amount == ValueOf(k)
          && (coins.refunds[k].authorized.Some? ==> coins.refunds[k].authorized.value == coins.refunds[k].script))
    && (forall k :: k in coins.refunds && coins.refunds[k].executed ==> k in past.refunded && k !in past.consumed)
    && (forall k :: k in past.refunded ==>
          && k in past.claimed
          && k in coins.verified
          && (k in past.consumed || (k in coins.refunds && coins.refunds[k].executed)))
    && (forall k :: k in past.deposited ==> k in coins.verified && k !in past.refunded && k !in coins.inProgress)
  }

  ghost predicate MintOk(m: Mint, coins: Coins, past: Past) {
    && m.op in coins.inProgress
    && coins.inProgress[m.op] == m.value
    && m.mintAmount + m.protocolFee + m.relayerFee == m.value
    && (m.safe ==> m.protocolFee == 0 && m.relayerFee == 0)
    && (!m.safe ==> !m.result.MintedUnused?)
    && m.op in past.accepted
    && past.accepted[m.op] == Deposit(m.height, m.value)
  }

  /** Every deposit in progress has its own mint under way. */
  ghost predicate MintsMatch(mints: map<nat, Mint>, inProgress: map<OutPoint, nat>) {
    && (forall i, j :: i in mints && j in mints && mints[i].op == mints[j].op ==> i == j)
    && (forall op :: op in inProgress ==> exists id :: id in mints && mints[id].op == op)
  }

  ghost predicate MintsOk(mints: map<nat, Mint>, coins: Coins, past: Past) {
    MintsMatch(mints, coins.inProgress) && forall id :: id in mints ==> MintOk(mints[id], coins, past)
  }

  // ----- chain and questions -----

  ghost predicate ChainOk(chain: Chain, past: Past) {
    && (forall s, t :: s in chain.confirmed && t in chain.confirmed && s != t ==> Disjoint(s, t))
    && (forall t, op :: t in chain.confirmed && op in t.inputs && BridgeOwned(op) ==> t in past.listed)
    && (forall t :: t in past.finalized ==> t in chain.confirmed)
    && (forall t :: t in chain.confirmed ==> chain.confirmed[t] <= chain.tip)
  }

  ghost predicate QuestionOk(q: Question, listed: map<Tx, Listing>) {
    match q
    case SpendCheck(t, purpose, _) => t in listed && listed[t].purpose == purpose
    case SignatureOf(t, _, account) => t in listed && listed[t].account == account
    case DepositCheck(d) =>
      && Exists(d.op)
      && ScriptOf(d.op).DepositScript?
      && 0 < ValueOf(d.op)
      && d.mintAmount + d.protocolFee + d.relayerFee == ValueOf(d.op)
      && (d.safe ==> d.protocolFee == 0 && d.relayerFee == 0)
    case RefundCheck(r) => Exists(r.op) && (r.authorized.Some? ==> r.authorized.value == r.script)
  }

  ghost predicate AskedOk(asked: set<Question>, listed: map<Tx, Listing>) {
    forall q :: q in asked ==> QuestionOk(q, listed)
  }

  // ----- sums -----

  function Itself(n: nat): nat { n }

  /** A coin in progress for which the token has minted nothing yet. */
  function NotMinted(m: Mint): nat {
    if m.result.MintWaiting? || m.result.NothingMinted? then m.value else 0
  }

  function BurnDone(b: Burn): nat {
    if b.result.Succeeded? then b.amount else 0
  }

  /** What a settled burn took out of the bridge's balance. */
  function GoneOf(b: Burn): nat {
    if b.result.Succeeded? then b.amount + b.relayerFee else 0
  }

  /** What a mint left with the bridge and its callback will dispose of. */
  function HeldOf(m: Mint): nat {
    match m.result
    case Minted => m.protocolFee
    case MintedUnused => m.mintAmount
    case _ => 0
  }

  function OwedOf(x: Transfer): nat {
    if x.result.Succeeded? then 0 else x.amount
  }

  /** Satoshis under the contract's control: coins, deposits in progress, and pending transactions. */
  ghost function Sats(coins: Coins, infos: map<Tx, Info>): nat {
    SumBy(coins.utxos, Itself) + SumBy(coins.inProgress, Itself) + SumBy(infos, LockedOf)
  }

  /**
   * Every satoshi under control is matched by an nBTC, except for what is listed: burns done but not
   * settled, deposits not minted yet, and the three recorded surpluses. Burns of unused mints are still due.
   */
  ghost predicate Backed(w: World) {
    Sats(w.coins, w.book.infos) + SumBy(w.flight.safeBurns, Itself)
    == w.token.supply + SumBy(w.flight.burns, BurnDone) + SumBy(w.flight.mints, NotMinted)
       + w.past.paidToSelf + w.past.unminted + w.past.destroyed
  }

  ghost function Obligations(w: World): nat {
    w.fees.available + w.fees.reserved + SumBy(w.book.infos, DueOf) + SumBy(w.lostFound, Itself)
    + SumBy(w.flight.transfers, OwedOf) + SumBy(w.flight.safeBurns, Itself) + SumBy(w.flight.mints, HeldOf)
  }

  /** The bridge's own balance is exactly what it owes and what it was given, but for burns not settled yet. */
  ghost predicate Covered(w: World) {
    && w.token.balance <= w.token.supply
    && Obligations(w) + w.past.donated == w.token.balance + SumBy(w.flight.burns, GoneOf)
  }

  // ----- all together -----

  ghost predicate ConfigOk(w: World) {
    ValidConfig(w.cfg) && |w.ring| == CapacityFor(w.cfg)
  }

  ghost predicate Inv(w: World) {
    && ConfigOk(w)
    && FeesOk(w.fees, w.flight.transfers)
    && ReserveOk(w.fees.reserved, w.book.infos)
    && InfosOk(w.book.infos)
    && FamiliesOk(w.book.infos)
    && IndexOk(w.book.infos, w.book.rbf)
    && OrphansOk(w.book.infos, w.past.consumed, w.chain.confirmed)
    && AccountsOk(w.book.infos, w.book.accounts)
    && BurnsOk(w.flight.burns, w.book.infos, w.chain.confirmed)
    && PlacesOk(w.coins, w.past)
    && ListedOk(w.book.infos, w.past)
    && RootsListed(w.book.infos, w.past.listed)
    && LiveOk(w.book.infos, w.past)
    && ConsumersSpend(w.past)
    && RefundsOk(w.coins, w.past)
    && MintsOk(w.flight.mints, w.coins, w.past)
    && ChainOk(w.chain, w.past)
    && AskedOk(w.flight.asked, w.past.listed)
    && Backed(w)
    && Covered(w)
  }

  /** A freshly deployed bridge next to a token and a chain of any history without it. */
  ghost predicate Init(w: World) {
    && ConfigOk(w)
    && w.ring == EmptyCells(CapacityFor(w.cfg))
    && w.coins == Coins(map[], map[], {}, map[])
    && w.book.infos == map[] && w.book.rbf == map[] && w.book.limits == map[]
    && (forall a :: a in w.book.accounts ==> w.book.accounts[a] == Account({}, {}))
    && w.fees == Fees(0, 0, 0, 0, 0)
    && w.lostFound == map[]
    && w.token == Token(0, 0)
    && w.flight == Flight(map[], map[], map[], map[], {})
    && ChainOk(w.chain, w.past)
    && w.past == Past({}, {}, {}, map[], map[], {}, map[], 0, 0, 0, 0)
  }

  lemma InitSums(w: World)
    requires Init(w)
    ensures ConfigOk(w) && FeesOk(w.fees, w.flight.transfers) && ReserveOk(w.fees.reserved, w.book.infos)
    ensures Backed(w) && Covered(w)
  {
  }

  lemma InitPlaces(w: World)
    requires Init(w)
    ensures PlacesOk(w.coins, w.past) && RefundsOk(w.coins, w.past) && ChainOk(w.chain, w.past) && ConsumersSpend(w.past)
  {
  }

  lemma InitFlight(w: World)
    requires Init(w)
    ensures BurnsOk(w.flight.burns, w.book.infos, w.chain.confirmed)
    ensures MintsOk(w.flight.mints, w.coins, w.past) && AskedOk(w.flight.asked, w.past.listed)
  {
  }

  lemma InitBook(w: World)
    requires Init(w)
    ensures InfosOk(w.book.infos) && FamiliesOk(w.book.infos) && IndexOk(w.book.infos, w.book.rbf)
    ensures OrphansOk(w.book.infos, w.past.consumed, w.chain.confirmed) && AccountsOk(w.book.infos, w.book.accounts)
    ensures ListedOk(w.book.infos, w.past) && RootsListed(w.book.infos, w.past.listed) && LiveOk(w.book.infos, w.past)
  {
  }

  /** The invariant holds at the start, one group of its parts at a time. */
  lemma InitHolds(w: World)
    requires Init(w)
    ensures Inv(w)
  {
    hide Init, ConfigOk, FeesOk, ReserveOk, InfosOk, FamiliesOk, IndexOk, OrphansOk, AccountsOk, BurnsOk, PlacesOk,
         ListedOk, RootsListed, LiveOk, ConsumersSpend, RefundsOk, MintsOk, ChainOk, AskedOk, Backed, Covered;
    InitSums(w);
    InitPlaces(w);
    InitFlight(w);
    InitBook(w);
  }
}
