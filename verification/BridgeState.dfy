/**
 * The state of the bridge contract and of its surroundings: the nBTC token, promises under way, the
 * Bitcoin chain, and a history kept for the proofs.
 */
module BridgeState {
  import opened Wrappers
  import opened Sums
  import opened Bitcoin
  import opened BlockAmounts
  import opened Configuration

  type AccountId = nat

  // ----- what the contract stores -----

  datatype Stage = PendingSign | PendingVerify | PendingBurn

  datatype Purpose = Withdraw | ActiveManagement | Refund

  /** An original transaction, or a replacement (RBF) of one. */
  datatype Role =
    | Original(maxGasFee: nat, cancelReserved: Option<nat>)
    | Replacement(original: Tx, cancel: bool)

  /** A pending transaction; its id is the transaction, so the PSBT is the key it is stored under. */
  datatype Info = Info(
    account: AccountId,
    purpose: Purpose,
    role: Role,
    stage: Stage,
    transferAmount: nat,
    received: nat,
    withdrawFee: nat,
    gasFee: nat,
    burnAmount: nat,
    coins: seq<nat>,
    signatures: seq<bool>,
    signedBytes: bool,
    createTime: nat)

  datatype Account = Account(signIds: set<Tx>, verifyList: set<Tx>)

  datatype RefundRequest = RefundRequest(
    amount: nat,
    script: Script,
    gasFee: nat,
    createdAt: nat,
    authorized: Option<Script>,
    executed: bool)

  datatype Coins = Coins(
    utxos: map<OutPoint, nat>,
    inProgress: map<OutPoint, nat>,
    verified: set<OutPoint>,
    refunds: map<OutPoint, RefundRequest>)

  datatype Book = Book(
    infos: map<Tx, Info>,
    rbf: map<Tx, set<Tx>>,
    accounts: map<AccountId, Account>,
    limits: map<AccountId, nat>)

  datatype Fees = Fees(collected: nat, available: nat, claimed: nat, reserved: nat, spentOnGas: nat)

  // ----- promises under way -----

  datatype Result = Waiting | Failed | Succeeded

  /** How the token contract answered a mint; MintedUnused is a safe mint of which the recipient used nothing. */
  datatype MintResult = MintWaiting | NothingMinted | Minted | MintedUnused

  datatype Mint = Mint(
    op: OutPoint,
    value: nat,
    recipient: AccountId,
    mintAmount: nat,
    protocolFee: nat,
    relayerFee: nat,
    safe: bool,
    height: nat,
    result: MintResult)

  datatype Burn = Burn(
    tx: Tx,
    purpose: Purpose,
    amount: nat,
    protocolFee: nat,
    relayerFee: nat,
    result: Result)

  /** A transfer of nBTC out of the bridge: to a user, or of claimed protocol fee. */
  datatype Transfer = Transfer(to: Option<AccountId>, amount: nat, result: Result)

  datatype DepositClaim = DepositClaim(
    op: OutPoint,
    txIndex: nat,
    recipient: AccountId,
    mintAmount: nat,
    protocolFee: nat,
    relayerFee: nat,
    safe: bool,
    delta: nat)

  /** `authorized` is the refund address that the deposit message itself names, if any. */
  datatype RefundClaim = RefundClaim(op: OutPoint, script: Script, gasFee: Option<nat>, authorized: Option<Script>)

  /** Questions put to the light client or the signer; an answer may arrive at any later moment. */
  datatype Question =
    | SpendCheck(tx: Tx, purpose: Purpose, confirmations: nat)
    | SignatureOf(tx: Tx, index: nat, account: AccountId)
    | DepositCheck(deposit: DepositClaim)
    | RefundCheck(refund: RefundClaim)

  datatype Flight = Flight(
    mints: map<nat, Mint>,
    burns: map<nat, Burn>,
    transfers: map<nat, Transfer>,
    safeBurns: map<nat, nat>,
    asked: set<Question>)

  // ----- token, chain and history -----

  /** nBTC supply and the bridge's own balance. */
  datatype Token = Token(supply: nat, balance: nat)

  /** Confirmed transactions with the height of their block, and the height of the tip. */
  datatype Chain = Chain(confirmed: map<Tx, nat>, tip: nat)

  datatype Deposit = Deposit(height: nat, value: nat)

  datatype Listing = Listing(purpose: Purpose, account: AccountId)

  datatype Past = Past(
    claimed: set<OutPoint>,            // outputs ever put into a pending transaction
    refunded: set<OutPoint>,           // those of them claimed by a refund
    deposited: set<OutPoint>,          // deposits ever registered as coins
    listed: map<Tx, Listing>,  // transactions ever pending
    consumed: map<OutPoint, Tx>,       // inputs of finalized transactions
    finalized: set<Tx>,
    accepted: map<OutPoint, Deposit>,  // deposits counted for their block and not reverted
    paidToSelf: nat,                   // withdrawal payments that came back as change
    unminted: nat,                     // coins registered although the token minted nothing
    destroyed: nat,                    // nBTC its holders destroyed outside the bridge
    donated: nat)                      // nBTC sent to the bridge outright, or left with it by a safe mint

  datatype World = World(
    cfg: Config,
    ring: Cells,
    coins: Coins,
    book: Book,
    fees: Fees,
    lostFound: map<AccountId, nat>,
    token: Token,
    flight: Flight,
    chain: Chain,
    past: Past)

  // ----- readers -----

  function SignIds(accounts: map<AccountId, Account>, a: AccountId): set<Tx> {
    if a in accounts then accounts[a].signIds else {}
  }

  function VerifyList(accounts: map<AccountId, Account>, a: AccountId): set<Tx> {
    if a in accounts then accounts[a].verifyList else {}
  }

  function LimitOf(limits: map<AccountId, nat>, a: AccountId): nat {
    if a in limits then limits[a] else 1
  }

  /** The original of a transaction's family: itself, or what it replaces. */
  function Root(t: Tx, info: Info): Tx {
    if info.role.Replacement? then info.role.original else t
  }

  function AllSigned(signatures: seq<bool>): bool {
    forall i :: 0 <= i < |signatures| ==> signatures[i]
  }

  /** Protocol fee set aside: the gas of active management, or the excess gas of a cancelled withdrawal. */
  function ReserveOf(info: Info): nat {
    match info.role
    case Original(maxGasFee, cancelReserved) =>
      if info.purpose.ActiveManagement? then maxGasFee
      else if info.purpose.Withdraw? && cancelReserved.Some? then cancelReserved.value
      else 0
    case Replacement(_, _) => 0
  }

  /** nBTC handed over for a pending withdrawal. */
  function DueOf(info: Info): nat {
    if info.role.Original? && info.purpose.Withdraw? then info.transferAmount else 0
  }

  /** Satoshis bound in a pending withdrawal or management transaction, counted once a family. */
  function LockedOf(info: Info): nat {
    if info.role.Original? && !info.purpose.Refund? then SumSeq(info.coins) else 0
  }

  function Excess(gas: nat, transferAmount: nat, withdrawFee: nat): nat {
    SaturatingSub(gas, SaturatingSub(transferAmount, withdrawFee))
  }

  function InputSet(t: Tx): set<OutPoint> {
    set op | op in t.inputs
  }

  /** An identifier no promise under way has. */
  ghost function FreshId<V>(m: map<nat, V>): (id: nat)
    ensures id !in m
  {
    var bound := AboveAll(m.Keys);
    assert bound !in m.Keys;
    var id: nat :| id !in m;
    id
  }

  ghost function AboveAll(s: set<nat>): (n: nat)
    ensures forall k :: k in s ==> k < n
  {
    if s == {} then 0
    else
      var k :| k in s;
      var n := AboveAll(s - {k});
      assert forall j :: j in s ==> j == k || j in s - {k};
      if n > k then n else k + 1
  }
}
