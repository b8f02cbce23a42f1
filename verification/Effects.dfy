/** The few ways in which the contract's steps change the pending transactions and their coins. */
module Effects {
  import opened Wrappers
  import opened Sums
  import opened Bitcoin
  import opened BlockAmounts
  import opened BridgeState

  // ----- coins -----

  /** The inputs can be taken out one after the other: all present, none twice. */
  predicate CanTake(utxos: map<OutPoint, nat>, inputs: seq<OutPoint>) {
    Distinct(inputs) && forall i :: 0 <= i < |inputs| ==> inputs[i] in utxos
  }

  function Taken(utxos: map<OutPoint, nat>, inputs: seq<OutPoint>): (r: seq<nat>)
    requires forall i :: 0 <= i < |inputs| ==> inputs[i] in utxos
    ensures |r| == |inputs|
  {
    seq(|inputs|, i requires 0 <= i < |inputs| => utxos[inputs[i]])
  }

  /** The coins with the first n outputs of t that pay the change address registered. */
  function WithChange(utxos: map<OutPoint, nat>, t: Tx, n: nat): map<OutPoint, nat>
    requires n <= |t.outputs|
  {
    if n == 0 then utxos
    else
      var before := WithChange(utxos, t, n - 1);
      if t.outputs[n - 1].script == ChangeScript then before[OutPoint(t, n - 1) := t.outputs[n - 1].value]
      else before
  }

  // ----- accounts -----

  function AddSignId(accounts: map<AccountId, Account>, a: AccountId, t: Tx): map<AccountId, Account> {
    accounts[a := Account(SignIds(accounts, a) + {t}, VerifyList(accounts, a))]
  }

  function DropIds(accounts: map<AccountId, Account>, a: AccountId, t: Tx): map<AccountId, Account> {
    if a in accounts then accounts[a := Account(accounts[a].signIds - {t}, accounts[a].verifyList - {t})]
    else accounts
  }

  function DropSignId(accounts: map<AccountId, Account>, a: AccountId, t: Tx): map<AccountId, Account> {
    if a in accounts then accounts[a := accounts[a].(signIds := accounts[a].signIds - {t})] else accounts
  }

  function DropVerifyId(accounts: map<AccountId, Account>, a: AccountId, t: Tx): map<AccountId, Account> {
    if a in accounts then accounts[a := accounts[a].(verifyList := accounts[a].verifyList - {t})] else accounts
  }

  /** The account record, created empty when missing. */
  function WithAccount(accounts: map<AccountId, Account>, a: AccountId): map<AccountId, Account> {
    if a in accounts then accounts else accounts[a := Account({}, {})]
  }

  predicate HasSignCapacity(book: Book, a: AccountId) {
    |SignIds(book.accounts, a)| < LimitOf(book.limits, a)
  }

  // ----- fees -----

  function ShiftToReserve(f: Fees, amount: nat): Fees
    requires amount <= f.available
  {
    f.(available := f.available - amount, reserved := f.reserved + amount)
  }

  function Collect(f: Fees, amount: nat): Fees {
    f.(collected := f.collected + amount, available := f.available + amount)
  }

  /** Releases a reserve of which `used` went to gas. */
  function Release(f: Fees, reserve: nat, used: nat): Fees
    requires used <= reserve <= f.reserved
  {
    f.(reserved := f.reserved - reserve, spentOnGas := f.spentOnGas + used, available := f.available + (reserve - used))
  }

  // ----- pending transactions -----

  function Unsigned(n: nat): seq<bool> {
    seq(n, _ => false)
  }

  predicate CanAddOriginal(w: World, t: Tx, info: Info, shift: nat) {
    && t.inputs != []
    && t.outputs != []
    && CanTake(w.coins.utxos, t.inputs)
    && HasSignCapacity(w.book, info.account)
    && shift <= w.fees.available
    && t !in w.book.infos
  }

  /** A new pending transaction takes its inputs out of the coins; its transfer arrives with it. */
  ghost function AddOriginal(w: World, t: Tx, info: Info, shift: nat): World
    requires CanAddOriginal(w, t, info, shift)
  {
    w.(coins := w.coins.(utxos := w.coins.utxos - InputSet(t)),
       book := w.book.(infos := w.book.infos[t := info],
                       accounts := AddSignId(w.book.accounts, info.account, t)),
       fees := ShiftToReserve(w.fees, shift),
       token := w.token.(balance := w.token.balance + info.transferAmount),
       past := w.past.(claimed := w.past.claimed + InputSet(t),
                       listed := w.past.listed[t := Listing(info.purpose, info.account)]))
  }

  function Candidates(rbf: map<Tx, set<Tx>>, o: Tx): set<Tx> {
    if o in rbf then rbf[o] else {}
  }

  predicate CanAddReplacement(w: World, o: Tx, c: Tx, info: Info, role: Role, shift: nat) {
    && o in w.book.infos
    && c !in w.book.infos
    && c !in Candidates(w.book.rbf, o)
    && info.account in w.book.accounts
    && HasSignCapacity(w.book, info.account)
    && shift <= w.fees.available
    && (!(info.role.Replacement? && info.role.cancel) ==> |Candidates(w.book.rbf, o)| + 1 <= w.cfg.rbfNumLimit)
  }

  /** A replacement joins the family of o, whose own record changes its role. */
  ghost function AddReplacement(w: World, o: Tx, c: Tx, info: Info, role: Role, shift: nat): World
    requires CanAddReplacement(w, o, c, info, role, shift)
  {
    w.(book := w.book.(infos := w.book.infos[o := w.book.infos[o].(role := role)][c := info],
                       rbf := w.book.rbf[o := Candidates(w.book.rbf, o) + {c}],
                       accounts := AddSignId(w.book.accounts, info.account, c)),
       fees := ShiftToReserve(w.fees, shift),
       past := w.past.(listed := w.past.listed[c := Listing(info.purpose, info.account)]))
  }

  /** A replacement of `original`, before its amounts are filled in. */
  function ReplacementInfo(o: Tx, original: Info, cancel: bool, received: nat, gas: nat, burn: nat, now: nat): Info {
    original.(role := Replacement(o, cancel), stage := PendingSign, received := received, gasFee := gas,
              burnAmount := burn, signatures := Unsigned(|original.signatures|), signedBytes := false,
              createTime := now)
  }

  predicate CanSign(w: World, t: Tx, i: nat) {
    && t in w.book.infos
    && i < |w.book.infos[t].signatures|
    && !w.book.infos[t].signatures[i]
    && (AllSigned(w.book.infos[t].signatures[i := true]) ==>
          t in SignIds(w.book.accounts, w.book.infos[t].account))
  }

  /** Stores the signature of one input; the last one moves the transaction on to verification. */
  ghost function Sign(w: World, t: Tx, i: nat): World
    requires CanSign(w, t, i)
  {
    var info := w.book.infos[t];
    var signatures := info.signatures[i := true];
    if AllSigned(signatures) then
      var account := w.book.accounts[info.account];
      w.(book := w.book.(
           infos := w.book.infos[t := info.(signatures := signatures, signedBytes := true, stage := PendingVerify)],
           accounts := w.book.accounts[info.account := Account(
             account.signIds - {t},
             if info.role.Original? then account.verifyList + {t} else account.verifyList)]))
    else
      w.(book := w.book.(infos := w.book.infos[t := info.(signatures := signatures)]))
  }

  ghost function SetStage(w: World, t: Tx, stage: Stage): World
    requires t in w.book.infos
  {
    w.(book := w.book.(infos := w.book.infos[t := w.book.infos[t].(stage := stage)]))
  }

  /** A replacement whose original is gone. */
  predicate IsOrphan(w: World, c: Tx) {
    c in w.book.infos && w.book.infos[c].role.Replacement? && w.book.infos[c].role.original !in w.book.infos
  }

  /** Removes a pending transaction together with its account entries. */
  ghost function Drop(w: World, t: Tx): World
    requires t in w.book.infos
  {
    w.(book := w.book.(infos := w.book.infos - {t},
                       accounts := DropIds(w.book.accounts, w.book.infos[t].account, t)))
  }

  /** The reserve of the family of t and the part of it that the confirmation of t spends on gas. */
  function FamilyReserve(infos: map<Tx, Info>, t: Tx): nat
    requires t in infos && Root(t, infos[t]) in infos
  {
    ReserveOf(infos[Root(t, infos[t])])
  }

  predicate IsCancelledWithdrawal(info: Info) {
    info.purpose.Withdraw? && info.role.Replacement? && info.role.cancel
  }

  function ReserveUsed(info: Info, reserve: nat): nat {
    if info.purpose.ActiveManagement? then info.burnAmount
    else if reserve > 0 && IsCancelledWithdrawal(info)
    then Excess(info.burnAmount, info.transferAmount, info.withdrawFee)
    else 0
  }

  /** What a cancelled withdrawal gives back to its user. */
  function RefundDue(info: Info): nat {
    if IsCancelledWithdrawal(info)
    then SaturatingSub(info.transferAmount, info.withdrawFee + info.burnAmount)
    else 0
  }

  /** Nothing in the settlement of a confirmed transaction panics: the records exist and no subtraction underflows. */
  predicate CanSettle(w: World, t: Tx) {
    && t in w.book.infos
    && !w.book.infos[t].purpose.Refund?
    && w.book.infos[t].signedBytes
    && Root(t, w.book.infos[t]) in w.book.infos
    && w.book.infos[Root(t, w.book.infos[t])].role.Original?
    && w.book.infos[Root(t, w.book.infos[t])].purpose == w.book.infos[t].purpose
    && w.book.infos[t].account in w.book.accounts
    && var reserve := FamilyReserve(w.book.infos, t);
    && ReserveUsed(w.book.infos[t], reserve) <= reserve <= w.fees.reserved
    && (reserve > 0 && IsCancelledWithdrawal(w.book.infos[t]) ==>
          w.book.infos[t].withdrawFee <= w.book.infos[t].transferAmount)
  }

  /** What the confirmed transaction burns and returns beyond its inputs: its payment to the change address. */
  function Overpaid(t: Tx, info: Info): nat {
    SaturatingSub(info.burnAmount + PaidTo(t.outputs, ChangeScript), SumSeq(info.coins))
  }

  /** Settles a confirmed transaction: its change becomes coins and its whole family loses its original. */
  ghost function Settle(w: World, t: Tx, protocolFee: nat): World
    requires CanSettle(w, t)
  {
    var info := w.book.infos[t];
    var root := Root(t, info);
    var reserve := FamilyReserve(w.book.infos, t);
    var refund := RefundDue(info);
    w.(coins := w.coins.(utxos := WithChange(w.coins.utxos, t, |t.outputs|)),
       book := w.book.(infos := w.book.infos - {t, root},
                       rbf := w.book.rbf - {root},
                       accounts := DropVerifyId(w.book.accounts, info.account, root)),
       fees := Collect(Release(w.fees, reserve, ReserveUsed(info, reserve)), protocolFee),
       flight := w.flight.(transfers :=
         if refund > 0 then w.flight.transfers[FreshId(w.flight.transfers) := Transfer(Some(info.account), refund, Waiting)]
         else w.flight.transfers),
       past := w.past.(consumed := Consume(w.past.consumed, t),
                       finalized := w.past.finalized + {t},
                       paidToSelf := w.past.paidToSelf + Overpaid(t, info)))
  }

  /** Records the inputs of t as spent by t. */
  ghost function Consume(consumed: map<OutPoint, Tx>, t: Tx): map<OutPoint, Tx> {
    consumed + (map op | op in InputSet(t) :: t)
  }
}
