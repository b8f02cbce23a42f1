/** The Zcash build's own PSBT format (contracts/satoshi-bridge/src/zcash_utils/psbt_wrapper.rs). */
module ZcashPsbt {
  import opened Wrappers
  import opened ZcashEncoding

  datatype BranchId = Nu6 | Nu6_1 | Nu6_2 | Nu6_3 | Nu7

  const ORCHARD_RAW_ADDRESS_SIZE: nat := 43
  const VERSION: byte := 4

  datatype Shielded<B> = Shielded(bundle: B, amount: nat, recipient: Bytes)

  datatype Psbt<B> = Psbt(
    branch: BranchId,
    expiryHeight: nat,
    vin: seq<TxIn>,
    vout: seq<TxOut>,
    inputsUtxo: seq<TxOut>,
    orchard: Option<Shielded<B>>,
    recipient: Option<Bytes>)

  /** What the format takes from libraries: shielded bundles in their two encodings, and the UTF-8 check. */
  datatype Codec<!B> = Codec(
    writeV5: B -> Bytes,
    readV5: (Bytes, BranchId) -> Read<Option<B>>,
    writeV6: B -> Bytes,
    readV6: (Bytes, BranchId) -> Read<Option<B>>,
    isUtf8: Bytes -> bool)

  predicate IsIronwood(branch: BranchId) {
    branch.Nu6_3? || branch.Nu7?
  }

  function WriteBundle<B>(c: Codec<B>, branch: BranchId, bundle: B): Bytes {
    if IsIronwood(branch) then c.writeV6(bundle) else c.writeV5(bundle)
  }

  function ReadBundle<B>(c: Codec<B>, branch: BranchId, s: Bytes): Read<Option<B>> {
    if IsIronwood(branch) then c.readV6(s, branch) else c.readV5(s, branch)
  }

  /** A written bundle reads back in its branch, and a zero byte reads as no bundle. */
  ghost predicate LawfulFor<B>(c: Codec<B>, p: Psbt<B>) {
    && (p.orchard.Some? ==> forall rest: Bytes ::
          ReadBundle(c, p.branch, WriteBundle(c, p.branch, p.orchard.value.bundle) + rest)
          == Give(Some(p.orchard.value.bundle), rest))
    && (forall rest: Bytes :: ReadBundle(c, p.branch, [0] + rest) == Give(None, rest))
  }

  /** The values the program's types can hold; lists are indexed with 32 bits. */
  ghost predicate Representable<B>(c: Codec<B>, p: Psbt<B>) {
    && p.expiryHeight < U32_END
    && |p.vin| < U32_END && (forall i :: i in p.vin ==> ValidIn(i))
    && |p.vout| < U32_END && (forall o :: o in p.vout ==> ValidOut(o))
    && |p.inputsUtxo| < U32_END && (forall o :: o in p.inputsUtxo ==> ValidOut(o))
    && (p.orchard.Some? ==> p.orchard.value.amount < U64_END && |p.orchard.value.recipient| == ORCHARD_RAW_ADDRESS_SIZE)
    && (p.recipient.Some? ==> |p.recipient.value| < U32_END && c.isUtf8(p.recipient.value))
  }

  // ----- specification of the two directions -----

  function BranchByte(b: BranchId): byte {
    match b
    case Nu6 => 7
    case Nu6_1 => 8
    case Nu6_2 => 9
    case Nu6_3 => 10
    case Nu7 => 11
  }

  function BranchOf(n: nat): Option<BranchId> {
    match n
    case 7 => Some(Nu6)
    case 8 => Some(Nu6_1)
    case 9 => Some(Nu6_2)
    case 10 => Some(Nu6_3)
    case 11 => Some(Nu7)
    case _ => None
  }

  function WriteList<T>(items: seq<T>, write: T -> Bytes): Bytes {
    LittleEndian(|items|, 8) + WriteAll(items, write)
  }

  function WriteShielded<B>(c: Codec<B>, p: Psbt<B>): Bytes {
    match p.orchard
    case Some(o) => WriteBundle(c, p.branch, o.bundle) + [1] + LittleEndian(o.amount, 8) + o.recipient
    case None => [0]
  }

  function WriteRecipient<B>(p: Psbt<B>): Bytes {
    match p.recipient
    case Some(r) => [1] + LittleEndian(|r|, 8) + r
    case None => [0]
  }

  function Encode<B>(c: Codec<B>, p: Psbt<B>): Bytes {
    [VERSION, BranchByte(p.branch)] + LittleEndian(p.expiryHeight, 4)
    + WriteList(p.vin, WriteIn) + WriteList(p.vout, WriteOut) + WriteList(p.inputsUtxo, WriteOut)
    + WriteShielded(c, p) + WriteRecipient(p)
  }

  /** A 64-bit count cast to the 32-bit index type of the contract's platform. */
  function ReadCount(s: Bytes): Read<nat> {
    var n :- ReadInt(s, 8);
    Give(n.value % U32_END, n.rest)
  }

  function ReadList<T>(s: Bytes, read: Bytes -> Read<T>): Read<seq<T>> {
    var n :- ReadCount(s);
    ReadMany(n.rest, n.value, read)
  }

  function ReadBranch(s: Bytes, version: nat): Read<BranchId> {
    if version < 2 then Give(Nu6_1, s)
    else
      var b :- ReadInt(s, 1);
      match BranchOf(b.value)
      case Some(branch) => Give(branch, b.rest)
      case None => Failed
  }

  function ReadShielded<B>(c: Codec<B>, s: Bytes, version: nat, branch: BranchId): Read<Option<Shielded<B>>> {
    if version < 3 then Give(None, s)
    else
      var bundle :- ReadBundle(c, branch, s);
      if bundle.value.None? then Give(None, bundle.rest)
      else
        var flag :- ReadInt(bundle.rest, 1);
        if flag.value != 1 then Give(None, flag.rest)
        else
          var amount :- ReadInt(flag.rest, 8);
          var recipient :- ReadBytes(amount.rest, ORCHARD_RAW_ADDRESS_SIZE);
          Give(Some(Shielded(bundle.value.value, amount.value, recipient.value)), recipient.rest)
  }

  function ReadRecipient<B>(c: Codec<B>, s: Bytes, version: nat): Read<Option<Bytes>> {
    if version < 3 then Give(None, s)
    else
      var flag :- ReadInt(s, 1);
      if flag.value != 1 then Give(None, flag.rest)
      else
        var n :- ReadCount(flag.rest);
        var text :- ReadBytes(n.rest, n.value);
        if c.isUtf8(text.value) then Give(Some(text.value), text.rest) else Failed
  }

  function Decode<B>(c: Codec<B>, s: Bytes): Read<Psbt<B>> {
    var version :- ReadInt(s, 1);
    var branch :- ReadBranch(version.rest, version.value);
    var expiry :- ReadInt(branch.rest, 4);
    var vin :- ReadList(expiry.rest, ReadIn);
    var vout :- ReadList(vin.rest, ReadOut);
    var inputs :- ReadList(vout.rest, ReadOut);
    var orchard :- ReadShielded(c, inputs.rest, version.value, branch.value);
    var recipient :- ReadRecipient(c, orchard.rest, version.value);
    Give(Psbt(branch.value, expiry.value, vin.value, vout.value, inputs.value, orchard.value, recipient.value),
         recipient.rest)
  }

  // ----- the round trip -----

  lemma ListReadsBack<T>(items: seq<T>, write: T -> Bytes, read: Bytes -> Read<T>, rest: Bytes)
    requires |items| < U32_END && forall i :: 0 <= i < |items| ==> ReadsBack(items[i], write, read)
    ensures ReadList(WriteList(items, write) + rest, read) == Give(items, rest)
  {
    Widths();
    hide LittleEndian, Power256, ReadsBack;
    assert WriteList(items, write) + rest == LittleEndian(|items|, 8) + (WriteAll(items, write) + rest);
    IntReadsBack(|items|, 8, WriteAll(items, write) + rest);
    ManyReadBack(items, write, read, rest);
  }

  lemma InputsReadBack(items: seq<TxIn>, rest: Bytes)
    requires |items| < U32_END && forall i :: i in items ==> ValidIn(i)
    ensures ReadList(WriteList(items, WriteIn) + rest, ReadIn) == Give(items, rest)
  {
    forall i, after: Bytes | 0 <= i < |items| ensures ReadIn(WriteIn(items[i]) + after) == Give(items[i], after) {
      InReadsBack(items[i], after);
    }
    ListReadsBack(items, WriteIn, ReadIn, rest);
  }

  lemma OutputsReadBack(items: seq<TxOut>, rest: Bytes)
    requires |items| < U32_END && forall o :: o in items ==> ValidOut(o)
    ensures ReadList(WriteList(items, WriteOut) + rest, ReadOut) == Give(items, rest)
  {
    forall i, after: Bytes | 0 <= i < |items| ensures ReadOut(WriteOut(items[i]) + after) == Give(items[i], after) {
      OutReadsBack(items[i], after);
    }
    ListReadsBack(items, WriteOut, ReadOut, rest);
  }

  lemma ShieldedReadsBack<B>(c: Codec<B>, p: Psbt<B>, rest: Bytes)
    requires Representable(c, p) && LawfulFor(c, p)
    ensures ReadShielded(c, WriteShielded(c, p) + rest, VERSION, p.branch) == Give(p.orchard, rest)
  {
    Widths();
    hide LittleEndian, FromLittleEndian, Power256;
    if p.orchard.Some? {
      var o := p.orchard.value;
      var afterAmount := o.recipient + rest;
      var afterFlag := LittleEndian(o.amount, 8) + afterAmount;
      var afterBundle := [1] + afterFlag;
      assert WriteShielded(c, p) + rest == WriteBundle(c, p.branch, o.bundle) + afterBundle;
      FirstByteReads(1, afterFlag);
      IntReadsBack(o.amount, 8, afterAmount);
      assert afterAmount[..ORCHARD_RAW_ADDRESS_SIZE] == o.recipient && afterAmount[ORCHARD_RAW_ADDRESS_SIZE..] == rest;
    }
  }

  lemma RecipientReadsBack<B>(c: Codec<B>, p: Psbt<B>, rest: Bytes)
    requires Representable(c, p)
    ensures ReadRecipient(c, WriteRecipient(p) + rest, VERSION) == Give(p.recipient, rest)
  {
    Widths();
    hide LittleEndian, FromLittleEndian, Power256;
    if p.recipient.Some? {
      var r := p.recipient.value;
      var afterLength := r + rest;
      assert WriteRecipient(p) + rest == [1] + (LittleEndian(|r|, 8) + afterLength);
      FirstByteReads(1, LittleEndian(|r|, 8) + afterLength);
      IntReadsBack(|r|, 8, afterLength);
      assert afterLength[..|r|] == r && afterLength[|r|..] == rest;
    } else {
      FirstByteReads(0, rest);
    }
  }

  /** A PSBT as each version of the format has written it: the branch since 2, shielded part and recipient since 3. */
  function EncodeAs<B>(c: Codec<B>, version: byte, p: Psbt<B>): Bytes {
    [version] + (if version >= 2 then [BranchByte(p.branch)] else [])
    + LittleEndian(p.expiryHeight, 4)
    + WriteList(p.vin, WriteIn) + WriteList(p.vout, WriteOut) + WriteList(p.inputsUtxo, WriteOut)
    + (if version >= 3 then WriteShielded(c, p) + WriteRecipient(p) else [])
  }

  /** What a version could express: before 2 there was one branch only, before 3 nothing was shielded. */
  predicate Expresses<B>(version: byte, p: Psbt<B>) {
    && (version < 2 ==> p.branch == Nu6_1)
    && (version < 3 ==> p.orchard.None? && p.recipient.None?)
  }

  lemma TailReadsBack<B>(c: Codec<B>, version: byte, p: Psbt<B>) returns (tail: Bytes)
    requires Representable(c, p) && LawfulFor(c, p) && Expresses(version, p)
    ensures tail == if version >= 3 then WriteShielded(c, p) + WriteRecipient(p) else []
    ensures ReadShielded(c, tail, version, p.branch).Done?
    ensures var orchard := ReadShielded(c, tail, version, p.branch).parsed;
      orchard.value == p.orchard && ReadRecipient(c, orchard.rest, version) == Give(p.recipient, [])
  {
    hide WriteShielded, WriteRecipient, LawfulFor, Representable;
    if version >= 3 {
      tail := WriteShielded(c, p) + WriteRecipient(p);
      ShieldedReadsBack(c, p, WriteRecipient(p));
      assert WriteRecipient(p) + [] == WriteRecipient(p);
      RecipientReadsBack(c, p, []);
      LaterVersionsReadAlike(c, tail, version, p.branch);
      LaterVersionsReadAlike(c, WriteRecipient(p), version, p.branch);
    } else {
      tail := [];
    }
  }

  lemma LaterVersionsReadAlike<B>(c: Codec<B>, s: Bytes, version: byte, branch: BranchId)
    requires version >= 3
    ensures ReadShielded(c, s, version, branch) == ReadShielded(c, s, VERSION, branch)
    ensures ReadRecipient(c, s, version) == ReadRecipient(c, s, VERSION)
  {
  }

  /** The fields of a stored PSBT one after another, each followed by all that comes behind it. */
  lemma FieldsInOrder<B>(c: Codec<B>, version: byte, p: Psbt<B>, tail: Bytes)
    requires tail == if version >= 3 then WriteShielded(c, p) + WriteRecipient(p) else []
    ensures EncodeAs(c, version, p) ==
            [version] + ((if version >= 2 then [BranchByte(p.branch)] else [])
              + (LittleEndian(p.expiryHeight, 4) + ListsAnd(p, tail)))
  {
    hide LittleEndian, WriteList, WriteShielded, WriteRecipient;
  }

  function ListsAnd<B>(p: Psbt<B>, tail: Bytes): Bytes {
    WriteList(p.vin, WriteIn) + (WriteList(p.vout, WriteOut) + (WriteList(p.inputsUtxo, WriteOut) + tail))
  }

  lemma BranchReadsBack(version: byte, branch: BranchId, rest: Bytes)
    requires version < 2 ==> branch == Nu6_1
    ensures ReadBranch((if version >= 2 then [BranchByte(branch)] else []) + rest, version) == Give(branch, rest)
  {
    if version >= 2 {
      FirstByteReads(BranchByte(branch), rest);
    } else {
      assert [] + rest == rest;
    }
  }

  /** What any version of the format has stored reads back unchanged, and nothing is left over. */
  lemma EveryVersionReadsBack<B>(c: Codec<B>, version: byte, p: Psbt<B>)
    requires Representable(c, p) && LawfulFor(c, p) && Expresses(version, p)
    ensures Decode(c, EncodeAs(c, version, p)) == Give(p, [])
  {
    Widths();
    hide LittleEndian, FromLittleEndian, Power256, WriteList, ReadList, WriteShielded, ReadShielded, WriteRecipient,
         ReadRecipient, LawfulFor, ReadInt, ReadBranch, EncodeAs;
    var tail := TailReadsBack(c, version, p);
    FieldsInOrder(c, version, p, tail);
    var lists := ListsAnd(p, tail);
    var afterBranch := LittleEndian(p.expiryHeight, 4) + lists;
    FirstByteReads(version, (if version >= 2 then [BranchByte(p.branch)] else []) + afterBranch);
    BranchReadsBack(version, p.branch, afterBranch);
    IntReadsBack(p.expiryHeight, 4, lists);
    InputsReadBack(p.vin, WriteList(p.vout, WriteOut) + (WriteList(p.inputsUtxo, WriteOut) + tail));
    OutputsReadBack(p.vout, WriteList(p.inputsUtxo, WriteOut) + tail);
    OutputsReadBack(p.inputsUtxo, tail);
  }

  /** Whatever is stored now reads back unchanged, and nothing is left over. */
  lemma RoundTrip<B>(c: Codec<B>, p: Psbt<B>)
    requires Representable(c, p) && LawfulFor(c, p)
    ensures Decode(c, Encode(c, p)) == Give(p, [])
  {
    hide LittleEndian, WriteList, WriteShielded, WriteRecipient, Decode, LawfulFor, Representable;
    assert Encode(c, p) == EncodeAs(c, VERSION, p);
    EveryVersionReadsBack(c, VERSION, p);
  }

  // ----- the two directions as programs -----

  method WriteItems<T>(buf: Bytes, items: seq<T>, write: T -> Bytes) returns (r: Bytes)
    ensures r == buf + WriteList(items, write)
  {
    hide LittleEndian;
    var head := buf + LittleEndian(|items|, 8);
    r := head;
    var i := 0;
    while i < |items|
      invariant 0 <= i <= |items|
      invariant r == head + WriteAll(items[..i], write)
    {
      assert items[..i + 1][..i] == items[..i];
      r := r + write(items[i]);
      i := i + 1;
    }
    assert items[..i] == items;
  }

  method WriteTail<B>(c: Codec<B>, p: Psbt<B>, head: Bytes) returns (buf: Bytes)
    ensures buf == head + WriteShielded(c, p) + WriteRecipient(p)
  {
    hide LittleEndian;
    buf := head;
    if p.orchard.Some? {
      buf := buf + WriteBundle(c, p.branch, p.orchard.value.bundle);
      buf := buf + [1];
      buf := buf + LittleEndian(p.orchard.value.amount, 8);
      buf := buf + p.orchard.value.recipient;
    } else {
      buf := buf + [0];
    }
    assert buf == head + WriteShielded(c, p);
    ghost var before := buf;
    if p.recipient.Some? {
      buf := buf + [1];
      buf := buf + LittleEndian(|p.recipient.value|, 8);
      buf := buf + p.recipient.value;
    } else {
      buf := buf + [0];
    }
    assert buf == before + WriteRecipient(p);
  }

  method ToBytes<B>(c: Codec<B>, p: Psbt<B>) returns (buf: Bytes)
    ensures buf == Encode(c, p)
  {
    hide WriteList, LittleEndian, WriteShielded, WriteRecipient;
    buf := [VERSION];
    buf := buf + [BranchByte(p.branch)];
    buf := buf + LittleEndian(p.expiryHeight, 4);
    buf := WriteItems(buf, p.vin, WriteIn);
    buf := WriteItems(buf, p.vout, WriteOut);
    buf := WriteItems(buf, p.inputsUtxo, WriteOut);
    buf := WriteTail(c, p, buf);
  }

  lemma {:induction false} FailurePersists<T>(s: Bytes, i: nat, n: nat, read: Bytes -> Read<T>)
    requires i <= n && ReadMany(s, i, read).Failed?
    ensures ReadMany(s, n, read).Failed?
    decreases n
  {
    if i < n {
      FailurePersists(s, i, n - 1, read);
    }
  }

  method ReadItems<T>(s: Bytes, read: Bytes -> Read<T>) returns (r: Read<seq<T>>)
    ensures r == ReadList(s, read)
  {
    var n := ReadCount(s);
    if n.Failed? {
      return Failed;
    }
    var items, rdr := [], n.parsed.rest;
    var i := 0;
    while i < n.parsed.value
      invariant 0 <= i <= n.parsed.value
      invariant ReadMany(n.parsed.rest, i, read) == Give(items, rdr)
    {
      var item := read(rdr);
      if item.Failed? {
        FailurePersists(n.parsed.rest, i + 1, n.parsed.value, read);
        return Failed;
      }
      items, rdr := items + [item.parsed.value], item.parsed.rest;
      i := i + 1;
    }
    r := Give(items, rdr);
  }

  /** Reads a fixed number of bytes one at a time. */
  method ReadExactly(s: Bytes, n: nat) returns (r: Read<Bytes>)
    ensures r == ReadBytes(s, n)
  {
    var data, rdr: Bytes := [], s;
    while |data| < n
      invariant |data| <= n && data + rdr == s
    {
      if rdr == [] {
        return Failed;
      }
      data, rdr := data + [rdr[0]], rdr[1..];
    }
    assert s[..n] == data && s[n..] == rdr;
    r := Give(data, rdr);
  }

  /** Older versions lack the branch (before 2) and the shielded part and recipient (before 3). */
  method Deserialize<B>(c: Codec<B>, bytes: Bytes) returns (r: Option<Psbt<B>>)
    ensures r == match Decode(c, bytes) case Done(p) => Some(p.value) case Failed => None
  {
    hide ReadList, ReadRecipient, ReadShielded;
    var version := ReadInt(bytes, 1);
    if version.Failed? {
      return None;
    }
    var branch := ReadBranch(version.parsed.rest, version.parsed.value);
    if branch.Failed? {
      return None;
    }
    var expiry := ReadInt(branch.parsed.rest, 4);
    if expiry.Failed? {
      return None;
    }
    var vin := ReadItems(expiry.parsed.rest, ReadIn);
    if vin.Failed? {
      return None;
    }
    var vout := ReadItems(vin.parsed.rest, ReadOut);
    if vout.Failed? {
      return None;
    }
    var inputs := ReadItems(vout.parsed.rest, ReadOut);
    if inputs.Failed? {
      return None;
    }
    var orchard := ReadShieldedPart(c, inputs.parsed.rest, version.parsed.value, branch.parsed.value);
    if orchard.Failed? {
      return None;
    }
    var recipient := ReadRecipientPart(c, orchard.parsed.rest, version.parsed.value);
    if recipient.Failed? {
      return None;
    }
    r := Some(Psbt(branch.parsed.value, expiry.parsed.value, vin.parsed.value, vout.parsed.value, inputs.parsed.value,
                   orchard.parsed.value, recipient.parsed.value));
  }

  method ReadShieldedPart<B>(c: Codec<B>, s: Bytes, version: nat, branch: BranchId)
    returns (r: Read<Option<Shielded<B>>>)
    ensures r == ReadShielded(c, s, version, branch)
  {
    if version < 3 {
      return Give(None, s);
    }
    var bundle := ReadBundle(c, branch, s);
    if bundle.Failed? {
      return Failed;
    }
    if bundle.parsed.value.None? {
      return Give(None, bundle.parsed.rest);
    }
    var flag := ReadInt(bundle.parsed.rest, 1);
    if flag.Failed? {
      return Failed;
    }
    if flag.parsed.value != 1 {
      return Give(None, flag.parsed.rest);
    }
    var amount := ReadInt(flag.parsed.rest, 8);
    if amount.Failed? {
      return Failed;
    }
    var recipient := ReadExactly(amount.parsed.rest, ORCHARD_RAW_ADDRESS_SIZE);
    if recipient.Failed? {
      return Failed;
    }
    var shielded := Shielded(bundle.parsed.value.value, amount.parsed.value, recipient.parsed.value);
    r := Give(Some(shielded), recipient.parsed.rest);
  }

  method ReadRecipientPart<B>(c: Codec<B>, s: Bytes, version: nat) returns (r: Read<Option<Bytes>>)
    ensures r == ReadRecipient(c, s, version)
  {
    if version < 3 {
      return Give(None, s);
    }
    var flag := ReadInt(s, 1);
    if flag.Failed? {
      return Failed;
    }
    if flag.parsed.value != 1 {
      return Give(None, flag.parsed.rest);
    }
    var n := ReadCount(flag.parsed.rest);
    if n.Failed? {
      return Failed;
    }
    var text := ReadExactly(n.parsed.rest, n.parsed.value);
    if text.Failed? || !c.isUtf8(text.parsed.value) {
      return Failed;
    }
    r := Give(Some(text.parsed.value), text.parsed.rest);
  }

  // ----- signing a stored PSBT -----

  datatype Signature = Signature(index: nat, scriptSig: Bytes)

  function SaveSignature<B>(p: Psbt<B>, g: Signature): Psbt<B>
    requires g.index < |p.vin|
  {
    p.(vin := p.vin[g.index := p.vin[g.index].(scriptSig := g.scriptSig)])
  }

  predicate Signs<B>(p: Psbt<B>, g: Signature) {
    g.index < |p.vin| && |g.scriptSig| <= MAX_COMPACT_SIZE
  }

  /** One signature callback: reads the stored PSBT, saves the signature, and stores it again (chain_signature.rs). */
  method SignStored<B>(c: Codec<B>, stored: Bytes, g: Signature) returns (r: Option<Bytes>)
    ensures r == AfterSigning(c, stored, g)
  {
    hide Encode, Decode;
    var read := Deserialize(c, stored);
    if read.None? || g.index >= |read.value.vin| {
      return None;
    }
    var psbt := read.value;
    psbt := psbt.(vin := psbt.vin[g.index := TxIn(psbt.vin[g.index].txid, psbt.vin[g.index].n, g.scriptSig,
                                                  psbt.vin[g.index].sequence)]);
    var bytes := ToBytes(c, psbt);
    r := Some(bytes);
  }

  function AfterSigning<B>(c: Codec<B>, stored: Bytes, g: Signature): Option<Bytes> {
    match Decode(c, stored)
    case Done(p) => if g.index < |p.value.vin| then Some(Encode(c, SaveSignature(p.value, g))) else None
    case Failed => None
  }

  function AfterSignings<B>(c: Codec<B>, stored: Bytes, gs: seq<Signature>): Option<Bytes> {
    if gs == [] then Some(stored)
    else match AfterSignings(c, stored, gs[..|gs| - 1])
      case Some(s) => AfterSigning(c, s, gs[|gs| - 1])
      case None => None
  }

  /** The script sig input i ends up with: the last one saved for it, or its own. */
  function LastScript(gs: seq<Signature>, i: nat, own: Bytes): Bytes {
    if gs == [] then own
    else if gs[|gs| - 1].index == i then gs[|gs| - 1].scriptSig
    else LastScript(gs[..|gs| - 1], i, own)
  }

  /** p with every script sig replaced by the last one saved for its input. */
  function Signed<B>(p: Psbt<B>, gs: seq<Signature>): Psbt<B> {
    p.(vin := seq(|p.vin|, i requires 0 <= i < |p.vin| => p.vin[i].(scriptSig := LastScript(gs, i, p.vin[i].scriptSig))))
  }

  /**
   * Signing through any number of store-and-reload cycles changes the script sigs and nothing else: inputs,
   * outputs, coins, shielded part and recipient come out as they went in.
   */
  lemma {:induction false} SigningChangesScriptsOnly<B>(c: Codec<B>, p: Psbt<B>, gs: seq<Signature>)
    requires Representable(c, p) && LawfulFor(c, p)
    requires forall g :: g in gs ==> Signs(p, g)
    ensures AfterSignings(c, Encode(c, p), gs) == Some(Encode(c, Signed(p, gs)))
    ensures Representable(c, Signed(p, gs)) && LawfulFor(c, Signed(p, gs))
  {
    hide Encode, Decode;
    if gs == [] {
      assert Signed(p, gs).vin == p.vin;
    } else {
      var before, g := gs[..|gs| - 1], gs[|gs| - 1];
      assert forall h :: h in before ==> h in gs;
      SigningChangesScriptsOnly(c, p, before);
      RoundTrip(c, Signed(p, before));
      assert g in gs && Signs(p, g);
      SavedOnTop(p, gs);
      LastScriptsFit(c, p, gs);
    }
  }

  lemma SavedOnTop<B>(p: Psbt<B>, gs: seq<Signature>)
    requires gs != [] && gs[|gs| - 1].index < |p.vin|
    ensures SaveSignature(Signed(p, gs[..|gs| - 1]), gs[|gs| - 1]) == Signed(p, gs)
  {
    assert SaveSignature(Signed(p, gs[..|gs| - 1]), gs[|gs| - 1]).vin == Signed(p, gs).vin;
  }

  lemma {:induction false} LastScriptFits(gs: seq<Signature>, i: nat, own: Bytes)
    requires |own| <= MAX_COMPACT_SIZE && forall g :: g in gs ==> |g.scriptSig| <= MAX_COMPACT_SIZE
    ensures |LastScript(gs, i, own)| <= MAX_COMPACT_SIZE
  {
    if gs == [] {
    } else {
      assert gs[|gs| - 1] in gs;
      LastScriptFits(gs[..|gs| - 1], i, own);
    }
  }

  lemma LastScriptsFit<B>(c: Codec<B>, p: Psbt<B>, gs: seq<Signature>)
    requires Representable(c, p) && LawfulFor(c, p) && forall g :: g in gs ==> Signs(p, g)
    ensures Representable(c, Signed(p, gs)) && LawfulFor(c, Signed(p, gs))
  {
    var v := Signed(p, gs);
    forall t | t in v.vin ensures ValidIn(t) {
      var i :| 0 <= i < |v.vin| && v.vin[i] == t;
      assert p.vin[i] in p.vin;
      LastScriptFits(gs, i, p.vin[i].scriptSig);
    }
  }

  /** Each input is signed at most once. */
  predicate OncePerInput(gs: seq<Signature>) {
    forall i, j :: 0 <= i < j < |gs| ==> gs[i].index != gs[j].index
  }

  lemma {:induction false} OnlyScriptIsLast(gs: seq<Signature>, k: nat, own: Bytes)
    requires OncePerInput(gs) && k < |gs|
    ensures LastScript(gs, gs[k].index, own) == gs[k].scriptSig
  {
    if k < |gs| - 1 {
      assert gs[k].index != gs[|gs| - 1].index;
      OnlyScriptIsLast(gs[..|gs| - 1], k, own);
    }
  }

  lemma {:induction false} UnsignedKeepsOwn(gs: seq<Signature>, i: nat, own: Bytes)
    requires forall g :: g in gs ==> g.index != i
    ensures LastScript(gs, i, own) == own
  {
    if gs == [] {
    } else {
      assert gs[|gs| - 1] in gs;
      UnsignedKeepsOwn(gs[..|gs| - 1], i, own);
    }
  }

  /** The order in which the inputs are signed does not matter. */
  lemma SigningOrderIsIrrelevant<B>(c: Codec<B>, p: Psbt<B>, gs: seq<Signature>, hs: seq<Signature>)
    requires Representable(c, p) && LawfulFor(c, p)
    requires OncePerInput(gs) && OncePerInput(hs) && multiset(gs) == multiset(hs)
    requires forall g :: g in gs ==> Signs(p, g)
    ensures AfterSignings(c, Encode(c, p), gs) == AfterSignings(c, Encode(c, p), hs)
  {
    hide AfterSignings, Representable, LawfulFor, Encode;
    assert forall g :: g in gs <==> g in multiset(gs);
    assert forall h :: h in hs <==> h in multiset(hs);
    SigningChangesScriptsOnly(c, p, gs);
    SigningChangesScriptsOnly(c, p, hs);
    forall i | 0 <= i < |p.vin| ensures Signed(p, gs).vin[i] == Signed(p, hs).vin[i] {
      SameLastScript(gs, hs, i, p.vin[i].scriptSig);
    }
    assert Signed(p, gs).vin == Signed(p, hs).vin;
  }

  lemma SameLastScript(gs: seq<Signature>, hs: seq<Signature>, i: nat, own: Bytes)
    requires OncePerInput(gs) && OncePerInput(hs) && forall g :: g in gs <==> g in hs
    ensures LastScript(gs, i, own) == LastScript(hs, i, own)
  {
    if k :| 0 <= k < |gs| && gs[k].index == i {
      assert gs[k] in hs;
      var l :| 0 <= l < |hs| && hs[l] == gs[k];
      OnlyScriptIsLast(gs, k, own);
      OnlyScriptIsLast(hs, l, own);
    } else {
      UnsignedKeepsOwn(gs, i, own);
      UnsignedKeepsOwn(hs, i, own);
    }
  }
}
