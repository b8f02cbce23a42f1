/**
 * Byte-level encodings of the Zcash protocol: little-endian integers, CompactSize, transparent inputs and
 * outputs. A reader takes a value off the front of the unread bytes, or fails.
 */
module ZcashEncoding {
  type byte = x: int | 0 <= x < 256
  type Bytes = seq<byte>

  datatype Parsed<+T> = Parsed(value: T, rest: Bytes)

  datatype Read<+T> = Failed | Done(parsed: Parsed<T>)
  {
    predicate IsFailure() {
      Failed?
    }

    function PropagateFailure<U>(): Read<U>
      requires Failed?
    {
      Failed
    }

    function Extract(): Parsed<T>
      requires Done?
    {
      parsed
    }
  }

  function Give<T>(value: T, rest: Bytes): Read<T> {
    Done(Parsed(value, rest))
  }

  // ----- integers -----

  function Power256(width: nat): (r: nat)
    ensures r > 0
  {
    if width == 0 then 1 else 256 * Power256(width - 1)
  }

  function LittleEndian(n: nat, width: nat): (r: Bytes)
    ensures |r| == width
    decreases width
  {
    if width == 0 then [] else [n % 256] + LittleEndian(n / 256, width - 1)
  }

  function FromLittleEndian(s: Bytes): nat {
    if s == [] then 0 else s[0] + 256 * FromLittleEndian(s[1..])
  }

  lemma {:induction false} IntegersRoundTrip(n: nat, width: nat)
    requires n < Power256(width)
    ensures FromLittleEndian(LittleEndian(n, width)) == n
    decreases width
  {
    if width == 0 {
    } else {
      IntegersRoundTrip(n / 256, width - 1);
      assert LittleEndian(n, width)[1..] == LittleEndian(n / 256, width - 1);
    }
  }

  function ReadBytes(s: Bytes, n: nat): Read<Bytes> {
    if |s| < n then Failed else Give(s[..n], s[n..])
  }

  function ReadInt(s: Bytes, width: nat): Read<nat> {
    var b :- ReadBytes(s, width);
    Give(FromLittleEndian(b.value), b.rest)
  }

  lemma IntReadsBack(n: nat, width: nat, rest: Bytes)
    requires n < Power256(width)
    ensures ReadInt(LittleEndian(n, width) + rest, width) == Give(n, rest)
  {
    IntegersRoundTrip(n, width);
    var s := LittleEndian(n, width) + rest;
    assert s[..width] == LittleEndian(n, width) && s[width..] == rest;
  }

  const U16_END: nat := 0x1_0000
  const U32_END: nat := 0x1_0000_0000
  const U64_END: nat := 0x1_0000_0000_0000_0000

  lemma Widths()
    ensures Power256(1) == 256 && Power256(2) == U16_END && Power256(4) == U32_END && Power256(8) == U64_END
  {
    assert Power256(2) == 256 * Power256(1);
    assert Power256(3) == 256 * Power256(2);
    assert Power256(4) == 256 * Power256(3);
    assert Power256(5) == 256 * Power256(4);
    assert Power256(6) == 256 * Power256(5);
    assert Power256(7) == 256 * Power256(6);
    assert Power256(8) == 256 * Power256(7);
  }

  // ----- CompactSize -----

  const MAX_COMPACT_SIZE: nat := 0x0200_0000

  function CompactSize(n: nat): Bytes {
    if n < 253 then [n]
    else if n < U16_END then [253] + LittleEndian(n, 2)
    else if n < U32_END then [254] + LittleEndian(n, 4)
    else [255] + LittleEndian(n, 8)
  }

  /** Only the shortest form of a size is read, and only sizes up to the given bound. */
  function ReadSizeUpTo(s: Bytes, bound: nat): Read<nat> {
    var flag :- ReadInt(s, 1);
    var n :-
      if flag.value < 253 then Give(flag.value, flag.rest)
      else if flag.value == 253 then ReadAtLeast(flag.rest, 2, 253)
      else if flag.value == 254 then ReadAtLeast(flag.rest, 4, U16_END)
      else ReadAtLeast(flag.rest, 8, U32_END);
    if n.value <= bound then Done(n) else Failed
  }

  function ReadCompactSize(s: Bytes): Read<nat> {
    ReadSizeUpTo(s, MAX_COMPACT_SIZE)
  }

  function ReadAtLeast(s: Bytes, width: nat, least: nat): Read<nat> {
    var n :- ReadInt(s, width);
    if n.value >= least then Done(n) else Failed
  }

  lemma FirstByteReads(b: byte, rest: Bytes)
    ensures ReadInt([b] + rest, 1) == Give(b as nat, rest)
  {
    var s := [b] + rest;
    assert s[..1] == [b] && s[1..] == rest;
    assert FromLittleEndian([b]) == b as nat + 256 * FromLittleEndian([]);
  }

  lemma LongSizeReads(flag: byte, n: nat, width: nat, least: nat, bound: nat, rest: Bytes)
    requires (flag == 253 && width == 2 && least == 253) || (flag == 254 && width == 4 && least == U16_END)
      || (flag == 255 && width == 8 && least == U32_END)
    requires least <= n <= bound && n < Power256(width)
    ensures ReadSizeUpTo([flag] + LittleEndian(n, width) + rest, bound) == Give(n, rest)
  {
    hide LittleEndian, FromLittleEndian, Power256;
    assert [flag] + LittleEndian(n, width) + rest == [flag] + (LittleEndian(n, width) + rest);
    FirstByteReads(flag, LittleEndian(n, width) + rest);
    IntReadsBack(n, width, rest);
  }

  lemma SizeReadsBack(n: nat, bound: nat, rest: Bytes)
    requires n <= bound && n < U64_END
    ensures ReadSizeUpTo(CompactSize(n) + rest, bound) == Give(n, rest)
  {
    Widths();
    hide LittleEndian, FromLittleEndian, Power256;
    if n < 253 {
      FirstByteReads(n, rest);
    } else if n < U16_END {
      LongSizeReads(253, n, 2, 253, bound, rest);
    } else if n < U32_END {
      LongSizeReads(254, n, 4, U16_END, bound, rest);
    } else {
      LongSizeReads(255, n, 8, U32_END, bound, rest);
    }
  }

  /** Bytes with their length in front. */
  function Sized(data: Bytes): Bytes {
    CompactSize(|data|) + data
  }

  function ReadSized(s: Bytes): Read<Bytes> {
    var n :- ReadCompactSize(s);
    ReadBytes(n.rest, n.value)
  }

  lemma SizedReadsBack(data: Bytes, rest: Bytes)
    requires |data| <= MAX_COMPACT_SIZE
    ensures ReadSized(Sized(data) + rest) == Give(data, rest)
  {
    assert Sized(data) + rest == CompactSize(|data|) + (data + rest);
    SizeReadsBack(|data|, MAX_COMPACT_SIZE, data + rest);
    assert (data + rest)[..|data|] == data && (data + rest)[|data|..] == rest;
  }

  // ----- transparent inputs and outputs -----

  const MAX_MONEY: nat := 2_100_000_000_000_000

  datatype TxOut = TxOut(value: nat, script: Bytes)

  datatype TxIn = TxIn(txid: Bytes, n: nat, scriptSig: Bytes, sequence: nat)

  predicate ValidOut(o: TxOut) {
    o.value <= MAX_MONEY && |o.script| <= MAX_COMPACT_SIZE
  }

  predicate ValidIn(i: TxIn) {
    |i.txid| == 32 && i.n < U32_END && |i.scriptSig| <= MAX_COMPACT_SIZE && i.sequence < U32_END
  }

  function WriteOut(o: TxOut): Bytes {
    LittleEndian(o.value, 8) + Sized(o.script)
  }

  function ReadOut(s: Bytes): Read<TxOut> {
    var value :- ReadInt(s, 8);
    if value.value > MAX_MONEY then Failed
    else
      var script :- ReadSized(value.rest);
      Give(TxOut(value.value, script.value), script.rest)
  }

  lemma OutReadsBack(o: TxOut, rest: Bytes)
    requires ValidOut(o)
    ensures ReadOut(WriteOut(o) + rest) == Give(o, rest)
  {
    Widths();
    assert WriteOut(o) + rest == LittleEndian(o.value, 8) + (Sized(o.script) + rest);
    IntReadsBack(o.value, 8, Sized(o.script) + rest);
    SizedReadsBack(o.script, rest);
  }

  function WriteIn(i: TxIn): Bytes {
    i.txid + LittleEndian(i.n, 4) + Sized(i.scriptSig) + LittleEndian(i.sequence, 4)
  }

  function ReadIn(s: Bytes): Read<TxIn> {
    var txid :- ReadBytes(s, 32);
    var n :- ReadInt(txid.rest, 4);
    var scriptSig :- ReadSized(n.rest);
    var sequence :- ReadInt(scriptSig.rest, 4);
    Give(TxIn(txid.value, n.value, scriptSig.value, sequence.value), sequence.rest)
  }

  lemma InReadsBack(i: TxIn, rest: Bytes)
    requires ValidIn(i)
    ensures ReadIn(WriteIn(i) + rest) == Give(i, rest)
  {
    Widths();
    var afterSequence := LittleEndian(i.sequence, 4) + rest;
    var afterScript := Sized(i.scriptSig) + afterSequence;
    var afterTxid := LittleEndian(i.n, 4) + afterScript;
    var s := WriteIn(i) + rest;
    assert s == i.txid + afterTxid;
    assert s[..32] == i.txid && s[32..] == afterTxid;
    IntReadsBack(i.n, 4, afterScript);
    SizedReadsBack(i.scriptSig, afterSequence);
    IntReadsBack(i.sequence, 4, rest);
  }

  // ----- lists -----

  function WriteAll<T>(items: seq<T>, write: T -> Bytes): Bytes {
    if items == [] then [] else WriteAll(items[..|items| - 1], write) + write(items[|items| - 1])
  }

  function ReadMany<T>(s: Bytes, n: nat, read: Bytes -> Read<T>): Read<seq<T>>
    decreases n
  {
    if n == 0 then Give([], s)
    else
      var before :- ReadMany(s, n - 1, read);
      var last :- read(before.rest);
      Give(before.value + [last.value], last.rest)
  }

  ghost predicate ReadsBack<T>(item: T, write: T -> Bytes, read: Bytes -> Read<T>) {
    forall rest: Bytes :: read(write(item) + rest) == Give(item, rest)
  }

  lemma {:induction false} ManyReadBack<T>(items: seq<T>, write: T -> Bytes, read: Bytes -> Read<T>, rest: Bytes)
    requires forall i :: 0 <= i < |items| ==> ReadsBack(items[i], write, read)
    ensures ReadMany(WriteAll(items, write) + rest, |items|, read) == Give(items, rest)
    decreases |items|
  {
    if items == [] {
      assert WriteAll(items, write) + rest == rest;
    } else {
      var before, last := items[..|items| - 1], items[|items| - 1];
      assert WriteAll(items, write) + rest == WriteAll(before, write) + (write(last) + rest);
      ManyReadBack(before, write, read, write(last) + rest);
      assert ReadsBack(items[|items| - 1], write, read);
      assert before + [last] == items;
    }
  }

  lemma {:induction false} FirstComesFirst<T>(items: seq<T>, write: T -> Bytes)
    requires items != []
    ensures WriteAll(items, write) == write(items[0]) + WriteAll(items[1..], write)
    decreases |items|
  {
    var before, last := items[..|items| - 1], items[|items| - 1];
    if before == [] {
      assert WriteAll(before, write) == [] && items[1..] == [];
    } else {
      FirstComesFirst(before, write);
      assert items[1..][..|items| - 2] == before[1..];
    }
  }

  /** Every output that can be written: any script of a 64-bit length. */
  predicate WritableOut(o: TxOut) {
    o.value <= MAX_MONEY && |o.script| < U64_END
  }

  /** No written output is the beginning of another. */
  lemma OutIsPrefixFree(a: TxOut, b: TxOut, restA: Bytes, restB: Bytes)
    requires WritableOut(a) && WritableOut(b) && WriteOut(a) + restA == WriteOut(b) + restB
    ensures a == b && restA == restB
  {
    Widths();
    hide LittleEndian, FromLittleEndian, Power256, CompactSize, ReadSizeUpTo;
    var afterSizeA, afterSizeB := a.script + restA, b.script + restB;
    var afterValueA, afterValueB := CompactSize(|a.script|) + afterSizeA, CompactSize(|b.script|) + afterSizeB;
    assert WriteOut(a) + restA == LittleEndian(a.value, 8) + afterValueA;
    assert WriteOut(b) + restB == LittleEndian(b.value, 8) + afterValueB;
    IntReadsBack(a.value, 8, afterValueA);
    IntReadsBack(b.value, 8, afterValueB);
    SizeReadsBack(|a.script|, U64_END, afterSizeA);
    SizeReadsBack(|b.script|, U64_END, afterSizeB);
    assert afterSizeA[..|a.script|] == a.script && afterSizeA[|a.script|..] == restA;
    assert afterSizeB[..|b.script|] == b.script && afterSizeB[|b.script|..] == restB;
  }

  /** Concatenated outputs can be told apart: two lists with the same bytes are the same list. */
  lemma {:induction false} OutputsAreUniquelyDecodable(xs: seq<TxOut>, ys: seq<TxOut>)
    requires forall x :: x in xs ==> WritableOut(x)
    requires forall y :: y in ys ==> WritableOut(y)
    requires WriteAll(xs, WriteOut) == WriteAll(ys, WriteOut)
    ensures xs == ys
    decreases |xs|
  {
    hide WriteOut, LittleEndian, FromLittleEndian, Power256, CompactSize, ReadSizeUpTo;
    EmptyMeansEmpty(xs);
    EmptyMeansEmpty(ys);
    if xs != [] {
      FirstComesFirst(xs, WriteOut);
      FirstComesFirst(ys, WriteOut);
      OutIsPrefixFree(xs[0], ys[0], WriteAll(xs[1..], WriteOut), WriteAll(ys[1..], WriteOut));
      OutputsAreUniquelyDecodable(xs[1..], ys[1..]);
      assert xs == [xs[0]] + xs[1..] && ys == [ys[0]] + ys[1..];
    }
  }

  lemma EmptyMeansEmpty(outputs: seq<TxOut>)
    ensures WriteAll(outputs, WriteOut) == [] <==> outputs == []
  {
    assert outputs != [] ==> |WriteOut(outputs[|outputs| - 1])| >= 8;
  }
}
