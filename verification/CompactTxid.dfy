/**
 * The txid of ZIP 244 recomputed from 32-byte digests and the full list of transparent outputs
 * (contracts/satoshi-bridge/src/zcash_utils/compact_txid.rs). The hash is any function with 32-byte results.
 */
module CompactTxid {
  import opened Wrappers
  import opened ZcashEncoding

  /** BLAKE2b-256 by personalization and data. */
  type Hash = (Bytes, Bytes) -> Bytes

  ghost predicate Gives32Bytes(h: Hash) {
    forall personal, data :: |h(personal, data)| == 32
  }

  function Ascii(text: string): (r: Bytes)
    requires forall i :: 0 <= i < |text| ==> text[i] as int < 256
    ensures |r| == |text|
  {
    seq(|text|, i requires 0 <= i < |text| => text[i] as int)
  }

  const TX_PREFIX: Bytes := Ascii("ZcashTxHash_")
  const TRANSPARENT: Bytes := Ascii("ZTxIdTranspaHash")
  const OUTPUTS: Bytes := Ascii("ZTxIdOutputsHash")
  const V5_TX_VERSION_HEADER: nat := 0x8000_0005
  const V6_TX_VERSION_HEADER: nat := 0x8000_0006

  /** The proof a relayer sends: digests of what the bridge does not inspect, and the outputs. */
  datatype Proof = Proof(
    versionHeader: nat,
    branchId: nat,
    header: Bytes,
    prevouts: Bytes,
    sequence: Bytes,
    sapling: Bytes,
    orchard: Bytes,
    ironwood: Option<Bytes>,
    outputs: seq<TxOut>)

  /** What the program's types can hold. */
  ghost predicate Representable(p: Proof) {
    && p.versionHeader < U32_END && p.branchId < U32_END
    && forall o :: o in p.outputs ==> |o.script| < U64_END
  }

  predicate DigestsHaveSize(p: Proof) {
    && |p.header| == 32 && |p.prevouts| == 32 && |p.sequence| == 32 && |p.sapling| == 32 && |p.orchard| == 32
    && (p.ironwood.Some? ==> |p.ironwood.value| == 32)
  }

  /** Exactly what the contract accepts; anything else panics. */
  predicate Acceptable(p: Proof) {
    && DigestsHaveSize(p)
    && p.outputs != []
    && (forall o :: o in p.outputs ==> o.value <= MAX_MONEY)
    && (|| (p.versionHeader == V5_TX_VERSION_HEADER && p.ironwood.None?)
        || (p.versionHeader == V6_TX_VERSION_HEADER && p.ironwood.Some?))
  }

  // ----- the tree of hashes -----

  function OutputsDigest(h: Hash, outputs: seq<TxOut>): Bytes {
    h(OUTPUTS, WriteAll(outputs, WriteOut))
  }

  function TransparentData(h: Hash, p: Proof): Bytes {
    p.prevouts + p.sequence + OutputsDigest(h, p.outputs)
  }

  function RootPersonal(branchId: nat): Bytes {
    TX_PREFIX + LittleEndian(branchId, 4)
  }

  function RootData(h: Hash, p: Proof): Bytes {
    p.header + h(TRANSPARENT, TransparentData(h, p)) + p.sapling + p.orchard + IronwoodPart(p)
  }

  function IronwoodPart(p: Proof): Bytes {
    if p.ironwood.Some? then p.ironwood.value else []
  }

  function Txid(h: Hash, p: Proof): Bytes {
    h(RootPersonal(p.branchId), RootData(h, p))
  }

  // ----- the same as the tree of ZIP 244 -----

  /** A node of the tree: given bytes, or the hash of all its children under a personalization. */
  datatype Node = Leaf(bytes: Bytes) | Hashed(personal: Bytes, children: seq<Node>)

  function Digest(h: Hash, n: Node): Bytes {
    match n
    case Leaf(bytes) => bytes
    case Hashed(personal, children) => h(personal, Digests(h, children))
  }

  function Digests(h: Hash, nodes: seq<Node>): Bytes {
    if nodes == [] then [] else Digest(h, nodes[0]) + Digests(h, nodes[1..])
  }

  function OutputsNode(outputs: seq<TxOut>): Node {
    Hashed(Ascii("ZTxIdOutputsHash"), seq(|outputs|, i requires 0 <= i < |outputs| => Leaf(WriteOut(outputs[i]))))
  }

  function TransparentNode(p: Proof): Node {
    Hashed(Ascii("ZTxIdTranspaHash"), [Leaf(p.prevouts), Leaf(p.sequence), OutputsNode(p.outputs)])
  }

  function IronwoodNodes(p: Proof): seq<Node> {
    if p.ironwood.Some? then [Leaf(p.ironwood.value)] else []
  }

  /** Section "TxId Digest" of ZIP 244: T.2 has prevouts, sequence and outputs, the root T.1 to T.4; ZIP 229 adds a fifth. */
  function TxidTree(p: Proof): Node {
    Hashed(Ascii("ZcashTxHash_") + LittleEndian(p.branchId, 4),
           [Leaf(p.header), TransparentNode(p), Leaf(p.sapling), Leaf(p.orchard)] + IronwoodNodes(p))
  }

  lemma {:induction false} OutputLeaves(h: Hash, outputs: seq<TxOut>, nodes: seq<Node>)
    requires |nodes| == |outputs| && forall i :: 0 <= i < |outputs| ==> nodes[i] == Leaf(WriteOut(outputs[i]))
    ensures Digests(h, nodes) == WriteAll(outputs, WriteOut)
  {
    if outputs == [] {
    } else {
      OutputLeaves(h, outputs[1..], nodes[1..]);
      FirstComesFirst(outputs, WriteOut);
    }
  }

  lemma FirstDigest(h: Hash, n: Node, rest: seq<Node>)
    ensures Digests(h, [n] + rest) == Digest(h, n) + Digests(h, rest)
  {
    assert ([n] + rest)[1..] == rest;
  }

  lemma DigestsOfThree(h: Hash, a: Node, b: Node, c: Node)
    ensures Digests(h, [a, b, c]) == Digest(h, a) + Digest(h, b) + Digest(h, c)
  {
    FirstDigest(h, c, []);
    FirstDigest(h, b, [c]);
    FirstDigest(h, a, [b, c]);
    assert [c] + [] == [c] && [b] + [c] == [b, c] && [a] + [b, c] == [a, b, c];
    hide Digests, Digest;
    assert Digests(h, [c]) == Digest(h, c);
  }

  lemma DigestsOfRoot(h: Hash, a: Node, b: Node, c: Node, d: Node, rest: seq<Node>)
    ensures Digests(h, [a, b, c, d] + rest)
         == Digest(h, a) + Digest(h, b) + Digest(h, c) + Digest(h, d) + Digests(h, rest)
  {
    hide Digest, Digests;
    FirstDigest(h, d, rest);
    FirstDigest(h, c, [d] + rest);
    FirstDigest(h, b, [c] + ([d] + rest));
    FirstDigest(h, a, [b] + ([c] + ([d] + rest)));
    assert [a] + ([b] + ([c] + ([d] + rest))) == [a, b, c, d] + rest;
  }

  lemma TransparentDigest(h: Hash, p: Proof)
    ensures Digest(h, TransparentNode(p)) == h(TRANSPARENT, TransparentData(h, p))
  {
    hide Digests, WriteAll, WriteOut, LittleEndian, Ascii;
    var outputs := OutputsNode(p.outputs);
    OutputLeaves(h, p.outputs, outputs.children);
    DigestsOfThree(h, Leaf(p.prevouts), Leaf(p.sequence), outputs);
  }

  lemma IronwoodDigest(h: Hash, p: Proof)
    ensures Digests(h, IronwoodNodes(p)) == IronwoodPart(p)
  {
    if p.ironwood.Some? {
      assert IronwoodNodes(p)[1..] == [];
    }
  }

  /** The txid is the digest of the tree that ZIP 244 defines. */
  lemma TxidIsTheTree(h: Hash, p: Proof)
    ensures Txid(h, p) == Digest(h, TxidTree(p))
  {
    hide Digests, WriteAll, WriteOut, LittleEndian, Ascii, TransparentNode, IronwoodNodes, IronwoodPart, TransparentData;
    TransparentDigest(h, p);
    IronwoodDigest(h, p);
    DigestsOfRoot(h, Leaf(p.header), TransparentNode(p), Leaf(p.sapling), Leaf(p.orchard), IronwoodNodes(p));
  }

  // ----- the program -----

  method OutputsDigestOf(h: Hash, outputs: seq<TxOut>) returns (r: Option<Bytes>)
    ensures r == if forall o :: o in outputs ==> o.value <= MAX_MONEY then Some(OutputsDigest(h, outputs)) else None
  {
    hide WriteOut;
    var buf: Bytes := [];
    var i := 0;
    while i < |outputs|
      invariant 0 <= i <= |outputs|
      invariant buf == WriteAll(outputs[..i], WriteOut)
      invariant forall o :: o in outputs[..i] ==> o.value <= MAX_MONEY
    {
      assert outputs[i] in outputs && outputs[..i + 1] == outputs[..i] + [outputs[i]];
      if outputs[i].value > MAX_MONEY {
        return None;
      }
      buf := buf + WriteOut(outputs[i]);
      i := i + 1;
    }
    assert outputs[..i] == outputs;
    r := Some(h(OUTPUTS, buf));
  }

  /** One hash over the concatenation of the parts. */
  method Hash32(h: Hash, personal: Bytes, parts: seq<Bytes>) returns (r: Bytes)
    ensures r == h(personal, Joined(parts))
  {
    var state: Bytes := [];
    var i := 0;
    while i < |parts|
      invariant 0 <= i <= |parts|
      invariant state == Joined(parts[..i])
    {
      assert parts[..i + 1][..i] == parts[..i];
      state := state + parts[i];
      i := i + 1;
    }
    assert parts[..i] == parts;
    r := h(personal, state);
  }

  function Joined(parts: seq<Bytes>): Bytes {
    if parts == [] then [] else Joined(parts[..|parts| - 1]) + parts[|parts| - 1]
  }

  lemma JoinedTriple(a: Bytes, b: Bytes, c: Bytes)
    ensures Joined([a, b, c]) == a + b + c
  {
    assert [a][..0] == [] && Joined([a]) == a;
    assert [a, b][..1] == [a] && Joined([a, b]) == a + b;
    assert [a, b, c][..2] == [a, b];
  }

  lemma JoinedQuad(a: Bytes, b: Bytes, c: Bytes, d: Bytes)
    ensures Joined([a, b, c, d]) == a + b + c + d
  {
    assert [a, b, c, d][..3] == [a, b, c];
    JoinedTriple(a, b, c);
  }

  /** Accepts exactly the acceptable proofs, and gives the txid of the tree with the proof's own outputs. */
  method Resolve(h: Hash, p: Proof) returns (r: Option<Bytes>)
    ensures r == if Acceptable(p) then Some(Txid(h, p)) else None
  {
    if !DigestsHaveSize(p) || p.outputs == [] {
      return None;
    }
    var outputs := OutputsDigestOf(h, p.outputs);
    if outputs.None? {
      return None;
    }
    JoinedTriple(p.prevouts, p.sequence, outputs.value);
    var transparent := Hash32(h, TRANSPARENT, [p.prevouts, p.sequence, outputs.value]);
    var nodes := [p.header, transparent, p.sapling, p.orchard];
    JoinedQuad(p.header, transparent, p.sapling, p.orchard);
    if p.versionHeader == V5_TX_VERSION_HEADER {
      if p.ironwood.Some? {
        return None;
      }
      assert RootData(h, p) == Joined(nodes) + [] == Joined(nodes);
    } else if p.versionHeader == V6_TX_VERSION_HEADER {
      if p.ironwood.None? {
        return None;
      }
      var longer := nodes + [p.ironwood.value];
      assert longer[..|longer| - 1] == nodes && Joined(longer) == Joined(nodes) + p.ironwood.value;
      nodes := longer;
    } else {
      return None;
    }
    var txid := Hash32(h, RootPersonal(p.branchId), nodes);
    r := Some(txid);
  }

  // ----- what a txid binds -----

  datatype HashInput = HashInput(personal: Bytes, data: Bytes)

  /** The three inputs that are hashed for a proof. */
  function HashInputs(h: Hash, p: Proof): set<HashInput> {
    {HashInput(RootPersonal(p.branchId), RootData(h, p)), HashInput(TRANSPARENT, TransparentData(h, p)),
     HashInput(OUTPUTS, WriteAll(p.outputs, WriteOut))}
  }

  predicate Collide(h: Hash, x: HashInput, y: HashInput) {
    x != y && h(x.personal, x.data) == h(y.personal, y.data)
  }

  lemma SameRoot(h: Hash, a: Proof, b: Proof)
    requires Gives32Bytes(h) && Representable(a) && Representable(b) && Acceptable(a) && Acceptable(b)
    requires RootPersonal(a.branchId) == RootPersonal(b.branchId) && RootData(h, a) == RootData(h, b)
    ensures a == b.(prevouts := a.prevouts, sequence := a.sequence, outputs := a.outputs)
    ensures h(TRANSPARENT, TransparentData(h, a)) == h(TRANSPARENT, TransparentData(h, b))
  {
    Widths();
    IntegersRoundTrip(a.branchId, 4);
    IntegersRoundTrip(b.branchId, 4);
    hide LittleEndian, FromLittleEndian, Power256, WriteAll;
    assert RootPersonal(a.branchId)[12..] == LittleEndian(a.branchId, 4);
    assert RootPersonal(b.branchId)[12..] == LittleEndian(b.branchId, 4);
    var x, y := RootData(h, a), RootData(h, b);
    assert |x| == if a.ironwood.Some? then 160 else 128;
    assert |y| == if b.ironwood.Some? then 160 else 128;
    Chunks(a.header, h(TRANSPARENT, TransparentData(h, a)), a.sapling, a.orchard, IronwoodPart(a));
    Chunks(b.header, h(TRANSPARENT, TransparentData(h, b)), b.sapling, b.orchard, IronwoodPart(b));
  }

  lemma Chunks(a: Bytes, b: Bytes, c: Bytes, d: Bytes, e: Bytes)
    requires |a| == |b| == |c| == |d| == 32
    ensures var s := a + b + c + d + e;
      s[..32] == a && s[32..64] == b && s[64..96] == c && s[96..128] == d && s[128..] == e
  {
  }

  lemma SameTransparent(h: Hash, a: Proof, b: Proof)
    requires Gives32Bytes(h) && DigestsHaveSize(a) && DigestsHaveSize(b)
    requires TransparentData(h, a) == TransparentData(h, b)
    ensures a.prevouts == b.prevouts && a.sequence == b.sequence
    ensures OutputsDigest(h, a.outputs) == OutputsDigest(h, b.outputs)
  {
    hide WriteAll;
    var x, y := TransparentData(h, a), TransparentData(h, b);
    assert x[..32] == a.prevouts && x[32..64] == a.sequence && x[64..] == OutputsDigest(h, a.outputs);
    assert y[..32] == b.prevouts && y[32..64] == b.sequence && y[64..] == OutputsDigest(h, b.outputs);
  }

  /**
   * Two accepted proofs with the same txid are the same proof: version, branch, every digest, and the ordered
   * list of outputs. Otherwise two inputs hashed for them are found that differ and collide.
   */
  lemma TxidBindsProof(h: Hash, a: Proof, b: Proof) returns (x: HashInput, y: HashInput)
    requires Gives32Bytes(h) && Representable(a) && Representable(b) && Acceptable(a) && Acceptable(b)
    requires Txid(h, a) == Txid(h, b)
    ensures a == b || (Collide(h, x, y) && x in HashInputs(h, a) && y in HashInputs(h, b))
  {
    hide LittleEndian, WriteAll, RootPersonal, RootData, TransparentData;
    x := HashInput(RootPersonal(a.branchId), RootData(h, a));
    y := HashInput(RootPersonal(b.branchId), RootData(h, b));
    if x == y {
      SameRoot(h, a, b);
      x, y := HashInput(TRANSPARENT, TransparentData(h, a)), HashInput(TRANSPARENT, TransparentData(h, b));
      if x == y {
        SameTransparent(h, a, b);
        x, y := HashInput(OUTPUTS, WriteAll(a.outputs, WriteOut)), HashInput(OUTPUTS, WriteAll(b.outputs, WriteOut));
        if x == y {
          OutputsAreUniquelyDecodable(a.outputs, b.outputs);
        }
      }
    }
  }
}
