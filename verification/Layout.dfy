/** The messages byte by byte: which tag bytes the encoder writes and in which order, and what the
    decoder does with a field that comes twice or with the wrong type. */
module Layout {
  import opened Options
  import opened Wire
  import opened Messages
  import opened RoundTrip

  lemma TagIs(field: nat, wire: nat)
    requires field < 16 && wire < 8
    ensures TagBytes(field, wire) == [field * 8 + wire]
  {
  }

  /** A tag byte, a length and the bytes. */
  function Tagged(tag: byte, p: bytes): bytes {
    [tag] + BlobBytes(p)
  }

  function TaggedAny(tag: byte, a: Option<Any>): bytes {
    if a.None? then [] else Tagged(tag, EncodeAny(a.value))
  }

  lemma BytesFieldIs(field: nat, p: bytes)
    requires 1 <= field < 16
    ensures BytesField(field, p) == Tagged(field * 8 + 2, p)
    ensures OptBytes(field, p) == if |p| > 0 then Tagged(field * 8 + 2, p) else []
  {
    hide BlobBytes, TagBytes;
    TagIs(field, 2);
  }

  lemma AnyFieldIs(field: nat, a: Option<Any>)
    requires 1 <= field < 16
    ensures OptAny(field, a) == TaggedAny(field * 8 + 2, a)
  {
    hide EncodeAny, BytesField, Tagged;
    if a.Some? { BytesFieldIs(field, EncodeAny(a.value)); }
  }

  lemma NumberFieldIs(field: nat, v: uint64)
    requires 1 <= field < 16
    ensures OptNumber(field, v) == if v != 0 then [field * 8] + VarintBytes(v) else []
  {
    hide VarintBytes, TagBytes;
    TagIs(field, 0);
  }

  /** Fields in ascending order of their numbers; bytes, numbers and nil messages only if not zero, the
      messages that are not nullable always. */
  lemma ProofLayout(p: Proof)
    ensures EncodeProof(p) ==
            (if |p.clientProof| > 0 then Tagged(0x0a, p.clientProof) else [])
            + TaggedAny(0x12, p.clientState)
            + (if |p.consensusProof| > 0 then Tagged(0x1a, p.consensusProof) else [])
            + TaggedAny(0x22, p.consensusState)
            + Tagged(0x2a, EncodeHeight(p.proofHeight))
            + Tagged(0x32, EncodeHeight(p.consensusHeight))
  {
    hide OptBytes, OptAny, BytesField, Tagged, TaggedAny, EncodeHeight;
    BytesFieldIs(1, p.clientProof);
    AnyFieldIs(2, p.clientState);
    BytesFieldIs(3, p.consensusProof);
    AnyFieldIs(4, p.consensusState);
    BytesFieldIs(5, EncodeHeight(p.proofHeight));
    BytesFieldIs(6, EncodeHeight(p.consensusHeight));
  }

  lemma LeafLayout(l: LeafProof)
    ensures EncodeLeaf(l) == (if |l.proof| > 0 then Tagged(0x0a, l.proof) else []) + Tagged(0x12, EncodeHeight(l.proofHeight))
  {
    hide OptBytes, BytesField, Tagged, EncodeHeight;
    BytesFieldIs(1, l.proof);
    BytesFieldIs(2, EncodeHeight(l.proofHeight));
  }

  function TaggedProofs(bs: seq<Proof>): bytes {
    if bs == [] then [] else Tagged(0x12, EncodeProof(bs[0])) + TaggedProofs(bs[1..])
  }

  lemma {:induction false} BranchesLayout(bs: seq<Proof>)
    ensures EncodeBranches(bs) == TaggedProofs(bs)
    decreases |bs|
  {
    hide EncodeProof, BytesField, Tagged;
    if bs != [] {
      BytesFieldIs(2, EncodeProof(bs[0]));
      BranchesLayout(bs[1..]);
    }
  }

  lemma MultiProofLayout(m: MultiProof)
    ensures EncodeMultiProof(m) ==
            Tagged(0x0a, EncodeProof(m.head)) + TaggedProofs(m.branches) + Tagged(0x1a, EncodeLeaf(m.leaf))
  {
    hide EncodeProof, EncodeLeaf, EncodeBranches, TaggedProofs, BytesField, Tagged;
    BytesFieldIs(1, EncodeProof(m.head));
    BranchesLayout(m.branches);
    BytesFieldIs(3, EncodeLeaf(m.leaf));
  }

  lemma ClientStateLayout(c: MultiVState)
    ensures EncodeMultiVState(c) == TaggedAny(0x0a, c.underlying) + (if c.depth != 0 then [0x10] + VarintBytes(c.depth) else [])
  {
    hide OptAny, OptNumber, TaggedAny, VarintBytes;
    AnyFieldIs(1, c.underlying);
    NumberFieldIs(2, c.depth);
  }

  /** Any and Height, as their own packages write them. */
  lemma ImportedLayout(a: Any, h: Height)
    ensures EncodeAny(a) == (if |a.typeUrl| > 0 then Tagged(0x0a, a.typeUrl) else [])
                            + (if |a.value| > 0 then Tagged(0x12, a.value) else [])
    ensures EncodeHeight(h) == (if h.revisionNumber != 0 then [0x08] + VarintBytes(h.revisionNumber) else [])
                               + (if h.revisionHeight != 0 then [0x10] + VarintBytes(h.revisionHeight) else [])
  {
    hide OptBytes, OptNumber, Tagged, VarintBytes;
    BytesFieldIs(1, a.typeUrl);
    BytesFieldIs(2, a.value);
    NumberFieldIs(1, h.revisionNumber);
    NumberFieldIs(2, h.revisionHeight);
  }

  // ---- what decoders refuse ----

  /** The wire type that a message wants for a field: 2 but for the numbers; None for unknown fields. */
  function Wanted(s: Schema, field: nat): Option<nat> {
    match s
    case AnyS => if field == 1 || field == 2 then Some(2) else None
    case HeightS => if field == 1 || field == 2 then Some(0) else None
    case ProofS => if 1 <= field <= 6 then Some(2) else None
    case LeafS => if field == 1 || field == 2 then Some(2) else None
    case MultiProofS => if 1 <= field <= 3 then Some(2) else None
    case ClientS => if field == 1 then Some(2) else if field == 2 then Some(0) else None
  }

  /** A known field with another wire type, an end of a group that was not begun, a wire type that does
      not exist, and the field number 0 are refused, whatever follows. */
  lemma Refused(m: Message, field: nat, wire: nat, rest: bytes)
    requires field < 0x2000_0000 && wire < 8
    requires field == 0 || wire == 4 || wire >= 6
             || (Wanted(SchemaOf(m), field).Some? && Wanted(SchemaOf(m), field) != Some(wire))
    ensures Decode(m, TagBytes(field, wire) + rest) == None
  {
    hide Decode, ReadField, Apply, TagBytes;
    FieldRefused(SchemaOf(m), field, wire, rest);
    DecodeUnfold(m, TagBytes(field, wire) + rest);
  }

  lemma FieldRefused(schema: Schema, field: nat, wire: nat, rest: bytes)
    requires field < 0x2000_0000 && wire < 8
    requires field == 0 || wire == 4 || wire >= 6 || (Wanted(schema, field).Some? && Wanted(schema, field) != Some(wire))
    ensures TagBytes(field, wire) + rest != [] && ReadField(schema, TagBytes(field, wire) + rest) == None
  {
    hide VarintBytes, VarintLen, VarintValue, ReadBlob, Skip;
    var s := TagBytes(field, wire) + rest;
    VarintRoundTrip(field * 8 + wire, rest);
    if wire >= 6 { NotSkipped(s, wire); }
  }

  lemma NotSkipped(s: bytes, wire: nat)
    requires wire >= 6 && VarintLen(s).Some? && VarintValue(s, VarintLen(s).value) % 8 == wire
    ensures Skip(s, 0) == None
  {
    hide VarintLen, VarintValue;
    SkipUnfold(s, 0);
  }

  /** So is a field number that is zero or negative as 32 bits, however many bits the tag has. */
  lemma RefusedNumber(m: Message, tag: uint64, rest: bytes)
    requires var number := tag / 8 % 0x1_0000_0000; number == 0 || number >= 0x8000_0000
    ensures Decode(m, VarintBytes(tag) + rest) == None
  {
    hide Decode, VarintBytes, VarintLen, VarintValue, ReadBlob, Skip, Apply;
    VarintRoundTrip(tag, rest);
    DecodeUnfold(m, VarintBytes(tag) + rest);
  }

  // ---- fields that come twice ----

  lemma AnyApplied(c: MultiVState, payload: bytes)
    ensures Apply(ClientM(c), BlobF(1, payload)) ==
            match MergeAny(c.underlying, payload) case None => None case Some(a) => Some(ClientM(c.(underlying := a)))
  {
    hide Decode, MergeAny;
  }

  lemma MergedAny(a: Option<Any>, payload: bytes, x: Any)
    requires Decode(AnyM(if a.None? then ZERO_ANY else a.value), payload) == Some(AnyM(x))
    ensures MergeAny(a, payload) == Some(Some(x))
  {
    hide ReadField, Apply;
  }

  lemma LeafApplied(l: LeafProof, payload: bytes)
    ensures Apply(LeafM(l), BlobF(1, payload)) == Some(LeafM(l.(proof := payload)))
  {
    hide Decode;
  }

  /** A message field that comes twice is merged: as if its payloads were one after the other. */
  lemma RepeatedAny(a: bytes, b: bytes, x: Any)
    requires |a| <= MAX_INT && |b| <= MAX_INT
    requires Decode(AnyM(ZERO_ANY), a).Some? && Decode(AnyM(ZERO_ANY), a + b) == Some(AnyM(x))
    ensures Decode(ClientM(ZERO_MULTIV_STATE), Tagged(0x0a, a) + Tagged(0x0a, b)) == Some(ClientM(MultiVState(Some(x), 0)))
  {
    hide Decode, Tagged, Apply, MergeAny, BytesField;
    var m0, s0: bytes := ClientM(ZERO_MULTIV_STATE), [];
    BytesFieldIs(1, a);
    BytesFieldIs(1, b);
    DecodeNothing(m0);
    DecodeConcat(AnyM(ZERO_ANY), a, b);
    DecodeBytesField(m0, s0, m0, 1, a);
    assert s0 + BytesField(1, a) == BytesField(1, a);
    var first := Decode(AnyM(ZERO_ANY), a).value.any;
    MergedAny(None, a, first);
    MergedAny(Some(first), b, x);
    AnyApplied(ZERO_MULTIV_STATE, a);
    AnyApplied(MultiVState(Some(first), 0), b);
    DecodeBytesField(m0, BytesField(1, a), ClientM(MultiVState(Some(first), 0)), 1, b);
  }

  lemma HeadApplied(m: MultiProof, payload: bytes)
    ensures Apply(MultiProofM(m), BlobF(1, payload)) ==
            match MergeProof(m.head, payload) case None => None case Some(p) => Some(MultiProofM(m.(head := p)))
  {
    hide Decode, MergeProof;
  }

  lemma BranchApplied(m: MultiProof, payload: bytes)
    ensures Apply(MultiProofM(m), BlobF(2, payload)) ==
            match MergeProof(ZERO_PROOF, payload)
            case None => None
            case Some(p) => Some(MultiProofM(m.(branches := m.branches + [p])))
  {
    hide Decode, MergeProof;
  }

  lemma MergedProof(p: Proof, payload: bytes, x: Proof)
    requires Decode(ProofM(p), payload) == Some(ProofM(x))
    ensures MergeProof(p, payload) == Some(x)
  {
    hide ReadField, Apply;
  }

  lemma RepeatedHead(a: bytes, b: bytes, x: Proof)
    requires |a| <= MAX_INT && |b| <= MAX_INT
    requires Decode(ProofM(ZERO_PROOF), a).Some? && Decode(ProofM(ZERO_PROOF), a + b) == Some(ProofM(x))
    ensures Decode(MultiProofM(ZERO_MULTI_PROOF), Tagged(0x0a, a) + Tagged(0x0a, b))
            == Some(MultiProofM(ZERO_MULTI_PROOF.(head := x)))
  {
    hide Decode, Tagged, Apply, MergeProof, BytesField;
    var m0, s0: bytes := MultiProofM(ZERO_MULTI_PROOF), [];
    BytesFieldIs(1, a);
    BytesFieldIs(1, b);
    DecodeNothing(m0);
    DecodeConcat(ProofM(ZERO_PROOF), a, b);
    DecodeBytesField(m0, s0, m0, 1, a);
    assert s0 + BytesField(1, a) == BytesField(1, a);
    var first := Decode(ProofM(ZERO_PROOF), a).value.proof;
    MergedProof(ZERO_PROOF, a, first);
    HeadApplied(ZERO_MULTI_PROOF, a);
    MergedProof(first, b, x);
    HeadApplied(ZERO_MULTI_PROOF.(head := first), b);
    DecodeBytesField(m0, BytesField(1, a), MultiProofM(ZERO_MULTI_PROOF.(head := first)), 1, b);
  }

  /** Branches that come one after the other are each a branch of their own. */
  lemma RepeatedBranch(a: bytes, b: bytes, x: Proof, y: Proof)
    requires |a| <= MAX_INT && |b| <= MAX_INT
    requires Decode(ProofM(ZERO_PROOF), a) == Some(ProofM(x)) && Decode(ProofM(ZERO_PROOF), b) == Some(ProofM(y))
    ensures Decode(MultiProofM(ZERO_MULTI_PROOF), Tagged(0x12, a) + Tagged(0x12, b))
            == Some(MultiProofM(ZERO_MULTI_PROOF.(branches := [x, y])))
  {
    hide Decode, Tagged, Apply, MergeProof, BytesField;
    var m0, s0: bytes := MultiProofM(ZERO_MULTI_PROOF), [];
    MergedProof(ZERO_PROOF, a, x);
    MergedProof(ZERO_PROOF, b, y);
    BranchApplied(ZERO_MULTI_PROOF, a);
    BranchApplied(ZERO_MULTI_PROOF.(branches := [x]), b);
    assert ZERO_MULTI_PROOF.branches + [x] == [x] && [x] + [y] == [x, y];
    BytesFieldIs(2, a);
    BytesFieldIs(2, b);
    DecodeNothing(m0);
    DecodeBytesField(m0, s0, m0, 2, a);
    assert s0 + BytesField(2, a) == BytesField(2, a);
    DecodeBytesField(m0, BytesField(2, a), MultiProofM(ZERO_MULTI_PROOF.(branches := [x])), 2, b);
  }

  /** Of bytes that come twice the last ones stay. */
  lemma RepeatedBytes(a: bytes, b: bytes)
    requires |a| <= MAX_INT && |b| <= MAX_INT
    ensures Decode(LeafM(ZERO_LEAF), Tagged(0x0a, a) + Tagged(0x0a, b)) == Some(LeafM(LeafProof(b, ZERO_HEIGHT)))
  {
    hide Decode, Tagged, Apply, BytesField;
    var m0, s0: bytes := LeafM(ZERO_LEAF), [];
    LeafApplied(ZERO_LEAF, a);
    LeafApplied(LeafProof(a, ZERO_HEIGHT), b);
    BytesFieldIs(1, a);
    BytesFieldIs(1, b);
    DecodeNothing(m0);
    DecodeBytesField(m0, s0, m0, 1, a);
    assert s0 + BytesField(1, a) == BytesField(1, a);
    DecodeBytesField(m0, BytesField(1, a), LeafM(LeafProof(a, ZERO_HEIGHT)), 1, b);
  }
}
