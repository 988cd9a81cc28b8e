/** The messages of multiv.proto, their encoding, and their decoding field by field.

    google.protobuf.Any and ibc.core.client.v1.Height, which multiv.proto imports, are written from
    their published definitions, with the same field reader. */
module Messages {
  import opened Options
  import opened Wire

  datatype Any = Any(typeUrl: bytes, value: bytes)
  datatype Height = Height(revisionNumber: uint64, revisionHeight: uint64)
  datatype Proof = Proof(
    clientProof: bytes, clientState: Option<Any>,
    consensusProof: bytes, consensusState: Option<Any>,
    proofHeight: Height, consensusHeight: Height)
  datatype LeafProof = LeafProof(proof: bytes, proofHeight: Height)
  datatype MultiProof = MultiProof(head: Proof, branches: seq<Proof>, leaf: LeafProof)
  datatype MultiVState = MultiVState(underlying: Option<Any>, depth: uint32)

  const ZERO_ANY := Any([], [])
  const ZERO_HEIGHT := Height(0, 0)
  const ZERO_PROOF := Proof([], None, [], None, ZERO_HEIGHT, ZERO_HEIGHT)
  const ZERO_LEAF := LeafProof([], ZERO_HEIGHT)
  const ZERO_MULTI_PROOF := MultiProof(ZERO_PROOF, [], ZERO_LEAF)
  const ZERO_MULTIV_STATE := MultiVState(None, 0)

  datatype Message =
    | AnyM(any: Any)
    | HeightM(height: Height)
    | ProofM(proof: Proof)
    | LeafM(leaf: LeafProof)
    | MultiProofM(multi: MultiProof)
    | ClientM(client: MultiVState)

  datatype Schema = AnyS | HeightS | ProofS | LeafS | MultiProofS | ClientS

  function SchemaOf(m: Message): Schema {
    match m
    case AnyM(_) => AnyS
    case HeightM(_) => HeightS
    case ProofM(_) => ProofS
    case LeafM(_) => LeafS
    case MultiProofM(_) => MultiProofS
    case ClientM(_) => ClientS
  }

  // ---- encoding ----

  function BytesField(field: nat, p: bytes): bytes {
    TagBytes(field, 2) + BlobBytes(p)
  }

  function NumberField(field: nat, v: uint64): bytes {
    TagBytes(field, 0) + VarintBytes(v)
  }

  // proto3 leaves out a field that has its zero value ...
  function OptBytes(field: nat, p: bytes): bytes {
    if p == [] then [] else BytesField(field, p)
  }

  function OptNumber(field: nat, v: uint64): bytes {
    if v == 0 then [] else NumberField(field, v)
  }

  // ... and a message field that is nil
  function OptAny(field: nat, a: Option<Any>): bytes {
    match a
    case None => []
    case Some(any) => BytesField(field, EncodeAny(any))
  }

  function EncodeAny(a: Any): bytes {
    OptBytes(1, a.typeUrl) + OptBytes(2, a.value)
  }

  function EncodeHeight(h: Height): bytes {
    OptNumber(1, h.revisionNumber) + OptNumber(2, h.revisionHeight)
  }

  function EncodeProof(p: Proof): bytes {
    OptBytes(1, p.clientProof) + OptAny(2, p.clientState)
    + OptBytes(3, p.consensusProof) + OptAny(4, p.consensusState)
    + BytesField(5, EncodeHeight(p.proofHeight)) + BytesField(6, EncodeHeight(p.consensusHeight))
  }

  function EncodeLeaf(l: LeafProof): bytes {
    OptBytes(1, l.proof) + BytesField(2, EncodeHeight(l.proofHeight))
  }

  function EncodeBranches(bs: seq<Proof>): bytes {
    if bs == [] then [] else BytesField(2, EncodeProof(bs[0])) + EncodeBranches(bs[1..])
  }

  function EncodeMultiProof(m: MultiProof): bytes {
    BytesField(1, EncodeProof(m.head)) + EncodeBranches(m.branches) + BytesField(3, EncodeLeaf(m.leaf))
  }

  function EncodeMultiVState(c: MultiVState): bytes {
    OptAny(1, c.underlying) + OptNumber(2, c.depth)
  }

  // ---- decoding ----

  datatype Kind = Blobs | Numbers | Unknowns

  function KindOf(schema: Schema, field: int): Kind {
    match schema
    case AnyS => if 1 <= field <= 2 then Blobs else Unknowns
    case HeightS => if 1 <= field <= 2 then Numbers else Unknowns
    case ProofS => if 1 <= field <= 6 then Blobs else Unknowns
    case LeafS => if 1 <= field <= 2 then Blobs else Unknowns
    case MultiProofS => if 1 <= field <= 3 then Blobs else Unknowns
    case ClientS => if field == 1 then Blobs else if field == 2 then Numbers else Unknowns
  }

  datatype Field = BlobF(field: int, payload: bytes) | NumberF(field: int, v: uint64) | UnknownF

  function FieldSize(f: Field): nat {
    if f.BlobF? then |f.payload| else 0
  }

  datatype Token = Token(f: Field, size: nat)

  /** The field at the front of s. A known field must have its declared wire type; an unknown one is
      skipped, tag included. */
  function ReadField(schema: Schema, s: bytes): (r: Option<Token>)
    ensures r.Some? ==> 1 <= r.value.size <= |s| && FieldSize(r.value.f) < |s|
  {
    var tag :- ReadTag(s);
    match KindOf(schema, tag.field)
    case Blobs =>
      if tag.wire != 2 then None else
      var b :- ReadBlob(s[tag.size..]);
      Some(Token(BlobF(tag.field, b.payload), tag.size + b.size))
    case Numbers =>
      if tag.wire != 0 then None else
      var n :- VarintLen(s[tag.size..]);
      Some(Token(NumberF(tag.field, VarintValue(s[tag.size..], n)), tag.size + n))
    case Unknowns =>
      var n :- Skip(s, 0);
      Some(Token(UnknownF, n))
  }

  // A message field merges into what is there; a nil one starts from zero.

  function MergeAny(a: Option<Any>, payload: bytes): Option<Option<Any>>
    decreases |payload|, 1
  {
    var r :- Decode(AnyM(if a.None? then ZERO_ANY else a.value), payload);
    Some(Some(r.any))
  }

  function MergeHeight(h: Height, payload: bytes): Option<Height>
    decreases |payload|, 1
  {
    var r :- Decode(HeightM(h), payload);
    Some(r.height)
  }

  function MergeProof(p: Proof, payload: bytes): Option<Proof>
    decreases |payload|, 1
  {
    var r :- Decode(ProofM(p), payload);
    Some(r.proof)
  }

  function MergeLeaf(l: LeafProof, payload: bytes): Option<LeafProof>
    decreases |payload|, 1
  {
    var r :- Decode(LeafM(l), payload);
    Some(r.leaf)
  }

  function ApplyProof(p: Proof, field: int, payload: bytes): Option<Proof>
    decreases |payload|, 2
  {
    match field
    case 1 => Some(p.(clientProof := payload))
    case 2 => var a :- MergeAny(p.clientState, payload); Some(p.(clientState := a))
    case 3 => Some(p.(consensusProof := payload))
    case 4 => var a :- MergeAny(p.consensusState, payload); Some(p.(consensusState := a))
    case 5 => var h :- MergeHeight(p.proofHeight, payload); Some(p.(proofHeight := h))
    case 6 => var h :- MergeHeight(p.consensusHeight, payload); Some(p.(consensusHeight := h))
    case _ => None
  }

  function ApplyLeaf(l: LeafProof, field: int, payload: bytes): Option<LeafProof>
    decreases |payload|, 2
  {
    match field
    case 1 => Some(l.(proof := payload))
    case 2 => var h :- MergeHeight(l.proofHeight, payload); Some(l.(proofHeight := h))
    case _ => None
  }

  function ApplyMultiProof(m: MultiProof, field: int, payload: bytes): Option<MultiProof>
    decreases |payload|, 2
  {
    match field
    case 1 => var p :- MergeProof(m.head, payload); Some(m.(head := p))
    case 2 => var p :- MergeProof(ZERO_PROOF, payload); Some(m.(branches := m.branches + [p]))
    case 3 => var l :- MergeLeaf(m.leaf, payload); Some(m.(leaf := l))
    case _ => None
  }

  /** What one field does to a message: bytes and numbers replace, messages merge, branches append. */
  function Apply(m: Message, f: Field): (r: Option<Message>)
    ensures r.Some? ==> SchemaOf(r.value) == SchemaOf(m)
    decreases FieldSize(f), 3
  {
    match (m, f)
    case (_, UnknownF) => Some(m)
    case (AnyM(a), BlobF(1, p)) => Some(AnyM(a.(typeUrl := p)))
    case (AnyM(a), BlobF(2, p)) => Some(AnyM(a.(value := p)))
    case (HeightM(h), NumberF(1, v)) => Some(HeightM(h.(revisionNumber := v)))
    case (HeightM(h), NumberF(2, v)) => Some(HeightM(h.(revisionHeight := v)))
    case (ProofM(x), BlobF(n, p)) => var y :- ApplyProof(x, n, p); Some(ProofM(y))
    case (LeafM(x), BlobF(n, p)) => var y :- ApplyLeaf(x, n, p); Some(LeafM(y))
    case (MultiProofM(x), BlobF(n, p)) => var y :- ApplyMultiProof(x, n, p); Some(MultiProofM(y))
    case (ClientM(c), BlobF(1, p)) => var a :- MergeAny(c.underlying, p); Some(ClientM(c.(underlying := a)))
    case (ClientM(c), NumberF(2, v)) => Some(ClientM(c.(depth := v % 0x1_0000_0000)))
    case _ => None
  }

  /** Unmarshal into m: field after field until the bytes are used up. */
  function Decode(m: Message, s: bytes): (r: Option<Message>)
    ensures r.Some? ==> SchemaOf(r.value) == SchemaOf(m)
    decreases |s|, 0
  {
    if s == [] then Some(m) else
    var t :- ReadField(SchemaOf(m), s);
    var m' :- Apply(m, t.f);
    Decode(m', s[t.size..])
  }

  // ---- concatenation is merging ----

  lemma FieldLocal(schema: Schema, s: bytes, t: bytes)
    requires ReadField(schema, s).Some?
    ensures ReadField(schema, s + t) == ReadField(schema, s)
  {
    hide ReadTag, ReadBlob, VarintLen, VarintValue, Skip;
    TagLocal(s, t);
    var tag := ReadTag(s).value;
    assert (s + t)[tag.size..] == s[tag.size..] + t;
    match KindOf(schema, tag.field) {
      case Blobs => BlobLocal(s[tag.size..], t);
      case Numbers => VarintLocal(s[tag.size..], t);
      case Unknowns => SkipLocal(s, 0, t);
    }
  }

  lemma DecodeNothing(m: Message)
    ensures Decode(m, []) == Some(m)
  {
  }

  lemma DecodeUnfold(m: Message, s: bytes)
    requires s != []
    ensures Decode(m, s).Some? ==>
              ReadField(SchemaOf(m), s).Some? && Apply(m, ReadField(SchemaOf(m), s).value.f).Some?
    ensures ReadField(SchemaOf(m), s).Some? ==>
              var t := ReadField(SchemaOf(m), s).value;
              Decode(m, s) == match Apply(m, t.f)
                              case None => None
                              case Some(m') => Decode(m', s[t.size..])
  {
    hide ReadField, Apply;
  }

  /** Decoding a concatenation is decoding the first part and then the second INTO the result. */
  lemma {:induction false} DecodeConcat(m: Message, s: bytes, t: bytes)
    requires Decode(m, s).Some?
    ensures Decode(m, s + t) == Decode(Decode(m, s).value, t)
    decreases |s|
  {
    hide ReadField, Apply;
    if s == [] {
      assert s + t == t;
    } else {
      DecodeUnfold(m, s);
      DecodeUnfold(m, s + t);
      FieldLocal(SchemaOf(m), s, t);
      var tok := ReadField(SchemaOf(m), s).value;
      assert (s + t)[tok.size..] == s[tok.size..] + t;
      DecodeConcat(Apply(m, tok.f).value, s[tok.size..], t);
    }
  }

  /** A known length-delimited field, decoded after anything that decodes. */
  lemma DecodeBytesField(m0: Message, s: bytes, m: Message, field: nat, p: bytes)
    requires Decode(m0, s) == Some(m)
    requires 1 <= field < 0x2000_0000 && KindOf(SchemaOf(m), field) == Blobs && |p| <= MAX_INT
    ensures Decode(m0, s + BytesField(field, p)) == Apply(m, BlobF(field, p))
  {
    hide ReadTag, ReadBlob, Apply, BlobBytes, TagBytes;
    DecodeConcat(m0, s, BytesField(field, p));
    TagRoundTrip(field, 2, BlobBytes(p));
    BlobRoundTrip(p, []);
    var f := BytesField(field, p);
    assert f[|TagBytes(field, 2)|..] == BlobBytes(p) == BlobBytes(p) + [];
    assert f[|f|..] == [];
    DecodeUnfold(m, f);
  }

  lemma DecodeNumberField(m0: Message, s: bytes, m: Message, field: nat, v: uint64)
    requires Decode(m0, s) == Some(m)
    requires 1 <= field < 0x2000_0000 && KindOf(SchemaOf(m), field) == Numbers
    ensures Decode(m0, s + NumberField(field, v)) == Apply(m, NumberF(field, v))
  {
    hide ReadTag, VarintLen, VarintValue, Apply, VarintBytes, TagBytes;
    DecodeConcat(m0, s, NumberField(field, v));
    TagRoundTrip(field, 0, VarintBytes(v));
    VarintRoundTrip(v, []);
    var f := NumberField(field, v);
    assert f[|TagBytes(field, 0)|..] == VarintBytes(v) == VarintBytes(v) + [];
    assert f[|f|..] == [];
    DecodeUnfold(m, f);
  }
}
