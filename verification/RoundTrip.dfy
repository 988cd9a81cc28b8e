/** Unmarshal after Marshal: every message of multiv.proto comes back, branches in order. */
module RoundTrip {
  import opened Options
  import opened Wire
  import opened Messages

  lemma FieldSizes(field: nat, p: bytes)
    ensures |p| <= |BytesField(field, p)| && |p| <= |OptBytes(field, p)|
  {
    hide VarintBytes;
  }

  lemma DecodeOptBytes(m0: Message, s: bytes, m: Message, field: nat, p: bytes)
    requires Decode(m0, s) == Some(m)
    requires 1 <= field < 8 && KindOf(SchemaOf(m), field) == Blobs && |p| <= MAX_INT
    ensures Decode(m0, s + OptBytes(field, p)) == if p == [] then Some(m) else Apply(m, BlobF(field, p))
  {
    hide Decode, Apply, BytesField;
    if p == [] {
      assert s + [] == s;
    } else {
      DecodeBytesField(m0, s, m, field, p);
    }
  }

  lemma DecodeOptNumber(m0: Message, s: bytes, m: Message, field: nat, v: uint64)
    requires Decode(m0, s) == Some(m)
    requires 1 <= field < 8 && KindOf(SchemaOf(m), field) == Numbers
    ensures Decode(m0, s + OptNumber(field, v)) == if v == 0 then Some(m) else Apply(m, NumberF(field, v))
  {
    hide Decode, Apply, NumberField;
    if v == 0 {
      assert s + [] == s;
    } else {
      DecodeNumberField(m0, s, m, field, v);
    }
  }

  lemma AnyRoundTrip(a: Any)
    requires |EncodeAny(a)| <= MAX_INT
    ensures Decode(AnyM(ZERO_ANY), EncodeAny(a)) == Some(AnyM(a))
  {
    hide Decode, OptBytes, BytesField;
    FieldSizes(1, a.typeUrl);
    FieldSizes(2, a.value);
    var s0: bytes := [];
    var s1 := s0 + OptBytes(1, a.typeUrl);
    DecodeNothing(AnyM(ZERO_ANY));
    DecodeOptBytes(AnyM(ZERO_ANY), s0, AnyM(ZERO_ANY), 1, a.typeUrl);
    DecodeOptBytes(AnyM(ZERO_ANY), s1, AnyM(Any(a.typeUrl, [])), 2, a.value);
    assert s1 + OptBytes(2, a.value) == EncodeAny(a);
  }

  lemma HeightRoundTrip(h: Height)
    ensures Decode(HeightM(ZERO_HEIGHT), EncodeHeight(h)) == Some(HeightM(h))
  {
    hide Decode;
    var s0: bytes := [];
    var s1 := s0 + OptNumber(1, h.revisionNumber);
    DecodeNothing(HeightM(ZERO_HEIGHT));
    DecodeOptNumber(HeightM(ZERO_HEIGHT), s0, HeightM(ZERO_HEIGHT), 1, h.revisionNumber);
    DecodeOptNumber(HeightM(ZERO_HEIGHT), s1, HeightM(Height(h.revisionNumber, 0)), 2, h.revisionHeight);
    assert s1 + OptNumber(2, h.revisionHeight) == EncodeHeight(h);
  }

  /** A nested Any, present or nil. */
  lemma MergeAnyRoundTrip(m0: Message, s: bytes, m: Message, field: nat, a: Option<Any>)
    requires Decode(m0, s) == Some(m)
    requires 1 <= field < 8 && KindOf(SchemaOf(m), field) == Blobs && |OptAny(field, a)| <= MAX_INT
    ensures Decode(m0, s + OptAny(field, a)) ==
            if a.None? then Some(m) else Apply(m, BlobF(field, EncodeAny(a.value)))
    ensures a.Some? ==> MergeAny(None, EncodeAny(a.value)) == Some(a)
  {
    hide Decode, Apply, EncodeAny;
    match a {
      case None => assert s + [] == s;
      case Some(any) =>
        DecodeBytesField(m0, s, m, field, EncodeAny(any));
        AnyRoundTrip(any);
    }
  }

  lemma MergeHeightRoundTrip(m0: Message, s: bytes, m: Message, field: nat, h: Height)
    requires Decode(m0, s) == Some(m)
    requires 1 <= field < 8 && KindOf(SchemaOf(m), field) == Blobs && |EncodeHeight(h)| <= MAX_INT
    ensures Decode(m0, s + BytesField(field, EncodeHeight(h))) == Apply(m, BlobF(field, EncodeHeight(h)))
    ensures MergeHeight(ZERO_HEIGHT, EncodeHeight(h)) == Some(h)
  {
    hide Decode, Apply, EncodeHeight;
    DecodeBytesField(m0, s, m, field, EncodeHeight(h));
    HeightRoundTrip(h);
  }

  lemma ProofRoundTrip(p: Proof)
    requires |EncodeProof(p)| <= MAX_INT
    ensures Decode(ProofM(ZERO_PROOF), EncodeProof(p)) == Some(ProofM(p))
    ensures MergeProof(ZERO_PROOF, EncodeProof(p)) == Some(p)
  {
    hide Decode, MergeAny, MergeHeight, OptAny, OptBytes, BytesField, EncodeHeight;
    FieldSizes(1, p.clientProof);
    FieldSizes(3, p.consensusProof);
    FieldSizes(5, EncodeHeight(p.proofHeight));
    FieldSizes(6, EncodeHeight(p.consensusHeight));
    var m0 := ProofM(ZERO_PROOF);
    var s0: bytes := [];
    DecodeNothing(m0);
    var s1 := s0 + OptBytes(1, p.clientProof);
    var p1 := ZERO_PROOF.(clientProof := p.clientProof);
    DecodeOptBytes(m0, s0, m0, 1, p.clientProof);
    var s2 := s1 + OptAny(2, p.clientState);
    var p2 := p1.(clientState := p.clientState);
    MergeAnyRoundTrip(m0, s1, ProofM(p1), 2, p.clientState);
    var s3 := s2 + OptBytes(3, p.consensusProof);
    var p3 := p2.(consensusProof := p.consensusProof);
    DecodeOptBytes(m0, s2, ProofM(p2), 3, p.consensusProof);
    var s4 := s3 + OptAny(4, p.consensusState);
    var p4 := p3.(consensusState := p.consensusState);
    MergeAnyRoundTrip(m0, s3, ProofM(p3), 4, p.consensusState);
    var s5 := s4 + BytesField(5, EncodeHeight(p.proofHeight));
    var p5 := p4.(proofHeight := p.proofHeight);
    MergeHeightRoundTrip(m0, s4, ProofM(p4), 5, p.proofHeight);
    MergeHeightRoundTrip(m0, s5, ProofM(p5), 6, p.consensusHeight);
    assert s5 + BytesField(6, EncodeHeight(p.consensusHeight)) == EncodeProof(p);
  }

  lemma LeafRoundTrip(l: LeafProof)
    requires |EncodeLeaf(l)| <= MAX_INT
    ensures Decode(LeafM(ZERO_LEAF), EncodeLeaf(l)) == Some(LeafM(l))
    ensures MergeLeaf(ZERO_LEAF, EncodeLeaf(l)) == Some(l)
  {
    hide Decode, MergeHeight, OptBytes, BytesField, EncodeHeight;
    FieldSizes(1, l.proof);
    FieldSizes(2, EncodeHeight(l.proofHeight));
    var m0 := LeafM(ZERO_LEAF);
    var s0: bytes := [];
    DecodeNothing(m0);
    var s1 := s0 + OptBytes(1, l.proof);
    DecodeOptBytes(m0, s0, m0, 1, l.proof);
    MergeHeightRoundTrip(m0, s1, LeafM(LeafProof(l.proof, ZERO_HEIGHT)), 2, l.proofHeight);
    assert s1 + BytesField(2, EncodeHeight(l.proofHeight)) == EncodeLeaf(l);
  }

  /** The branches that follow a decoded prefix are appended one by one, in order. */
  lemma {:induction false} BranchesRoundTrip(m0: Message, s: bytes, m: MultiProof, bs: seq<Proof>)
    requires Decode(m0, s) == Some(MultiProofM(m))
    requires |EncodeBranches(bs)| <= MAX_INT
    ensures Decode(m0, s + EncodeBranches(bs)) == Some(MultiProofM(m.(branches := m.branches + bs)))
    decreases |bs|
  {
    hide Decode, MergeProof, EncodeProof, BytesField;
    if bs == [] {
      assert s + [] == s && m.branches + bs == m.branches;
    } else {
      var field := BytesField(2, EncodeProof(bs[0]));
      FieldSizes(2, EncodeProof(bs[0]));
      ProofRoundTrip(bs[0]);
      DecodeBytesField(m0, s, MultiProofM(m), 2, EncodeProof(bs[0]));
      var m' := m.(branches := m.branches + [bs[0]]);
      BranchesRoundTrip(m0, s + field, m', bs[1..]);
      assert (s + field) + EncodeBranches(bs[1..]) == s + EncodeBranches(bs);
      assert m'.branches + bs[1..] == m.branches + bs;
    }
  }

  lemma MultiProofRoundTrip(mp: MultiProof)
    requires |EncodeMultiProof(mp)| <= MAX_INT
    ensures Decode(MultiProofM(ZERO_MULTI_PROOF), EncodeMultiProof(mp)) == Some(MultiProofM(mp))
  {
    hide Decode, MergeProof, MergeLeaf, EncodeProof, EncodeLeaf, BytesField, EncodeBranches;
    var m0 := MultiProofM(ZERO_MULTI_PROOF);
    FieldSizes(1, EncodeProof(mp.head));
    FieldSizes(3, EncodeLeaf(mp.leaf));
    var s0: bytes := [];
    DecodeNothing(m0);
    var s1 := s0 + BytesField(1, EncodeProof(mp.head));
    ProofRoundTrip(mp.head);
    DecodeBytesField(m0, s0, m0, 1, EncodeProof(mp.head));
    var m1 := ZERO_MULTI_PROOF.(head := mp.head);
    assert s1 == BytesField(1, EncodeProof(mp.head));
    var s2 := s1 + EncodeBranches(mp.branches);
    BranchesRoundTrip(m0, s1, m1, mp.branches);
    var m2 := m1.(branches := mp.branches);
    assert m1.branches + mp.branches == mp.branches;
    LeafRoundTrip(mp.leaf);
    DecodeBytesField(m0, s2, MultiProofM(m2), 3, EncodeLeaf(mp.leaf));
    assert s2 + BytesField(3, EncodeLeaf(mp.leaf)) == EncodeMultiProof(mp);
  }

  lemma MultiVStateRoundTrip(c: MultiVState)
    requires |EncodeMultiVState(c)| <= MAX_INT
    ensures Decode(ClientM(ZERO_MULTIV_STATE), EncodeMultiVState(c)) == Some(ClientM(c))
  {
    hide Decode, MergeAny, OptAny, OptNumber;
    var m0 := ClientM(ZERO_MULTIV_STATE);
    var s0: bytes := [];
    DecodeNothing(m0);
    var s1 := s0 + OptAny(1, c.underlying);
    MergeAnyRoundTrip(m0, s0, m0, 1, c.underlying);
    DecodeOptNumber(m0, s1, ClientM(MultiVState(c.underlying, 0)), 2, c.depth);
    assert s1 + OptNumber(2, c.depth) == EncodeMultiVState(c);
  }
}
