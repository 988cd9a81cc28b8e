/** The marshalers of multiv.pb.go. A buffer is filled from its end towards its start: every writer
    below puts bytes directly in front of what is already there, so its effect on the array is
    "prepend to the filled suffix, leave the rest alone". */
module Marshal {
  import opened Bits
  import opened Options
  import opened Wire
  import opened Messages

  // ---- sizes ----

  /** One length-delimited field: its tag, its length and its l bytes. */
  function SizeOfField(l: nat): nat
    requires l <= MAX_INT
  {
    1 + l + Sov(l)
  }

  lemma SizeOfFieldIs(field: nat, p: bytes)
    requires |p| <= MAX_INT && 1 <= field < 8
    ensures SizeOfField(|p|) == |BytesField(field, p)|
  {
    hide Sov;
    SovIsVarintSize(|p|);
  }

  lemma BlobSize(p: bytes)
    ensures |p| < |BlobBytes(p)|
  {
  }

  lemma OptBytesSize(field: nat, p: bytes)
    ensures |p| <= |OptBytes(field, p)|
  {
    hide BlobBytes;
    BlobSize(p);
  }

  function SizeOfAny(field: nat, a: Option<Any>): (n: nat)
    requires |OptAny(field, a)| <= MAX_INT && 1 <= field < 8
    ensures n == |OptAny(field, a)|
  {
    hide BlobBytes, EncodeAny;
    match a
    case None => 0
    case Some(any) =>
      BlobSize(EncodeAny(any));
      SizeOfFieldIs(field, EncodeAny(any));
      SizeOfField(|EncodeAny(any)|)
  }

  function SizeOfBytes(field: nat, p: bytes): (n: nat)
    requires |OptBytes(field, p)| <= MAX_INT && 1 <= field < 8
    ensures n == |OptBytes(field, p)|
  {
    hide BlobBytes;
    OptBytesSize(field, p);
    if |p| > 0 then SizeOfFieldIs(field, p); SizeOfField(|p|) else 0
  }

  function SizeOfHeight(field: nat, h: Height): (n: nat)
    requires 1 <= field < 8
    ensures n == |BytesField(field, EncodeHeight(h))|
  {
    hide EncodeHeight, Sov;
    HeightSize(h);
    SizeOfFieldIs(field, EncodeHeight(h));
    SizeOfField(|EncodeHeight(h)|)
  }

  lemma HeightSize(h: Height)
    ensures |EncodeHeight(h)| <= 22
  {
    hide Sov;
    SovIsVarintSize(h.revisionNumber);
    SovIsVarintSize(h.revisionHeight);
  }

  function SizeClientState(c: MultiVState): (n: nat)
    requires |EncodeMultiVState(c)| <= MAX_INT
    ensures n == |EncodeMultiVState(c)|
  {
    hide OptAny, Sov;
    SovIsVarintSize(c.depth);
    SizeOfAny(1, c.underlying) + (if c.depth != 0 then 1 + Sov(c.depth) else 0)
  }

  function SizeLeaf(l: LeafProof): (n: nat)
    requires |EncodeLeaf(l)| <= MAX_INT
    ensures n == |EncodeLeaf(l)|
  {
    hide OptBytes, BytesField;
    SizeOfBytes(1, l.proof) + SizeOfHeight(2, l.proofHeight)
  }

  function SizeProof(p: Proof): (n: nat)
    requires |EncodeProof(p)| <= MAX_INT
    ensures n == |EncodeProof(p)|
  {
    hide OptBytes, OptAny, BytesField;
    SizeOfBytes(1, p.clientProof) + SizeOfAny(2, p.clientState)
    + SizeOfBytes(3, p.consensusProof) + SizeOfAny(4, p.consensusState)
    + SizeOfHeight(5, p.proofHeight) + SizeOfHeight(6, p.consensusHeight)
  }

  lemma {:induction false} EncodeBranchesAppend(bs: seq<Proof>, i: nat)
    requires i < |bs|
    ensures EncodeBranches(bs[..i + 1]) == EncodeBranches(bs[..i]) + BytesField(2, EncodeProof(bs[i]))
    decreases i
  {
    hide BytesField, EncodeProof;
    if i == 0 {
      assert bs[..1][1..] == [];
    } else {
      EncodeBranchesAppend(bs[1..], i - 1);
      assert bs[1..][..i] == bs[..i + 1][1..] && bs[1..][..i - 1] == bs[..i][1..];
    }
  }

  /** The encodings of a list of branches split anywhere. */
  lemma {:induction false} EncodeBranchesSplit(bs: seq<Proof>, i: nat)
    requires i <= |bs|
    ensures EncodeBranches(bs) == EncodeBranches(bs[..i]) + EncodeBranches(bs[i..])
    decreases i
  {
    hide BytesField, EncodeProof;
    if i == 0 {
      assert bs[0..] == bs;
    } else {
      EncodeBranchesSplit(bs[1..], i - 1);
      assert bs[1..][..i - 1] == bs[..i][1..] && bs[1..][i - 1..] == bs[i..];
    }
  }

  method SizeMultiProof(m: MultiProof) returns (n: nat)
    requires |EncodeMultiProof(m)| <= MAX_INT
    ensures n == |EncodeMultiProof(m)|
  {
    hide BytesField, EncodeProof, EncodeLeaf, EncodeBranches;
    MultiProofParts(m);
    SizeOfFieldIs(1, EncodeProof(m.head));
    SizeOfFieldIs(3, EncodeLeaf(m.leaf));
    n := SizeOfField(SizeProof(m.head));
    var i := 0;
    assert |EncodeBranches(m.branches[..0])| == 0 by { EmptyBranches(); }
    while i < |m.branches|
      invariant i <= |m.branches|
      invariant n == |BytesField(1, EncodeProof(m.head))| + |EncodeBranches(m.branches[..i])|
    {
      BranchSize(m.branches, i);
      SizeOfFieldIs(2, EncodeProof(m.branches[i]));
      n := n + SizeOfField(SizeProof(m.branches[i]));
      EncodeBranchesAppend(m.branches, i);
      i := i + 1;
    }
    assert m.branches[..i] == m.branches;
    n := n + SizeOfField(SizeLeaf(m.leaf));
  }

  lemma EmptyBranches()
    ensures EncodeBranches([]) == []
  {
  }

  lemma MultiProofParts(m: MultiProof)
    ensures |EncodeProof(m.head)| <= |EncodeMultiProof(m)|
    ensures |EncodeLeaf(m.leaf)| <= |EncodeMultiProof(m)|
    ensures |EncodeBranches(m.branches)| <= |EncodeMultiProof(m)|
    ensures |EncodeMultiProof(m)| == |BytesField(1, EncodeProof(m.head))| + |EncodeBranches(m.branches)|
                                     + |BytesField(3, EncodeLeaf(m.leaf))|
  {
    hide EncodeProof, EncodeLeaf, EncodeBranches;
  }

  lemma BranchSize(bs: seq<Proof>, i: nat)
    requires i < |bs|
    ensures |EncodeProof(bs[i])| <= |BytesField(2, EncodeProof(bs[i]))| <= |EncodeBranches(bs)|
    ensures |BytesField(2, EncodeProof(bs[i]))| + |EncodeBranches(bs[..i])| <= |EncodeBranches(bs)|
  {
    hide EncodeProof, BlobBytes;
    EncodeBranchesAppend(bs, i);
    EncodeBranchesSplit(bs, i + 1);
    assert |EncodeProof(bs[i])| <= |BlobBytes(EncodeProof(bs[i]))| by { BlobSize(EncodeProof(bs[i])); }
  }

  // ---- writers ----

  /** `uint8(v & 0x7f | 0x80)`. */
  function LowDigit(w: nat): (b: byte)
    ensures b == w % 128 + 128
  {
    LowSeven(w);
    OrHighBit(w % 128);
    BitOr(BitAnd(w, 0x7F), 0x80)
  }

  lemma VarintUnfold(w: nat)
    ensures VarintBytes(w) == if w < 128 then [w] else [w % 128 + 128] + VarintBytes(w / 128)
  {
  }

  /** encodeVarintMultiv: the digits go in forward, from the place where they will end at offset. */
  method EncodeVarint(a: array<byte>, offset: nat, v: uint64) returns (base: nat)
    requires Sov(v) <= offset <= a.Length
    modifies a
    ensures base == offset - |VarintBytes(v)|
    ensures a[base..] == VarintBytes(v) + old(a[offset..])
    ensures forall k :: 0 <= k < base ==> a[k] == old(a[k])
  {
    hide Sov, BitLen, LowDigit, VarintBytes;
    SovIsVarintSize(v);
    base := offset - Sov(v);
    var o: nat, w: uint64 := base, v;
    while w >= 128
      invariant base <= o && o + |VarintBytes(w)| == offset
      invariant a[base..o] + VarintBytes(w) == VarintBytes(v)
      invariant a[offset..] == old(a[offset..]) && forall k :: 0 <= k < base ==> a[k] == old(a[k])
      decreases w
    {
      VarintUnfold(w);
      ghost var front := a[base..o];
      Regroup(front, [w % 128 + 128], VarintBytes(w / 128));
      a[o] := LowDigit(w);
      assert a[base..o + 1] == front + [w % 128 + 128];
      w := w / 128;
      o := o + 1;
    }
    VarintUnfold(w);
    ghost var front := a[base..o];
    a[o] := w;
    assert a[base..o] == front;
    assert a[base..] == a[base..o] + [a[o]] + a[offset..];
  }

  /** Go's copy, in front of i. */
  method PutBytes(a: array<byte>, i: nat, p: bytes) returns (j: nat)
    requires |p| <= i <= a.Length
    modifies a
    ensures j == i - |p|
    ensures a[j..] == p + old(a[i..])
    ensures forall k :: 0 <= k < j ==> a[k] == old(a[k])
  {
    j := i - |p|;
    var k := 0;
    while k < |p|
      invariant k <= |p|
      invariant a[j..j + k] == p[..k]
      invariant a[i..] == old(a[i..]) && forall m :: 0 <= m < j ==> a[m] == old(a[m])
    {
      a[j + k] := p[k];
      assert a[j..j + k + 1] == a[j..j + k] + [p[k]];
      k := k + 1;
    }
    assert a[j..] == a[j..i] + a[i..];
  }

  /** The length and the tag of the payload that starts at i. */
  method PutHeader(a: array<byte>, i: nat, size: nat, tag: byte) returns (j: nat)
    requires size <= MAX_INT && tag < 128
    requires 1 + |VarintBytes(size)| <= i <= a.Length
    modifies a
    ensures j == i - |VarintBytes(size)| - 1
    ensures a[j..] == VarintBytes(tag) + VarintBytes(size) + old(a[i..])
    ensures forall k :: 0 <= k < j ==> a[k] == old(a[k])
  {
    hide Sov;
    SovIsVarintSize(size);
    j := EncodeVarint(a, i, size);
    ghost var filled := a[j..];
    j := j - 1;
    a[j] := tag;
    assert a[j..] == [tag] + a[j + 1..];
    assert a[j + 1..] == filled;
  }

  /** A bytes field, when it is not empty. */
  method PutOptBytes(a: array<byte>, i: nat, field: nat, p: bytes) returns (j: nat)
    requires 1 <= field < 8 && |p| <= MAX_INT
    requires |OptBytes(field, p)| <= i <= a.Length
    modifies a
    ensures j == i - |OptBytes(field, p)|
    ensures a[j..] == OptBytes(field, p) + old(a[i..])
    ensures forall k :: 0 <= k < j ==> a[k] == old(a[k])
  {
    hide VarintBytes;
    j := i;
    if |p| > 0 {
      assert |VarintBytes(field * 8 + 2)| == 1 by { SmallVarint(field * 8 + 2); }
      j := PutBytes(a, j, p);
      ghost var filled := a[j..];
      j := PutHeader(a, j, |p|, field * 8 + 2);
      assert a[j..] == TagBytes(field, 2) + VarintBytes(|p|) + p + old(a[i..]);
    }
  }

  lemma SmallVarint(v: nat)
    requires v < 128
    ensures VarintBytes(v) == [v]
  {
  }

  /** A nested message, given by its encoding: the generated writers of Any and Height live outside
      this repository. */
  method PutMessage(a: array<byte>, i: nat, field: nat, p: bytes) returns (j: nat)
    requires 1 <= field < 8 && |p| <= MAX_INT
    requires |BytesField(field, p)| <= i <= a.Length
    modifies a
    ensures j == i - |BytesField(field, p)|
    ensures a[j..] == BytesField(field, p) + old(a[i..])
    ensures forall k :: 0 <= k < j ==> a[k] == old(a[k])
  {
    hide VarintBytes;
    assert |VarintBytes(field * 8 + 2)| == 1 by { SmallVarint(field * 8 + 2); }
    j := PutBytes(a, i, p);
    j := PutHeader(a, j, |p|, field * 8 + 2);
    assert a[j..] == TagBytes(field, 2) + VarintBytes(|p|) + p + old(a[i..]);
  }

  method PutOptAny(a: array<byte>, i: nat, field: nat, any: Option<Any>) returns (j: nat)
    requires 1 <= field < 8 && |OptAny(field, any)| <= MAX_INT
    requires |OptAny(field, any)| <= i <= a.Length
    modifies a
    ensures j == i - |OptAny(field, any)|
    ensures a[j..] == OptAny(field, any) + old(a[i..])
    ensures forall k :: 0 <= k < j ==> a[k] == old(a[k])
  {
    hide EncodeAny, BlobBytes;
    j := i;
    if any.Some? {
      BlobSize(EncodeAny(any.value));
      j := PutMessage(a, j, field, EncodeAny(any.value));
    }
  }

  /** A varint field, when it is not zero. */
  lemma NumberFieldIs(field: nat, v: uint64)
    requires 1 <= field < 8
    ensures OptNumber(field, v) == if v == 0 then [] else [field * 8] + VarintBytes(v)
  {
    hide VarintBytes;
    SmallVarint(field * 8);
  }

  method PutOptNumber(a: array<byte>, i: nat, field: nat, v: uint64) returns (j: nat)
    requires 1 <= field < 8
    requires |OptNumber(field, v)| <= i <= a.Length
    modifies a
    ensures j == i - |OptNumber(field, v)|
    ensures a[j..] == OptNumber(field, v) + old(a[i..])
    ensures forall k :: 0 <= k < j ==> a[k] == old(a[k])
  {
    hide VarintBytes, Sov, OptNumber;
    j := i;
    NumberFieldIs(field, v);
    if v != 0 {
      SovIsVarintSize(v);
      Regroup([field * 8], VarintBytes(v), old(a[i..]));
      j := EncodeVarint(a, j, v);
      ghost var filled := a[j..];
      j := j - 1;
      a[j] := field * 8;
      assert a[j + 1..] == filled;
      assert a[j..] == [field * 8] + filled;
    }
  }

  // ---- messages: fields go in from the last to the first ----

  method MarshalClientState(c: MultiVState, a: array<byte>, end: nat) returns (n: nat)
    requires |EncodeMultiVState(c)| <= MAX_INT
    requires |EncodeMultiVState(c)| <= end <= a.Length
    modifies a
    ensures n == |EncodeMultiVState(c)|
    ensures a[end - n..] == EncodeMultiVState(c) + old(a[end..])
    ensures forall k :: 0 <= k < end - n ==> a[k] == old(a[k])
  {
    hide OptAny, OptNumber;
    var i := PutOptNumber(a, end, 2, c.depth);
    ghost var filled := a[i..];
    i := PutOptAny(a, i, 1, c.underlying);
    assert a[i..] == OptAny(1, c.underlying) + filled;
    n := end - i;
  }

  method MarshalLeaf(l: LeafProof, a: array<byte>, end: nat) returns (n: nat)
    requires |EncodeLeaf(l)| <= MAX_INT
    requires |EncodeLeaf(l)| <= end <= a.Length
    modifies a
    ensures n == |EncodeLeaf(l)|
    ensures a[end - n..] == EncodeLeaf(l) + old(a[end..])
    ensures forall k :: 0 <= k < end - n ==> a[k] == old(a[k])
  {
    hide OptBytes, EncodeHeight, BytesField;
    HeightSize(l.proofHeight);
    OptBytesSize(1, l.proof);
    var i := PutMessage(a, end, 2, EncodeHeight(l.proofHeight));
    i := PutOptBytes(a, i, 1, l.proof);
    n := end - i;
  }

  lemma ProofRightNested(p: Proof, t: bytes)
    ensures OptBytes(1, p.clientProof) + (OptAny(2, p.clientState) + (OptBytes(3, p.consensusProof)
            + (OptAny(4, p.consensusState) + (BytesField(5, EncodeHeight(p.proofHeight))
            + (BytesField(6, EncodeHeight(p.consensusHeight)) + t))))) == EncodeProof(p) + t
  {
    hide OptBytes, OptAny, EncodeHeight, BytesField;
  }

  method MarshalProof(p: Proof, a: array<byte>, end: nat) returns (n: nat)
    requires |EncodeProof(p)| <= MAX_INT
    requires |EncodeProof(p)| <= end <= a.Length
    modifies a
    ensures n == |EncodeProof(p)|
    ensures a[end - n..] == EncodeProof(p) + old(a[end..])
    ensures forall k :: 0 <= k < end - n ==> a[k] == old(a[k])
  {
    hide OptBytes, OptAny, EncodeHeight, BytesField;
    HeightSize(p.proofHeight);
    HeightSize(p.consensusHeight);
    OptBytesSize(1, p.clientProof);
    OptBytesSize(3, p.consensusProof);
    ghost var rest := a[end..];
    var i := PutMessage(a, end, 6, EncodeHeight(p.consensusHeight));
    i := PutMessage(a, i, 5, EncodeHeight(p.proofHeight));
    i := PutOptAny(a, i, 4, p.consensusState);
    i := PutOptBytes(a, i, 3, p.consensusProof);
    i := PutOptAny(a, i, 2, p.clientState);
    i := PutOptBytes(a, i, 1, p.clientProof);
    ProofRightNested(p, rest);
    n := end - i;
  }

  /** A nested proof and its header. */
  method PutProof(a: array<byte>, i: nat, field: nat, p: Proof) returns (j: nat)
    requires 1 <= field < 8 && |EncodeProof(p)| <= MAX_INT
    requires |BytesField(field, EncodeProof(p))| <= i <= a.Length
    modifies a
    ensures j == i - |BytesField(field, EncodeProof(p))|
    ensures a[j..] == BytesField(field, EncodeProof(p)) + old(a[i..])
    ensures forall k :: 0 <= k < j ==> a[k] == old(a[k])
  {
    hide EncodeProof, VarintBytes;
    SmallVarint(field * 8 + 2);
    var size := MarshalProof(p, a, i);
    j := PutHeader(a, i - size, size, field * 8 + 2);
    assert a[j..] == TagBytes(field, 2) + VarintBytes(size) + EncodeProof(p) + old(a[i..]);
  }

  lemma BranchSplit(bs: seq<Proof>, k: nat)
    requires k < |bs|
    ensures EncodeBranches(bs[k..]) == BytesField(2, EncodeProof(bs[k])) + EncodeBranches(bs[k + 1..])
    ensures |EncodeBranches(bs[k..])| <= |EncodeBranches(bs)|
    ensures |EncodeProof(bs[k])| <= |EncodeBranches(bs)|
  {
    hide EncodeProof, BytesField;
    assert bs[k..][1..] == bs[k + 1..];
    EncodeBranchesSplit(bs, k);
    BranchSize(bs, k);
  }

  method PutLeaf(a: array<byte>, i: nat, l: LeafProof) returns (j: nat)
    requires |EncodeLeaf(l)| <= MAX_INT
    requires |BytesField(3, EncodeLeaf(l))| <= i <= a.Length
    modifies a
    ensures j == i - |BytesField(3, EncodeLeaf(l))|
    ensures a[j..] == BytesField(3, EncodeLeaf(l)) + old(a[i..])
    ensures forall k :: 0 <= k < j ==> a[k] == old(a[k])
  {
    hide EncodeLeaf, VarintBytes;
    SmallVarint(0x1a);
    var size := MarshalLeaf(l, a, i);
    j := PutHeader(a, i - size, size, 0x1a);
    assert a[j..] == TagBytes(3, 2) + VarintBytes(size) + EncodeLeaf(l) + old(a[i..]);
  }

  lemma Regroup(x: bytes, y: bytes, z: bytes)
    ensures x + (y + z) == (x + y) + z
  {
  }

  /** The branches, last one first, each in front of those already written. */
  method PutBranches(a: array<byte>, i: nat, bs: seq<Proof>) returns (j: nat)
    requires |EncodeBranches(bs)| <= MAX_INT
    requires |EncodeBranches(bs)| <= i <= a.Length
    modifies a
    ensures j == i - |EncodeBranches(bs)|
    ensures a[j..] == EncodeBranches(bs) + old(a[i..])
    ensures forall k :: 0 <= k < j ==> a[k] == old(a[k])
  {
    hide EncodeProof, EncodeBranches, BytesField;
    j := i;
    var k := |bs|;
    assert bs[k..] == [];
    EmptyBranches();
    while k > 0
      invariant 0 <= k <= |bs|
      invariant j == i - |EncodeBranches(bs[k..])|
      invariant a[j..] == EncodeBranches(bs[k..]) + old(a[i..])
      invariant forall x :: 0 <= x < j ==> a[x] == old(a[x])
    {
      k := k - 1;
      BranchSplit(bs, k);
      Regroup(BytesField(2, EncodeProof(bs[k])), EncodeBranches(bs[k + 1..]), old(a[i..]));
      j := PutProof(a, j, 2, bs[k]);
    }
    assert bs[0..] == bs;
  }

  method MarshalMultiProof(m: MultiProof, a: array<byte>, end: nat) returns (n: nat)
    requires |EncodeMultiProof(m)| <= MAX_INT
    requires |EncodeMultiProof(m)| <= end <= a.Length
    modifies a
    ensures n == |EncodeMultiProof(m)|
    ensures a[end - n..] == EncodeMultiProof(m) + old(a[end..])
    ensures forall k :: 0 <= k < end - n ==> a[k] == old(a[k])
  {
    hide EncodeProof, EncodeLeaf, EncodeBranches, BytesField;
    MultiProofParts(m);
    var i := PutLeaf(a, end, m.leaf);
    i := PutBranches(a, i, m.branches);
    i := PutProof(a, i, 1, m.head);
    ghost var head, mid := BytesField(1, EncodeProof(m.head)), EncodeBranches(m.branches);
    assert head + (mid + (BytesField(3, EncodeLeaf(m.leaf)) + old(a[end..]))) == EncodeMultiProof(m) + old(a[end..]);
    n := end - i;
  }

  /** Marshal: a buffer of exactly Size bytes is filled completely, so that its first n bytes, which
      the Go code returns, are all of it. */
  method MarshalFresh(m: MultiProof) returns (a: array<byte>, n: nat)
    requires |EncodeMultiProof(m)| <= MAX_INT
    ensures fresh(a) && n == a.Length
    ensures a[..] == EncodeMultiProof(m)
  {
    hide EncodeMultiProof;
    var size := SizeMultiProof(m);
    a := new byte[size];
    n := MarshalMultiProof(m, a, size);
    assert a[..] == a[0..];
  }
}
