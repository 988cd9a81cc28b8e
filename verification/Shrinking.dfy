/** What is inside a decoded message is shorter than the bytes it came from. Verification of nested
    proofs terminates because of it. */
module Shrinking {
  import opened Wire
  import opened Messages

  predicate AnyBelow(a: Any, n: nat) {
    |a.typeUrl| < n && |a.value| < n
  }

  predicate ProofBelow(p: Proof, n: nat) {
    |p.clientProof| < n && |p.consensusProof| < n
  }

  predicate MultiProofBelow(m: MultiProof, n: nat) {
    && ProofBelow(m.head, n)
    && (forall b <- m.branches :: ProofBelow(b, n))
    && |m.leaf.proof| < n
  }

  /** Every bytes field of a message is shorter than n. */
  predicate Below(m: Message, n: nat) {
    match m
    case AnyM(a) => AnyBelow(a, n)
    case HeightM(_) => true
    case ProofM(p) => ProofBelow(p, n)
    case LeafM(l) => |l.proof| < n
    case MultiProofM(x) => MultiProofBelow(x, n)
    case ClientM(_) => true
  }

  lemma {:induction false} DecodeBelow(m: Message, s: bytes, n: nat)
    requires Decode(m, s).Some? && Below(m, n) && |s| <= n
    ensures Below(Decode(m, s).value, n)
    decreases |s|, 0
  {
    hide ReadField, Apply;
    if s != [] {
      DecodeUnfold(m, s);
      var t := ReadField(SchemaOf(m), s).value;
      ApplyBelow(m, t.f, n);
      DecodeBelow(Apply(m, t.f).value, s[t.size..], n);
    }
  }

  lemma {:induction false} ApplyBelow(m: Message, f: Field, n: nat)
    requires Apply(m, f).Some? && Below(m, n) && FieldSize(f) < n
    ensures Below(Apply(m, f).value, n)
    decreases FieldSize(f), 2
  {
    hide Decode;
    match (m, f) {
      case (MultiProofM(x), BlobF(1, p)) => MergeProofBelow(x.head, p, n);
      case (MultiProofM(x), BlobF(2, p)) => MergeProofBelow(ZERO_PROOF, p, n);
      case (MultiProofM(x), BlobF(3, p)) => MergeLeafBelow(x.leaf, p, n);
      case _ =>
    }
  }

  lemma {:induction false} MergeProofBelow(p: Proof, payload: bytes, n: nat)
    requires MergeProof(p, payload).Some? && ProofBelow(p, n) && |payload| < n
    ensures ProofBelow(MergeProof(p, payload).value, n)
    decreases |payload|, 1
  {
    hide Apply, ReadField;
    DecodeBelow(ProofM(p), payload, n);
  }

  lemma {:induction false} MergeLeafBelow(l: LeafProof, payload: bytes, n: nat)
    requires MergeLeaf(l, payload).Some? && |l.proof| < n && |payload| < n
    ensures |MergeLeaf(l, payload).value.proof| < n
    decreases |payload|, 1
  {
    hide Apply, ReadField;
    DecodeBelow(LeafM(l), payload, n);
  }
}
