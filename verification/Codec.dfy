/** Marshal and Unmarshal together, over their arrays. */
module Codec {
  import opened Options
  import opened Messages
  import opened Wire
  import opened RoundTrip
  import Marshal
  import UnknownFields
  import Unmarshal

  /** What Marshal writes, backwards, Unmarshal reads, forwards. */
  method MarshalThenUnmarshal(m: MultiProof) returns (r: Option<MultiProof>)
    requires |EncodeMultiProof(m)| <= MAX_INT
    ensures r == Some(m)
  {
    hide EncodeMultiProof, Decode;
    var a, n := Marshal.MarshalFresh(m);
    assert a[0..0 + n] == a[..];
    MultiProofRoundTrip(m);
    r := Unmarshal.UnmarshalMultiProof(ZERO_MULTI_PROOF, a, 0, n);
  }

  /** The same for the state of a MultiV client. */
  method MarshalThenUnmarshalClientState(c: MultiVState) returns (r: Option<MultiVState>)
    requires |EncodeMultiVState(c)| <= MAX_INT
    ensures r == Some(c)
  {
    hide EncodeMultiVState, Decode;
    var size := Marshal.SizeClientState(c);
    var a := new byte[size];
    var n := Marshal.MarshalClientState(c, a, size);
    assert a[0..0 + n] == a[size - n..] == EncodeMultiVState(c);
    MultiVStateRoundTrip(c);
    r := Unmarshal.UnmarshalClientState(ZERO_MULTIV_STATE, a, 0, n);
  }

  /** A field that Unmarshal does not know, anywhere between two fields of what Marshal writes, is not
      noticed. */
  method UnmarshalAround(m: MultiProof, a: array<byte>, ghost s1: bytes, ghost extra: UnknownFields.Extra, ghost s2: bytes)
    returns (r: Option<MultiProof>)
    requires a.Length <= MAX_INT && |EncodeMultiProof(m)| <= MAX_INT
    requires EncodeMultiProof(m) == s1 + s2 && Decode(MultiProofM(ZERO_MULTI_PROOF), s1).Some?
    requires UnknownFields.WellFormed(extra) && extra.field > 3
    requires a[..] == s1 + UnknownFields.EncodeExtra(extra) + s2
    ensures r == Some(m)
  {
    hide EncodeMultiProof, Decode;
    assert a[0..0 + a.Length] == a[..];
    MultiProofRoundTrip(m);
    UnknownFields.UnknownFieldIgnored(MultiProofM(ZERO_MULTI_PROOF), s1, extra, s2);
    r := Unmarshal.UnmarshalMultiProof(ZERO_MULTI_PROOF, a, 0, a.Length);
  }
}
