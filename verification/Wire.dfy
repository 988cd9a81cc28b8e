/** The protobuf wire format as the generated code of multiv.pb.go reads it: base-128 varints,
    tags, length prefixes and the skipping of unknown fields.

    Every function here reads from the FRONT of a byte sequence and says how many bytes it used,
    so that a decoder's index never appears in a specification. */
module Wire {
  import opened Bits
  import opened Options

  const TWO_31: int := 0x8000_0000
  const TWO_32: int := 0x1_0000_0000
  const TWO_63: int := 0x8000_0000_0000_0000
  const TWO_64: int := 0x1_0000_0000_0000_0000
  // the largest Go int, hence the largest length of a Go slice
  const MAX_INT: int := 0x7fff_ffff_ffff_ffff

  type byte = x: int | 0 <= x < 256
  type bytes = seq<byte>
  type uint32 = x: int | 0 <= x < TWO_32
  type uint64 = x: int | 0 <= x < TWO_64

  /** Two's complement: Go's int arithmetic, and its conversion from uint64, wrap around. */
  function Wrap64(x: int): int {
    var y := x % 0x1_0000_0000_0000_0000;
    if y < TWO_63 then y else y - TWO_64
  }

  /** Go's int32(x): the low 32 bits, read as a signed number. */
  function ToInt32(x: uint64): int {
    var y := x % 0x1_0000_0000;
    if y < TWO_31 then y else y - TWO_32
  }

  /** Go's int and int32 of x: the number of that width that is x modulo 2^64, and modulo 2^32. */
  lemma TwosComplement(x: uint64)
    ensures -TWO_63 <= Wrap64(x) < TWO_63 && (x - Wrap64(x)) % 0x1_0000_0000_0000_0000 == 0
    ensures -TWO_31 <= ToInt32(x) < TWO_31 && (x - ToInt32(x)) % 0x1_0000_0000 == 0
  {
    var q, r := x / 0x1_0000_0000, x % 0x1_0000_0000;
    assert x - ToInt32(x) == q * 0x1_0000_0000 || x - ToInt32(x) == (q + 1) * 0x1_0000_0000;
  }

  // ---- varints ----

  function Pow128(k: nat): nat {
    if k == 0 then 1 else 128 * Pow128(k - 1)
  }

  /** The number whose base-128 digits are the low seven bits of each byte, lowest first. */
  function Digits(s: bytes): nat {
    if s == [] then 0 else s[0] % 128 + 128 * Digits(s[1..])
  }

  /** The length of the rest of a varint of which k bytes, all with the high bit set, were read. */
  function VarintLenFrom(s: bytes, k: nat): (r: Option<nat>)
    requires k <= 10
    ensures r.Some? ==> 1 <= r.value <= |s| && r.value <= 10 - k
    decreases 10 - k
  {
    if k == 10 || s == [] then None
    else if s[0] < 128 then Some(1)
    else
      var n :- VarintLenFrom(s[1..], k + 1);
      Some(n + 1)
  }

  /** The length of the varint at the front of s; None when the bytes run out (unexpected EOF) or
      when the tenth byte still asks for more (integer overflow). */
  function VarintLen(s: bytes): (r: Option<nat>)
    ensures r.Some? ==> 1 <= r.value <= |s| && r.value <= 10
  {
    VarintLenFrom(s, 0)
  }

  /** Its value: the tenth byte has bits that do not fit and are lost. */
  function VarintValue(s: bytes, n: nat): uint64
    requires n <= |s|
  {
    Digits(s[..n]) % 0x1_0000_0000_0000_0000
  }

  /** The canonical encoding of a number. */
  function VarintBytes(v: nat): (r: bytes)
    ensures |r| >= 1
  {
    if v < 128 then [v] else [128 + v % 128] + VarintBytes(v / 128)
  }

  lemma PowUnfold(k: nat)
    ensures Pow128(0) == 1 && Pow128(k + 1) == 128 * Pow128(k)
  {
  }

  /** A byte holds seven bits of a number. */
  lemma {:induction false} Pow128IsPow2(k: nat)
    ensures Pow128(k) == Pow2(7 * k)
  {
    if k > 0 {
      Pow128IsPow2(k - 1);
      PowSeven(7 * (k - 1));
    }
  }

  lemma PowSeven(n: nat)
    ensures Pow2(n + 7) == 128 * Pow2(n)
  {
    assert Pow2(n + 2) == 4 * Pow2(n);
    assert Pow2(n + 4) == 4 * Pow2(n + 2);
    assert Pow2(n + 6) == 4 * Pow2(n + 4);
  }

  lemma {:induction false} DigitsBelow(s: bytes)
    ensures Digits(s) < Pow128(|s|)
  {
    if s != [] { DigitsBelow(s[1..]); }
  }

  lemma {:induction false} VarintLenLocal(s: bytes, k: nat, t: bytes)
    requires k <= 10 && VarintLenFrom(s, k).Some?
    ensures VarintLenFrom(s + t, k) == VarintLenFrom(s, k)
    decreases 10 - k
  {
    if s[0] >= 128 {
      assert (s + t)[1..] == s[1..] + t;
      VarintLenLocal(s[1..], k + 1, t);
    }
  }

  /** Reading a varint never looks past its last byte. */
  lemma VarintLocal(s: bytes, t: bytes)
    requires VarintLen(s).Some?
    ensures VarintLen(s + t) == VarintLen(s)
    ensures VarintValue(s + t, VarintLen(s).value) == VarintValue(s, VarintLen(s).value)
  {
    VarintLenLocal(s, 0, t);
    var n := VarintLen(s).value;
    assert (s + t)[..n] == s[..n];
  }

  lemma {:induction false} VarintBytesRead(v: nat, k: nat, t: bytes)
    requires k < 10 && v < Pow128(10 - k)
    ensures Digits(VarintBytes(v)) == v
    ensures VarintLenFrom(VarintBytes(v) + t, k) == Some(|VarintBytes(v)|)
    decreases 10 - k
  {
    var r := VarintBytes(v);
    if v >= 128 {
      assert Pow128(1) == 128 * Pow128(0);
      VarintBytesRead(v / 128, k + 1, t);
      assert r[1..] == VarintBytes(v / 128);
      assert (r + t)[1..] == r[1..] + t;
    } else {
      assert r[1..] == [];
    }
  }

  lemma Pow128Ten()
    ensures Pow128(9) == TWO_63 && Pow128(10) == 0x40_0000_0000_0000_0000
  {
    assert Pow128(4) == 0x1000_0000;
    assert Pow128(8) == 0x100_0000_0000_0000;
    assert Pow128(9) == 128 * Pow128(8);
    assert Pow128(10) == 128 * Pow128(9);
  }

  /** Encoding then reading a uint64 gives it back, whatever follows. */
  lemma VarintRoundTrip(v: uint64, t: bytes)
    ensures var r := VarintBytes(v);
            && |r| <= 10
            && VarintLen(r + t) == Some(|r|)
            && VarintValue(r + t, |r|) == v
  {
    Pow128Ten();
    VarintBytesRead(v, 0, t);
    var r := VarintBytes(v);
    assert (r + t)[..|r|] == r;
  }

  // ---- sizes (sovMultiv) ----

  /** math/bits.Len64. */
  function BitLen(x: nat): nat {
    if x == 0 then 0 else 1 + BitLen(x / 2)
  }

  /** x | 1. */
  function OrOne(x: nat): (r: nat)
    ensures r == if x % 2 == 0 then x + 1 else x
  {
    OrLowBit(x);
    BitOr(x, 1)
  }

  function Sov(x: uint64): nat {
    (BitLen(OrOne(x)) + 6) / 7
  }

  lemma Halves(v: nat)
    requires v > 0
    ensures BitLen(v) == 1 + BitLen(v / 2)
  {
  }

  lemma BitLenBy128(v: nat)
    requires v >= 128
    ensures BitLen(v) == 7 + BitLen(v / 128)
  {
    hide BitLen;
    var v1 := v / 2;
    var v2 := v1 / 2;
    var v3 := v2 / 2;
    var v4 := v3 / 2;
    var v5 := v4 / 2;
    var v6 := v5 / 2;
    Halves(v);
    Halves(v1);
    Halves(v2);
    Halves(v3);
    Halves(v4);
    Halves(v5);
    Halves(v6);
    assert v6 / 2 == v / 128;
  }

  lemma {:induction false} BitLenBelow(x: nat, k: nat)
    requires x < Pow2(k)
    ensures BitLen(x) <= k
  {
    if x != 0 { BitLenBelow(x / 2, k - 1); }
  }

  lemma SovStep(v: uint64)
    ensures v < 128 ==> Sov(v) == 1
    ensures v >= 128 ==> Sov(v) == 1 + Sov(v / 128)
  {
    hide OrOne;
    if v >= 128 {
      BitLenBy128(v);
      assert BitLen(OrOne(v)) == BitLen(v) by { assert OrOne(v) / 2 == v / 2; }
      assert BitLen(OrOne(v / 128)) == BitLen(v / 128) by { assert OrOne(v / 128) / 2 == v / 128 / 2; }
    } else {
      Pow2Seven();
      BitLenBelow(OrOne(v), 7);
      assert BitLen(OrOne(v)) >= 1;
    }
  }

  /** sovMultiv is the number of base-128 digits: the size of the encoding, from 1 to 10. */
  lemma {:induction false} SovIsVarintSize(v: uint64)
    ensures Sov(v) == |VarintBytes(v)| && 1 <= Sov(v) <= 10
  {
    VarintRoundTrip(v, []);
    SovStep(v);
    if v >= 128 { SovIsVarintSize(v / 128); }
  }

  // ---- tags and length prefixes ----

  datatype Tag = Tag(field: int, wire: int, size: nat)

  /** A field's tag. Its number is cut to 32 bits; an end-of-group tag or a number that is not
      positive is refused. */
  function ReadTag(s: bytes): (r: Option<Tag>)
    ensures r.Some? ==> 1 <= r.value.size <= |s|
  {
    var n :- VarintLen(s);
    var v := VarintValue(s, n);
    var field, wire := ToInt32(v / 8), v % 8;
    if wire == 4 || field <= 0 then None else Some(Tag(field, wire, n))
  }

  datatype Blob = Blob(payload: bytes, size: nat)

  /** A length-prefixed run of bytes; size counts the prefix too. A length that is negative as a
      Go int, or that reaches past the end, is refused. */
  function ReadBlob(s: bytes): (r: Option<Blob>)
    ensures r.Some? ==> |r.value.payload| < r.value.size <= |s|
  {
    var n :- VarintLen(s);
    var len := Wrap64(VarintValue(s, n));
    if len < 0 || n + len > |s| then None else Some(Blob(s[n..n + len], n + len))
  }

  lemma TagLocal(s: bytes, t: bytes)
    requires ReadTag(s).Some?
    ensures ReadTag(s + t) == ReadTag(s)
  {
    VarintLocal(s, t);
  }

  lemma BlobLocal(s: bytes, t: bytes)
    requires ReadBlob(s).Some?
    ensures ReadBlob(s + t) == ReadBlob(s)
  {
    hide VarintLenFrom, VarintValue;
    VarintLocal(s, t);
    var n, b := VarintLen(s).value, ReadBlob(s).value;
    assert (s + t)[n..b.size] == s[n..b.size];
  }

  /** The bytes of a tag with a given field number and wire type. */
  function TagBytes(field: nat, wire: nat): bytes {
    VarintBytes(field * 8 + wire)
  }

  function BlobBytes(p: bytes): bytes {
    VarintBytes(|p|) + p
  }

  lemma TagRoundTrip(field: nat, wire: nat, t: bytes)
    requires 1 <= field < 0x2000_0000 && wire < 8 && wire != 4
    ensures ReadTag(TagBytes(field, wire) + t) == Some(Tag(field, wire, |TagBytes(field, wire)|))
  {
    hide VarintLen, VarintValue, VarintBytes;
    VarintRoundTrip(field * 8 + wire, t);
  }

  lemma BlobRoundTrip(p: bytes, t: bytes)
    requires |p| <= MAX_INT
    ensures ReadBlob(BlobBytes(p) + t) == Some(Blob(p, |BlobBytes(p)|))
  {
    hide VarintLen, VarintValue, VarintBytes;
    VarintRoundTrip(|p|, p + t);
    var s := BlobBytes(p) + t;
    assert s == VarintBytes(|p|) + (p + t);
    assert s[|VarintBytes(|p|)|..|BlobBytes(p)|] == p;
  }

  // ---- skipping (skipMultiv) ----

  datatype Skipped = Skipped(size: nat, wire: int)

  /** The bytes that follow a tag of the given wire type. */
  function ElementBody(s: bytes, wire: int): (r: Option<nat>)
    ensures r.Some? ==> r.value <= |s|
  {
    if wire == 0 then VarintLen(s)
    else if wire == 1 then if 8 <= |s| then Some(8) else None
    else if wire == 2 then
      var b :- ReadBlob(s);
      Some(b.size)
    else if wire == 3 || wire == 4 then Some(0)
    else if wire == 5 then if 4 <= |s| then Some(4) else None
    else None
  }

  /** One element of an unknown field: a value, or the tag that opens or closes a group. */
  function SkipElement(s: bytes): (r: Option<Skipped>)
    ensures r.Some? ==> 1 <= r.value.size <= |s|
  {
    var n :- VarintLen(s);
    var wire := VarintValue(s, n) % 8;
    var m :- ElementBody(s[n..], wire);
    Some(Skipped(n + m, wire))
  }

  /** The group depth after an element; None for an end of group that nothing opened. */
  function DepthAfter(depth: nat, wire: int): Option<nat> {
    if wire == 3 then Some(depth + 1)
    else if wire != 4 then Some(depth)
    else if depth == 0 then None
    else Some(depth - 1)
  }

  /** How many bytes it takes to leave `depth` open groups, or to pass one element when none is
      open. */
  function Skip(s: bytes, depth: nat): (r: Option<nat>)
    ensures r.Some? ==> 1 <= r.value <= |s|
    decreases |s|
  {
    var e :- SkipElement(s);
    var d :- DepthAfter(depth, e.wire);
    if d == 0 then Some(e.size)
    else
      var rest :- Skip(s[e.size..], d);
      Some(e.size + rest)
  }

  lemma BodyLocal(s: bytes, wire: int, t: bytes)
    requires ElementBody(s, wire).Some?
    ensures ElementBody(s + t, wire) == ElementBody(s, wire)
  {
    if wire == 0 {
      VarintLocal(s, t);
    } else if wire == 2 {
      BlobLocal(s, t);
    }
  }

  lemma ElementLocal(s: bytes, t: bytes)
    requires SkipElement(s).Some?
    ensures SkipElement(s + t) == SkipElement(s)
  {
    hide ElementBody, VarintLenFrom, Digits;
    VarintLocal(s, t);
    var n := VarintLen(s).value;
    assert (s + t)[n..] == s[n..] + t;
    BodyLocal(s[n..], VarintValue(s, n) % 8, t);
  }

  lemma SkipUnfold(s: bytes, depth: nat)
    ensures Skip(s, depth).Some? ==> SkipElement(s).Some?
    ensures SkipElement(s).Some? ==>
              var e := SkipElement(s).value;
              var d := DepthAfter(depth, e.wire);
              Skip(s, depth) == if d.None? then None
                                else if d.value == 0 then Some(e.size)
                                else match Skip(s[e.size..], d.value)
                                     case None => None
                                     case Some(rest) => Some(e.size + rest)
  {
  }

  lemma {:induction false} SkipLocal(s: bytes, depth: nat, t: bytes)
    requires Skip(s, depth).Some?
    ensures Skip(s + t, depth) == Skip(s, depth)
    decreases |s|
  {
    hide SkipElement;
    SkipUnfold(s, depth);
    SkipUnfold(s + t, depth);
    ElementLocal(s, t);
    var e := SkipElement(s).value;
    var d := DepthAfter(depth, e.wire).value;
    if d != 0 {
      assert (s + t)[e.size..] == s[e.size..] + t;
      SkipLocal(s[e.size..], d, t);
    }
  }
}
