/** The unmarshalers of multiv.pb.go. A slice of the input is an array with a start and a length, and
    an index counts from that start, as Go's dAtA[lo:hi] does. Each method is proved to compute the
    function of Wire or Messages that specifies it: it never reads outside its slice, always
    terminates, and refuses exactly the inputs the function refuses.

    The generated code repeats the reading of tags, lengths and unknown fields in every message;
    here they stand once, in NextField. */
module Unmarshal {
  import opened Bits
  import opened Options
  import opened Wire
  import opened Messages

  datatype Uvarint = Uvarint(v: uint64, next: nat)

  lemma DigitsUnfold(s: bytes)
    ensures Digits(s) == if s == [] then 0 else s[0] % 128 + 128 * Digits(s[1..])
  {
  }

  lemma Carry(d: nat, x: nat, q: nat)
    ensures 128 * (d + x * q) == 128 * d + x * (128 * q)
  {
  }

  lemma {:induction false} DigitsAppend(s: bytes, b: byte)
    ensures Digits(s + [b]) == Digits(s) + (b % 128) * Pow128(|s|)
  {
    hide Digits, Pow128;
    DigitsUnfold(s);
    DigitsUnfold(s + [b]);
    if s == [] {
      assert s + [b] == [b];
      DigitsUnfold([b][1..]);
      PowUnfold(0);
    } else {
      assert (s + [b])[1..] == s[1..] + [b];
      DigitsAppend(s[1..], b);
      Carry(Digits(s[1..]), b % 128, Pow128(|s| - 1));
      PowUnfold(|s| - 1);
    }
  }

  /** `wire |= uint64(b & 0x7F) << shift`. */
  function OrShifted(wire: nat, b: byte, shift: nat): nat {
    BitOr(wire, ShiftLeft(BitAnd(b, 0x7F), shift))
  }

  /** Up to the tenth byte, what is shifted in lies above the bits set so far: the loop adds the next
      digit, and of the tenth byte only the lowest bit stays in. */
  lemma ShiftedIn(c: nat, k: nat) returns (d: nat)
    requires c < 128 && k <= 9
    ensures d * Pow128(k) == (c * Pow128(k)) % 0x1_0000_0000_0000_0000
    ensures d * Pow128(k) + Pow128(k) <= 0x1_0000_0000_0000_0000
  {
    hide Pow128;
    if k < 9 {
      d := c;
      PowBelow(k);
      Scaled(c, Pow128(k), 0x100_0000_0000_0000);
      Fits(c * Pow128(k));
    } else {
      d := c % 2;
      Pow128Ten();
      TopBit(c);
    }
  }

  lemma Fits(x: nat)
    requires x < 0x1_0000_0000_0000_0000
    ensures x % 0x1_0000_0000_0000_0000 == x
  {
  }

  lemma TopBit(c: nat)
    ensures (c * 0x8000_0000_0000_0000) % 0x1_0000_0000_0000_0000 == (c % 2) * 0x8000_0000_0000_0000
  {
    var h := c / 2;
    assert c * 0x8000_0000_0000_0000 == h * 0x1_0000_0000_0000_0000 + (c % 2) * 0x8000_0000_0000_0000;
  }

  lemma {:induction false} PowBelow(k: nat)
    requires k <= 8
    ensures 1 <= Pow128(k) <= 0x100_0000_0000_0000
    decreases 8 - k
  {
    if k == 8 {
      Pow128Ten();
      PowUnfold(8);
    } else {
      PowBelow(k + 1);
      PowUnfold(k);
    }
  }

  lemma Scaled(c: nat, q: nat, bound: nat)
    requires c < 128 && q <= bound
    ensures c * q + q <= 128 * bound && c * q >= 0
  {
  }

  lemma ModSum(low: nat, x: nat, t: nat, q: nat)
    requires t == x % 0x1_0000_0000_0000_0000 && low < q && t + q <= 0x1_0000_0000_0000_0000
    ensures (low + x) % 0x1_0000_0000_0000_0000 == low + t
  {
  }

  lemma ShiftLeftIs(c: nat, k: nat)
    ensures ShiftLeft(c, 7 * k) == (c * Pow128(k)) % 0x1_0000_0000_0000_0000
  {
    hide Pow2, Pow128;
    Pow128IsPow2(k);
  }

  /** The or is an addition modulo 2^64. */
  lemma OrAdds(wire: nat, c: nat, k: nat)
    requires wire < Pow128(k) && c < 128 && k <= 9
    ensures BitOr(wire, ShiftLeft(c, 7 * k)) == (wire + c * Pow128(k)) % 0x1_0000_0000_0000_0000
    ensures wire < 0x1_0000_0000_0000_0000
  {
    hide Pow2, Pow128, BitOr, ShiftLeft;
    Pow128IsPow2(k);
    ShiftLeftIs(c, k);
    var d := ShiftedIn(c, k);
    OrAbove(wire, d, 7 * k);
    ModSum(wire, c * Pow128(k), d * Pow128(k), Pow128(k));
  }

  lemma OrShiftedIs(s: bytes, k: nat)
    requires k < |s| && k <= 9
    ensures OrShifted(Digits(s[..k]) % 0x1_0000_0000_0000_0000, s[k], 7 * k)
            == Digits(s[..k + 1]) % 0x1_0000_0000_0000_0000
  {
    hide Digits, Pow128, BitOr, BitAnd, ShiftLeft;
    DigitsAppend(s[..k], s[k]);
    assert s[..k + 1] == s[..k] + [s[k]];
    DigitsBelow(s[..k]);
    LowSeven(s[k]);
    OrAdds(Digits(s[..k]), s[k] % 128, k);
  }

  method ReadUvarint(a: array<byte>, lo: nat, l: nat, start: nat) returns (r: Option<Uvarint>)
    requires lo + l <= a.Length && start <= l
    ensures var s := a[lo + start..lo + l];
            r == match VarintLen(s)
                 case None => None
                 case Some(n) => Some(Uvarint(VarintValue(s, n), start + n))
  {
    hide OrShifted, Digits, VarintLenFrom;
    ghost var s := a[lo + start..lo + l];
    var wire: uint64, i, shift := 0, start, 0;
    assert s[..0] == [] && s[0..] == s;
    DigitsNone();
    while true
      invariant 0 <= shift <= 70 && shift == 7 * (i - start) && i <= l
      invariant wire == Digits(s[..i - start]) % 0x1_0000_0000_0000_0000
      invariant VarintLen(s) == match VarintLenFrom(s[i - start..], i - start)
                                case None => None
                                case Some(n) => Some(n + (i - start))
      decreases 70 - shift
    {
      ghost var k := i - start;
      VarintProgress(s, k);
      if shift >= 64 { return None; }
      if i >= l { return None; }
      var b := a[lo + i];
      OrShiftedIs(s, k);
      i := i + 1;
      wire := OrShifted(wire, b, shift);
      if b < 0x80 { return Some(Uvarint(wire, i)); }
      shift := shift + 7;
    }
  }

  lemma VarintProgress(s: bytes, k: nat)
    requires k <= 10 && k <= |s|
    ensures VarintLenFrom(s[k..], k) ==
            if k == 10 || k == |s| then None
            else if s[k] < 128 then Some(1)
            else match VarintLenFrom(s[k + 1..], k + 1)
                 case None => None
                 case Some(n) => Some(n + 1)
  {
    if k < |s| { assert s[k..][1..] == s[k + 1..]; }
  }

  lemma DigitsNone()
    ensures Digits([]) == 0
  {
  }

  datatype Span = Span(start: nat, post: nat)

  lemma SliceOfSlice(a: array<byte>, lo: nat, hi: nat, x: nat, y: nat)
    requires lo <= hi <= a.Length && x <= y <= hi - lo
    ensures a[lo..hi][x..y] == a[lo + x..lo + y]
  {
    var s := a[lo..hi];
    assert forall k :: 0 <= k < y - x ==> s[x..y][k] == s[x + k] == a[lo + x..lo + y][k];
  }

  lemma WrapIs(x: uint64)
    ensures Wrap64(x) == if x < TWO_63 then x else x - TWO_64
  {
  }

  lemma BlobUnfold(s: bytes)
    ensures ReadBlob(s) == match VarintLen(s)
                           case None => None
                           case Some(n) =>
                             var len := Wrap64(VarintValue(s, n));
                             if len < 0 || n + len > |s| then None else Some(Blob(s[n..n + len], n + len))
  {
    hide VarintLen, VarintValue, Wrap64;
  }

  /** A length and the bytes it announces. Both the length and the index after it are Go ints, and
      either may have wrapped to a negative number. */
  method ReadSpan(a: array<byte>, lo: nat, l: nat, start: nat) returns (r: Option<Span>)
    requires a.Length <= MAX_INT && lo + l <= a.Length && start <= l
    ensures r.Some? ==> start < r.value.start <= r.value.post <= l
    ensures ReadBlob(a[lo + start..lo + l]) ==
            if r.None? then None
            else Some(Blob(a[lo + r.value.start..lo + r.value.post], r.value.post - start))
  {
    hide VarintLen, VarintValue, ReadBlob, Wrap64;
    ghost var s := a[lo + start..lo + l];
    BlobUnfold(s);
    var u := ReadUvarint(a, lo, l, start);
    if u.None? { return None; }
    WrapIs(u.value.v);
    var i, msglen := u.value.next, Wrap64(u.value.v);
    if msglen < 0 { return None; }
    WrapIs(i + msglen);
    var postIndex := Wrap64(i + msglen);
    if postIndex < 0 { return None; }
    if postIndex > l { return None; }
    SliceOfSlice(a, lo + start, lo + l, i - start, postIndex - start);
    r := Some(Span(i, postIndex));
  }

  /** The switch of skipMultiv: past the value of one element. Lengths are added without looking at
      the end of the slice, so the index returned may lie beyond it. */
  method SkipValue(a: array<byte>, lo: nat, l: nat, start: nat, wireType: int) returns (r: Option<nat>)
    requires a.Length <= MAX_INT && lo + l <= a.Length && start <= l
    ensures r.Some? ==> start <= r.value <= MAX_INT
    ensures ElementBody(a[lo + start..lo + l], wireType) ==
            if r.Some? && r.value <= l then Some(r.value - start) else None
  {
    hide VarintLen, VarintValue, ReadBlob, Wrap64;
    var iNdEx: int := start;
    match wireType {
      case 0 =>
        var w := ReadUvarint(a, lo, l, iNdEx);
        if w.None? { return None; }
        iNdEx := w.value.next;
      case 1 =>
        WrapIs(iNdEx + 8);
        iNdEx := Wrap64(iNdEx + 8);
      case 2 =>
        BlobFits(a[lo + start..lo + l]);
        var w := ReadUvarint(a, lo, l, iNdEx);
        if w.None? { return None; }
        iNdEx := w.value.next;
        var length := Wrap64(w.value.v);
        WrapIs(w.value.v);
        if length < 0 { return None; }
        WrapIs(iNdEx + length);
        iNdEx := Wrap64(iNdEx + length);
      case 3 =>
      case 4 =>
      case 5 =>
        WrapIs(iNdEx + 4);
        iNdEx := Wrap64(iNdEx + 4);
      case _ =>
        return None;
    }
    if iNdEx < 0 { return None; }
    return Some(iNdEx);
  }

  datatype Element = Element(next: nat, wireType: int)

  /** A tag and its value. */
  method SkipTagged(a: array<byte>, lo: nat, l: nat, start: nat) returns (r: Option<Element>)
    requires a.Length <= MAX_INT && lo + l <= a.Length && start <= l
    ensures r.Some? ==> start < r.value.next <= MAX_INT
    ensures SkipElement(a[lo + start..lo + l]) ==
            if r.Some? && r.value.next <= l then Some(Skipped(r.value.next - start, r.value.wireType)) else None
  {
    hide SkipElement, ElementBody, VarintLen, VarintValue;
    ghost var here := a[lo + start..lo + l];
    ElementSplit(here);
    var u := ReadUvarint(a, lo, l, start);
    if u.None? { return None; }
    assert here[u.value.next - start..] == a[lo + u.value.next..lo + l];
    var wireType := u.value.v % 8;
    var next := SkipValue(a, lo, l, u.value.next, wireType);
    if next.None? { return None; }
    return Some(Element(next.value, wireType));
  }

  /** The answer when i bytes led to `depth` open groups. */
  function SkippedSoFar(s: bytes, i: nat, depth: nat): Option<nat>
    requires i <= |s|
  {
    match Skip(s[i..], depth)
    case None => None
    case Some(n) => Some(i + n)
  }

  lemma SkipStep(s: bytes, i: nat, depth: nat, e: Option<Element>)
    requires i <= |s| && (e.Some? ==> i < e.value.next)
    requires SkipElement(s[i..]) ==
             if e.Some? && e.value.next <= |s| then Some(Skipped(e.value.next - i, e.value.wireType)) else None
    ensures SkippedSoFar(s, i, depth) ==
            if e.None? || e.value.next > |s| then None
            else match DepthAfter(depth, e.value.wireType)
                 case None => None
                 case Some(d) => if d == 0 then Some(e.value.next) else SkippedSoFar(s, e.value.next, d)
  {
    hide SkipElement;
    SkipUnfold(s[i..], depth);
    if e.Some? && e.value.next <= |s| {
      assert s[i..][e.value.next - i..] == s[e.value.next..];
    }
  }

  /** skipMultiv. Its answer may lie beyond the end of the slice, which the caller must notice. */
  method SkipMultiv(a: array<byte>, lo: nat, l: nat) returns (r: Option<nat>)
    requires a.Length <= MAX_INT && lo + l <= a.Length
    ensures Skip(a[lo..lo + l], 0) == if r.Some? && r.value <= l then r else None
    ensures r.Some? ==> 1 <= r.value <= MAX_INT
  {
    hide SkipElement, SkippedSoFar;
    ghost var s := a[lo..lo + l];
    var iNdEx, depth: nat := 0, 0;
    SkipStart(s);
    while iNdEx < l
      invariant 0 <= iNdEx <= MAX_INT
      invariant iNdEx <= l ==> Skip(s, 0) == SkippedSoFar(s, iNdEx, depth)
      invariant iNdEx > l ==> Skip(s, 0) == None
      invariant iNdEx == 0 <==> depth == 0
    {
      assert s[iNdEx..] == a[lo + iNdEx..lo + l];
      var e := SkipTagged(a, lo, l, iNdEx);
      SkipStep(s, iNdEx, depth, e);
      if e.None? { return None; }
      iNdEx := e.value.next;
      if e.value.wireType == 3 {
        depth := depth + 1;
      } else if e.value.wireType == 4 {
        if depth == 0 { return None; }
        depth := depth - 1;
      }
      if depth == 0 { return Some(iNdEx); }
    }
    if iNdEx == l { SkipEnd(s, depth); }
    return None;
  }

  lemma SkipStart(s: bytes)
    ensures SkippedSoFar(s, 0, 0) == Skip(s, 0)
  {
    assert s[0..] == s;
  }

  lemma SkipEnd(s: bytes, depth: nat)
    ensures SkippedSoFar(s, |s|, depth) == None
  {
  }

  lemma ElementSplit(s: bytes)
    ensures SkipElement(s) == match VarintLen(s)
                              case None => None
                              case Some(n) =>
                                match ElementBody(s[n..], VarintValue(s, n) % 8)
                                case None => None
                                case Some(m) => Some(Skipped(n + m, VarintValue(s, n) % 8))
  {
  }

  lemma BlobFits(s: bytes)
    ensures VarintLen(s).None? ==> ReadBlob(s) == None
    ensures VarintLen(s).Some? ==>
              var n := VarintLen(s).value;
              var len := Wrap64(VarintValue(s, n));
              if len < 0 || n + len > |s| then ReadBlob(s) == None
              else ReadBlob(s).Some? && ReadBlob(s).value.size == n + len
  {
    hide VarintLen, VarintValue;
  }

  // ---- fields ----

  datatype FieldAt =
    | BlobAt(field: int, start: nat, post: nat)
    | NumberAt(field: int, v: uint64, post: nat)
    | UnknownAt(post: nat)

  /** What FieldAt means for the slice of l bytes at lo. */
  function TokenOf(f: FieldAt, a: array<byte>, lo: nat, i: nat): (t: Token)
    requires i <= f.post && lo + f.post <= a.Length && (f.BlobAt? ==> f.start <= f.post)
    reads a
    ensures t.size == f.post - i
  {
    match f
    case BlobAt(n, start, post) => Token(BlobF(n, a[lo + start..lo + post]), post - i)
    case NumberAt(n, v, post) => Token(NumberF(n, v), post - i)
    case UnknownAt(post) => Token(UnknownF, post - i)
  }

  method ReadTagAt(a: array<byte>, lo: nat, l: nat, i: nat) returns (r: Option<Tag>)
    requires lo + l <= a.Length && i <= l
    ensures r == ReadTag(a[lo + i..lo + l])
  {
    hide VarintLen, VarintValue, ToInt32;
    var u := ReadUvarint(a, lo, l, i);
    if u.None? { return None; }
    var fieldNum, wireType := ToInt32(u.value.v / 8), u.value.v % 8;
    if wireType == 4 { return None; }
    if fieldNum <= 0 { return None; }
    return Some(Tag(fieldNum, wireType, u.value.next - i));
  }

  lemma NoField(schema: Schema, s: bytes)
    requires ReadTag(s).None?
    ensures ReadField(schema, s).None?
  {
    hide ReadTag;
  }

  lemma FieldUnfold(schema: Schema, s: bytes, tag: Tag)
    requires ReadTag(s) == Some(tag)
    ensures ReadField(schema, s) ==
            match KindOf(schema, tag.field)
            case Blobs =>
              if tag.wire != 2 then None else
              (match ReadBlob(s[tag.size..])
               case None => None
               case Some(b) => Some(Token(BlobF(tag.field, b.payload), tag.size + b.size)))
            case Numbers =>
              if tag.wire != 0 then None else
              (match VarintLen(s[tag.size..])
               case None => None
               case Some(n) => Some(Token(NumberF(tag.field, VarintValue(s[tag.size..], n)), tag.size + n)))
            case Unknowns =>
              (match Skip(s, 0)
               case None => None
               case Some(n) => Some(Token(UnknownF, n)))
  {
    hide ReadTag, VarintLen, VarintValue, ReadBlob, Skip;
  }

  /** One turn of an Unmarshal loop up to the point where the message changes: tag, wire type check
      and payload, or a skip from the tag on. */
  method NextField(schema: Schema, a: array<byte>, lo: nat, l: nat, i: nat) returns (r: Option<FieldAt>)
    requires a.Length <= MAX_INT && lo + l <= a.Length && i <= l
    ensures r.Some? ==> i < r.value.post <= l && (r.value.BlobAt? ==> i < r.value.start <= r.value.post)
    ensures r.Some? && r.value.BlobAt? ==> KindOf(schema, r.value.field) == Blobs
    ensures r.Some? && r.value.NumberAt? ==> KindOf(schema, r.value.field) == Numbers
    ensures ReadField(schema, a[lo + i..lo + l]) ==
            if r.None? then None else Some(TokenOf(r.value, a, lo, i))
  {
    hide ReadField, ReadTag, VarintLen, VarintValue, ReadBlob, Skip, KindOf, Wrap64;
    ghost var s := a[lo + i..lo + l];
    var tag := ReadTagAt(a, lo, l, i);
    if tag.None? {
      NoField(schema, s);
      return None;
    }
    FieldUnfold(schema, s, tag.value);
    var at := i + tag.value.size;
    SliceOfSlice(a, lo + i, lo + l, tag.value.size, |s|);
    match KindOf(schema, tag.value.field) {
      case Blobs =>
        if tag.value.wire != 2 { return None; }
        var span := ReadSpan(a, lo, l, at);
        if span.None? { return None; }
        return Some(BlobAt(tag.value.field, span.value.start, span.value.post));
      case Numbers =>
        if tag.value.wire != 0 { return None; }
        var v := ReadUvarint(a, lo, l, at);
        if v.None? { return None; }
        return Some(NumberAt(tag.value.field, v.value.v, v.value.next));
      case Unknowns =>
        var skippy := SkipMultiv(a, lo + i, l - i);
        if skippy.None? { return None; }
        WrapIs(i + skippy.value);
        var next := Wrap64(i + skippy.value);
        if next < 0 { return None; }
        if next > l { return None; }
        return Some(UnknownAt(next));
    }
  }

  // ---- messages ----

  /** The step every Unmarshal loop takes: m', read from the field at i, is what Apply makes of m. */
  lemma Advance(m: Message, a: array<byte>, lo: nat, l: nat, i: nat, f: Option<FieldAt>, m': Option<Message>)
    requires lo + l <= a.Length && i < l
    requires f.Some? ==> i < f.value.post <= l && (f.value.BlobAt? ==> i < f.value.start <= f.value.post)
    requires ReadField(SchemaOf(m), a[lo + i..lo + l]) ==
             if f.None? then None else Some(TokenOf(f.value, a, lo, i))
    requires f.Some? ==> m' == Apply(m, TokenOf(f.value, a, lo, i).f)
    ensures Decode(m, a[lo + i..lo + l]) ==
            if f.None? || m'.None? then None else Decode(m'.value, a[lo + f.value.post..lo + l])
  {
    hide ReadField, Apply, Decode, TokenOf;
    var s := a[lo + i..lo + l];
    DecodeUnfold(m, s);
    if f.Some? { SliceOfSlice(a, lo + i, lo + l, f.value.post - i, |s|); }
  }

  lemma LeafMerged(m: LeafProof, s: bytes)
    ensures Decode(LeafM(m), s) == match MergeLeaf(m, s) case None => None case Some(x) => Some(LeafM(x))
  {
    hide ReadField, Apply;
  }

  lemma ProofMerged(m: Proof, s: bytes)
    ensures Decode(ProofM(m), s) == match MergeProof(m, s) case None => None case Some(x) => Some(ProofM(x))
  {
    hide ReadField, Apply;
  }

  method UnmarshalLeaf(m0: LeafProof, a: array<byte>, lo: nat, l: nat) returns (r: Option<LeafProof>)
    requires a.Length <= MAX_INT && lo + l <= a.Length
    ensures r == MergeLeaf(m0, a[lo..lo + l])
  {
    hide ReadField, Decode, MergeHeight, MergeLeaf;
    var m, iNdEx := m0, 0;
    LeafMerged(m0, a[lo..lo + l]);
    while iNdEx < l
      invariant iNdEx <= l
      invariant Decode(LeafM(m0), a[lo..lo + l]) == Decode(LeafM(m), a[lo + iNdEx..lo + l])
    {
      var f := NextField(LeafS, a, lo, l, iNdEx);
      var next := Some(m);
      if f.Some? && f.value.BlobAt? {
        var payload := a[lo + f.value.start..lo + f.value.post];
        match f.value.field {
          case 1 =>
            next := Some(m.(proof := payload));
          case _ =>
            var h := MergeHeight(m.proofHeight, payload);
            next := if h.None? then None else Some(m.(proofHeight := h.value));
        }
      }
      Advance(LeafM(m), a, lo, l, iNdEx, f, if next.None? then None else Some(LeafM(next.value)));
      if f.None? || next.None? { return None; }
      m, iNdEx := next.value, f.value.post;
    }
    assert a[lo + iNdEx..lo + l] == [];
    DecodeNothing(LeafM(m));
    return Some(m);
  }

  method UnmarshalProof(m0: Proof, a: array<byte>, lo: nat, l: nat) returns (r: Option<Proof>)
    requires a.Length <= MAX_INT && lo + l <= a.Length
    ensures r == MergeProof(m0, a[lo..lo + l])
  {
    hide ReadField, Decode, MergeAny, MergeHeight, MergeProof;
    var m, iNdEx := m0, 0;
    ProofMerged(m0, a[lo..lo + l]);
    while iNdEx < l
      invariant iNdEx <= l
      invariant Decode(ProofM(m0), a[lo..lo + l]) == Decode(ProofM(m), a[lo + iNdEx..lo + l])
    {
      var f := NextField(ProofS, a, lo, l, iNdEx);
      var next := Some(m);
      if f.Some? && f.value.BlobAt? {
        var payload := a[lo + f.value.start..lo + f.value.post];
        match f.value.field {
          case 1 =>
            next := Some(m.(clientProof := payload));
          case 2 =>
            var any := MergeAny(m.clientState, payload);
            next := if any.None? then None else Some(m.(clientState := any.value));
          case 3 =>
            next := Some(m.(consensusProof := payload));
          case 4 =>
            var any := MergeAny(m.consensusState, payload);
            next := if any.None? then None else Some(m.(consensusState := any.value));
          case 5 =>
            var h := MergeHeight(m.proofHeight, payload);
            next := if h.None? then None else Some(m.(proofHeight := h.value));
          case _ =>
            var h := MergeHeight(m.consensusHeight, payload);
            next := if h.None? then None else Some(m.(consensusHeight := h.value));
        }
      }
      Advance(ProofM(m), a, lo, l, iNdEx, f, if next.None? then None else Some(ProofM(next.value)));
      if f.None? || next.None? { return None; }
      m, iNdEx := next.value, f.value.post;
    }
    assert a[lo + iNdEx..lo + l] == [];
    DecodeNothing(ProofM(m));
    return Some(m);
  }

  method UnmarshalMultiProof(m0: MultiProof, a: array<byte>, lo: nat, l: nat) returns (r: Option<MultiProof>)
    requires a.Length <= MAX_INT && lo + l <= a.Length
    ensures Decode(MultiProofM(m0), a[lo..lo + l]) == if r.None? then None else Some(MultiProofM(r.value))
  {
    hide ReadField, Decode, MergeProof, MergeLeaf;
    var m, iNdEx := m0, 0;
    while iNdEx < l
      invariant iNdEx <= l
      invariant Decode(MultiProofM(m0), a[lo..lo + l]) == Decode(MultiProofM(m), a[lo + iNdEx..lo + l])
    {
      var f := NextField(MultiProofS, a, lo, l, iNdEx);
      var next := Some(m);
      if f.Some? && f.value.BlobAt? {
        var start, size := f.value.start, f.value.post - f.value.start;
        match f.value.field {
          case 1 =>
            var head := UnmarshalProof(m.head, a, lo + start, size);
            next := if head.None? then None else Some(m.(head := head.value));
          case 2 =>
            var branch := UnmarshalProof(ZERO_PROOF, a, lo + start, size);
            next := if branch.None? then None else Some(m.(branches := m.branches + [branch.value]));
          case _ =>
            var leaf := UnmarshalLeaf(m.leaf, a, lo + start, size);
            next := if leaf.None? then None else Some(m.(leaf := leaf.value));
        }
      }
      Advance(MultiProofM(m), a, lo, l, iNdEx, f, if next.None? then None else Some(MultiProofM(next.value)));
      if f.None? || next.None? { return None; }
      m, iNdEx := next.value, f.value.post;
    }
    assert a[lo + iNdEx..lo + l] == [];
    DecodeNothing(MultiProofM(m));
    return Some(m);
  }

  method UnmarshalClientState(m0: MultiVState, a: array<byte>, lo: nat, l: nat) returns (r: Option<MultiVState>)
    requires a.Length <= MAX_INT && lo + l <= a.Length
    ensures Decode(ClientM(m0), a[lo..lo + l]) == if r.None? then None else Some(ClientM(r.value))
  {
    hide ReadField, Decode, MergeAny;
    var m, iNdEx := m0, 0;
    while iNdEx < l
      invariant iNdEx <= l
      invariant Decode(ClientM(m0), a[lo..lo + l]) == Decode(ClientM(m), a[lo + iNdEx..lo + l])
    {
      var f := NextField(ClientS, a, lo, l, iNdEx);
      var next := Some(m);
      if f.Some? && f.value.BlobAt? {
        var any := MergeAny(m.underlying, a[lo + f.value.start..lo + f.value.post]);
        next := if any.None? then None else Some(m.(underlying := any.value));
      } else if f.Some? && f.value.NumberAt? {
        // the loop of the Go code ors into a uint32: the high half is lost
        next := Some(m.(depth := f.value.v % 0x1_0000_0000));
      }
      Advance(ClientM(m), a, lo, l, iNdEx, f, if next.None? then None else Some(ClientM(next.value)));
      if f.None? || next.None? { return None; }
      m, iNdEx := next.value, f.value.post;
    }
    assert a[lo + iNdEx..lo + l] == [];
    DecodeNothing(ClientM(m));
    return Some(m);
  }
}
