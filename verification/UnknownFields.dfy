/** Fields a decoder does not know: a grammar of them, nested groups included, and the proof that
    skipping passes exactly one of them, so that they can stand anywhere without being noticed. */
module UnknownFields {
  import opened Options
  import opened Wire
  import opened Messages

  datatype Extra =
    | ExtraNumber(field: nat, v: uint64)
    | ExtraFixed64(field: nat, p: bytes)
    | ExtraBytes(field: nat, p: bytes)
    | ExtraGroup(field: nat, body: seq<Extra>)
    | ExtraFixed32(field: nat, p: bytes)

  predicate WellFormed(e: Extra) {
    && 1 <= e.field < 0x2000_0000
    && match e
       case ExtraNumber(_, _) => true
       case ExtraFixed64(_, p) => |p| == 8
       case ExtraBytes(_, p) => |p| <= MAX_INT
       case ExtraGroup(_, body) => forall x <- body :: WellFormed(x)
       case ExtraFixed32(_, p) => |p| == 4
  }

  function WireType(e: Extra): nat {
    match e
    case ExtraNumber(_, _) => 0
    case ExtraFixed64(_, _) => 1
    case ExtraBytes(_, _) => 2
    case ExtraGroup(_, _) => 3
    case ExtraFixed32(_, _) => 5
  }

  function EncodeExtra(e: Extra): bytes
    decreases e, 1
  {
    TagBytes(e.field, WireType(e)) +
    match e
    case ExtraNumber(_, v) => VarintBytes(v)
    case ExtraFixed64(_, p) => p
    case ExtraBytes(_, p) => BlobBytes(p)
    case ExtraGroup(field, body) => EncodeExtras(body) + TagBytes(field, 4)
    case ExtraFixed32(_, p) => p
  }

  function EncodeExtras(es: seq<Extra>): bytes
    decreases es, 0
  {
    if es == [] then [] else EncodeExtra(es[0]) + EncodeExtras(es[1..])
  }

  /** The result of skipping `size` bytes that leave `depth` groups open in front of t. */
  function ThenSkip(size: nat, t: bytes, depth: nat): Option<nat> {
    if depth == 0 then Some(size) else
    var rest :- Skip(t, depth);
    Some(size + rest)
  }

  /** One element, whose tag has a number the encoder may use. */
  lemma ElementRead(field: nat, wire: nat, body: bytes, t: bytes)
    requires 1 <= field < 0x2000_0000 && wire < 8
    requires ElementBody(body + t, wire) == Some(|body|)
    ensures SkipElement(TagBytes(field, wire) + body + t) == Some(Skipped(|TagBytes(field, wire)| + |body|, wire))
  {
    hide ElementBody, VarintLen, VarintValue, VarintBytes;
    var s := TagBytes(field, wire) + body + t;
    VarintRoundTrip(field * 8 + wire, body + t);
    assert s == TagBytes(field, wire) + (body + t);
    assert s[|TagBytes(field, wire)|..] == body + t;
  }

  lemma SkipFirst(s: bytes, size: nat, wire: nat, t: bytes, depth: nat)
    requires SkipElement(s) == Some(Skipped(size, wire)) && size <= |s| && s[size..] == t
    requires DepthAfter(depth, wire).Some?
    ensures Skip(s, depth) == ThenSkip(size, t, DepthAfter(depth, wire).value)
  {
    hide SkipElement;
    SkipUnfold(s, depth);
  }

  lemma SkipPlainExtra(e: Extra, t: bytes, depth: nat)
    requires WellFormed(e) && !e.ExtraGroup?
    ensures Skip(EncodeExtra(e) + t, depth) == ThenSkip(|EncodeExtra(e)|, t, depth)
  {
    hide Skip, SkipElement, VarintBytes, VarintLen, ReadBlob, BlobBytes, TagBytes;
    var tag, s := TagBytes(e.field, WireType(e)), EncodeExtra(e) + t;
    var body := EncodeExtra(e)[|tag|..];
    match e {
      case ExtraNumber(_, v) => VarintRoundTrip(v, t);
      case ExtraBytes(_, p) => BlobRoundTrip(p, t);
      case _ =>
    }
    ElementRead(e.field, WireType(e), body, t);
    assert s == tag + body + t;
    SkipFirst(s, |tag| + |body|, WireType(e), t, depth);
  }

  lemma {:induction false} SkipExtra(e: Extra, t: bytes, depth: nat)
    requires WellFormed(e)
    ensures Skip(EncodeExtra(e) + t, depth) == ThenSkip(|EncodeExtra(e)|, t, depth)
    decreases e, 1
  {
    hide Skip, SkipElement, TagBytes;
    if e.ExtraGroup? {
      var tag, s := TagBytes(e.field, WireType(e)), EncodeExtra(e) + t;
      var inner := EncodeExtras(e.body) + (TagBytes(e.field, 4) + t);
      ElementRead(e.field, 3, [], inner);
      assert s == tag + inner == tag + [] + inner;
      SkipFirst(s, |tag|, 3, inner, depth);
      SkipExtras(e.body, TagBytes(e.field, 4) + t, depth + 1);
      ElementRead(e.field, 4, [], t);
      var end := TagBytes(e.field, 4);
      assert end + t == end + [] + t;
      SkipFirst(end + t, |end|, 4, t, depth + 1);
    } else {
      SkipPlainExtra(e, t, depth);
    }
  }

  lemma {:induction false} SkipExtras(es: seq<Extra>, t: bytes, depth: nat)
    requires forall x <- es :: WellFormed(x)
    requires depth > 0
    ensures Skip(EncodeExtras(es) + t, depth) == ThenSkip(|EncodeExtras(es)|, t, depth)
    decreases es, 0
  {
    hide Skip, EncodeExtra;
    if es == [] {
      assert EncodeExtras(es) + t == t;
    } else {
      var rest := EncodeExtras(es[1..]) + t;
      assert EncodeExtras(es) + t == EncodeExtra(es[0]) + rest;
      SkipExtra(es[0], rest, depth);
      SkipExtras(es[1..], t, depth);
    }
  }

  /** skipMultiv accepts every well-formed field, however deeply its groups nest, and uses up
      exactly its bytes. */
  lemma SkipPassesOneField(e: Extra, t: bytes)
    requires WellFormed(e)
    ensures Skip(EncodeExtra(e) + t, 0) == Some(|EncodeExtra(e)|)
  {
    SkipExtra(e, t, 0);
  }

  /** A field with a number the message does not have, put between any two of its fields, changes
      nothing: the same message, or the same refusal. */
  lemma UnknownFieldIgnored(m0: Message, s1: bytes, e: Extra, s2: bytes)
    requires Decode(m0, s1).Some?
    requires WellFormed(e) && KindOf(SchemaOf(m0), e.field) == Unknowns
    ensures Decode(m0, s1 + EncodeExtra(e) + s2) == Decode(m0, s1 + s2)
  {
    hide Skip, ReadTag, EncodeExtra, TagBytes, Decode, Apply;
    var m1, x := Decode(m0, s1).value, EncodeExtra(e);
    DecodeConcat(m0, s1, s2);
    DecodeConcat(m0, s1, x + s2);
    assert s1 + x + s2 == s1 + (x + s2);
    SkipPassesOneField(e, s2);
    ExtraTag(e, s2);
    assert (x + s2)[|x|..] == s2;
    ApplyUnknown(m1);
    DecodeUnfold(m1, x + s2);
  }

  lemma ApplyUnknown(m: Message)
    ensures Apply(m, UnknownF) == Some(m)
  {
  }

  lemma ExtraTag(e: Extra, t: bytes)
    requires WellFormed(e)
    ensures ReadTag(EncodeExtra(e) + t) == Some(Tag(e.field, WireType(e), |TagBytes(e.field, WireType(e))|))
    ensures EncodeExtra(e) != []
  {
    hide ReadTag, VarintBytes;
    var tag := TagBytes(e.field, WireType(e));
    var body := EncodeExtra(e)[|tag|..];
    assert EncodeExtra(e) + t == tag + (body + t);
    TagRoundTrip(e.field, WireType(e), body + t);
  }
}
