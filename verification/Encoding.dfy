/**
  The bytes that are signed: a domain tag, then length-prefixed fields and tagged optional sections.
  A decoder recovers every field, so equal bytes mean equal content, and no transaction reads as a block header.
 */
module Encoding {
  import opened Core

  type Byte = x: int | 0 <= x < 256

  type Bytes = seq<Byte>

  // ---------------------------------------------------------------- fields

  /** One encoded field: a string behind its 32-bit length, a 64-bit number, or bytes as they are. */
  datatype Token = Text(s: Bytes) | Num(v: int) | Raw(b: Bytes)

  datatype Kind = KText | KNum | KRaw(n: nat)

  datatype Read<+T> = Bad | Got(value: T, rest: Bytes)

  function Power(n: nat): int { if n == 0 then 1 else 256 * Power(n - 1) }

  /** v as n bytes, most significant first. */
  function BigEndian(v: nat, n: nat): (b: Bytes)
    ensures |b| == n
  {
    if n == 0 then [] else BigEndian(v / 256, n - 1) + [v % 256]
  }

  function Value(b: Bytes): nat { if b == [] then 0 else 256 * Value(b[..|b| - 1]) + b[|b| - 1] }

  lemma {:induction false} BigEndianValue(v: nat, n: nat)
    requires v < Power(n)
    ensures Value(BigEndian(v, n)) == v
  {
    if n > 0 {
      BigEndianValue(v / 256, n - 1);
      assert BigEndian(v, n)[..n - 1] == BigEndian(v / 256, n - 1);
    }
  }

  lemma Powers()
    ensures Power(4) == 0x1_0000_0000 && Power(8) == TWO64
  {
    assert Power(0) == 1 && Power(1) == 256 && Power(2) == 0x1_0000 && Power(3) == 0x100_0000;
    assert Power(4) == 0x1_0000_0000 && Power(5) == 0x100_0000_0000 && Power(6) == 0x1_0000_0000_0000;
    assert Power(7) == 0x100_0000_0000_0000;
  }

  predicate Encodable(t: Token) {
    match t
    case Text(s) => |s| < 0x1_0000_0000
    case Num(v) => 0 <= v < TWO64
    case Raw(_) => true
  }

  function KindOf(t: Token): Kind {
    match t
    case Text(_) => KText
    case Num(_) => KNum
    case Raw(b) => KRaw(|b|)
  }

  function Kinds(ts: seq<Token>): (ks: seq<Kind>)
    ensures |ks| == |ts|
  {
    seq(|ts|, j requires 0 <= j < |ts| => KindOf(ts[j]))
  }

  function Field(t: Token): Bytes {
    match t
    case Text(s) => BigEndian(|s|, 4) + s
    case Num(v) => if 0 <= v then BigEndian(v, 8) else []
    case Raw(b) => b
  }

  function Encode(ts: seq<Token>): Bytes { if ts == [] then [] else Field(ts[0]) + Encode(ts[1..]) }

  predicate AllEncodable(ts: seq<Token>) { forall j :: 0 <= j < |ts| ==> Encodable(ts[j]) }

  /** t is a field of kind k as a reader produces it. */
  predicate Is(t: Token, k: Kind) { KindOf(t) == k && (t.Num? ==> 0 <= t.v) }

  function ReadField(b: Bytes, k: Kind): (r: Read<Token>)
    ensures r.Got? ==> Is(r.value, k)
  {
    match k
    case KText =>
      if |b| < 4 then Bad
      else
        var n := Value(b[..4]);
        if |b| < 4 + n then Bad else Got(Text(b[4..4 + n]), b[4 + n..])
    case KNum => if |b| < 8 then Bad else Got(Num(Value(b[..8])), b[8..])
    case KRaw(n) => if |b| < n then Bad else Got(Raw(b[..n]), b[n..])
  }

  function ReadFields(b: Bytes, ks: seq<Kind>): (r: Read<seq<Token>>)
    ensures r.Got? ==> |r.value| == |ks| && forall j :: 0 <= j < |ks| ==> Is(r.value[j], ks[j])
  {
    if ks == [] then Got([], b)
    else
      match ReadField(b, ks[0])
      case Bad => Bad
      case Got(t, b1) =>
        match ReadFields(b1, ks[1..])
        case Bad => Bad
        case Got(ts, b2) => Got([t] + ts, b2)
  }

  lemma FieldBack(t: Token, rest: Bytes)
    requires Encodable(t)
    ensures ReadField(Field(t) + rest, KindOf(t)) == Got(t, rest)
  {
    Powers();
    match t
    case Text(s) =>
      BigEndianValue(|s|, 4);
      var b := Field(t) + rest;
      assert b[..4] == BigEndian(|s|, 4) && b[4..4 + |s|] == s && b[4 + |s|..] == rest;
    case Num(v) =>
      BigEndianValue(v, 8);
      var b := Field(t) + rest;
      assert b[..8] == BigEndian(v, 8) && b[8..] == rest;
    case Raw(x) =>
      var b := Field(t) + rest;
      assert b[..|x|] == x && b[|x|..] == rest;
  }

  /** Reading with the right kinds gives back the fields and leaves what follows. */
  lemma {:induction false} FieldsBack(ts: seq<Token>, rest: Bytes)
    requires AllEncodable(ts)
    ensures ReadFields(Encode(ts) + rest, Kinds(ts)) == Got(ts, rest)
    decreases |ts|
  {
    hide Field, ReadField;
    if ts == [] {
      assert Encode(ts) + rest == rest;
    } else {
      var tail := Encode(ts[1..]) + rest;
      assert Encode(ts) + rest == Field(ts[0]) + tail;
      FieldBack(ts[0], tail);
      FieldsBack(ts[1..], rest);
      assert Kinds(ts)[1..] == Kinds(ts[1..]);
      assert ts == [ts[0]] + ts[1..];
    }
  }

  lemma {:induction false} EncodeAppend(a: seq<Token>, b: seq<Token>)
    ensures Encode(a + b) == Encode(a) + Encode(b)
    decreases |a|
  {
    if a == [] {
      assert a + b == b;
    } else {
      assert (a + b)[1..] == a[1..] + b;
      EncodeAppend(a[1..], b);
    }
  }

  // ---------------------------------------------------------------- numbers and lists

  /** Go's conversion of an int64 to a uint64, and back. */
  function Unsigned(v: int): int { if v < 0 then v + TWO64 else v }

  function Signed(u: int): int { if u < TWO64 / 2 then u else u - TWO64 }

  predicate Int64(v: int) { -TWO64 / 2 <= v < TWO64 / 2 }

  function Texts(ss: seq<Bytes>): (ts: seq<Token>)
    ensures |ts| == |ss|
  {
    seq(|ss|, j requires 0 <= j < |ss| => Text(ss[j]))
  }

  function Nums(vs: seq<int>): (ts: seq<Token>)
    ensures |ts| == |vs|
  {
    seq(|vs|, j requires 0 <= j < |vs| => Num(vs[j]))
  }

  function Repeat(k: Kind, n: nat): (ks: seq<Kind>)
    ensures |ks| == n
  {
    seq(n, _ => k)
  }

  predicate TextsOnly(ts: seq<Token>) { forall j :: 0 <= j < |ts| ==> ts[j].Text? }

  predicate NumsOnly(ts: seq<Token>) { forall j :: 0 <= j < |ts| ==> ts[j].Num? }

  function TextValues(ts: seq<Token>): seq<Bytes>
    requires TextsOnly(ts)
  {
    seq<Bytes>(|ts|, j requires 0 <= j < |ts| => ts[j].s)
  }

  function NumValues(ts: seq<Token>): seq<int>
    requires NumsOnly(ts)
  {
    seq(|ts|, j requires 0 <= j < |ts| => ts[j].v)
  }

  /** n strings; n is taken from the message, so a count beyond what is left fails. */
  function ReadTexts(b: Bytes, n: nat): Read<seq<Bytes>> {
    match ReadFields(b, Repeat(KText, n))
    case Bad => Bad
    case Got(ts, rest) => if TextsOnly(ts) then Got(TextValues(ts), rest) else Bad
  }

  function ReadNums(b: Bytes, n: nat): Read<seq<int>> {
    match ReadFields(b, Repeat(KNum, n))
    case Bad => Bad
    case Got(ts, rest) => if NumsOnly(ts) then Got(NumValues(ts), rest) else Bad
  }

  lemma TextsBack(ss: seq<Bytes>, rest: Bytes)
    requires AllEncodable(Texts(ss))
    ensures ReadTexts(Encode(Texts(ss)) + rest, |ss|) == Got(ss, rest)
  {
    FieldsBack(Texts(ss), rest);
    assert Kinds(Texts(ss)) == Repeat(KText, |ss|);
    assert TextValues(Texts(ss)) == ss;
  }

  lemma NumsBack(vs: seq<int>, rest: Bytes)
    requires AllEncodable(Nums(vs))
    ensures ReadNums(Encode(Nums(vs)) + rest, |vs|) == Got(vs, rest)
  {
    FieldsBack(Nums(vs), rest);
    assert Kinds(Nums(vs)) == Repeat(KNum, |vs|);
    assert NumValues(Nums(vs)) == vs;
  }
}
