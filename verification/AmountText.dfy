/**
  Amounts as decimal text: every amount is written in exactly one canonical way, and reading accepts exactly the
  well-formed decimals whose value in millionths fits in 64 bits, without ever rounding.
 */
module AmountText {
  import opened Core

  const UNIT: int := 1_000_000

  // ---------------------------------------------------------------- digits

  predicate IsDigit(c: char) { '0' <= c <= '9' }

  /** Non-empty and digits only. */
  predicate Digits(s: string) { s != "" && forall j :: 0 <= j < |s| ==> IsDigit(s[j]) }

  function DigitValue(c: char): int { c as int - '0' as int }

  function DigitChar(d: int): (c: char)
    requires 0 <= d < 10
    ensures IsDigit(c) && DigitValue(c) == d
  {
    '0' + d as char
  }

  /** The number a digit string denotes. */
  function Number(s: string): int { if s == "" then 0 else 10 * Number(s[..|s| - 1]) + DigitValue(s[|s| - 1]) }

  /** %d */
  function Decimal(n: nat): (s: string)
    ensures Digits(s)
  {
    if n < 10 then [DigitChar(n)] else Decimal(n / 10) + [DigitChar(n % 10)]
  }

  /** %0kd for a number of at most k digits. */
  function Padded(n: nat, k: nat): (s: string)
    ensures |s| == k && forall j :: 0 <= j < k ==> IsDigit(s[j])
  {
    if k == 0 then "" else Padded(n / 10, k - 1) + [DigitChar(n % 10)]
  }

  function Pow10(k: nat): int { if k == 0 then 1 else 10 * Pow10(k - 1) }

  function Zeros(k: nat): (z: string)
    ensures |z| == k && forall j :: 0 <= j < k ==> z[j] == '0'
  {
    seq(k, _ => '0')
  }

  // ---------------------------------------------------------------- writing and reading

  /** strings.TrimRight(s, "0") */
  function TrimZeros(s: string): string {
    if s != "" && s[|s| - 1] == '0' then TrimZeros(s[..|s| - 1]) else s
  }

  function TrimPoint(s: string): string {
    if s != "" && s[|s| - 1] == '.' then s[..|s| - 1] else s
  }

  function Format(a: Amount): string { TrimPoint(TrimZeros(Decimal(a / UNIT) + "." + Padded(a % UNIT, 6))) }

  /** Position of the first point, or the length of s. */
  function PointAt(s: string, i: nat): (p: nat)
    requires i <= |s|
    ensures i <= p <= |s| && (p < |s| ==> s[p] == '.') && forall j :: i <= j < p ==> s[j] != '.'
    decreases |s| - i
  {
    if i == |s| || s[i] == '.' then i else PointAt(s, i + 1)
  }

  /** The digits check, character by character. */
  method CheckDigits(s: string) returns (ok: bool)
    ensures ok == Digits(s)
  {
    var j := 0;
    while j < |s|
      invariant 0 <= j <= |s| && forall k :: 0 <= k < j ==> IsDigit(s[k])
    {
      if s[j] < '0' || s[j] > '9' {
        return false;
      }
      j := j + 1;
    }
    ok := s != "";
  }

  /** strconv.ParseUint on digits: fails when the number does not fit in 64 bits. */
  function ParseUint(s: string): Option<int> { if Number(s) < TWO64 then Some(Number(s)) else None }

  function Parse(s: string): Option<Amount> {
    var p := PointAt(s, 0);
    var dot := p < |s|;
    var whole, frac := s[..p], if dot then s[p + 1..] else "";
    if !Digits(whole) || |frac| > 6 || (dot && !Digits(frac)) then None
    else
      match ParseUint(whole)
      case None => None
      case Some(w) =>
        var f := Number(frac + Zeros(6 - |frac|));
        FracBounds(frac);
        WholeBounds(whole);
        FitsExactly(w, f);
        if w > (TWO64 - 1 - f) / UNIT then None else Some(w * UNIT + f)
  }

  // ---------------------------------------------------------------- facts about digit strings

  lemma {:induction false} NumberBounds(s: string)
    requires forall j :: 0 <= j < |s| ==> IsDigit(s[j])
    ensures 0 <= Number(s) < Pow10(|s|)
  {
    if s != "" {
      NumberBounds(s[..|s| - 1]);
    }
  }

  lemma WholeBounds(s: string)
    requires Digits(s)
    ensures 0 <= Number(s)
  {
    NumberBounds(s);
  }

  lemma MillionIsPower()
    ensures Pow10(6) == UNIT
  {
    assert Pow10(1) == 10 && Pow10(2) == 100 && Pow10(3) == 1000 && Pow10(4) == 10000 && Pow10(5) == 100000;
  }

  lemma FracBounds(frac: string)
    requires |frac| <= 6 && forall j :: 0 <= j < |frac| ==> IsDigit(frac[j])
    ensures 0 <= Number(frac + Zeros(6 - |frac|)) < UNIT
  {
    NumberBounds(frac + Zeros(6 - |frac|));
    MillionIsPower();
  }

  /** The 64-bit guard before the multiplication refuses exactly the values that do not fit. */
  lemma FitsExactly(w: int, f: int)
    requires 0 <= w && 0 <= f < UNIT
    ensures w > (TWO64 - 1 - f) / UNIT <==> w * UNIT + f >= TWO64
  {}

  lemma {:induction false} DecimalNumber(n: nat)
    ensures Number(Decimal(n)) == n
  {
    if n >= 10 {
      DecimalNumber(n / 10);
      assert Decimal(n)[..|Decimal(n)| - 1] == Decimal(n / 10);
    } else {
      assert Decimal(n)[..0] == "";
      assert Number("") == 0;
    }
  }

  lemma {:induction false} PaddedNumber(n: nat, k: nat)
    requires n < Pow10(k)
    ensures Number(Padded(n, k)) == n
  {
    if k > 0 {
      PaddedNumber(n / 10, k - 1);
      assert Padded(n, k)[..k - 1] == Padded(n / 10, k - 1);
    }
  }

  /** A digit string of fixed length is the padded form of its number. */
  lemma {:induction false} NumberPadded(s: string)
    requires forall j :: 0 <= j < |s| ==> IsDigit(s[j])
    ensures 0 <= Number(s) && Padded(Number(s), |s|) == s
  {
    NumberBounds(s);
    if s != "" {
      var t := s[..|s| - 1];
      NumberPadded(t);
      assert Number(s) / 10 == Number(t) && Number(s) % 10 == DigitValue(s[|s| - 1]);
      assert s == t + [s[|s| - 1]];
    }
  }

  lemma NumberOne(c: char)
    requires IsDigit(c)
    ensures Number([c]) == DigitValue(c) && 0 <= DigitValue(c) < 10 && Decimal(DigitValue(c)) == [c]
  {
    assert [c][..0] == "" && Number("") == 0;
  }

  lemma DecimalStep(n: nat, c: char)
    requires 1 <= n && IsDigit(c)
    ensures Decimal(10 * n + DigitValue(c)) == Decimal(n) + [c]
  {}

  /** A digit string without leading zeros is the plain decimal of its number. */
  lemma {:induction false} NumberDecimal(s: string)
    requires Digits(s) && (|s| > 1 ==> s[0] != '0')
    ensures 0 <= Number(s) && Decimal(Number(s)) == s
    ensures |s| > 1 || s[0] != '0' ==> 1 <= Number(s)
  {
    var c := s[|s| - 1];
    if |s| == 1 {
      NumberOne(c);
      assert s == [c];
    } else {
      var t := s[..|s| - 1];
      NumberDecimal(t);
      assert Number(s) == 10 * Number(t) + DigitValue(c);
      hide Number, Decimal, Digits;
      DecimalStep(Number(t), c);
      assert s == t + [c];
    }
  }

  // ---------------------------------------------------------------- the written form

  /** What w "." f (or w alone, when f is empty) denotes in millionths. */
  function Scaled(w: string, f: string): int
    requires |f| <= 6
  {
    Number(w) * UNIT + Number(f + Zeros(6 - |f|))
  }

  function Written(w: string, f: string): string { if f == "" then w else w + "." + f }

  /** Digits, optionally a point and one to six digits. */
  predicate WellFormed(w: string, f: string) { Digits(w) && |f| <= 6 && (f == "" || Digits(f)) }

  lemma PointFound(w: string, f: string)
    requires WellFormed(w, f)
    ensures PointAt(Written(w, f), 0) == |w|
  {
    var s := Written(w, f);
    var p := PointAt(s, 0);
    forall j | 0 <= j < |w| ensures s[j] != '.' {
      assert s[j] == w[j] && IsDigit(w[j]);
    }
    assert p >= |w|;
    assert f != "" ==> s[|w|] == '.';
  }

  /** Every well-formed decimal is read as exactly its value if that fits in 64 bits, and refused otherwise. */
  lemma ReadsWritten(w: string, f: string)
    requires WellFormed(w, f)
    ensures Parse(Written(w, f)) == if Scaled(w, f) < TWO64 then Some(Scaled(w, f)) else None
  {
    var s := Written(w, f);
    PointFound(w, f);
    assert s[..|w|] == w;
    if f != "" {
      assert s[|w| + 1..] == f;
    }
    FracBounds(f);
    NumberBounds(w);
    FitsExactly(Number(w), Number(f + Zeros(6 - |f|)));
  }

  /**
    And nothing else is accepted: reading succeeds with v exactly on the well-formed decimals that denote v below
    2^64.
   */
  lemma ParseExact(s: string, v: Amount)
    ensures Parse(s) == Some(v) <==> exists w, f :: WellFormed(w, f) && s == Written(w, f) && Scaled(w, f) == v
  {
    if Parse(s) == Some(v) {
      var p := PointAt(s, 0);
      var w, f := s[..p], if p < |s| then s[p + 1..] else "";
      assert s == Written(w, f) by {
        if p < |s| {
          assert s == w + "." + f;
        }
      }
      ReadsWritten(w, f);
      assert WellFormed(w, f) && Scaled(w, f) == v;
    }
    if exists w, f :: WellFormed(w, f) && s == Written(w, f) && Scaled(w, f) == v {
      var w, f :| WellFormed(w, f) && s == Written(w, f) && Scaled(w, f) == v;
      ReadsWritten(w, f);
    }
  }

  // ---------------------------------------------------------------- the canonical form

  /** No leading zeros, no trailing zeros after the point, no bare point. */
  predicate Canonical(w: string, f: string) {
    WellFormed(w, f) && (|w| > 1 ==> w[0] != '0') && (f != "" ==> f[|f| - 1] != '0')
  }

  lemma {:induction false} TrimmedPart(s: string)
    requires forall j :: 0 <= j < |s| ==> IsDigit(s[j])
    ensures var t := TrimZeros(s);
      && |t| <= |s| && t + Zeros(|s| - |t|) == s && (t != "" ==> t[|t| - 1] != '0')
      && forall j :: 0 <= j < |t| ==> IsDigit(t[j])
  {
    if s != "" && s[|s| - 1] == '0' {
      var t := s[..|s| - 1];
      TrimmedPart(t);
      var r := TrimZeros(t);
      assert Zeros(|s| - |r|) == Zeros(|t| - |r|) + "0";
      assert s == t + "0";
    }
  }

  lemma {:induction false} TrimAfterPoint(w: string, f: string)
    requires forall j :: 0 <= j < |f| ==> IsDigit(f[j])
    ensures TrimZeros(w + "." + f) == w + "." + TrimZeros(f)
  {
    var s := w + "." + f;
    if f == "" {
      assert s == w + ".";
    } else {
      assert s[|s| - 1] == f[|f| - 1];
      if f[|f| - 1] == '0' {
        assert s[..|s| - 1] == w + "." + f[..|f| - 1];
        TrimAfterPoint(w, f[..|f| - 1]);
      }
    }
  }

  /** What Format writes is canonical and denotes the amount. */
  lemma FormatCanonical(a: Amount) returns (w: string, f: string)
    ensures Format(a) == Written(w, f) && Canonical(w, f) && Scaled(w, f) == a
  {
    var frac := Padded(a % UNIT, 6);
    w, f := Decimal(a / UNIT), TrimZeros(frac);
    TrimmedPart(frac);
    TrimAfterPoint(w, frac);
    if f == "" {
      assert (w + ".")[..|w|] == w;
    } else {
      assert (w + "." + f)[|w| + |f|] == f[|f| - 1];
    }
    DecimalNumber(a / UNIT);
    NoLeadingZero(a / UNIT);
    MillionIsPower();
    PaddedNumber(a % UNIT, 6);
  }

  lemma {:induction false} NoLeadingZero(n: nat)
    ensures Digits(Decimal(n)) && (|Decimal(n)| > 1 ==> Decimal(n)[0] != '0')
    ensures n > 0 ==> Decimal(n)[0] != '0'
  {
    if n >= 10 {
      NoLeadingZero(n / 10);
    }
  }

  /** Reading what was written gives the amount back, for every amount. */
  lemma RoundTrip(a: Amount)
    ensures Parse(Format(a)) == Some(a)
  {
    var w, f := FormatCanonical(a);
    ReadsWritten(w, f);
  }

  lemma {:induction false} TrimPaddedZeros(f: string, k: nat)
    requires f == "" || f[|f| - 1] != '0'
    ensures TrimZeros(f + Zeros(k)) == f
  {
    if k == 0 {
      assert f + Zeros(0) == f;
    } else {
      var s := f + Zeros(k);
      assert s[..|s| - 1] == f + Zeros(k - 1);
      TrimPaddedZeros(f, k - 1);
    }
  }

  /** Cutting the zeros and a bare point off w "." frac leaves the written form. */
  lemma TrimmedWritten(w: string, f: string)
    requires |f| <= 6 && (f == "" || (f[|f| - 1] != '0' && Digits(f))) && Digits(w)
    ensures TrimPoint(TrimZeros(w + "." + (f + Zeros(6 - |f|)))) == Written(w, f)
  {
    hide TrimZeros, Digits;
    DigitsEnd(f);
    TrimAfterPoint(w, f + Zeros(6 - |f|));
    TrimPaddedZeros(f, 6 - |f|);
    if f == "" {
      assert w + "." + "" == w + "." && (w + ".")[..|w|] == w;
    } else {
      assert (w + "." + f)[|w| + |f|] == f[|f| - 1];
    }
  }

  lemma DigitsEnd(f: string)
    requires |f| <= 6 && (f == "" || Digits(f))
    ensures var s := f + Zeros(6 - |f|); forall j :: 0 <= j < |s| ==> IsDigit(s[j])
    ensures f != "" ==> f[|f| - 1] != '.'
  {}

  lemma ScaledParts(w: string, f: string)
    requires WellFormed(w, f)
    ensures var v := Scaled(w, f);
      0 <= v && 0 <= Number(w) && v / UNIT == Number(w) && v % UNIT == Number(f + Zeros(6 - |f|))
  {
    FracBounds(f);
    NumberBounds(w);
  }

  /** A canonical decimal is what Format writes for its value: each amount has exactly one canonical text. */
  lemma CanonicalUnique(w: string, f: string)
    requires Canonical(w, f) && Scaled(w, f) < TWO64
    ensures 0 <= Scaled(w, f) && Format(Scaled(w, f)) == Written(w, f)
  {
    ScaledParts(w, f);
    DigitsEnd(f);
    NumberDecimal(w);
    NumberPadded(f + Zeros(6 - |f|));
    TrimmedWritten(w, f);
    hide Scaled, Number, Written, TrimPoint, TrimZeros, Decimal, Padded;
    assert Format(Scaled(w, f)) == TrimPoint(TrimZeros(w + "." + (f + Zeros(6 - |f|))));
  }
}
