/**
  Recovery phrases: a 32-byte seed and its checksum byte as 24 words, following BIP-0039, section "Generating the
  mnemonic".
 */
module Mnemonic {
  import opened Core
  import opened Encoding

  const WORDS: nat := 24

  /**
    What the program takes from its surroundings: the word list, the first byte of SHA-256, lower-casing and white
    space.
   */
  datatype Setting = Setting(words: seq<string>, checksum: Bytes -> Byte, lower: string -> string, space: char -> bool)

  datatype Failure = WrongCount | UnknownWord | BadChecksum

  datatype Decoded = Seed(seed: Bytes) | Refused(why: Failure)

  // ---------------------------------------------------------------- the number between bytes and words

  /** The last k base-2048 digits of n, most significant first. */
  function Radix(n: nat, k: nat): (ds: seq<int>)
    ensures |ds| == k && forall j :: 0 <= j < k ==> 0 <= ds[j] < 2048
  {
    if k == 0 then [] else Radix(n / 2048, k - 1) + [n % 2048]
  }

  predicate DigitsOk(ds: seq<int>) { forall j :: 0 <= j < |ds| ==> 0 <= ds[j] < 2048 }

  function Joined(ds: seq<int>): int { if ds == [] then 0 else 2048 * Joined(ds[..|ds| - 1]) + ds[|ds| - 1] }

  function Power2048(k: nat): int { if k == 0 then 1 else 2048 * Power2048(k - 1) }

  lemma {:induction false} RadixJoined(n: nat, k: nat)
    requires n < Power2048(k)
    ensures Joined(Radix(n, k)) == n
  {
    if k > 0 {
      RadixJoined(n / 2048, k - 1);
      assert Radix(n, k)[..k - 1] == Radix(n / 2048, k - 1);
    }
  }

  lemma {:induction false} JoinedRadix(ds: seq<int>)
    requires DigitsOk(ds)
    ensures 0 <= Joined(ds) < Power2048(|ds|) && Radix(Joined(ds), |ds|) == ds
  {
    if ds != [] {
      var t := ds[..|ds| - 1];
      JoinedRadix(t);
      assert Joined(ds) / 2048 == Joined(t) && Joined(ds) % 2048 == ds[|ds| - 1];
      assert ds == t + [ds[|ds| - 1]];
    }
  }

  /** Bytes of fixed length are the big-endian form of their value. */
  lemma {:induction false} ValueBigEndian(b: Bytes)
    ensures Value(b) < Power(|b|) && BigEndian(Value(b), |b|) == b
  {
    if b != [] {
      var t := b[..|b| - 1];
      ValueBigEndian(t);
      assert Value(b) / 256 == Value(t) && Value(b) % 256 == b[|b| - 1];
      assert b == t + [b[|b| - 1]];
    }
  }

  lemma {:induction false} PowersAgree(k: nat)
    ensures Power2048(8 * k) == Power(11 * k)
  {
    if k > 0 {
      PowersAgree(k - 1);
      EightWords(8 * (k - 1));
      ElevenBytes(11 * (k - 1));
    }
  }

  lemma EightWords(m: nat)
    ensures Power2048(m + 8) == 0x1_0000_0000_0000_0000_0000_00 * Power2048(m)
  {
    assert Power2048(m + 8) == 2048 * Power2048(m + 7) == 2048 * 2048 * Power2048(m + 6);
    assert Power2048(m + 6) == 2048 * Power2048(m + 5) == 2048 * 2048 * Power2048(m + 4);
    assert Power2048(m + 4) == 2048 * Power2048(m + 3) == 2048 * 2048 * Power2048(m + 2);
    assert Power2048(m + 2) == 2048 * Power2048(m + 1) == 2048 * 2048 * Power2048(m);
  }

  lemma ElevenBytes(m: nat)
    ensures Power(m + 11) == 0x1_0000_0000_0000_0000_0000_00 * Power(m)
  {
    assert Power(m + 11) == 256 * Power(m + 10) == 256 * 256 * Power(m + 9) == 256 * 256 * 256 * Power(m + 8);
    assert Power(m + 8) == 256 * Power(m + 7) == 256 * 256 * Power(m + 6) == 256 * 256 * 256 * Power(m + 5);
    assert Power(m + 5) == 256 * Power(m + 4) == 256 * 256 * Power(m + 3) == 256 * 256 * 256 * Power(m + 2);
    assert Power(m + 2) == 256 * Power(m + 1) == 256 * 256 * Power(m);
  }

  // ---------------------------------------------------------------- words

  predicate NoSpace(t: Setting, w: string) { w != "" && forall j :: 0 <= j < |w| ==> !t.space(w[j]) }

  /** 2048 different words without white space, and lower-casing that leaves phrases of them alone. */
  ghost predicate GoodSetting(t: Setting) {
    && |t.words| == 2048 && (forall i, j :: 0 <= i < j < |t.words| ==> t.words[i] != t.words[j])
    && (forall i :: 0 <= i < |t.words| ==> NoSpace(t, t.words[i]))
    && t.space(' ')
    && (forall ws: seq<string> :: (forall i :: 0 <= i < |ws| ==> ws[i] in t.words) ==> t.lower(Join(ws)) == Join(ws))
  }

  /** strings.Join(ws, " ") */
  function Join(ws: seq<string>): string {
    if ws == [] then "" else if |ws| == 1 then ws[0] else ws[0] + " " + Join(ws[1..])
  }

  /** Where the word starting at i ends. */
  function WordEnd(t: Setting, s: string, i: nat): (e: nat)
    requires i <= |s|
    ensures i <= e <= |s| && (e < |s| ==> t.space(s[e])) && forall j :: i <= j < e ==> !t.space(s[j])
    decreases |s| - i
  {
    if i == |s| || t.space(s[i]) then i else WordEnd(t, s, i + 1)
  }

  /** strings.Fields */
  function Fields(t: Setting, s: string): seq<string>
    decreases |s|
  {
    if s == "" then []
    else if t.space(s[0]) then Fields(t, s[1..])
    else
      var e := WordEnd(t, s, 0);
      [s[..e]] + Fields(t, s[e..])
  }

  lemma WordEndIs(t: Setting, w: string, rest: string)
    requires NoSpace(t, w) && (rest == "" || t.space(rest[0]))
    ensures WordEnd(t, w + rest, 0) == |w|
  {
    var s := w + rest;
    forall j | 0 <= j < |w| ensures !t.space(s[j]) {
      assert s[j] == w[j];
    }
    assert rest != "" ==> s[|w|] == rest[0];
  }

  /** The first of several words comes off at its separator. */
  lemma FirstField(t: Setting, w: string, rest: string)
    requires NoSpace(t, w) && (rest == "" || t.space(rest[0]))
    ensures Fields(t, w + rest) == [w] + Fields(t, rest)
  {
    hide WordEnd;
    var s := w + rest;
    assert s[0] == w[0];
    WordEndIs(t, w, rest);
    assert s[..|w|] == w && s[|w|..] == rest;
  }

  /** Joined words come apart again. */
  lemma {:induction false} FieldsJoin(t: Setting, ws: seq<string>)
    requires t.space(' ') && forall i :: 0 <= i < |ws| ==> NoSpace(t, ws[i])
    ensures Fields(t, Join(ws)) == ws
  {
    hide NoSpace, WordEnd;
    if |ws| == 1 {
      FirstField(t, ws[0], "");
      assert ws[0] + "" == ws[0] && ws == [ws[0]];
    } else if |ws| > 1 {
      var rest := " " + Join(ws[1..]);
      assert rest[1..] == Join(ws[1..]);
      FirstField(t, ws[0], rest);
      assert ws[0] + rest == ws[0] + " " + Join(ws[1..]);
      FieldsJoin(t, ws[1..]);
      assert ws == [ws[0]] + ws[1..];
    }
  }

  function WordsOf(t: Setting, ds: seq<int>): (ws: seq<string>)
    requires |t.words| == 2048 && DigitsOk(ds)
    ensures |ws| == |ds|
  {
    seq(|ds|, j requires 0 <= j < |ds| => t.words[ds[j]])
  }

  // ---------------------------------------------------------------- encoding and decoding

  /** Seed and checksum as one number. */
  function Entropy(t: Setting, seed: Bytes): nat { Value(seed + [t.checksum(seed)]) }

  function PhraseWords(t: Setting, seed: Bytes): (ws: seq<string>)
    requires |t.words| == 2048
    ensures |ws| == WORDS
  {
    WordsOf(t, Radix(Entropy(t, seed), WORDS))
  }

  /** The phrase of a seed. */
  function Phrase(t: Setting, seed: Bytes): string
    requires |t.words| == 2048
  {
    Join(PhraseWords(t, seed))
  }

  /** From the last word to the first, eleven bits at a time. */
  method Encode(t: Setting, seed: Bytes) returns (phrase: Option<string>)
    requires |t.words| == 2048
    ensures phrase == if |seed| == 32 then Some(Phrase(t, seed)) else None
  {
    if |seed| != 32 {
      return None;
    }
    var n := Value(seed + [t.checksum(seed)]);
    ghost var all := Radix(n, WORDS);
    var out := new string[WORDS];
    var i := WORDS - 1;
    while i >= 0
      invariant -1 <= i < WORDS
      invariant all[..i + 1] == Radix(n, i + 1)
      invariant forall j :: i < j < WORDS ==> out[j] == t.words[all[j]]
    {
      assert all[..i + 1][i] == n % 2048;
      assert all[..i] == Radix(n, i + 1)[..i] == Radix(n / 2048, i);
      out[i] := t.words[n % 2048];
      n := n / 2048;
      i := i - 1;
    }
    assert out[..] == WordsOf(t, all);
    phrase := Some(Join(out[..]));
  }

  /** The index of every listed word. */
  method IndexOf(words: seq<string>) returns (index: map<string, int>)
    requires forall i, j :: 0 <= i < j < |words| ==> words[i] != words[j]
    ensures forall w :: w in index <==> w in words
    ensures forall i :: 0 <= i < |words| ==> words[i] in index && index[words[i]] == i
  {
    index := map[];
    var i := 0;
    while i < |words|
      invariant 0 <= i <= |words|
      invariant forall w :: w in index <==> w in words[..i]
      invariant forall j :: 0 <= j < i ==> words[j] in index && index[words[j]] == j
    {
      index := index[words[i] := i];
      i := i + 1;
    }
    assert words[..i] == words;
  }

  /** The words of a phrase are exactly those of this seed, whatever their case and spacing. */
  ghost predicate Spells(t: Setting, phrase: string, seed: Bytes)
    requires |t.words| == 2048
  {
    |seed| == 32 && Fields(t, t.lower(phrase)) == PhraseWords(t, seed)
  }

  lemma EntropyBounds(t: Setting, seed: Bytes)
    requires |seed| == 32
    ensures Entropy(t, seed) < Power2048(WORDS) && Power2048(WORDS) == Power(33)
    ensures BigEndian(Entropy(t, seed), 33) == seed + [t.checksum(seed)]
  {
    PowersAgree(3);
    ValueBigEndian(seed + [t.checksum(seed)]);
  }

  /** Listed words stand for one number, so digits that spell a seed are that seed's digits. */
  lemma DigitsSpell(t: Setting, ds: seq<int>, seed: Bytes)
    requires GoodSetting(t) && |ds| == WORDS && DigitsOk(ds) && |seed| == 32
    ensures WordsOf(t, ds) == PhraseWords(t, seed) <==> Joined(ds) == Entropy(t, seed)
  {
    EntropyBounds(t, seed);
    var es := Radix(Entropy(t, seed), WORDS);
    RadixJoined(Entropy(t, seed), WORDS);
    JoinedRadix(ds);
    if WordsOf(t, ds) == WordsOf(t, es) {
      forall j | 0 <= j < WORDS ensures ds[j] == es[j] {
        assert WordsOf(t, ds)[j] == WordsOf(t, es)[j];
      }
      assert ds == es;
    }
  }

  lemma NumberToSeed(t: Setting, n: nat, seed: Bytes, check: Byte)
    requires n < Power(33) && BigEndian(n, 33) == seed + [check] && |seed| == 32
    ensures n == Entropy(t, seed) <==> t.checksum(seed) == check
  {
    BigEndianValue(n, 33);
    EntropyBounds(t, seed);
    if n == Entropy(t, seed) {
      assert (seed + [check])[32] == (seed + [t.checksum(seed)])[32];
    }
  }

  lemma SameNumberSameSeed(t: Setting, n: nat, seed: Bytes, check: Byte, other: Bytes)
    requires BigEndian(n, 33) == seed + [check] && |seed| == 32 == |other| && n == Entropy(t, other)
    ensures seed == other && check == t.checksum(other)
  {
    EntropyBounds(t, other);
    assert (seed + [check])[..32] == seed && (other + [t.checksum(other)])[..32] == other;
    assert (seed + [check])[32] == check;
  }

  /**
    The seed behind a phrase, or the first fault. A phrase is accepted with a seed exactly when its words, up to case
    and spacing, are the words of that seed.
   */
  method Decode(t: Setting, phrase: string) returns (r: Decoded)
    requires GoodSetting(t)
    ensures forall seed: Bytes :: r == Seed(seed) <==> Spells(t, phrase, seed)
    ensures r == Refused(WrongCount) <==> |Fields(t, t.lower(phrase))| != WORDS
    ensures r == Refused(UnknownWord) <==>
      |Fields(t, t.lower(phrase))| == WORDS && exists w :: w in Fields(t, t.lower(phrase)) && w !in t.words
  {
    var ws := Fields(t, t.lower(phrase));
    if |ws| != WORDS {
      return Refused(WrongCount);
    }
    var index := IndexOf(t.words);
    ghost var ds;
    var n: Option<nat>;
    n, ds := ReadNumber(t.words, index, ws);
    if n == None {
      return Refused(UnknownWord);
    }
    AllListed(t, ws, ds);
    r := FromNumber(t, phrase, n.value, ds);
  }

  lemma AllListed(t: Setting, ws: seq<string>, ds: seq<int>)
    requires |t.words| == 2048 && DigitsOk(ds) && ws == WordsOf(t, ds)
    ensures forall w :: w in ws ==> w in t.words
  {}

  /** Eleven bits for each word, while every word is in the list. */
  method ReadNumber(words: seq<string>, index: map<string, int>, ws: seq<string>)
      returns (n: Option<nat>, ghost ds: seq<int>)
    requires |words| == 2048 && (forall w :: w in index <==> w in words)
    requires forall i :: 0 <= i < |words| ==> words[i] in index && index[words[i]] == i
    ensures n == None <==> exists w :: w in ws && w !in words
    ensures n.Some? ==> DigitsOk(ds) && |ds| == |ws| && n.value == Joined(ds)
    ensures n.Some? ==> forall j :: 0 <= j < |ws| ==> ws[j] == words[ds[j]]
  {
    ds := [];
    var m := 0;
    var i := 0;
    while i < |ws|
      invariant 0 <= i <= |ws| && |ds| == i && DigitsOk(ds) && m == Joined(ds) && 0 <= m
      invariant forall j :: 0 <= j < i ==> ws[j] == words[ds[j]]
    {
      if ws[i] !in index {
        assert ws[i] in ws && ws[i] !in words;
        n := None;
        return;
      }
      var v := index[ws[i]];
      assert (ds + [v])[..i] == ds;
      m := m * 2048 + v;
      ds := ds + [v];
      i := i + 1;
    }
    n := Some(m);
  }

  /** The last step: the number's 33 bytes are the seed and its checksum. */
  method FromNumber(t: Setting, ghost phrase: string, n: nat, ghost ds: seq<int>) returns (r: Decoded)
    requires GoodSetting(t) && |ds| == WORDS && DigitsOk(ds) && n == Joined(ds)
      && Fields(t, t.lower(phrase)) == WordsOf(t, ds)
    ensures forall seed: Bytes :: r == Seed(seed) <==> Spells(t, phrase, seed)
    ensures r.Refused? ==> r.why == BadChecksum
  {
    JoinedRadix(ds);
    PowersAgree(3);
    var buf := BigEndian(n, 33);
    var seed, check := buf[..32], buf[32];
    assert seed + [check] == buf;
    NumberToSeed(t, n, seed, check);
    forall other: Bytes | |other| == 32
      ensures Spells(t, phrase, other) <==> n == Entropy(t, other)
      ensures n == Entropy(t, other) ==> other == seed
    {
      DigitsSpell(t, ds, other);
      if n == Entropy(t, other) {
        SameNumberSameSeed(t, n, seed, check, other);
      }
    }
    r := if t.checksum(seed) != check then Refused(BadChecksum) else Seed(seed);
  }

  lemma PhraseListed(t: Setting, seed: Bytes)
    requires GoodSetting(t)
    ensures forall i :: 0 <= i < WORDS ==> PhraseWords(t, seed)[i] in t.words && NoSpace(t, PhraseWords(t, seed)[i])
  {}

  /** Every seed's phrase spells that seed and no other, so decoding it gives the seed back. */
  lemma PhraseSpells(t: Setting, seed: Bytes, other: Bytes)
    requires GoodSetting(t) && |seed| == 32
    ensures Spells(t, Phrase(t, seed), other) <==> other == seed
  {
    PhraseListed(t, seed);
    FieldsJoin(t, PhraseWords(t, seed));
    assert t.lower(Phrase(t, seed)) == Phrase(t, seed);
    if Spells(t, Phrase(t, seed), other) {
      var ds := Radix(Entropy(t, seed), WORDS);
      DigitsSpell(t, ds, other);
      EntropyBounds(t, seed);
      RadixJoined(Entropy(t, seed), WORDS);
      SameNumberSameSeed(t, Entropy(t, seed), seed, t.checksum(seed), other);
    }
  }

  /** Writing a seed down and reading it back, for every 32-byte seed. */
  method WriteAndRead(t: Setting, seed: Bytes) returns (r: Decoded)
    requires GoodSetting(t) && |seed| == 32
    ensures r == Seed(seed)
  {
    var phrase := Encode(t, seed);
    PhraseSpells(t, seed, seed);
    r := Decode(t, phrase.value);
  }

  /** An accepted phrase is, up to case and spacing, what Encode writes for its seed. */
  method ReadAndWrite(t: Setting, phrase: string) returns (again: Option<string>)
    requires GoodSetting(t)
    ensures again.Some? <==> exists seed: Bytes :: Spells(t, phrase, seed)
    ensures again.Some? ==> again.value == Join(Fields(t, t.lower(phrase)))
  {
    var r := Decode(t, phrase);
    again := None;
    if r.Seed? {
      assert Spells(t, phrase, r.seed);
      again := Encode(t, r.seed);
    }
  }
}
