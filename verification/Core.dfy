/** Values shared by every module of the ledger model. */
module Core {

  /** An address is the hex of a 32-byte public key, read here as one number; the empty string is NoAddress. */
  datatype Address = NoAddress | Key(pub: nat)

  /** ORP is the native asset (the empty symbol); every other asset is issued under a symbol. */
  datatype Asset = ORP | Issued(symbol: string)

  /** A 32-byte digest read as a big-endian number; 0 is the zero hash. */
  type Hash = nat

  const TWO64: int := 0x1_0000_0000_0000_0000

  /** The range of Go's uint64. */
  type Amount = x: int | 0 <= x < 0x1_0000_0000_0000_0000

  datatype Option<+T> = None | Some(value: T)

  /** The error classes of the ledger; message texts are not modelled. */
  datatype Error =
    | NonceTooLow | NonceTooHigh | Insufficient | FeeTooLow | Overflow
    | PoolRule | AssetRule | EscrowRule | GuardRule

  /** SHA-256 as the lottery uses it: the first seed, the next seed, and a seed's first eight bytes. Uninterpreted. */
  datatype Sha = Sha(start: (Hash, int) -> Hash, next: Hash -> Hash, word: Hash -> nat)

  /** Money paid out of a circle or an escrow to an account. */
  datatype Credit = Credit(to: Address, amount: int)

  /** bps basis points of x, rounded down. */
  function BasisPoints(x: int, bps: int): int { x * bps / 10000 }

  function Min(a: int, b: int): int { if a <= b then a else b }

  function Max(a: int, b: int): int { if a <= b then b else a }
}

/** The few facts about products and quotients the ledger's splits need. */
module Arithmetic {
  import opened Core

  lemma MulNonNeg(a: int, b: int)
    requires 0 <= a && 0 <= b
    ensures 0 <= a * b
  {}

  lemma MulMonotone(a: int, b: int, c: int)
    requires a <= b && 0 <= c
    ensures a * c <= b * c
  {}

  lemma MulStep(x: int, k: int)
    ensures x * k == x * (k - 1) + x
  {}

  lemma DivFacts(x: int, n: int)
    requires 0 < n && 0 <= x
    ensures 0 <= x / n && x / n * n <= x < x / n * n + n
  {}

  /** n - 1 parts of x / n fit in x. */
  lemma PartBounds(x: int, n: int)
    requires 0 < n && 0 <= x
    ensures 0 <= x / n && 0 <= x / n * (n - 1) <= x
  {
    DivFacts(x, n);
    MulStep(x / n, n);
    MulNonNeg(x / n, n - 1);
  }

  lemma BasisPointsBounds(x: int, bps: int)
    requires 0 <= x && 0 <= bps <= 10000
    ensures 0 <= BasisPoints(x, bps) <= x
  {
    assert x * bps <= x * 10000;
  }
}

/** Finite sequences of numbers and flags, as the per-member arrays of a circle use them. */
module Sequences {
  import opened Core

  /** The sum of the first k entries. */
  function SumTo(s: seq<int>, k: nat): int
    requires k <= |s|
  {
    if k == 0 then 0 else SumTo(s, k - 1) + s[k - 1]
  }

  function Sum(s: seq<int>): int { SumTo(s, |s|) }

  function Zeros(n: nat): (z: seq<int>)
    ensures |z| == n && forall j :: 0 <= j < n ==> z[j] == 0
  {
    seq(n, _ => 0)
  }

  function Falses(n: nat): (z: seq<bool>)
    ensures |z| == n && forall j :: 0 <= j < n ==> !z[j]
  {
    seq(n, _ => false)
  }

  /** What Go's clear does to a slice of amounts; a nil slice (here empty) stays nil. */
  function Cleared(s: seq<int>): (z: seq<int>)
    ensures |z| == |s|
  {
    Zeros(|s|)
  }

  function CountTo(s: seq<bool>, k: nat): nat
    requires k <= |s|
  {
    if k == 0 then 0 else CountTo(s, k - 1) + if s[k - 1] then 1 else 0
  }

  function Count(s: seq<bool>): nat { CountTo(s, |s|) }

  predicate Distinct<T(==)>(s: seq<T>) {
    forall i, j :: 0 <= i < j < |s| ==> s[i] != s[j]
  }

  predicate NonNeg(s: seq<int>) {
    forall j :: 0 <= j < |s| ==> 0 <= s[j]
  }

  /** Every entry is a uint64. */
  predicate Fits(s: seq<int>) {
    forall j :: 0 <= j < |s| ==> 0 <= s[j] < TWO64
  }

  function SumCreditsTo(cs: seq<Credit>, k: nat): int
    requires k <= |cs|
  {
    if k == 0 then 0 else SumCreditsTo(cs, k - 1) + cs[k - 1].amount
  }

  function SumCredits(cs: seq<Credit>): int { SumCreditsTo(cs, |cs|) }

  lemma {:induction false} SumCreditsPrefix(a: seq<Credit>, b: seq<Credit>, k: nat)
    requires k <= |a|
    ensures SumCreditsTo(a + b, k) == SumCreditsTo(a, k)
  {
    if k > 0 {
      SumCreditsPrefix(a, b, k - 1);
    }
  }

  lemma {:induction false} SumCreditsSuffix(a: seq<Credit>, b: seq<Credit>, k: nat)
    requires k <= |b|
    ensures SumCreditsTo(a + b, |a| + k) == SumCredits(a) + SumCreditsTo(b, k)
  {
    if k == 0 {
      SumCreditsPrefix(a, b, |a|);
    } else {
      SumCreditsSuffix(a, b, k - 1);
    }
  }

  lemma SumCreditsAppend(a: seq<Credit>, b: seq<Credit>)
    ensures SumCredits(a + b) == SumCredits(a) + SumCredits(b)
  {
    SumCreditsSuffix(a, b, |b|);
  }

  lemma {:induction false} SumToUpdate(s: seq<int>, i: nat, v: int, k: nat)
    requires i < |s| && k <= |s|
    ensures SumTo(s[i := v], k) == SumTo(s, k) + if i < k then v - s[i] else 0
  {
    if k > 0 {
      SumToUpdate(s, i, v, k - 1);
    }
  }

  lemma SumUpdate(s: seq<int>, i: nat, v: int)
    requires i < |s|
    ensures Sum(s[i := v]) == Sum(s) - s[i] + v
  {
    SumToUpdate(s, i, v, |s|);
  }

  lemma {:induction false} SumToZeros(n: nat, k: nat)
    requires k <= n
    ensures SumTo(Zeros(n), k) == 0
  {
    if k > 0 {
      SumToZeros(n, k - 1);
    }
  }

  lemma SumZeros(n: nat)
    ensures Sum(Zeros(n)) == 0
  {
    SumToZeros(n, n);
  }

  lemma {:induction false} SumToBounds(s: seq<int>, k: nat)
    requires NonNeg(s) && k <= |s|
    ensures 0 <= SumTo(s, k)
    ensures forall j :: 0 <= j < k ==> s[j] <= SumTo(s, k)
  {
    if k > 0 {
      SumToBounds(s, k - 1);
    }
  }

  lemma SumNonNeg(s: seq<int>)
    requires NonNeg(s)
    ensures 0 <= Sum(s)
    ensures forall j :: 0 <= j < |s| ==> s[j] <= Sum(s)
  {
    SumToBounds(s, |s|);
  }

  /** A pair of entries exchanged. */
  function Swapped<T>(s: seq<T>, i: nat, j: nat): (t: seq<T>)
    requires i < |s| && j < |s|
    ensures |t| == |s|
  {
    s[i := s[j]][j := s[i]]
  }

  lemma SumSwapped(s: seq<int>, i: nat, j: nat)
    requires i < |s| && j < |s|
    ensures Sum(Swapped(s, i, j)) == Sum(s)
  {
    SumUpdate(s, i, s[j]);
    SumUpdate(s[i := s[j]], j, s[i]);
  }

  lemma {:induction false} CountToUpdate(s: seq<bool>, i: nat, v: bool, k: nat)
    requires i < |s| && k <= |s|
    ensures CountTo(s[i := v], k) == CountTo(s, k) + if i < k then (if v then 1 else 0) - (if s[i] then 1 else 0) else 0
  {
    if k > 0 {
      CountToUpdate(s, i, v, k - 1);
    }
  }

  lemma CountUpdate(s: seq<bool>, i: nat, v: bool)
    requires i < |s|
    ensures Count(s[i := v]) == Count(s) - (if s[i] then 1 else 0) + (if v then 1 else 0)
  {
    CountToUpdate(s, i, v, |s|);
  }

  lemma {:induction false} CountToBounds(s: seq<bool>, k: nat)
    requires k <= |s|
    ensures CountTo(s, k) <= k
    ensures CountTo(s, k) == k <==> forall j :: 0 <= j < k ==> s[j]
    ensures CountTo(s, k) == 0 <==> forall j :: 0 <= j < k ==> !s[j]
  {
    if k > 0 {
      CountToBounds(s, k - 1);
    }
  }

  lemma CountBounds(s: seq<bool>)
    ensures Count(s) <= |s|
    ensures Count(s) == |s| <==> forall j :: 0 <= j < |s| ==> s[j]
    ensures Count(s) == 0 <==> forall j :: 0 <= j < |s| ==> !s[j]
  {
    CountToBounds(s, |s|);
  }

  /** Position of the first occurrence, or -1 (Go's slices.Index). */
  function IndexFrom<T(==)>(s: seq<T>, x: T, k: nat): (i: int)
    requires k <= |s|
    requires forall j :: 0 <= j < k ==> s[j] != x
    ensures -1 <= i < |s|
    ensures i >= 0 ==> s[i] == x && forall j :: 0 <= j < i ==> s[j] != x
    ensures i == -1 <==> x !in s
    decreases |s| - k
  {
    if k == |s| then -1 else if s[k] == x then k else IndexFrom(s, x, k + 1)
  }

  function Index<T(==)>(s: seq<T>, x: T): (i: int)
    ensures -1 <= i < |s|
    ensures i >= 0 ==> s[i] == x && forall j :: 0 <= j < i ==> s[j] != x
    ensures i == -1 <==> x !in s
  {
    IndexFrom(s, x, 0)
  }
}

/** Sums over finite maps: the money held by all accounts, circles or escrows. */
module MapSums {

  ghost function Total<K(!new)>(m: map<K, int>): int
    decreases |m|
  {
    if m == map[] then 0
    else
      var k :| k in m;
      m[k] + Total(m - {k})
  }

  /** The sum does not depend on the order keys are visited in. */
  lemma {:induction false} TotalTake<K(!new)>(m: map<K, int>, k: K)
    requires k in m
    ensures Total(m) == m[k] + Total(m - {k})
    decreases |m|
  {
    var p :| p in m && Total(m) == m[p] + Total(m - {p});
    if p != k {
      TotalTake(m - {p}, k);
      TotalTake(m - {k}, p);
      assert m - {p} - {k} == m - {k} - {p};
    }
  }

  lemma TotalPut<K(!new)>(m: map<K, int>, k: K, v: int)
    ensures Total(m[k := v]) == Total(m) - (if k in m then m[k] else 0) + v
  {
    TotalTake(m[k := v], k);
    if k in m {
      TotalTake(m, k);
      assert m[k := v] - {k} == m - {k};
    } else {
      assert m[k := v] - {k} == m;
    }
  }

  lemma {:induction false} TotalNonNeg<K(!new)>(m: map<K, int>)
    requires forall k :: k in m ==> 0 <= m[k]
    ensures 0 <= Total(m)
    ensures forall k :: k in m ==> m[k] <= Total(m)
    decreases |m|
  {
    forall k | k in m ensures 0 <= m[k] <= Total(m) {
      TotalTake(m, k);
      TotalNonNeg(m - {k});
    }
    if m != map[] {
      var k :| k in m;
      TotalTake(m, k);
      TotalNonNeg(m - {k});
    }
  }

  lemma {:induction false} TotalZero<K(!new)>(m: map<K, int>)
    requires forall k :: k in m ==> m[k] == 0
    ensures Total(m) == 0
    decreases |m|
  {
    if m != map[] {
      var k :| k in m;
      TotalTake(m, k);
      TotalZero(m - {k});
    }
  }

  /** Two distinct keys together never exceed the whole. */
  lemma TotalPair<K(!new)>(m: map<K, int>, a: K, b: K)
    requires forall k :: k in m ==> 0 <= m[k]
    requires a in m && b in m && a != b
    ensures m[a] + m[b] <= Total(m)
  {
    TotalTake(m, a);
    TotalNonNeg(m - {a});
    assert b in m - {a};
  }
}
