/**
  The lottery: turns are drawn from the last to the first, each by a lot among the members still standing; every order
  can come out, and different lots give different orders.
 */
module LotteryDraw {
  import opened Core
  import opened Sequences
  import opened Circles
  import opened CircleBooks

  // ---------------------------------------------------------------- drawing lots

  /** What a lot leaves standing: the last one takes the place of the one drawn. */
  function Without<T>(standing: seq<T>, lot: nat): (r: seq<T>)
    requires lot < |standing|
    ensures |r| == |standing| - 1
  {
    standing[lot := standing[|standing| - 1]][..|standing| - 1]
  }

  /** Lots for a number of members: the first among all of them, the next among one fewer, and so on. */
  ghost predicate Lots(lots: seq<nat>, n: nat) {
    |lots| == (if n == 0 then 0 else n - 1) && forall j :: 0 <= j < |lots| ==> lots[j] < n - j
  }

  /** The order these lots give: the first lot names the last turn. */
  function InOrder<T>(lots: seq<nat>, standing: seq<T>): (order: seq<T>)
    requires Lots(lots, |standing|)
    ensures |order| == |standing|
    decreases |standing|
  {
    if |standing| <= 1 then standing
    else InOrder(lots[1..], Without(standing, lots[0])) + [standing[lots[0]]]
  }

  /** The lots a seed gives: each seed is hashed once more, and its first eight bytes taken modulo those standing. */
  function LotsOf(sha: Sha, seed: Hash, n: nat): (lots: seq<nat>)
    ensures Lots(lots, n)
    decreases n
  {
    if n <= 1 then [] else [sha.word(sha.next(seed)) % n] + LotsOf(sha, sha.next(seed), n - 1)
  }

  // ---------------------------------------------------------------- the shuffle draws lots

  lemma ExchangedTail<T>(s: seq<T>, k: nat, p: nat)
    requires p <= k < |s|
    ensures Swapped(s, k, p)[..k] == Without(s[..k + 1], p) && Swapped(s, k, p)[k..] == [s[p]] + s[k + 1..]
  {}

  lemma DrawOnce(sha: Sha, c: Circle, k: nat, seed: Hash)
    requires Shape(c) && 0 < k < |c.members|
    ensures var p := sha.word(sha.next(seed)) % (k + 1); var d := SwapIdx(c, k, p);
      && DrawFrom(sha, c, k, seed) == DrawFrom(sha, d, k - 1, sha.next(seed))
      && d.members == Swapped(c.members, k, p)
  {
    hide Shape;
    assert Pick(sha, sha.next(seed), k) == sha.word(sha.next(seed)) % (k + 1);
  }

  lemma DrawNone(sha: Sha, c: Circle, seed: Hash)
    requires Shape(c)
    ensures 0 < |c.members| && DrawFrom(sha, c, 0, seed) == c
    ensures InOrder(LotsOf(sha, seed, 1), c.members[..1]) == c.members[..1]
  {}

  lemma Associate<T>(a: seq<T>, x: T, b: seq<T>)
    ensures a + ([x] + b) == (a + [x]) + b
  {}

  lemma {:induction false} DrawFromLots(sha: Sha, c: Circle, k: nat, seed: Hash)
    requires Shape(c) && k < |c.members|
    ensures DrawFrom(sha, c, k, seed).members
      == InOrder(LotsOf(sha, seed, k + 1), c.members[..k + 1]) + c.members[k + 1..]
    decreases k
  {
    hide Shape, DrawFrom, InOrder, LotsOf, SwapIdx, Without, Swapped;
    if k == 0 {
      DrawNone(sha, c, seed);
      assert c.members[..1] + c.members[1..] == c.members;
    } else {
      var next := sha.next(seed);
      var p := sha.word(next) % (k + 1);
      var d, m := SwapIdx(c, k, p), c.members;
      DrawOnce(sha, c, k, seed);
      ExchangedTail(m, k, p);
      DrawFromLots(sha, d, k - 1, next);
      FirstLot(sha, seed, m[..k + 1]);
      assert m[..k + 1][p] == m[p];
      Associate(InOrder(LotsOf(sha, next, k), Without(m[..k + 1], p)), m[p], m[k + 1..]);
    }
  }

  lemma FirstLot(sha: Sha, seed: Hash, standing: seq<Address>)
    requires |standing| > 1
    ensures var next, n := sha.next(seed), |standing|; var lot := sha.word(next) % n;
      InOrder(LotsOf(sha, seed, n), standing)
        == InOrder(LotsOf(sha, next, n - 1), Without(standing, lot)) + [standing[lot]]
  {
    var next, n := sha.next(seed), |standing|;
    var lots := LotsOf(sha, seed, n);
    assert lots[0] == sha.word(next) % n && lots[1..] == LotsOf(sha, next, n - 1);
  }

  /**
    The turns of a lottery are the lots drawn from the joining order: the last turn goes to the member at the position
    that the first hashed seed names, modulo their number, and so on down for those still standing.
   */
  lemma DrawIsLots(sha: Sha, c: Circle)
    requires Shape(c)
    ensures DrawOrder(sha, c).members
      == InOrder(LotsOf(sha, sha.start(c.id, c.startedAt), |c.members|), c.members)
  {
    hide Shape, DrawOrder, DrawFrom, InOrder, LotsOf;
    var n, seed := |c.members|, sha.start(c.id, c.startedAt);
    DrawNone(sha, c, seed);
    DrawIs(sha, c);
    DrawFromLots(sha, c, n - 1, seed);
    Whole(c.members);
    Whole(InOrder(LotsOf(sha, seed, n), c.members));
  }

  lemma Whole<T>(s: seq<T>)
    ensures s[..|s|] == s && s[|s|..] == [] && s + [] == s
  {}

  lemma DrawIs(sha: Sha, c: Circle)
    requires Shape(c)
    ensures DrawOrder(sha, c) == DrawFrom(sha, c, |c.members| - 1, sha.start(c.id, c.startedAt))
  {
    hide DrawFrom, Shape;
  }

  // ---------------------------------------------------------------- every order, and each by one draw

  lemma WithoutMultiset<T>(s: seq<T>, lot: nat)
    requires lot < |s|
    ensures multiset(Without(s, lot)) + multiset{s[lot]} == multiset(s)
  {
    var n := |s| - 1;
    assert s == s[..n] + [s[n]];
    if lot < n {
      assert Without(s, lot) == s[..n][lot := s[n]];
    } else {
      assert Without(s, lot) == s[..n];
    }
  }

  lemma WithoutDistinct<T>(s: seq<T>, lot: nat)
    requires lot < |s| && Distinct(s)
    ensures Distinct(Without(s, lot)) && s[lot] !in Without(s, lot)
  {}

  lemma {:induction false} DrawnKeeps<T>(lots: seq<nat>, s: seq<T>)
    requires Lots(lots, |s|)
    ensures multiset(InOrder(lots, s)) == multiset(s)
    decreases |s|
  {
    if |s| > 1 {
      DrawnKeeps(lots[1..], Without(s, lots[0]));
      WithoutMultiset(s, lots[0]);
    }
  }

  lemma OneLess<T>(s: seq<T>, order: seq<T>, lot: nat)
    requires lot < |s| && |order| > 0 && order[|order| - 1] == s[lot] && multiset(order) == multiset(s)
    ensures multiset(order[..|order| - 1]) == multiset(Without(s, lot))
  {
    var n, last := |order| - 1, s[lot];
    WithoutMultiset(s, lot);
    assert order == order[..n] + [last];
    var a, b := multiset(order[..n]), multiset(Without(s, lot));
    hide Without;
    assert a + multiset{last} == b + multiset{last};
    assert (a + multiset{last}) - multiset{last} == a && (b + multiset{last}) - multiset{last} == b;
  }

  /** Every order of the members comes out of some lots. */
  lemma {:induction false} EveryOrder<T>(s: seq<T>, order: seq<T>) returns (lots: seq<nat>)
    requires multiset(order) == multiset(s)
    ensures Lots(lots, |s|) && InOrder(lots, s) == order
    decreases |s|
  {
    assert |multiset(order)| == |order| && |multiset(s)| == |s|;
    if |s| <= 1 {
      lots := [];
      if |s| == 1 {
        assert order[0] in multiset(s);
      }
    } else {
      var n := |s| - 1;
      var last := order[n];
      assert last in multiset(s);
      var lot :| 0 <= lot < |s| && s[lot] == last;
      OneLess(s, order, lot);
      var rest := EveryOrder(Without(s, lot), order[..n]);
      lots := [lot] + rest;
      assert lots[1..] == rest;
    }
  }

  /** Different lots give different orders. */
  lemma {:induction false} OneDraw<T>(s: seq<T>, a: seq<nat>, b: seq<nat>)
    requires Distinct(s) && Lots(a, |s|) && Lots(b, |s|) && InOrder(a, s) == InOrder(b, s)
    ensures a == b
    decreases |s|
  {
    if |s| > 1 {
      var n := |s| - 1;
      assert InOrder(a, s)[n] == s[a[0]] && InOrder(b, s)[n] == s[b[0]];
      assert a[0] == b[0];
      WithoutDistinct(s, a[0]);
      assert InOrder(a, s)[..n] == InOrder(a[1..], Without(s, a[0]));
      assert InOrder(b, s)[..n] == InOrder(b[1..], Without(s, b[0]));
      OneDraw(Without(s, a[0]), a[1..], b[1..]);
      assert a == [a[0]] + a[1..] && b == [b[0]] + b[1..];
    }
  }

  /** Hash functions that give these lots. */
  function ShaFor(lots: seq<nat>): Sha {
    Sha((_, _) => 0, h => h + 1, h => if 1 <= h <= |lots| then lots[h - 1] else 0)
  }

  lemma {:induction false} ShaGives(lots: seq<nat>, from: nat, n: nat)
    requires Lots(lots, from + n) && 0 < n
    ensures LotsOf(ShaFor(lots), from, n) == lots[from..]
    decreases n
  {
    hide ShaFor, LotsOf;
    LotsUnfold(ShaFor(lots), from, n);
    if n > 1 {
      ShaGives(lots, from + 1, n - 1);
      NextLot(lots, from, n);
      assert lots[from..] == [lots[from]] + lots[from + 1..];
    }
  }

  lemma LotsUnfold(sha: Sha, seed: Hash, n: nat)
    ensures LotsOf(sha, seed, n) ==
      if n <= 1 then [] else [sha.word(sha.next(seed)) % n] + LotsOf(sha, sha.next(seed), n - 1)
  {}

  lemma NextLot(lots: seq<nat>, from: nat, n: nat)
    requires Lots(lots, from + n) && 1 < n
    ensures from < |lots| && ShaFor(lots).next(from) == from + 1
      && ShaFor(lots).word(from + 1) % n == lots[from]
  {}

  /** The lottery can put the members of a circle in any order at all. */
  lemma AnyOrderComesOut(c: Circle, order: seq<Address>) returns (sha: Sha)
    requires Shape(c) && multiset(order) == multiset(c.members)
    ensures DrawOrder(sha, c).members == order
  {
    var lots := EveryOrder(c.members, order);
    sha := ShaFor(lots);
    ShaGives(lots, 0, |c.members|);
    assert lots[0..] == lots;
    DrawIsLots(sha, c);
  }

  /** Two draws agree exactly when all their lots do, and a draw always keeps the members. */
  lemma DrawsDiffer(a: Sha, b: Sha, c: Circle)
    requires Shape(c) && Distinct(c.members)
    ensures DrawOrder(a, c).members == DrawOrder(b, c).members <==>
      LotsOf(a, a.start(c.id, c.startedAt), |c.members|) == LotsOf(b, b.start(c.id, c.startedAt), |c.members|)
    ensures multiset(DrawOrder(a, c).members) == multiset(c.members)
  {
    hide Shape;
    DrawIsLots(a, c);
    DrawIsLots(b, c);
    var la := LotsOf(a, a.start(c.id, c.startedAt), |c.members|);
    var lb := LotsOf(b, b.start(c.id, c.startedAt), |c.members|);
    DrawnKeeps(la, c.members);
    if InOrder(la, c.members) == InOrder(lb, c.members) {
      OneDraw(c.members, la, lb);
    }
  }
}
