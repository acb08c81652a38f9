/**
  Autopay does not set aside more than there are rounds left to pay, as long as nobody pays in instalments, so nothing
  is left in Prepaid when the last round is paid out. The one exception is an autopay after which the rounds set aside,
  old and new together, do not fit a signed 64-bit int.
 */
module CircleAutopay {
  import opened Arithmetic
  import opened Core
  import opened Sequences
  import opened Circles
  import opened CircleBooks
  import opened CircleSteps

  // ---------------------------------------------------------------- multiples of a contribution

  lemma AddsUp(k: int, more: int, con: int)
    ensures k * con + more * con == (k + more) * con
  {}

  lemma Multiple(k: int, c: int)
    requires 0 < c && 0 <= k
    ensures (k * c) / c == k && (k * c) % c == 0
  {
    var q := (k * c) / c;
    assert k * c == q * c + (k * c) % c;
    AddsUp(q, 1, c);
    AddsUp(k, 1, c);
    if q < k {
      MulMonotone(q + 1, k, c);
    } else if q > k {
      MulMonotone(k + 1, q, c);
    }
  }

  /** Member i has set aside money for exactly k rounds, no more than are left, and is paid up if there is any. */
  ghost predicate Covers(c: Circle, i: nat, k: int)
    requires Shape(c) && c.prepaid != [] && i < |c.members|
  {
    && c.prepaid[i] == k * c.terms.contribution && 0 <= k <= RoundsLeft(c, i)
    && (c.status == Active && k > 0 ==> c.paid[i])
  }

  /** ks says for how many rounds each member has set money aside. */
  ghost predicate Covered(c: Circle, ks: seq<int>)
    requires Shape(c)
  {
    && c.prepaid != [] && |ks| == |c.members|
    && forall i :: 0 <= i < |ks| ==> Covers(c, i, ks[i])
  }

  /**
    Money set aside covers whole rounds still to be paid, for every member; claimed only while nobody pays in
    instalments.
   */
  ghost predicate Reserved(c: Circle)
    requires Shape(c)
  {
    c.paidAmt == [] && c.prepaid != [] && (c.status == Forming || c.status == Active) ==> exists ks :: Covered(c, ks)
  }

  /** Nothing is left over once the last round's contributions are in. */
  lemma NothingLeftOver(c: Circle)
    requires CircleInv(c) && Reserved(c) && c.paidAmt == [] && c.status == Active && c.round == |c.members| - 1
    ensures Sum(c.prepaid) == 0
  {
    if c.prepaid != [] {
      var ks :| Covered(c, ks);
      forall i | 0 <= i < |c.members| ensures c.prepaid[i] == 0 {
        assert Covers(c, i, ks[i]);
      }
      assert c.prepaid == Zeros(|c.prepaid|);
      SumZeros(|c.prepaid|);
    }
  }

  // ---------------------------------------------------------------- autopay keeps it

  /** What autopay may find: ks[i] whole rounds set aside, counting the current one if it is not paid yet. */
  ghost predicate Owed(c: Circle, ks: seq<int>)
    requires Shape(c)
  {
    && c.prepaid != [] && |ks| == |c.members|
    && forall i :: 0 <= i < |ks| ==> c.prepaid[i] == ks[i] * c.terms.contribution && 0 <= ks[i] <= RoundsLeft(c, i)
  }

  function Served(c: Circle, k: int, j: nat): int
    requires Shape(c) && j < |c.members|
  {
    if !c.paid[j] && k > 0 then k - 1 else k
  }

  /** r is c with at most member j's line changed by autopay. */
  ghost predicate OnlyLine(c: Circle, j: nat, r: Circle)
    requires Shape(c) && Shape(r) && c.prepaid != []
  {
    && r.paidAmt == [] && r.status == c.status && r.round == c.round && r.terms == c.terms && |r.members| == |c.members|
    && r.prepaid != []
    && forall i :: 0 <= i < |c.members| && i != j ==> r.prepaid[i] == c.prepaid[i] && r.paid[i] == c.paid[i]
  }

  lemma AutopayStepCovers(c: Circle, j: nat, k: int)
    requires Shape(c) && c.terms.mode != Goal && c.prepaid != [] && c.paidAmt == [] && c.status == Active
      && j < |c.members|
    requires c.prepaid[j] == k * c.terms.contribution && 0 <= k <= RoundsLeft(c, j)
    ensures OnlyLine(c, j, AutopayStep(c, j)) && Covers(AutopayStep(c, j), j, Served(c, k, j))
  {
    MulStep(c.terms.contribution, k);
    if !c.paid[j] && k > 0 {
      MulNonNeg(k - 1, c.terms.contribution);
    }
  }

  /** After the first n members have been served they are covered, and the others are untouched. */
  ghost predicate ServedTo(c: Circle, n: nat, r: Circle, ks: seq<int>, done: seq<int>)
    requires Shape(c) && Shape(r)
  {
    && c.prepaid != [] && r.prepaid != [] && |r.members| == |c.members| == |ks| && n == |done| <= |ks|
    && r.paidAmt == [] && r.status == c.status && r.round == c.round && r.terms == c.terms
    && (forall i :: 0 <= i < n ==> Covers(r, i, done[i]))
    && (forall i :: n <= i < |ks| ==> r.prepaid[i] == c.prepaid[i] && r.paid[i] == c.paid[i])
  }

  lemma ServeNext(c: Circle, n: nat, m: Circle, ks: seq<int>, done: seq<int>) returns (more: seq<int>)
    requires Shape(c) && Shape(m) && m.terms.mode != Goal && c.status == Active
    requires Owed(c, ks) && n < |ks| && ServedTo(c, n, m, ks, done)
    ensures ServedTo(c, n + 1, AutopayStep(m, n), ks, more)
  {
    AutopayStepCovers(m, n, ks[n]);
    var r := AutopayStep(m, n);
    more := done + [Served(m, ks[n], n)];
    forall i | 0 <= i < n + 1 ensures Covers(r, i, more[i]) {
      if i < n {
        assert Covers(m, i, done[i]);
      }
    }
  }

  lemma {:induction false} AutopayToServes(c: Circle, n: nat, ks: seq<int>) returns (done: seq<int>)
    requires Shape(c) && c.terms.mode != Goal && c.prepaid != [] && c.paidAmt == [] && c.status == Active
      && n <= |c.members|
    requires Owed(c, ks)
    ensures ServedTo(c, n, AutopayTo(c, n), ks, done)
  {
    if n == 0 {
      done := [];
    } else {
      done := AutopayToServes(c, n - 1, ks);
      done := ServeNext(c, n - 1, AutopayTo(c, n - 1), ks, done);
    }
  }

  /** Running autopay turns "owed" into "covered". */
  lemma RunAutopayReserved(c: Circle, ks: seq<int>)
    requires Shape(c) && c.terms.mode != Goal && c.paidAmt == [] && (c.status == Forming || c.status == Active)
    requires c.prepaid != [] ==> Owed(c, ks)
    ensures Reserved(RunAutopay(c))
  {
    if c.prepaid != [] {
      if c.status == Active {
        var n := |c.members|;
        var done := AutopayToServes(c, n, ks);
        assert Covered(AutopayTo(c, n), done);
      } else {
        assert Covered(c, ks);
      }
    }
  }

  // ---------------------------------------------------------------- the overflow of the guard

  /** However large, the money set aside loses at most one contribution a member to autopay. */
  lemma {:induction false} AutopayTakesOne(c: Circle, k: nat)
    requires Shape(c) && c.terms.mode != Goal && c.prepaid != [] && c.paidAmt == [] && k <= |c.members|
    ensures var r := AutopayTo(c, k);
      && r.paidAmt == [] && r.status == c.status && r.round == c.round && r.terms == c.terms && r.prepaid != []
      && |r.members| == |c.members|
      && (forall j :: 0 <= j < k ==> r.prepaid[j] >= c.prepaid[j] - c.terms.contribution)
      && (forall j :: k <= j < |c.members| ==> r.prepaid[j] == c.prepaid[j])
  {
    if k > 0 {
      AutopayTakesOne(c, k - 1);
    }
  }

  /**
    2^63 rounds or more, old and new together, never fit: the guard's sum turns negative and lets them through.
   */
  lemma HugeOverReserves(c: Circle, i: nat, amount: int)
    requires CircleInv(c) && Reserved(c) && c.paidAmt == [] && c.terms.mode != Goal
      && (c.status == Forming || c.status == Active)
    requires i < |c.members| && 0 < amount && RoundsWith(c, i, amount) >= TWO64 / 2
    ensures !Reserved(AddAutopay(c, i, amount))
  {
    hide RoundBooks, Seats, Pledges, Reserved;
    var con, d := c.terms.contribution, Reserve(c, i, amount);
    FewRounds(c, i);
    DivFacts(amount, con);
    MulMonotone(52, amount / con, con);
    AutopayTakesOne(d, |c.members|);
    var r := AddAutopay(c, i, amount);
    assert r.prepaid[i] >= amount - con;
    TooMuch(r, i);
  }

  /** A member has never more than fifty rounds set aside. */
  lemma FewRounds(c: Circle, i: nat)
    requires Shape(c) && Reserved(c) && c.paidAmt == [] && (c.status == Forming || c.status == Active)
      && 0 <= c.round <= |c.members| && (c.status == Active ==> c.round < |c.members|) && i < |c.members|
    ensures 0 <= At(c.prepaid, i) && 0 <= At(c.prepaid, i) / c.terms.contribution <= RoundsLeft(c, i) <= 50
    ensures At(c.prepaid, i) == At(c.prepaid, i) / c.terms.contribution * c.terms.contribution
  {
    hide Reserved;
    var ks := SetAside(c);
    Multiple(ks[i], c.terms.contribution);
    MulNonNeg(ks[i], c.terms.contribution);
  }

  lemma TooMuch(c: Circle, i: nat)
    requires Shape(c) && 0 <= c.round && i < |c.members| && c.paidAmt == []
      && (c.status == Forming || c.status == Active)
    requires c.prepaid != [] && c.prepaid[i] > 50 * c.terms.contribution
    ensures !Reserved(c)
  {
    if Reserved(c) {
      var ks :| Covered(c, ks);
      CoveredBound(c, i, ks);
    }
  }

  lemma CoveredBound(c: Circle, i: nat, ks: seq<int>)
    requires Shape(c) && 0 <= c.round && i < |c.members| && Covered(c, ks)
    ensures c.prepaid[i] <= 50 * c.terms.contribution
  {
    assert Covers(c, i, ks[i]);
    MulMonotone(ks[i], 50, c.terms.contribution);
  }

  // ---------------------------------------------------------------- every step keeps it

  lemma ReserveOwed(c: Circle, i: nat, more: int, ks: seq<int>)
    requires Shape(c) && c.terms.mode != Goal && i < |c.members| && |ks| == |c.members|
    requires forall j :: 0 <= j < |ks| ==>
      At(c.prepaid, j) == ks[j] * c.terms.contribution && 0 <= ks[j] <= RoundsLeft(c, j)
    requires 0 <= ks[i] + more <= RoundsLeft(c, i)
    ensures Owed(Reserve(c, i, more * c.terms.contribution), ks[i := ks[i] + more])
  {
    AddsUp(ks[i], more, c.terms.contribution);
  }

  /** The whole rounds each member has set aside. */
  lemma SetAside(c: Circle) returns (ks: seq<int>)
    requires Shape(c) && Reserved(c) && c.paidAmt == [] && (c.status == Forming || c.status == Active)
      && 0 <= c.round <= |c.members|
    requires c.status == Active ==> c.round < |c.members|
    ensures |ks| == |c.members|
    ensures forall j :: 0 <= j < |ks| ==>
      At(c.prepaid, j) == ks[j] * c.terms.contribution && 0 <= ks[j] <= RoundsLeft(c, j)
  {
    ks := Zeros(|c.members|);
    if c.prepaid != [] {
      ks :| Covered(c, ks);
      assert forall j :: 0 <= j < |ks| ==> Covers(c, j, ks[j]);
    }
  }

  /** An autopay that fits the rounds left in exact numbers keeps what is set aside in step with them. */
  lemma AddReserved(c: Circle, i: nat, amount: int)
    requires CircleInv(c) && Reserved(c) && c.paidAmt == [] && c.terms.mode != Goal
      && (c.status == Forming || c.status == Active)
    requires i < |c.members| && 0 < amount && amount % c.terms.contribution == 0
    requires RoundsWith(c, i, amount) <= RoundsLeft(c, i)
    ensures Reserved(AddAutopay(c, i, amount))
  {
    hide RunAutopay, Amounts, Books, Seats, Pledges, Reserved;
    var con := c.terms.contribution;
    var ks := SetAside(c);
    Multiple(ks[i], con);
    var more := amount / con;
    DivFacts(amount, con);
    assert amount == more * con;
    ReserveOwed(c, i, more, ks);
    RunAutopayReserved(Reserve(c, i, amount), ks[i := ks[i] + more]);
  }

  /** Below 2^63 the guard compares exact numbers. */
  lemma GuardExact(c: Circle, i: nat, amount: int, from: Address, now: int, bal: int)
    requires CircleInv(c) && i < |c.members| && 0 < amount && RoundsWith(c, i, amount) < TWO64 / 2
    requires StepCheck(c, i, Step.Autopay(amount), from, now, bal) == None
    ensures c.terms.mode != Goal && (c.status == Forming || c.status == Active)
    ensures amount % c.terms.contribution == 0 && RoundsWith(c, i, amount) <= RoundsLeft(c, i)
  {
    hide Books, Seats, Phase, Pledges, RoundsLeft;
    DivFacts(amount, c.terms.contribution);
    DivFacts(At(c.prepaid, i), c.terms.contribution);
  }

  lemma SwapOwed(c: Circle, i: nat, j: nat, ks: seq<int>)
    requires Shape(c) && i < |c.members| && j < |c.members| && Owed(c, ks)
    ensures Owed(SwapIdx(c, i, j), Swapped(ks, i, j))
  {}

  lemma SwapCovered(c: Circle, i: nat, j: nat, ks: seq<int>)
    requires Shape(c) && i < |c.members| && j < |c.members| && Covered(c, ks)
    ensures Covered(SwapIdx(c, i, j), Swapped(ks, i, j))
  {
    var r, t := SwapIdx(c, i, j), Swapped(ks, i, j);
    forall x | 0 <= x < |t| ensures Covers(r, x, t[x]) {
      assert Covers(c, if x == j then i else if x == i then j else x, t[x]);
    }
  }

  lemma {:induction false} DrawOwed(sha: Sha, c: Circle, k: nat, seed: Hash, ks: seq<int>) returns (ls: seq<int>)
    requires Shape(c) && k < |c.members| && Owed(c, ks)
    ensures Owed(DrawFrom(sha, c, k, seed), ls)
    decreases k
  {
    hide SwapIdx, Owed;
    if k == 0 {
      ls := ks;
    } else {
      var next := sha.next(seed);
      SwapOwed(c, k, Pick(sha, next, k), ks);
      ls := DrawOwed(sha, SwapIdx(c, k, Pick(sha, next, k)), k - 1, next, Swapped(ks, k, Pick(sha, next, k)));
    }
  }

  lemma StartReserved(sha: Sha, c: Circle, now: int)
    requires CircleInv(c) && c.status == Forming && Reserved(c) && c.paidAmt == [] && c.terms.mode != Goal
    ensures Reserved(Start(sha, c, now))
  {
    hide DrawFrom, SwapIdx, Amounts, Books, Seats, Pledges;
    var a := c.(status := Active, startedAt := now);
    var b := if a.terms.mode == Lottery then DrawOrder(sha, a) else a;
    ActivateKeeps(c, now);
    DrawKeeps(sha, a);
    DrawNil(sha, a, |a.members| - 1, sha.start(a.id, a.startedAt));
    if c.prepaid != [] {
      var ks :| Covered(c, ks);
      UnpaidForming(c);
      assert forall i :: 0 <= i < |ks| ==> Covers(c, i, ks[i]);
      assert Owed(a, ks);
      if a.terms.mode == Lottery {
        ks := DrawOwed(sha, a, |a.members| - 1, sha.start(a.id, a.startedAt), ks);
      }
      RunAutopayReserved(b, ks);
    } else {
      RunAutopayReserved(b, []);
    }
  }

  lemma {:induction false} DrawNil(sha: Sha, c: Circle, k: nat, seed: Hash)
    requires Shape(c) && k < |c.members|
    ensures var r := DrawFrom(sha, c, k, seed);
      |r.paidAmt| == |c.paidAmt| && |r.prepaid| == |c.prepaid| && r.status == c.status
    decreases k
  {
    hide SwapIdx, Pick, Shape;
    if k > 0 {
      var next := sha.next(seed);
      var d := SwapIdx(c, k, Pick(sha, next, k));
      SwapNil(c, k, Pick(sha, next, k));
      DrawNil(sha, d, k - 1, next);
    }
  }

  lemma SwapNil(c: Circle, i: nat, j: nat)
    requires Shape(c) && i < |c.members| && j < |c.members|
    ensures var r := SwapIdx(c, i, j); |r.paidAmt| == |c.paidAmt| && |r.prepaid| == |c.prepaid| && r.status == c.status
  {}

  /** A forming circle has no payment on record. */
  lemma UnpaidForming(c: Circle)
    requires CircleInv(c) && c.status == Forming && c.terms.mode != Goal
    ensures forall j :: 0 <= j < |c.members| ==> !c.paid[j]
  {
    SumNonNeg(PaidList(c));
  }

  lemma AdmitReserved(c: Circle, i: nat)
    requires Shape(c) && Reserved(c) && i < |c.members| && c.status == Forming
    ensures Reserved(Admit(c, i))
  {
    SameLines(c, Admit(c, i));
  }

  /** Reserved only looks at these fields. */
  lemma SameLines(c: Circle, r: Circle)
    requires Shape(c) && Shape(r) && Reserved(c)
    requires r.prepaid == c.prepaid && r.paid == c.paid && r.paidAmt == c.paidAmt && r.round == c.round
      && r.terms == c.terms
    requires (r.status == c.status || (r.status != Forming && r.status != Active)) && |r.members| == |c.members|
    ensures Reserved(r)
  {
    if r.paidAmt == [] && r.prepaid != [] && (r.status == Forming || r.status == Active) {
      var ks :| Covered(c, ks);
      forall i | 0 <= i < |ks| ensures Covers(r, i, ks[i]) {
        assert Covers(c, i, ks[i]);
      }
      assert Covered(r, ks);
    }
  }

  lemma JoinReserved(sha: Sha, c: Circle, i: nat, now: int)
    requires CircleInv(c) && Reserved(c) && i < |c.members| && c.status == Forming && !c.joined[i]
    requires c.paidAmt == []
    ensures Reserved(JoinCircle(sha, c, i, now))
  {
    hide Start, Reserved, Amounts, Books, Seats, Phase, Pledges;
    AdmitKeeps(c, i);
    AdmitReserved(c, i);
    if false !in Admit(c, i).joined {
      if c.terms.mode != Goal {
        StartReserved(sha, Admit(c, i), now);
      } else {
        GoalReserved(sha, Admit(c, i), now);
      }
    }
  }

  lemma GoalReserved(sha: Sha, c: Circle, now: int)
    requires Shape(c) && c.terms.mode == Goal
    ensures Reserved(Start(sha, c, now))
  {}

  /** A full contribution by a member with nothing set aside leaves one round less, for that member alone. */
  lemma ContributeReserved(c: Circle, i: nat, amount: int)
    requires CircleInv(c) && Reserved(c) && c.paidAmt == [] && i < |c.members| && c.status == Active && 0 <= amount
    requires if c.terms.mode == Goal then amount > 0 else !c.paid[i] && amount <= Need(c, i)
    ensures Reserved(ContributeTo(c, i, amount))
  {
    var r := ContributeTo(c, i, amount);
    if r.paidAmt == [] && r.prepaid != [] && r.status == Active {
      var ks :| Covered(c, ks);
      forall j | 0 <= j < |ks| ensures Covers(r, j, ks[j]) {
        assert Covers(c, j, ks[j]);
      }
      assert Covered(r, ks);
    }
  }

  /** Whoever had money set aside was paid up, so next round's contribution is still covered. */
  lemma PayoutReserved(c: Circle, i: nat)
    requires CircleInv(c) && Reserved(c) && c.paidAmt == [] && c.terms.mode != Goal && c.status == Active
      && i < |c.members|
    requires if c.terms.mode == Bidding then !c.claimed[i] else i == c.round
    ensures Reserved(Payout(c, i).circle)
  {
    hide RunAutopay, Close, PotCredits, Amounts, Seats, Pledges, RoundBooks;
    NextRoundKeeps(c, i);
    var next := NextRound(CoverTo(c, |c.members|), i);
    if next.round < |c.members| {
      if c.prepaid != [] {
        var ks :| Covered(c, ks);
        assert forall j :: 0 <= j < |ks| ==> Covers(c, j, ks[j]);
        assert Owed(next, ks);
        RunAutopayReserved(next, ks);
      } else {
        RunAutopayReserved(next, []);
      }
    } else {
      ClosedReserved(next);
    }
  }

  lemma ClosedReserved(c: Circle)
    requires Shape(c)
    ensures Reserved(Close(c).circle)
  {}

  lemma StopReserved(c: Circle, i: nat)
    requires Shape(c) && Reserved(c) && i < |c.members| && c.prepaid != [] && 0 <= c.round < |c.members|
    ensures Reserved(c.(prepaid := c.prepaid[i := 0]))
  {
    var r := c.(prepaid := c.prepaid[i := 0]);
    if r.paidAmt == [] && (r.status == Forming || r.status == Active) {
      var ks :| Covered(c, ks);
      var ls := ks[i := 0];
      forall j | 0 <= j < |ls| ensures Covers(r, j, ls[j]) {
        assert Covers(c, j, ks[j]);
      }
      assert Covered(r, ls);
    }
  }

  lemma SwapReserved(c: Circle, i: nat, from: Address, other: Address)
    requires Shape(c) && Reserved(c) && i < |c.members| && other in c.members
    ensures Reserved(SwapTurns(c, i, from, other))
  {
    var r := SwapTurns(c, i, from, other);
    var j := Index(c.members, other);
    var s := SwapIdx(c, i, j);
    if c.paidAmt == [] && c.prepaid != [] && (c.status == Forming || c.status == Active) {
      var ks :| Covered(c, ks);
      SwapCovered(c, i, j, ks);
    }
    assert Reserved(s);
    SameLines(s, s.(swapWith := r.swapWith));
    SameLines(c, c.(swapWith := r.swapWith));
  }

  /**
    Autopay over-reserves only when the rounds set aside, old and new together, do not fit a signed 64-bit int: as long
    as nobody has paid in instalments, an allowed step keeps Reserved if and only if it is no such autopay.
   */
  lemma StepReserved(sha: Sha, c: Circle, i: nat, op: Step, from: Address, now: int, bal: int)
    requires CircleInv(c) && Reserved(c) && c.paidAmt == [] && i < |c.members| && c.members[i] == from && GoodStep(op)
    requires StepCheck(c, i, op, from, now, bal) == None
    ensures Reserved(StepEffect(sha, c, i, op, from, now, bal).circle)
      <==> (op.Autopay? ==> RoundsWith(c, i, op.amount) < TWO64 / 2)
  {
    hide Reserved, RoundsWith;
    match op
    case Join => JoinReserved(sha, c, i, now);
    case Contribute(amount) => ContributeReserved(c, i, amount);
    case Claim =>
      RecipientCollects(c, i);
      PayoutReserved(c, i);
    case Bid(discount) => SameLines(c, c.(bids := c.bids[i := discount]));
    case Swap(other) => SwapReserved(c, i, from, other);
    case Withdraw => NoPrepaidReserved(WithdrawFrom(c, i, from).circle);
    case Autopay(amount) =>
      if RoundsWith(c, i, amount) < TWO64 / 2 {
        GuardExact(c, i, amount, from, now, bal);
        AddReserved(c, i, amount);
      } else {
        HugeOverReserves(c, i, amount);
      }
    case StopAutopay => StopAnyReserved(c, i);
    case Cancel => SettledReserved(CancelCircle(c).circle);
  }

  lemma NoPrepaidReserved(c: Circle)
    requires Shape(c) && c.prepaid == []
    ensures Reserved(c)
  {}

  lemma SettledReserved(c: Circle)
    requires Shape(c) && c.status == Cancelled
    ensures Reserved(c)
  {}

  lemma StopAnyReserved(c: Circle, i: nat)
    requires CircleInv(c) && Reserved(c) && i < |c.members| && c.prepaid != []
    ensures Reserved(c.(prepaid := c.prepaid[i := 0]))
  {
    if c.status == Forming || c.status == Active {
      StopReserved(c, i);
    }
  }
}
