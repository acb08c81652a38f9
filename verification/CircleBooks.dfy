/**
  The books of a savings circle: which money it holds, who has paid and who has collected.
  Every operation keeps CircleInv and accounts for every unit it moves.
 */
module CircleBooks {
  import opened Arithmetic
  import opened Core
  import opened Sequences
  import opened Circles

  // ---------------------------------------------------------------- the invariant

  ghost predicate Amounts(c: Circle) {
    NonNeg(c.deposits) && NonNeg(c.prepaid) && NonNeg(c.saved) && NonNeg(c.bids) && 0 <= c.insurance
  }

  /** Round books: the pot is the sum of what members paid, nobody overpays, and Paid marks a full contribution. */
  ghost predicate RoundBooks(c: Circle)
    requires Shape(c)
  {
    && c.balance == Sum(PaidList(c))
    && (forall j :: 0 <= j < |c.members| ==> 0 <= PaidList(c)[j] <= c.terms.contribution)
    && (forall j :: 0 <= j < |c.members| ==> (c.paid[j] <==> PaidList(c)[j] == c.terms.contribution))
  }

  ghost predicate Books(c: Circle)
    requires Shape(c)
  {
    if c.terms.mode == Goal then c.balance == Sum(c.saved) else RoundBooks(c)
  }

  /** Which members have collected: in turn order, or in a bidding circle as many as rounds have passed. */
  ghost predicate Seats(c: Circle)
    requires Shape(c)
  {
    if c.terms.mode == Bidding then Count(c.claimed) == c.round
    else forall j :: 0 <= j < |c.members| ==> (c.claimed[j] <==> j < c.round)
  }

  ghost predicate Phase(c: Circle)
    requires Shape(c)
  {
    && 0 <= c.round <= |c.members|
    && (c.terms.mode == Goal ==> c.round == 0)
    && (c.status == Forming || c.status == Cancelled ==>
      c.round == 0 && c.balance == 0 && c.insurance == 0 && c.startedAt == 0)
    && (c.status == Active ==> c.round < |c.members|)
    && (c.status == Done && c.terms.mode != Goal ==> c.round == |c.members| && Holdings(c) == 0)
    && (c.status == Cancelled ==> Holdings(c) == 0)
  }

  /** While a circle forms, exactly the members who joined have put down their deposit. */
  ghost predicate Pledges(c: Circle)
    requires Shape(c)
  {
    c.status == Forming && c.deposits != [] ==>
      forall j :: 0 <= j < |c.members| ==> c.deposits[j] == if c.joined[j] then c.terms.deposit else 0
  }

  ghost predicate CircleInv(c: Circle) {
    && Shape(c) && Distinct(c.members) && NoAddress !in c.members
    && Amounts(c) && Books(c) && Seats(c) && Phase(c) && Pledges(c)
  }

  lemma HoldingsNonNeg(c: Circle)
    requires CircleInv(c)
    ensures 0 <= c.balance && 0 <= Held(c) && 0 <= Holdings(c)
    ensures c.terms.mode != Goal ==> c.balance <= Pot(c)
  {
    SumNonNeg(c.deposits);
    SumNonNeg(c.prepaid);
    if c.terms.mode == Goal {
      SumNonNeg(c.saved);
    } else {
      SumNonNeg(PaidList(c));
      SumAtMost(PaidList(c), c.terms.contribution);
    }
  }

  lemma {:induction false} SumToAtMost(s: seq<int>, top: int, k: nat)
    requires k <= |s| && forall j :: 0 <= j < |s| ==> s[j] <= top
    ensures SumTo(s, k) <= top * k
  {
    if k > 0 {
      SumToAtMost(s, top, k - 1);
      MulStep(top, k);
    }
  }

  lemma SumAtMost(s: seq<int>, top: int)
    requires forall j :: 0 <= j < |s| ==> s[j] <= top
    ensures Sum(s) <= top * |s|
  {
    SumToAtMost(s, top, |s|);
  }

  // ---------------------------------------------------------------- paying in

  /**
    An instalment or a full payment adds exactly amt to member j's line, also across the switch from nil to non-nil
    PaidAmt.
   */
  lemma PayInBooks(c: Circle, j: nat, amt: int)
    requires Shape(c) && c.terms.mode != Goal && j < |c.members| && RoundBooks(c)
    requires 0 <= amt <= Need(c, j)
    ensures PaidList(PayIn(c, j, amt)) == PaidList(c)[j := PaidSoFar(c, j) + amt]
    ensures RoundBooks(PayIn(c, j, amt))
    ensures PayIn(c, j, amt).paid == c.paid[j := amt == Need(c, j)]
  {
    var r := PayIn(c, j, amt);
    var before, after := PaidList(c), PaidList(c)[j := PaidSoFar(c, j) + amt];
    assert before[j] == PaidSoFar(c, j);
    forall k | 0 <= k < |before| ensures PaidList(r)[k] == after[k] && (r.paid[k] <==>
      after[k] == c.terms.contribution) {}
    assert PaidList(r) == after;
    SumUpdate(before, j, PaidSoFar(c, j) + amt);
  }

  /** r is c after some money moved from Prepaid into the pot, and nothing else changed. */
  ghost predicate Moved(c: Circle, r: Circle) {
    && r == c.(prepaid := r.prepaid, paid := r.paid, paidAmt := r.paidAmt, balance := r.balance)
    && r.balance + Sum(r.prepaid) == c.balance + Sum(c.prepaid)
    && c.balance <= r.balance
  }

  lemma MovedTransitive(a: Circle, b: Circle, c: Circle)
    requires Moved(a, b) && Moved(b, c)
    ensures Moved(a, c)
  {}

  lemma AutopayStepBooks(c: Circle, j: nat)
    requires Shape(c) && c.terms.mode != Goal && c.prepaid != [] && j < |c.members| && RoundBooks(c)
      && NonNeg(c.prepaid)
    ensures RoundBooks(AutopayStep(c, j)) && NonNeg(AutopayStep(c, j).prepaid) && Moved(c, AutopayStep(c, j))
  {
    var need := Need(c, j);
    assert PaidList(c)[j] == PaidSoFar(c, j);
    if !c.paid[j] && c.prepaid[j] >= need {
      var d := c.(prepaid := c.prepaid[j := c.prepaid[j] - need]);
      assert PaidList(d) == PaidList(c);
      SumUpdate(c.prepaid, j, c.prepaid[j] - need);
      PayInBooks(d, j, need);
    }
  }

  lemma {:induction false} AutopayToBooks(c: Circle, k: nat)
    requires Shape(c) && c.terms.mode != Goal && c.prepaid != [] && k <= |c.members| && RoundBooks(c)
      && NonNeg(c.prepaid)
    ensures RoundBooks(AutopayTo(c, k)) && NonNeg(AutopayTo(c, k).prepaid) && Moved(c, AutopayTo(c, k))
  {
    if k > 0 {
      AutopayToBooks(c, k - 1);
      var m := AutopayTo(c, k - 1);
      AutopayStepBooks(m, k - 1);
      MovedTransitive(c, m, AutopayStep(m, k - 1));
    }
  }

  /** Autopay only moves money from Prepaid into this round's pot. */
  lemma RunAutopayBooks(c: Circle)
    requires Shape(c) && c.terms.mode != Goal && RoundBooks(c) && NonNeg(c.prepaid)
    ensures RoundBooks(RunAutopay(c)) && NonNeg(RunAutopay(c).prepaid) && Moved(c, RunAutopay(c))
    ensures c.prepaid == [] || c.status != Active ==> RunAutopay(c) == c
  {
    if c.prepaid != [] && c.status == Active {
      AutopayToBooks(c, |c.members|);
    }
  }

  lemma RunAutopayInv(c: Circle)
    requires CircleInv(c) && c.terms.mode != Goal
    ensures CircleInv(RunAutopay(c)) && Holdings(RunAutopay(c)) == Holdings(c)
  {
    RunAutopayBooks(c);
  }

  // ---------------------------------------------------------------- payout

  /** Every credit is a non-negative amount to one of these members. */
  ghost predicate CreditsTo(cs: seq<Credit>, members: seq<Address>) {
    forall k :: 0 <= k < |cs| ==> cs[k].to in members && 0 <= cs[k].amount
  }

  /** r is c after missed payments were covered out of deposits and insurance. */
  ghost predicate CoveredFrom(c: Circle, r: Circle) {
    && r == c.(defaults := r.defaults, deposits := r.deposits, insurance := r.insurance, balance := r.balance)
    && r.balance + Sum(r.deposits) + r.insurance == c.balance + Sum(c.deposits) + c.insurance
    && c.balance <= r.balance
    && NonNeg(r.deposits) && 0 <= r.insurance
  }

  lemma CoverStepBooks(c: Circle, j: nat)
    requires Shape(c) && c.terms.mode != Goal && j < |c.members| && NonNeg(c.deposits) && 0 <= c.insurance
    requires 0 <= PaidSoFar(c, j) <= c.terms.contribution
    ensures CoveredFrom(c, CoverStep(c, j))
  {
    if !c.paid[j] && c.deposits != [] && c.deposits[j] >= Need(c, j) {
      SumUpdate(c.deposits, j, c.deposits[j] - Need(c, j));
    }
  }

  lemma CoveredTransitive(a: Circle, b: Circle, c: Circle)
    requires CoveredFrom(a, b) && CoveredFrom(b, c)
    ensures CoveredFrom(a, c)
  {}

  lemma CoveredPaid(c: Circle, m: Circle, j: nat)
    requires Shape(c) && Shape(m) && CoveredFrom(c, m) && j < |c.members|
    requires forall k :: 0 <= k < |c.members| ==> 0 <= PaidList(c)[k] <= c.terms.contribution
    ensures NonNeg(m.deposits) && 0 <= m.insurance && j < |m.members| && 0 <= PaidSoFar(m, j) <= m.terms.contribution
  {
    assert PaidSoFar(m, j) == PaidList(c)[j];
  }

  lemma {:induction false} CoverToBooks(c: Circle, k: nat)
    requires Shape(c) && c.terms.mode != Goal && k <= |c.members| && NonNeg(c.deposits) && 0 <= c.insurance
    requires forall j :: 0 <= j < |c.members| ==> 0 <= PaidList(c)[j] <= c.terms.contribution
    ensures CoveredFrom(c, CoverTo(c, k))
  {
    if k > 0 {
      hide CoverStep, CoveredFrom, PaidList, PaidSoFar, Shape;
      CoverToBooks(c, k - 1);
      var m := CoverTo(c, k - 1);
      CoveredPaid(c, m, k - 1);
      CoverStepBooks(m, k - 1);
      CoveredTransitive(c, m, CoverStep(m, k - 1));
    }
  }

  /** With every contribution in, there is nothing to cover. */
  lemma {:induction false} CoverNothing(c: Circle, k: nat)
    requires Shape(c) && c.terms.mode != Goal && k <= |c.members| && AllPaid(c)
    ensures CoverTo(c, k) == c
  {
    if k > 0 {
      CoverNothing(c, k - 1);
    }
  }

  lemma OneCredit(to: Address, v: int, members: seq<Address>)
    requires to in members && 0 <= v
    ensures SumCredits([Credit(to, v)]) == v && CreditsTo([Credit(to, v)], members)
  {
    assert SumCreditsTo([Credit(to, v)], 0) == 0;
  }

  lemma AppendCredits(a: seq<Credit>, b: seq<Credit>, members: seq<Address>)
    requires CreditsTo(a, members) && CreditsTo(b, members)
    ensures SumCredits(a + b) == SumCredits(a) + SumCredits(b) && CreditsTo(a + b, members)
  {
    SumCreditsAppend(a, b);
  }

  lemma {:induction false} SharesSum(members: seq<Address>, i: nat, share: int, k: nat)
    requires k <= |members| && 0 <= share
    ensures SumCredits(SharesTo(members, i, share, k)) == share * (if i < k then k - 1 else k)
    ensures CreditsTo(SharesTo(members, i, share, k), members)
  {
    if k > 0 {
      SharesSum(members, i, share, k - 1);
      var before := SharesTo(members, i, share, k - 1);
      MulStep(share, k - 1);
      MulStep(share, k);
      if k - 1 != i {
        OneCredit(members[k - 1], share, members);
        AppendCredits(before, [Credit(members[k - 1], share)], members);
      } else {
        assert SharesTo(members, i, share, k) == before + [] == before;
      }
    }
  }

  lemma ShareBounds(discount: int, pot: int, others: int)
    requires 0 <= pot && 0 < others && 0 <= discount
    ensures 0 <= Min(discount, pot) / others && 0 <= Min(discount, pot) / others * others <= pot
  {}

  /** The winner's part of the pot is never negative and never more than the pot. */
  lemma WinningsBounds(k: Circle, i: nat)
    requires Shape(k) && i < |k.members| && 0 <= k.balance
    ensures 0 <= Winnings(k, i) <= k.balance
    ensures 0 <= DiscountShare(k, i, k.balance - BasisPoints(k.balance, k.terms.insuranceBps))
  {
    BasisPointsBounds(k.balance, k.terms.insuranceBps);
    if Discounted(k, i) {
      ShareBounds(k.bids[i], k.balance - BasisPoints(k.balance, k.terms.insuranceBps), |k.members| - 1);
    }
  }

  /** The discount is shared out of the pot and the winner keeps the rest: no unit of the pot is lost. */
  lemma PotCreditsSum(k: Circle, i: nat)
    requires Shape(k) && i < |k.members| && 0 <= k.balance
    ensures SumCredits(PotCredits(k, i)) == k.balance - BasisPoints(k.balance, k.terms.insuranceBps)
    ensures CreditsTo(PotCredits(k, i), k.members)
  {
    WinningsBounds(k, i);
    var given := PotParts(k, i);
    hide BasisPoints, DiscountShare, Winnings, PotCredits, SharesTo, SumCredits, Discounted, Shape;
    OneCredit(k.members[i], Winnings(k, i), k.members);
    if Discounted(k, i) {
      AppendCredits(PotShares(k, i), [Credit(k.members[i], Winnings(k, i))], k.members);
    }
  }

  /** The credits of the winner's discount to everyone else. */
  function PotShares(k: Circle, i: nat): seq<Credit>
    requires Shape(k) && i < |k.members|
  {
    SharesTo(k.members, i, DiscountShare(k, i, k.balance - BasisPoints(k.balance, k.terms.insuranceBps)), |k.members|)
  }

  lemma PotParts(k: Circle, i: nat) returns (given: int)
    requires Shape(k) && i < |k.members| && 0 <= k.balance
    ensures Winnings(k, i) == k.balance - BasisPoints(k.balance, k.terms.insuranceBps) - given
    ensures if Discounted(k, i) then SumCredits(PotShares(k, i)) == given && CreditsTo(PotShares(k, i), k.members)
      else given == 0
    ensures var won := [Credit(k.members[i], Winnings(k, i))];
      PotCredits(k, i) == if Discounted(k, i) then PotShares(k, i) + won else won
  {
    hide BasisPoints, SharesTo, SumCredits;
    WinningsBounds(k, i);
    var share := DiscountShare(k, i, k.balance - BasisPoints(k.balance, k.terms.insuranceBps));
    given := share * (|k.members| - 1);
    SharesAll(k.members, i, share);
    var won := [Credit(k.members[i], Winnings(k, i))];
    assert [] + won == won;
  }

  lemma SharesAll(members: seq<Address>, i: nat, share: int)
    requires i < |members| && 0 <= share
    ensures SumCredits(SharesTo(members, i, share, |members|)) == share * (|members| - 1)
    ensures CreditsTo(SharesTo(members, i, share, |members|), members)
  {
    hide SumCredits, SharesTo;
    SharesSum(members, i, share, |members|);
  }

  /** The sum of the first k entries of a slice that may be nil. */
  function PrefixSum(s: seq<int>, k: nat): int
    requires s == [] || k <= |s|
  {
    if s == [] then 0 else SumTo(s, k)
  }

  lemma PrefixSumStep(s: seq<int>, k: nat)
    requires s == [] || k < |s|
    ensures PrefixSum(s, k + 1) == PrefixSum(s, k) + At(s, k)
  {}

  lemma PrefixSumAll(s: seq<int>, n: nat)
    requires NilOr(s, n)
    ensures PrefixSum(s, n) == Sum(s)
  {}

  lemma RefundSum(to: Address, v: int, members: seq<Address>)
    requires to in members && 0 <= v
    ensures SumCredits(Refund(to, v)) == v && CreditsTo(Refund(to, v), members)
  {
    if v > 0 {
      OneCredit(to, v, members);
    }
  }

  lemma AppendTwo(cs: seq<Credit>, to: Address, v: int, w: int, members: seq<Address>)
    requires CreditsTo(cs, members) && to in members && 0 <= v && 0 <= w
    ensures SumCredits(cs + Refund(to, v) + Refund(to, w)) == SumCredits(cs) + v + w
    ensures CreditsTo(cs + Refund(to, v) + Refund(to, w), members)
  {
    RefundSum(to, v, members);
    RefundSum(to, w, members);
    AppendCredits(cs, Refund(to, v), members);
    AppendCredits(cs + Refund(to, v), Refund(to, w), members);
  }

  lemma {:induction false} ReturnsSum(c: Circle, k: nat)
    requires Shape(c) && k <= |c.members| && NonNeg(c.prepaid) && NonNeg(c.deposits)
    ensures SumCredits(ReturnsTo(c, k)) == PrefixSum(c.prepaid, k) + PrefixSum(c.deposits, k)
    ensures CreditsTo(ReturnsTo(c, k), c.members)
  {
    if k > 0 {
      ReturnsSum(c, k - 1);
      PrefixSumStep(c.prepaid, k - 1);
      PrefixSumStep(c.deposits, k - 1);
      AppendTwo(ReturnsTo(c, k - 1), c.members[k - 1], At(c.prepaid, k - 1), At(c.deposits, k - 1), c.members);
    }
  }

  lemma {:induction false} CancelReturnsSum(c: Circle, k: nat)
    requires Shape(c) && k <= |c.members| && NonNeg(c.prepaid) && NonNeg(c.deposits)
    ensures SumCredits(CancelReturnsTo(c, k)) == PrefixSum(c.prepaid, k) + PrefixSum(c.deposits, k)
    ensures CreditsTo(CancelReturnsTo(c, k), c.members)
  {
    if k > 0 {
      CancelReturnsSum(c, k - 1);
      PrefixSumStep(c.prepaid, k - 1);
      PrefixSumStep(c.deposits, k - 1);
      AppendTwo(CancelReturnsTo(c, k - 1), c.members[k - 1], At(c.deposits, k - 1), At(c.prepaid, k - 1), c.members);
    }
  }

  lemma {:induction false} InsuranceSum(members: seq<Address>, total: int, k: nat)
    requires k <= |members| && 0 <= total && 0 < |members|
    ensures SumCredits(InsuranceTo(members, total, k)) == if k == |members| then total else total / |members| * k
    ensures CreditsTo(InsuranceTo(members, total, k), members)
  {
    if k > 0 {
      InsuranceSum(members, total, k - 1);
      PartBounds(total, |members|);
      var part := InsurancePart(total, |members|, k - 1);
      OneCredit(members[k - 1], part, members);
      AppendCredits(InsuranceTo(members, total, k - 1), [Credit(members[k - 1], part)], members);
      assert total / |members| * k == total / |members| * (k - 1) + total / |members|;
    }
  }

  lemma ClearedHoldsNothing(c: Circle)
    requires Shape(c) && 0 <= c.insurance
    ensures Held(Close(c).circle) == 0
  {
    SumZeros(|c.prepaid|);
    SumZeros(|c.deposits|);
  }

  /** Closing a circle returns exactly what it still holds besides the pot. */
  lemma CloseSum(c: Circle)
    requires Shape(c) && NonNeg(c.prepaid) && NonNeg(c.deposits) && 0 <= c.insurance
    ensures SumCredits(Close(c).credits) == Held(c)
    ensures CreditsTo(Close(c).credits, c.members)
  {
    var n := |c.members|;
    var returned := ReturnsTo(c, n);
    ReturnsSum(c, n);
    PrefixSumAll(c.prepaid, n);
    PrefixSumAll(c.deposits, n);
    if c.insurance > 0 {
      InsuranceSum(c.members, c.insurance, n);
      AppendCredits(returned, InsuranceTo(c.members, c.insurance, n), c.members);
    } else {
      AppendCredits(returned, [], c.members);
    }
  }

  lemma NextRoundBooks(k: Circle, i: nat)
    requires Shape(k) && k.terms.mode != Goal && i < |k.members|
    ensures RoundBooks(NextRound(k, i))
  {
    var r := NextRound(k, i);
    assert PaidList(r) == Zeros(|k.members|);
    SumZeros(|k.members|);
  }

  /** Marking the recipient keeps the count of collected seats in step with the round. */
  lemma NextRoundSeats(k: Circle, i: nat)
    requires Shape(k) && k.terms.mode != Goal && i < |k.members| && Seats(k)
    requires if k.terms.mode == Bidding then !k.claimed[i] else i == k.round
    ensures Seats(NextRound(k, i))
  {
    if k.terms.mode == Bidding {
      CountUpdate(k.claimed, i, true);
    }
  }

  /** Facts about the circle after the pot has left and before autopay or closing. */
  lemma NextRoundKeeps(c: Circle, i: nat)
    requires CircleInv(c) && c.terms.mode != Goal && c.status == Active && i < |c.members|
    requires if c.terms.mode == Bidding then !c.claimed[i] else i == c.round
    ensures var k := CoverTo(c, |c.members|); var next := NextRound(k, i);
      && CoveredFrom(c, k) && 0 <= k.balance
      && Amounts(next) && RoundBooks(next) && Seats(next)
      && Holdings(next) + SumCredits(PotCredits(k, i)) == Holdings(c)
      && CreditsTo(PotCredits(k, i), c.members)
  {
    hide CoverTo, PotCredits, Winnings;
    HoldingsNonNeg(c);
    CoverToBooks(c, |c.members|);
    var k := CoverTo(c, |c.members|);
    PotCreditsSum(k, i);
    BasisPointsBounds(k.balance, k.terms.insuranceBps);
    NextRoundBooks(k, i);
    NextRoundSeats(k, i);
  }

  lemma PayoutMidway(next: Circle)
    requires Shape(next) && Distinct(next.members) && NoAddress !in next.members && next.terms.mode != Goal
    requires Amounts(next) && RoundBooks(next) && Seats(next)
    requires next.status == Active && 0 <= next.round < |next.members|
    ensures CircleInv(RunAutopay(next)) && Holdings(RunAutopay(next)) == Holdings(next)
    ensures RunAutopay(next).round == next.round && RunAutopay(next).claimed == next.claimed
    ensures RunAutopay(next).status == Active
  {
    RunAutopayInv(next);
    RunAutopayBooks(next);
  }

  lemma PayoutLast(next: Circle)
    requires Shape(next) && Distinct(next.members) && NoAddress !in next.members && next.terms.mode != Goal
    requires Amounts(next) && RoundBooks(next) && Seats(next)
    requires next.balance == 0 && next.round == |next.members|
    ensures CircleInv(Close(next).circle)
    ensures Holdings(Close(next).circle) == 0 && SumCredits(Close(next).credits) == Holdings(next)
    ensures CreditsTo(Close(next).credits, next.members)
  {
    CloseSum(next);
    ClearedHoldsNothing(next);
    assert PaidList(Close(next).circle) == PaidList(next);
  }

  /**
    A payout keeps the books, moves to the next round and pays out, to members only, exactly what leaves the circle:
    the pot with covered defaults, less the insurance cut, plus at the end everything still held.
   */
  lemma PayoutKeeps(c: Circle, i: nat)
    requires CircleInv(c) && c.terms.mode != Goal && c.status == Active && i < |c.members|
    requires if c.terms.mode == Bidding then !c.claimed[i] else i == c.round
    ensures CircleInv(Payout(c, i).circle)
    ensures Holdings(Payout(c, i).circle) + SumCredits(Payout(c, i).credits) == Holdings(c)
    ensures CreditsTo(Payout(c, i).credits, c.members)
    ensures Payout(c, i).circle.round == c.round + 1 && Payout(c, i).circle.claimed == c.claimed[i := true]
    ensures Payout(c, i).circle.status == if c.round + 1 == |c.members| then Done else Active
  {
    NextRoundKeeps(c, i);
    var k := CoverTo(c, |c.members|);
    var next := NextRound(k, i);
    assert next.round == c.round + 1 && next.members == c.members && next.claimed == c.claimed[i := true];
    if next.round < |c.members| {
      PayoutMidway(next);
    } else {
      PayoutLast(next);
      AppendCredits(PotCredits(k, i), Close(next).credits, c.members);
    }
  }

  // ---------------------------------------------------------------- turns

  /** Everything a circle tracks for one member; None where the circle keeps no such slice. */
  datatype Seat = Seat(
    member: Address, joined: bool, paid: bool, claimed: bool, deposit: Option<int>, defaulted: Option<int>,
    paidOut: Option<int>, prepaid: Option<int>, paidAmt: Option<int>, bid: Option<int>, saved: Option<int>,
    withdrawn: Option<bool>, swapWith: Option<Address>)

  function Entry<T>(s: seq<T>, j: nat): Option<T>
    requires s == [] || j < |s|
  {
    if s == [] then None else Some(s[j])
  }

  function SeatOf(c: Circle, j: nat): Seat
    requires Shape(c) && j < |c.members|
  {
    Seat(c.members[j], c.joined[j], c.paid[j], c.claimed[j], Entry(c.deposits, j), Entry(c.defaults, j),
         Entry(c.paidOut, j), Entry(c.prepaid, j), Entry(c.paidAmt, j), Entry(c.bids, j), Entry(c.saved, j),
         Entry(c.withdrawn, j), Entry(c.swapWith, j))
  }

  function SeatList(c: Circle): (r: seq<Seat>)
    requires Shape(c)
    ensures |r| == |c.members|
  {
    seq(|c.members|, j requires 0 <= j < |c.members| => SeatOf(c, j))
  }

  lemma SwappedMultiset<T>(s: seq<T>, i: nat, j: nat)
    requires i < |s| && j < |s|
    ensures multiset(Swapped(s, i, j)) == multiset(s)
  {}

  lemma SwEntry<T>(s: seq<T>, i: nat, j: nat, k: nat, n: nat)
    requires NilOr(s, n) && i < n && j < n && k < n
    ensures Entry(Sw(s, i, j), k) == Entry(s, if k == j then i else if k == i then j else k)
  {}

  lemma SwapIdxSeat(c: Circle, i: nat, j: nat, k: nat)
    requires Shape(c) && i < |c.members| && j < |c.members| && k < |c.members|
    ensures SeatOf(SwapIdx(c, i, j), k) == SeatOf(c, if k == j then i else if k == i then j else k)
  {
    var n := |c.members|;
    SwEntry(c.deposits, i, j, k, n);
    SwEntry(c.defaults, i, j, k, n);
    SwEntry(c.paidOut, i, j, k, n);
    SwEntry(c.prepaid, i, j, k, n);
    SwEntry(c.paidAmt, i, j, k, n);
    SwEntry(c.bids, i, j, k, n);
    SwEntry(c.saved, i, j, k, n);
    SwEntry(c.withdrawn, i, j, k, n);
    SwEntry(c.swapWith, i, j, k, n);
  }

  /** Swapping two turns exchanges two whole member records and touches nothing else. */
  lemma SwapIdxSeats(c: Circle, i: nat, j: nat)
    requires Shape(c) && i < |c.members| && j < |c.members|
    ensures SeatList(SwapIdx(c, i, j)) == Swapped(SeatList(c), i, j)
    ensures multiset(SeatList(SwapIdx(c, i, j))) == multiset(SeatList(c))
  {
    var a, b := SeatList(SwapIdx(c, i, j)), SeatList(c);
    forall k | 0 <= k < |b| ensures a[k] == Swapped(b, i, j)[k] {
      SwapIdxSeat(c, i, j, k);
    }
    SwappedMultiset(b, i, j);
  }

  lemma SwSum(s: seq<int>, i: nat, j: nat)
    requires s == [] || (i < |s| && j < |s|)
    ensures Sum(Sw(s, i, j)) == Sum(s)
  {
    if s != [] {
      SumSwapped(s, i, j);
    }
  }

  lemma SwapIdxHoldings(c: Circle, i: nat, j: nat)
    requires Shape(c) && i < |c.members| && j < |c.members|
    ensures Holdings(SwapIdx(c, i, j)) == Holdings(c)
  {
    SwSum(c.deposits, i, j);
    SwSum(c.prepaid, i, j);
  }

  lemma SwapIdxBooks(c: Circle, i: nat, j: nat)
    requires Shape(c) && i < |c.members| && j < |c.members| && Books(c)
    ensures Books(SwapIdx(c, i, j))
  {
    var r := SwapIdx(c, i, j);
    if c.terms.mode == Goal {
      SwSum(c.saved, i, j);
    } else {
      assert PaidList(r) == Swapped(PaidList(c), i, j);
      SumSwapped(PaidList(c), i, j);
    }
  }

  lemma SwapIdxSeatsKept(c: Circle, i: nat, j: nat)
    requires Shape(c) && i < |c.members| && j < |c.members| && Seats(c) && c.claimed[i] == c.claimed[j]
    ensures Seats(SwapIdx(c, i, j)) && SwapIdx(c, i, j).claimed == c.claimed
  {
    assert Swapped(c.claimed, i, j) == c.claimed;
  }

  /** Two members with the same collected flag can change places without upsetting the circle. */
  lemma SwapIdxInv(c: Circle, i: nat, j: nat)
    requires CircleInv(c) && i < |c.members| && j < |c.members| && c.claimed[i] == c.claimed[j]
    ensures CircleInv(SwapIdx(c, i, j)) && Holdings(SwapIdx(c, i, j)) == Holdings(c)
  {
    hide Seats, Books, Amounts, Holdings, Distinct, Pledges, SwapIdx;
    SwapIdxHoldings(c, i, j);
    SwapIdxBooks(c, i, j);
    SwapIdxSeatsKept(c, i, j);
    SwapIdxRest(c, i, j);
  }

  lemma SwapIdxRest(c: Circle, i: nat, j: nat)
    requires Shape(c) && i < |c.members| && j < |c.members|
    ensures var r := SwapIdx(c, i, j);
      && r == c.(members := r.members, joined := r.joined, paid := r.paid, claimed := r.claimed, paidAmt := r.paidAmt,
        deposits := r.deposits, defaults := r.defaults, paidOut := r.paidOut, prepaid := r.prepaid, bids := r.bids,
        saved := r.saved, withdrawn := r.withdrawn, swapWith := r.swapWith)
      && |r.members| == |c.members|
      && (Distinct(c.members) && NoAddress !in c.members ==> Distinct(r.members) && NoAddress !in r.members)
      && (Amounts(c) ==> Amounts(r)) && (Pledges(c) ==> Pledges(r))
  {}

  /** What no operation ever changes about a circle. */
  ghost predicate SameTerms(c: Circle, r: Circle) {
    r.id == c.id && r.asset == c.asset && r.creator == c.creator && r.terms == c.terms && |r.members| == |c.members|
  }

  lemma SameTermsTransitive(a: Circle, b: Circle, c: Circle)
    requires SameTerms(a, b) && SameTerms(b, c)
    ensures SameTerms(a, c)
  {}

  /** r is a sound circle, equal to c but for the order of its member records, none of which has collected. */
  ghost predicate Reordered(c: Circle, r: Circle) {
    && CircleInv(c) && CircleInv(r) && SameTerms(c, r)
    && Holdings(r) == Holdings(c) && r.status == c.status && r.round == c.round && r.startedAt == c.startedAt
    && r.claimed == c.claimed && multiset(SeatList(r)) == multiset(SeatList(c))
  }

  lemma ReorderedTransitive(a: Circle, b: Circle, c: Circle)
    requires Reordered(a, b) && Reordered(b, c)
    ensures Reordered(a, c)
  {
    hide CircleInv, Holdings, SeatList;
  }

  lemma UnclaimedAtStart(c: Circle, j: nat)
    requires CircleInv(c) && c.round == 0 && j < |c.members|
    ensures !c.claimed[j]
  {
    CountBounds(c.claimed);
  }

  lemma DrawOne(c: Circle, i: nat, j: nat)
    requires CircleInv(c) && c.round == 0 && i < |c.members| && j < |c.members|
    ensures Reordered(c, SwapIdx(c, i, j))
  {
    UnclaimedAtStart(c, i);
    UnclaimedAtStart(c, j);
    SwapIdxInv(c, i, j);
    SwapIdxSeatsKept(c, i, j);
    SwapIdxSeats(c, i, j);
  }

  /** One exchange of the draw, seen from the circle the draw started with. */
  lemma DrawNext(start: Circle, c: Circle, i: nat, j: nat)
    requires Reordered(start, c) && start.round == 0 && i < |c.members| && j < |c.members|
    ensures Reordered(start, SwapIdx(c, i, j))
  {
    DrawOne(c, i, j);
    ReorderedTransitive(start, c, SwapIdx(c, i, j));
  }

  lemma {:induction false} DrawFromKeeps(sha: Sha, start: Circle, c: Circle, k: nat, seed: Hash)
    requires Shape(c) && Reordered(start, c) && start.round == 0 && k < |c.members|
    ensures Reordered(start, DrawFrom(sha, c, k, seed))
    decreases k
  {
    hide Reordered, SwapIdx, Shape;
    if k > 0 {
      var next := sha.next(seed);
      var d := SwapIdx(c, k, Pick(sha, next, k));
      DrawNext(start, c, k, Pick(sha, next, k));
      DrawFromKeeps(sha, start, d, k - 1, next);
    }
  }

  lemma ReorderedSelf(c: Circle)
    requires CircleInv(c)
    ensures Reordered(c, c)
  {}

  /** The lottery only reorders whole member records and moves no money, whatever the hash chain yields. */
  lemma DrawKeeps(sha: Sha, c: Circle)
    requires CircleInv(c) && c.round == 0
    ensures Reordered(c, DrawOrder(sha, c))
  {
    hide Reordered, SwapIdx, DrawFrom, Amounts, Books, Seats, Phase, Pledges;
    ReorderedSelf(c);
    DrawFromKeeps(sha, c, c, |c.members| - 1, sha.start(c.id, c.startedAt));
  }

  // ---------------------------------------------------------------- every step

  lemma NewCircleInv(id: Hash, asset: Asset, from: Address, members: seq<Address>, t: Terms)
    requires GoodTerms(members, t, from)
    ensures CircleInv(NewCircle(id, asset, from, members, t)) && Holdings(NewCircle(id, asset, from, members, t))
      == t.deposit
  {
    var c := NewCircle(id, asset, from, members, t);
    var n := |members|;
    DivFacts(TWO64 - 1, n);
    MulMonotone(t.contribution, (TWO64 - 1) / n, n);
    SumZeros(n);
    SumUpdate(Zeros(n), Index(members, from), t.deposit);
    if c.terms.mode != Goal {
      assert PaidList(c) == Zeros(n);
    }
    CountBounds(c.claimed);
  }

  lemma AdmitKeeps(c: Circle, i: nat)
    requires CircleInv(c) && i < |c.members| && c.status == Forming && !c.joined[i]
    ensures CircleInv(Admit(c, i)) && Holdings(Admit(c, i)) == Holdings(c) + c.terms.deposit
  {
    var d := Admit(c, i);
    if c.deposits != [] {
      SumUpdate(c.deposits, i, c.terms.deposit);
    }
    assert PaidList(d) == PaidList(c);
  }

  lemma ActivateKeeps(c: Circle, now: int)
    requires CircleInv(c) && c.status == Forming
    ensures CircleInv(c.(status := Active, startedAt := now)) && Holdings(c.(status := Active, startedAt := now))
      == Holdings(c)
  {
    assert PaidList(c.(status := Active, startedAt := now)) == PaidList(c);
  }

  lemma StartKeeps(sha: Sha, c: Circle, now: int)
    requires CircleInv(c) && c.status == Forming
    ensures CircleInv(Start(sha, c, now)) && Holdings(Start(sha, c, now)) == Holdings(c)
  {
    ActivateKeeps(c, now);
    var a := c.(status := Active, startedAt := now);
    if a.terms.mode == Lottery {
      DrawKeeps(sha, a);
      RunAutopayInv(DrawOrder(sha, a));
    } else if a.terms.mode != Goal {
      RunAutopayInv(a);
    }
  }

  /** Joining, and starting when the last member joins. */
  lemma JoinKeeps(sha: Sha, c: Circle, i: nat, now: int)
    requires CircleInv(c) && i < |c.members| && c.status == Forming && !c.joined[i]
    ensures CircleInv(JoinCircle(sha, c, i, now)) && Holdings(JoinCircle(sha, c, i, now)) == Holdings(c)
      + c.terms.deposit
  {
    AdmitKeeps(c, i);
    if false !in Admit(c, i).joined {
      StartKeeps(sha, Admit(c, i), now);
    }
  }

  lemma SaveKeeps(c: Circle, i: nat, amount: int)
    requires CircleInv(c) && i < |c.members| && c.status == Active && c.terms.mode == Goal && 0 < amount
    ensures CircleInv(ContributeTo(c, i, amount)) && Holdings(ContributeTo(c, i, amount)) == Holdings(c) + amount
  {
    SumUpdate(c.saved, i, c.saved[i] + amount);
  }

  lemma PayKeeps(c: Circle, i: nat, amount: int)
    requires CircleInv(c) && i < |c.members| && c.status == Active && c.terms.mode != Goal && 0 <= amount <= Need(c, i)
    ensures CircleInv(PayIn(c, i, amount)) && Holdings(PayIn(c, i, amount)) == Holdings(c) + amount
  {
    PayInBooks(c, i, amount);
    hide PaidList, RoundBooks;
  }

  lemma ContributeKeeps(c: Circle, i: nat, amount: int)
    requires CircleInv(c) && i < |c.members| && c.status == Active && 0 <= amount
    requires if c.terms.mode == Goal then amount > 0 else !c.paid[i] && amount <= Need(c, i)
    ensures CircleInv(ContributeTo(c, i, amount))
    ensures Holdings(ContributeTo(c, i, amount)) == Holdings(c) + (if amount > 0 then amount else Need(c, i))
  {
    if c.terms.mode == Goal {
      SaveKeeps(c, i, amount);
    } else {
      assert PaidList(c)[i] == PaidSoFar(c, i);
      hide Amounts, Seats, Phase, Pledges, Holdings, PayIn, PaidList, Shape;
      PayKeeps(c, i, if amount == 0 then Need(c, i) else amount);
    }
  }

  lemma WithdrawKeeps(c: Circle, i: nat, from: Address)
    requires CircleInv(c) && i < |c.members| && c.terms.mode == Goal && (c.status == Active || c.status == Done)
    ensures CircleInv(WithdrawFrom(c, i, from).circle)
    ensures Holdings(WithdrawFrom(c, i, from).circle) == Holdings(c) - c.saved[i] && 0 <= c.saved[i]
  {
    SumUpdate(c.saved, i, 0);
  }

  lemma PrepaidKeeps(c: Circle, s: seq<int>)
    requires CircleInv(c) && c.terms.mode != Goal && (c.status == Forming || c.status == Active)
      && NilOr(s, |c.members|) && NonNeg(s)
    ensures CircleInv(c.(prepaid := s)) && Holdings(c.(prepaid := s)) == Holdings(c) - Sum(c.prepaid) + Sum(s)
  {
    assert PaidList(c.(prepaid := s)) == PaidList(c);
  }

  lemma ReserveKeeps(c: Circle, i: nat, amount: int)
    requires CircleInv(c) && i < |c.members| && c.terms.mode != Goal && (c.status == Forming || c.status == Active)
      && 0 <= amount
    ensures CircleInv(Reserve(c, i, amount)) && Holdings(Reserve(c, i, amount)) == Holdings(c) + amount
  {
    var set0 := if c.prepaid == [] then Zeros(|c.members|) else c.prepaid;
    SumZeros(|c.members|);
    SumUpdate(set0, i, set0[i] + amount);
    PrepaidKeeps(c, set0[i := set0[i] + amount]);
  }

  lemma AutopayKeeps(c: Circle, i: nat, amount: int)
    requires CircleInv(c) && i < |c.members| && c.terms.mode != Goal && (c.status == Forming || c.status == Active)
      && 0 <= amount
    ensures CircleInv(AddAutopay(c, i, amount)) && Holdings(AddAutopay(c, i, amount)) == Holdings(c) + amount
  {
    ReserveKeeps(c, i, amount);
    RunAutopayInv(Reserve(c, i, amount));
  }

  lemma StopKeeps(c: Circle, i: nat)
    requires CircleInv(c) && i < |c.members| && c.prepaid != [] && c.prepaid[i] != 0
    ensures CircleInv(c.(prepaid := c.prepaid[i := 0]))
    ensures Holdings(c.(prepaid := c.prepaid[i := 0])) == Holdings(c) - c.prepaid[i] && 0 <= c.prepaid[i]
  {
    var d := c.(prepaid := c.prepaid[i := 0]);
    SumUpdate(c.prepaid, i, 0);
    HoldingsNonNeg(c);
    SumNonNeg(c.prepaid);
    SumNonNeg(c.deposits);
    if d.terms.mode != Goal {
      assert PaidList(d) == PaidList(c);
    }
  }

  lemma CancelKeeps(c: Circle)
    requires CircleInv(c) && c.status == Forming
    ensures CircleInv(CancelCircle(c).circle) && Holdings(CancelCircle(c).circle) == 0
    ensures SumCredits(CancelCircle(c).credits) == Holdings(c) && CreditsTo(CancelCircle(c).credits, c.members)
  {
    var n := |c.members|;
    var d := CancelCircle(c).circle;
    CancelReturnsSum(c, n);
    PrefixSumAll(c.prepaid, n);
    PrefixSumAll(c.deposits, n);
    SumZeros(|c.prepaid|);
    SumZeros(|c.deposits|);
    if d.terms.mode != Goal {
      assert PaidList(d) == PaidList(c);
    }
  }

  /** Swap requests are not part of the books. */
  lemma SwapWithKeeps(c: Circle, w: seq<Address>)
    requires CircleInv(c) && NilOr(w, |c.members|)
    ensures CircleInv(c.(swapWith := w)) && Holdings(c.(swapWith := w)) == Holdings(c)
  {
    if c.terms.mode != Goal {
      assert PaidList(c.(swapWith := w)) == PaidList(c);
    }
  }

  lemma SwapKeeps(c: Circle, i: nat, from: Address, other: Address)
    requires CircleInv(c) && i < |c.members| && other in c.members && !c.claimed[i]
      && !c.claimed[Index(c.members, other)]
    ensures CircleInv(SwapTurns(c, i, from, other)) && Holdings(SwapTurns(c, i, from, other)) == Holdings(c)
  {
    var r := SwapTurns(c, i, from, other);
    SwapIdxInv(c, i, Index(c.members, other));
    SwapWithKeeps(SwapIdx(c, i, Index(c.members, other)), r.swapWith);
    SwapWithKeeps(c, r.swapWith);
  }
}
