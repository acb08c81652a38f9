/**
  Facts the 64-bit ledger machine rests on: room for a credit, credits added one at a time,
  and the two-step basis-point formula.
 */
module MachineFacts {
  import opened Arithmetic
  import opened Core
  import opened Sequences
  import opened MapSums
  import opened Circles
  import opened CircleBooks
  import opened CircleSteps
  import opened Escrows
  import opened Ledger
  import opened Conservation
  import opened LedgerSafety

  // ---------------------------------------------------------------- basis points

  /**
    Go's x/10000*bps + x%10000*bps/10000 never leaves 64 bits on the way, for any amount x and any rate up to 100%,
    and equals the exact value rounded down.
   */
  lemma BasisPointsFit(x: Amount, bps: int)
    requires 0 <= bps <= 10000
    ensures 0 <= x / 10000 * bps <= x && 0 <= x % 10000 * bps <= 10000 * bps
    ensures x / 10000 * bps + x % 10000 * bps / 10000 == BasisPoints(x, bps)
  {
    var q, r := x / 10000, x % 10000;
    assert x == 10000 * q + r;
    MulMonotone(bps, 10000, q);
    MulMonotone(r, 10000, bps);
    calc {
      x * bps;
      (10000 * q + r) * bps;
      10000 * (q * bps) + r * bps;
    }
    assert (10000 * (q * bps) + r * bps) / 10000 == q * bps + r * bps / 10000;
  }

  /** The cut as the program computes it: two products and a sum, each a 64-bit amount. */
  function CutOf(x: Amount, bps: int): (cut: Amount)
    requires 0 <= bps <= 10000
    ensures cut == BasisPoints(x, bps) && cut <= x
  {
    BasisPointsFit(x, bps);
    BasisPointsBounds(x, bps);
    var whole: Amount := x / 10000 * bps;
    var part: Amount := x % 10000 * bps;
    whole + part / 10000
  }

  lemma NoCut(x: int)
    ensures BasisPoints(x, 0) == 0
  {}

  // ---------------------------------------------------------------- credits one at a time

  /** The accounts after all these credits. */
  function PaidOut(m: Accounts, x: Asset, cs: seq<Credit>): Accounts { CreditsApplied(m, x, cs, |cs|) }

  lemma {:induction false} AppliedPrefix(m: Accounts, x: Asset, a: seq<Credit>, b: seq<Credit>, k: nat)
    requires k <= |a|
    ensures CreditsApplied(m, x, a + b, k) == CreditsApplied(m, x, a, k)
  {
    hide CreditTo;
    if k > 0 {
      AppliedPrefix(m, x, a, b, k - 1);
    }
  }

  lemma PaidOutSnoc(m: Accounts, x: Asset, cs: seq<Credit>, c: Credit)
    ensures PaidOut(m, x, cs + [c]) == CreditTo(PaidOut(m, x, cs), c.to, x, c.amount)
  {
    hide CreditTo;
    AppliedPrefix(m, x, cs, [c], |cs|);
  }

  lemma {:induction false} AppliedSuffix(m: Accounts, x: Asset, a: seq<Credit>, b: seq<Credit>, k: nat)
    requires k <= |b|
    ensures CreditsApplied(m, x, a + b, |a| + k) == CreditsApplied(PaidOut(m, x, a), x, b, k)
  {
    hide CreditTo;
    if k == 0 {
      AppliedPrefix(m, x, a, b, |a|);
    } else {
      AppliedSuffix(m, x, a, b, k - 1);
    }
  }

  lemma PaidOutNone(m: Accounts, x: Asset)
    ensures PaidOut(m, x, []) == m
  {}

  lemma PaidOutAppend(m: Accounts, x: Asset, a: seq<Credit>, b: seq<Credit>)
    ensures PaidOut(m, x, a + b) == PaidOut(PaidOut(m, x, a), x, b)
  {
    hide CreditsApplied;
    AppliedSuffix(m, x, a, b, |b|);
  }

  // ---------------------------------------------------------------- room

  /** v more units of the asset can be credited, to anyone and in any portions, without a balance leaving 64 bits. */
  ghost predicate Room(m: Accounts, x: Asset, v: int) {
    AccountsOk(m) && 0 <= v && InAccounts(m, x) + v < TWO64
  }

  lemma BalanceWithin(m: Accounts, a: Address, x: Asset)
    requires AccountsOk(m)
    ensures 0 <= Balance(m, a, x) <= InAccounts(m, x)
  {
    forall b | b in m ensures 0 <= AccountLines(m, x)[b] {
      BalanceNonNeg(m, b, x);
    }
    TotalNonNeg(AccountLines(m, x));
    BalanceNonNeg(m, a, x);
    if a in m {
      assert AccountLines(m, x)[a] == Balance(m, a, x);
    }
  }

  lemma CreditRoom(m: Accounts, to: Address, x: Asset, v: int, room: int)
    requires Room(m, x, room) && 0 <= v <= room
    ensures Balance(m, to, x) + v < TWO64 && 0 <= Balance(m, to, x)
    ensures Room(CreditTo(m, to, x, v), x, room - v)
  {
    hide InAccounts, AccountsOk, SetBalance;
    BalanceWithin(m, to, x);
    SetMoney(m, to, x, Balance(m, to, x) + v, x);
    CreditOk(m, to, x, v);
  }

  // ---------------------------------------------------------------- amounts of a sound circle

  lemma ContributionFits(c: Circle)
    requires Shape(c)
    ensures 0 < c.terms.contribution < TWO64
  {
    MulMonotone(1, |c.members|, c.terms.contribution);
  }

  /** clear on a slice of amounts. */
  function Blank(s: seq<Amount>): (z: seq<Amount>)
    ensures z == Cleared(s)
  {
    Zeros(|s|)
  }

  /** A slice cleared up to position j. */
  function ClearedTo(s: seq<int>, j: nat): (r: seq<int>)
    ensures |r| == |s| && forall k :: 0 <= k < |s| ==> r[k] == if k < j then 0 else s[k]
  {
    seq(|s|, k requires 0 <= k < |s| => if k < j then 0 else s[k])
  }

  lemma ClearedToStep(s: seq<int>, j: nat)
    requires j < |s| && NonNeg(s)
    ensures ClearedTo(s, j)[j := 0] == ClearedTo(s, j + 1)
    ensures NonNeg(ClearedTo(s, j)) && ClearedTo(s, j)[j] == s[j]
    ensures Sum(ClearedTo(s, j + 1)) == Sum(ClearedTo(s, j)) - s[j] && s[j] <= Sum(ClearedTo(s, j))
  {
    SumUpdate(ClearedTo(s, j), j, 0);
    SumNonNeg(ClearedTo(s, j));
  }

  /** A round's pot never holds more than all contributions, which fit in 64 bits. */
  lemma PotFits(c: Circle)
    requires Shape(c) && c.terms.mode != Goal && RoundBooks(c)
    ensures 0 <= c.balance <= Pot(c) < TWO64
  {
    SumNonNeg(PaidList(c));
    SumAtMost(PaidList(c), c.terms.contribution);
  }

  /** Autopay of member j takes what is still owed, and the pot stays within 64 bits. */
  lemma AutopayFits(c: Circle, j: nat)
    requires Shape(c) && c.terms.mode != Goal && c.prepaid != [] && j < |c.members| && RoundBooks(c)
      && NonNeg(c.prepaid)
    ensures 0 <= Need(AutopayTo(c, j), j) && AutopayTo(c, j).terms == c.terms
    ensures AutopayStep(AutopayTo(c, j), j) == AutopayTo(c, j + 1)
    ensures AutopayTo(c, j + 1).balance < TWO64
  {
    var m := AutopayTo(c, j);
    AutopayToBooks(c, j);
    AutopayToBooks(c, j + 1);
    PotFits(AutopayTo(c, j + 1));
    assert PaidList(m)[j] == PaidSoFar(m, j);
  }

  lemma PaidListAt(c: Circle, j: nat)
    requires Shape(c) && j < |c.members|
    ensures PaidList(c)[j] == PaidSoFar(c, j)
  {}

  /** A payment by member j, as the steps the program takes. */
  lemma PayInLines(c: Circle, j: nat, amt: int)
    requires Shape(c) && c.terms.mode != Goal && j < |c.members| && amt <= Need(c, j)
    ensures var table := if c.paidAmt == [] && amt < c.terms.contribution then PaidList(c) else c.paidAmt;
      && 0 < c.terms.contribution < TWO64 && j < |c.paid|
      && (table != [] ==> j < |table| && table[j] + amt <= c.terms.contribution)
      && Circles.PayIn(c, j, amt) ==
        if table != [] then
          var t := table[j := table[j] + amt];
          c.(paidAmt := t, paid := c.paid[j := t[j] == c.terms.contribution], balance := c.balance + amt)
        else c.(paid := c.paid[j := true], balance := c.balance + amt)
  {
    ContributionFits(c);
    PaidListAt(c, j);
    hide PaidList;
  }

  /** Covering a missed payment moves money inside the circle, so the pot stays within the circle's holdings. */
  lemma CoverFits(c: Circle, j: nat)
    requires CircleInv(c) && c.terms.mode != Goal && j < |c.members|
    ensures Shape(CoverTo(c, j)) && 0 <= Need(CoverTo(c, j), j)
    ensures CoverTo(c, j).terms == c.terms && CoverTo(c, j + 1).terms == c.terms
      && |CoverTo(c, j).members| == |c.members|
    ensures CoverStep(CoverTo(c, j), j) == CoverTo(c, j + 1)
    ensures CoverTo(c, j + 1).balance <= Holdings(c)
  {
    hide Seats, Phase, Pledges, CoverStep;
    var m := CoverTo(c, j);
    CoverToBooks(c, j);
    CoverToBooks(c, j + 1);
    SumNonNeg(CoverTo(c, j + 1).deposits);
    SumNonNeg(c.prepaid);
    PaidListAt(m, j);
    PaidListAt(c, j);
  }

  lemma PaidOutNothing(m: Accounts, x: Asset)
    ensures PaidOut(m, x, []) == m
  {}

  /** The share of a discount, and the loop that hands it out, at the start and at the end. */
  lemma ShareStart(c: Circle, i: nat, pot: Amount)
    requires Shape(c) && i < |c.members| && Discounted(c, i)
    ensures var share := Min(c.bids[i], pot) / (|c.members| - 1);
      && share == DiscountShare(c, i, pot) && 0 <= share <= pot && share * (|c.members| - 1) <= pot
      && SharesTo(c.members, i, share, 0) == [] && SumCredits([]) == 0
      && SumCredits(SharesTo(c.members, i, share, |c.members|)) == share * (|c.members| - 1)
  {
    var n := |c.members| - 1;
    var share := Min(c.bids[i], pot) / n;
    ShareBounds(c.bids[i], pot, n);
    MulMonotone(1, n, share);
    SharesSum(c.members, i, share, n + 1);
  }

  lemma ShareList(members: seq<Address>, i: nat, share: int, j: nat)
    requires i < |members| && j < |members|
    ensures SharesTo(members, i, share, j + 1) == SharesTo(members, i, share, j) + if j == i then []
      else [Credit(members[j], share)]
  {}

  lemma ShareRoom(share: int, done: nat, n: nat, pot: int)
    requires 0 <= share && done < n && share * n <= pot
    ensures share * (done + 1) == share * done + share && share <= pot - share * done
  {
    MulMonotone(done + 1, n, share);
    MulStep(share, done + 1);
  }

  /** The next share still fits in what is left of the pot. */
  lemma ShareNext(members: seq<Address>, i: nat, share: int, j: nat, pot: int)
    requires i < |members| && j < |members| && 0 <= share && share * (|members| - 1) <= pot
    ensures j == i ==> SharesTo(members, i, share, j + 1) == SharesTo(members, i, share, j)
    ensures j != i ==>
      && SharesTo(members, i, share, j + 1) == SharesTo(members, i, share, j) + [Credit(members[j], share)]
      && SumCredits(SharesTo(members, i, share, j + 1)) == SumCredits(SharesTo(members, i, share, j)) + share
      && share <= pot - SumCredits(SharesTo(members, i, share, j))
  {
    hide SumCredits, SharesTo;
    ShareList(members, i, share, j);
    if j == i {
      assert SharesTo(members, i, share, j) + [] == SharesTo(members, i, share, j);
    } else {
      SharesSum(members, i, share, j);
      SharesSum(members, i, share, j + 1);
      ShareRoom(share, if i < j then j - 1 else j, |members| - 1, pot);
    }
  }

  function ZeroedAt(s: seq<int>, j: nat): seq<int>
    requires s == [] || j < |s|
  {
    if s == [] then [] else s[j := 0]
  }

  lemma RefundApplied(m: Accounts, x: Asset, to: Address, v: int)
    ensures PaidOut(m, x, Circles.Refund(to, v)) == if v > 0 then CreditTo(m, to, x, v) else m
  {
    hide CreditTo;
    assert v > 0 ==> CreditsApplied(m, x, Circles.Refund(to, v), 0) == m;
  }

  /** A circle whose autopay money, deposits and insurance are amounts. */
  ghost predicate HeldFits(c: Circle) { Shape(c) && NonNeg(c.prepaid) && NonNeg(c.deposits) && 0 <= c.insurance }

  /** What is still held once the members before j got theirs back. */
  function HeldFrom(c: Circle, j: nat): int {
    Sum(ClearedTo(c.prepaid, j)) + Sum(ClearedTo(c.deposits, j)) + c.insurance
  }

  /** After the first j members got theirs back, with the credits so far. */
  ghost predicate Midway(
    c: Circle, m: Accounts, j: nat, cs: seq<Credit>, prepaid: seq<int>, deposits: seq<int>, accounts: Accounts)
  {
    && prepaid == ClearedTo(c.prepaid, j) && deposits == ClearedTo(c.deposits, j)
    && accounts == PaidOut(m, c.asset, cs) && Room(accounts, c.asset, HeldFrom(c, j))
  }

  ghost predicate ReturnedTo(
    c: Circle, m: Accounts, j: nat, prepaid: seq<int>, deposits: seq<int>, accounts: Accounts)
  {
    HeldFits(c) && j <= |c.members| && Midway(c, m, j, ReturnsTo(c, j), prepaid, deposits, accounts)
  }

  ghost predicate CancelledTo(
    c: Circle, m: Accounts, j: nat, prepaid: seq<int>, deposits: seq<int>, accounts: Accounts)
  {
    HeldFits(c) && j <= |c.members| && Midway(c, m, j, CancelReturnsTo(c, j), prepaid, deposits, accounts)
  }

  lemma HeldStart(c: Circle, m: Accounts)
    requires Shape(c)
    ensures ClearedTo(c.prepaid, 0) == c.prepaid && ClearedTo(c.deposits, 0) == c.deposits
      && HeldFrom(c, 0) == Circles.Held(c)
    ensures PaidOut(m, c.asset, ReturnsTo(c, 0)) == m && PaidOut(m, c.asset, CancelReturnsTo(c, 0)) == m
    ensures NonNeg(c.prepaid) && NonNeg(c.deposits) && 0 <= c.insurance ==> HeldFits(c)
  {}

  /** One line cleared: what it held is at most the sum, and leaves it. */
  lemma LineCleared(s: seq<int>, n: nat, j: nat)
    requires NilOr(s, n) && NonNeg(s) && j < n
    ensures ZeroedAt(ClearedTo(s, j), j) == ClearedTo(s, j + 1) && At(ClearedTo(s, j), j) == At(s, j)
    ensures Sum(ClearedTo(s, j + 1)) == Sum(ClearedTo(s, j)) - At(s, j) && 0 <= At(s, j) <= Sum(ClearedTo(s, j))
    ensures 0 <= Sum(ClearedTo(s, j + 1))
  {
    if s != [] {
      ClearedToStep(s, j);
    } else {
      assert ClearedTo(s, j) == [] && ClearedTo(s, j + 1) == [];
    }
    SumNonNeg(ClearedTo(s, j + 1));
  }

  lemma HeldNext(c: Circle, j: nat, m: Accounts)
    requires HeldFits(c) && j < |c.members|
    ensures (c.prepaid == [] || j < |c.prepaid|) && (c.deposits == [] || j < |c.deposits|)
    ensures |ClearedTo(c.prepaid, j)| == |c.prepaid| && |ClearedTo(c.deposits, j)| == |c.deposits|
    ensures ZeroedAt(ClearedTo(c.prepaid, j), j) == ClearedTo(c.prepaid, j + 1)
    ensures ZeroedAt(ClearedTo(c.deposits, j), j) == ClearedTo(c.deposits, j + 1)
    ensures At(ClearedTo(c.prepaid, j), j) == At(c.prepaid, j) && At(ClearedTo(c.deposits, j), j) == At(c.deposits, j)
    ensures 0 <= At(c.prepaid, j) && 0 <= At(c.deposits, j) && At(c.prepaid, j) + At(c.deposits, j) <= HeldFrom(c, j)
    ensures HeldFrom(c, j + 1) == HeldFrom(c, j) - At(c.prepaid, j) - At(c.deposits, j)
    ensures var returned := PaidOut(PaidOut(m, c.asset, ReturnsTo(c, j)), c.asset,
      Circles.Refund(c.members[j], At(c.prepaid, j)));
      PaidOut(m, c.asset, ReturnsTo(c, j + 1)) == PaidOut(returned, c.asset,
        Circles.Refund(c.members[j], At(c.deposits, j)))
    ensures var returned := PaidOut(PaidOut(m, c.asset, CancelReturnsTo(c, j)), c.asset,
      Circles.Refund(c.members[j], At(c.deposits, j)));
      PaidOut(m, c.asset, CancelReturnsTo(c, j + 1)) == PaidOut(returned, c.asset,
        Circles.Refund(c.members[j], At(c.prepaid, j)))
  {
    hide PaidOut, Circles.Refund, ClearedTo;
    LineCleared(c.prepaid, |c.members|, j);
    LineCleared(c.deposits, |c.members|, j);
    var p, d := Circles.Refund(c.members[j], At(c.prepaid, j)), Circles.Refund(c.members[j], At(c.deposits, j));
    PaidOutAppend(m, c.asset, ReturnsTo(c, j), p);
    PaidOutAppend(m, c.asset, ReturnsTo(c, j) + p, d);
    PaidOutAppend(m, c.asset, CancelReturnsTo(c, j), d);
    PaidOutAppend(m, c.asset, CancelReturnsTo(c, j) + d, p);
  }

  lemma HeldEnd(c: Circle)
    requires Shape(c)
    ensures ClearedTo(c.prepaid, |c.members|) == Cleared(c.prepaid) && ClearedTo(c.deposits, |c.members|)
      == Cleared(c.deposits)
    ensures HeldFrom(c, |c.members|) == c.insurance
  {
    SumZeros(|c.prepaid|);
    SumZeros(|c.deposits|);
  }

  lemma InsuranceStart(members: seq<Address>, total: int)
    ensures InsuranceTo(members, total, 0) == [] && SumCredits([]) == 0
  {}

  /** The next part of the insurance still fits in what is left of it. */
  lemma InsuranceNext(members: seq<Address>, total: int, j: nat)
    requires j < |members| && 0 <= total
    ensures var part := InsurancePart(total, |members|, j);
      && InsuranceTo(members, total, j + 1) == InsuranceTo(members, total, j) + [Credit(members[j], part)]
      && SumCredits(InsuranceTo(members, total, j + 1)) == SumCredits(InsuranceTo(members, total, j)) + part
      && 0 <= part <= total - SumCredits(InsuranceTo(members, total, j))
  {
    hide SumCredits;
    InsuranceSum(members, total, j);
    InsuranceSum(members, total, j + 1);
    PartBounds(total, |members|);
    MulStep(total / |members|, j + 1);
    MulMonotone(j + 1, |members|, total / |members|);
    DivFacts(total, |members|);
  }

  lemma {:induction false} SameReturns(c: Circle, d: Circle, k: nat)
    requires Shape(c) && Shape(d) && c.members == d.members && c.prepaid == d.prepaid && c.deposits == d.deposits
      && k <= |c.members|
    ensures ReturnsTo(c, k) == ReturnsTo(d, k) && CancelReturnsTo(c, k) == CancelReturnsTo(d, k)
  {
    hide Circles.Refund;
    if k > 0 {
      SameReturns(c, d, k - 1);
    }
  }

  lemma ClosingSame(c: Circle)
    requires Shape(c)
    ensures 0 < |c.members| && Shape(c.(status := Done))
    ensures ReturnsTo(c.(status := Done), |c.members|) == ReturnsTo(c, |c.members|)
  {
    SameReturns(c, c.(status := Done), |c.members|);
  }

  /** Closing, as the steps the program takes. */
  lemma ClosingParts(c: Circle)
    requires Shape(c)
    ensures var d := c.(status := Done);
      && Shape(d) && 0 < |c.members| && Circles.Held(d) == Circles.Held(c)
      && Close(c).circle == d.(prepaid := Cleared(c.prepaid), deposits := Cleared(c.deposits),
        insurance := Close(c).circle.insurance)
      && Close(c).circle.insurance == (if c.insurance > 0 then 0 else c.insurance)
      && Close(c).credits == ReturnsTo(d, |c.members|)
           + if c.insurance > 0 then InsuranceTo(c.members, c.insurance, |c.members|) else []
  {
    ClosingSame(c);
    hide ReturnsTo, InsuranceTo, Cleared, Shape;
  }

  lemma RoomLimit(m: Accounts, x: Asset, v: int)
    requires Room(m, x, v)
    ensures 0 <= v < TWO64
  {
    BalanceWithin(m, NoAddress, x);
  }

  /** What a payout relies on: after covering, pot, cut and what is held are what the circle held, and closing fits. */
  lemma CoverSize(c: Circle, j: nat)
    requires CircleInv(c) && c.terms.mode != Goal && j <= |c.members|
    ensures |CoverTo(c, j).members| == |c.members| && CoverTo(c, j).terms == c.terms
  {
    hide Seats, Phase, Pledges, CoverTo;
    CoverToBooks(c, j);
  }

  lemma PayoutFacts(c: Circle, i: nat)
    requires CircleInv(c) && c.terms.mode != Goal && c.status == Active && i < |c.members|
    requires if c.terms.mode == Bidding then !c.claimed[i] else i == c.round
    ensures var k := CoverTo(c, |c.members|); var next := NextRound(k, i);
      && Shape(k) && k.terms == c.terms && k.asset == c.asset && |k.members| == |c.members|
      && 0 <= k.balance && 0 <= BasisPoints(k.balance, k.terms.insuranceBps) <= k.balance
      && k.balance + k.insurance <= Holdings(c) && 0 <= Circles.Held(next)
      && Holdings(c) == k.balance - BasisPoints(k.balance, k.terms.insuranceBps) + Circles.Held(next)
      && RoundBooks(next) && next.balance == 0 && 0 <= Sum(next.prepaid) <= Circles.Held(next) && next.terms == c.terms
  {
    hide Books, RoundBooks, Seats, Phase, Pledges, PotCredits, Winnings, CoverTo;
    NextRoundKeeps(c, i);
    var k := CoverTo(c, |c.members|);
    BasisPointsBounds(k.balance, k.terms.insuranceBps);
    SumNonNeg(c.prepaid);
    SumNonNeg(k.deposits);
  }

  lemma PayoutIs(c: Circle, i: nat)
    requires CircleInv(c) && c.terms.mode != Goal && i < |c.members|
    ensures var k := CoverTo(c, |c.members|); var next := NextRound(k, i);
      var last := if next.round < |next.members| then Payment(RunAutopay(next), []) else Close(next);
      && Circles.Payout(c, i).circle == last.circle
      && Circles.Payout(c, i).credits == PotCredits(k, i) + last.credits
  {
    hide Books, Seats, Phase, Pledges, CoverTo, PotCredits, RunAutopay, Close, Winnings;
  }

  /** What the winner keeps of a pot, and the credits of the discount to everyone else. */
  function Won(c: Circle, i: nat, pot: int): int
    requires Shape(c) && i < |c.members|
  {
    pot - DiscountShare(c, i, pot) * (|c.members| - 1)
  }

  function Shares(c: Circle, i: nat, pot: int): seq<Credit>
    requires Shape(c) && i < |c.members|
  {
    if Discounted(c, i) then SharesTo(c.members, i, DiscountShare(c, i, pot), |c.members|) else []
  }

  /** The books after the winner took its part of the pot. */
  function Turned(c: Circle, i: nat, won: int): Circle
    requires i < |c.claimed| && (c.paidOut == [] || i < |c.paidOut|)
  {
    c.(paidOut := if c.paidOut != [] then c.paidOut[i := won] else [], claimed := c.claimed[i := true],
       round := c.round + 1, paid := Falses(|c.paid|), paidAmt := Cleared(c.paidAmt), bids := Cleared(c.bids))
  }

  /** The pot leaving the books does not change how it is shared. */
  lemma PotLeaves(k: Circle, i: nat)
    requires Shape(k) && k.terms.mode != Goal && i < |k.members|
    ensures 0 <= k.terms.insuranceBps <= 1000 && i < |k.claimed| && (k.paidOut == [] || i < |k.paidOut|)
    ensures var cut := BasisPoints(k.balance, k.terms.insuranceBps); var pot := k.balance - cut;
      var d := k.(balance := 0, insurance := k.insurance + cut);
      && Shape(d) && Won(d, i, pot) == Winnings(k, i)
      && Shares(d, i, pot) + [Credit(k.members[i], Winnings(k, i))] == PotCredits(k, i)
      && NextRound(k, i) == Turned(d, i, Winnings(k, i))
  {
    hide BasisPoints, SharesTo;
  }

  /** Sw on a slice of 64-bit amounts. */
  function Exchanged(s: seq<Amount>, i: nat, j: nat): (r: seq<Amount>)
    requires CanSwap<int>(s, i, j)
    ensures r == Sw<int>(s, i, j)
  {
    if s == [] then [] else s[i := s[j]][j := s[i]]
  }

  predicate SeatsSwappable(c: Circle, i: nat, j: nat) {
    CanSwap(c.members, i, j) && CanSwap(c.joined, i, j) && CanSwap(c.paid, i, j) && CanSwap(c.claimed, i, j)
  }

  function SeatsSwapped(c: Circle, i: nat, j: nat): Circle
    requires SeatsSwappable(c, i, j)
  {
    c.(members := Sw(c.members, i, j), joined := Sw(c.joined, i, j), paid := Sw(c.paid, i, j),
      claimed := Sw(c.claimed, i, j))
  }

  predicate MarksSwappable(c: Circle, i: nat, j: nat) {
    CanSwap(c.defaults, i, j) && CanSwap(c.withdrawn, i, j) && CanSwap(c.swapWith, i, j)
  }

  function MarksSwapped(c: Circle, i: nat, j: nat): Circle
    requires MarksSwappable(c, i, j)
  {
    c.(defaults := Sw(c.defaults, i, j), withdrawn := Sw(c.withdrawn, i, j), swapWith := Sw(c.swapWith, i, j))
  }

  predicate HeldSwappable(c: Circle, i: nat, j: nat) {
    CanSwap(c.deposits, i, j) && CanSwap(c.paidOut, i, j) && CanSwap(c.prepaid, i, j)
  }

  function HeldSwapped(c: Circle, i: nat, j: nat): Circle
    requires HeldSwappable(c, i, j)
  {
    c.(deposits := Sw(c.deposits, i, j), paidOut := Sw(c.paidOut, i, j), prepaid := Sw(c.prepaid, i, j))
  }

  predicate LinesSwappable(c: Circle, i: nat, j: nat) {
    CanSwap(c.paidAmt, i, j) && CanSwap(c.bids, i, j) && CanSwap(c.saved, i, j)
  }

  function LinesSwapped(c: Circle, i: nat, j: nat): Circle
    requires LinesSwappable(c, i, j)
  {
    c.(paidAmt := Sw(c.paidAmt, i, j), bids := Sw(c.bids, i, j), saved := Sw(c.saved, i, j))
  }

  /** Every array of a circle can be swapped, and swapping them group by group swaps whole member records. */
  lemma Swappable(c: Circle, i: nat, j: nat)
    requires Shape(c) && i < |c.members| && j < |c.members|
    ensures SeatsSwappable(c, i, j)
    ensures MarksSwappable(SeatsSwapped(c, i, j), i, j)
    ensures HeldSwappable(MarksSwapped(SeatsSwapped(c, i, j), i, j), i, j)
    ensures LinesSwappable(HeldSwapped(MarksSwapped(SeatsSwapped(c, i, j), i, j), i, j), i, j)
    ensures LinesSwapped(HeldSwapped(MarksSwapped(SeatsSwapped(c, i, j), i, j), i, j), i, j) == SwapIdx(c, i, j)
  {}

  lemma PaidOutOne(m: Accounts, x: Asset, to: Address, v: int)
    ensures PaidOut(m, x, [Credit(to, v)]) == CreditTo(m, to, x, v)
  {
    PaidOutNothing(m, x);
    PaidOutSnoc(m, x, [], Credit(to, v));
    assert [] + [Credit(to, v)] == [Credit(to, v)];
  }

  /** What autopay at the start of a circle relies on, after the draw or without one. */
  lemma StartFacts(sha: Sha, c: Circle, now: int)
    requires CircleInv(c) && c.status == Forming && CircleInv(c.(status := Active, startedAt := now))
    ensures var a := c.(status := Active, startedAt := now);
      var d := if a.terms.mode == Lottery then DrawOrder(sha, a) else a;
      && Shape(a) && Shape(d) && d.terms == c.terms
      && (d.prepaid != [] ==> d.terms.mode != Goal && RoundBooks(d)) && NonNeg(d.prepaid)
  {
    hide Seats, Pledges, DrawOrder;
    var a := c.(status := Active, startedAt := now);
    if a.terms.mode == Lottery {
      DrawKeeps(sha, a);
    }
  }

  lemma ReservesHeld(c: Circle)
    requires CircleInv(c)
    ensures 0 <= c.balance && c.balance + Sum(c.prepaid) <= Holdings(c) && 0 <= Sum(c.prepaid)
    ensures forall j :: 0 <= j < |c.prepaid| ==> 0 <= c.prepaid[j] <= Holdings(c)
  {
    HoldingsNonNeg(c);
    SumNonNeg(c.prepaid);
    SumNonNeg(c.deposits);
  }

  lemma ContributeFacts(c: Circle, i: nat)
    requires CircleInv(c) && i < |c.members|
    ensures Shape(c) && 0 <= c.balance <= Holdings(c)
    ensures c.terms.mode == Goal ==> i < |c.saved| && 0 <= c.saved[i] <= c.balance
    ensures c.terms.mode != Goal ==> 0 <= Need(c, i) <= c.terms.contribution < TWO64
  {
    ReservesHeld(c);
    ContributionFits(c);
    HoldingsNonNeg(c);
    SumNonNeg(c.saved);
    PaidListAt(c, i);
  }

  /** An instalment that is not too large leaves the pot within 64 bits. */
  lemma PayInFits(c: Circle, i: nat, amt: int)
    requires CircleInv(c) && i < |c.members| && c.terms.mode != Goal && 0 <= amt <= Need(c, i)
    ensures c.balance + amt < TWO64
  {
    hide Amounts, Seats, Phase, Pledges;
    PayInBooks(c, i, amt);
    PotFits(PayIn(c, i, amt));
  }

  lemma WithdrawFacts(c: Circle, i: nat)
    requires CircleInv(c) && i < |c.members| && c.terms.mode == Goal
    ensures i < |c.saved| == |c.withdrawn| && 0 <= c.saved[i] <= c.balance <= Holdings(c)
  {
    ContributeFacts(c, i);
  }

  /** Money set aside leaves the books of the round alone. */
  lemma ReserveFacts(c: Circle, i: nat, amount: int)
    requires CircleInv(c) && i < |c.members| && c.terms.mode != Goal && 0 <= At(c.prepaid, i) + amount
    ensures var r := Reserve(c, i, amount);
      && Shape(r) && RoundBooks(r) && NonNeg(r.prepaid) && (c.prepaid == [] || |c.prepaid| == |c.members|)
  {
    hide Seats, Phase, Pledges;
    assert PaidList(Reserve(c, i, amount)) == PaidList(c);
  }

  lemma StopFacts(c: Circle, i: nat)
    requires CircleInv(c) && i < |c.prepaid|
    ensures 0 <= c.prepaid[i] <= Holdings(c)
  {
    ReservesHeld(c);
  }

  lemma CancelFacts(c: Circle, m: Accounts)
    requires CircleInv(c) && Room(m, c.asset, Holdings(c))
    ensures Shape(c) && 0 <= c.balance && Room(m, c.asset, Circles.Held(c))
  {
    HoldingsNonNeg(c);
  }

  function SavingsTaken(c: Circle, i: nat): Circle
    requires i < |c.saved| == |c.withdrawn|
  {
    var d := c.(balance := c.balance - c.saved[i], saved := c.saved[i := 0], withdrawn := c.withdrawn[i := true]);
    if d.status != Done && false !in d.withdrawn then d.(status := Done) else d
  }

  /** Go's test for a sum that wrapped around: b + v < b in 64 bits. */
  function Overflows(b: Amount, v: Amount): (r: bool)
    ensures r <==> Wraps(b, v)
  {
    (b + v) % 0x1_0000_0000_0000_0000 < b
  }

  /** What an allowed step of a sound circle means for the methods that carry it out. */
  lemma AllowedFacts(c: Circle, i: nat, op: Step, from: Address, now: int, bal: int)
    requires CircleInv(c) && i < |c.members| && StepCheck(c, i, op, from, now, bal) == None
    ensures Shape(c)
    ensures op.Claim? ==> c.terms.mode != Goal && c.status == Active && if c.terms.mode == Bidding then !c.claimed[i]
      else i == c.round
    ensures op.Contribute? && c.terms.mode == Goal ==> op.amount != 0 && c.balance + op.amount < TWO64
    ensures op.Bid? ==> i < |c.bids|
    ensures op.Swap? ==> op.other in c.members
    ensures op.Withdraw? ==> c.terms.mode == Goal && (c.status == Active || c.status == Done)
    ensures op.StopAutopay? ==> i < |c.prepaid|
  {
    hide Books, Amounts, Pledges, Recipient;
    if op.Claim? {
      RecipientCollects(c, i);
    }
    if op.Withdraw? {
      UnlockedStarted(c, now);
    }
  }

  lemma DepositFits(members: seq<Address>, t: Terms, from: Address)
    requires GoodTerms(members, t, from)
    ensures 0 <= t.deposit < TWO64
  {
    DivFacts(TWO64 - 1, |members|);
    MulMonotone(t.contribution, (TWO64 - 1) / |members|, |members|);
  }

  // ---------------------------------------------------------------- escrows

  lemma {:induction false} PrefixFits(s: seq<int>, k: nat)
    requires NonNeg(s) && k <= |s|
    ensures SumTo(s, k) <= Sum(s)
    decreases |s| - k
  {
    if k < |s| {
      PrefixFits(s, k + 1);
    }
  }

  /** Every amount an escrow can pay out, and every tally it can reach, fits in 64 bits. */
  lemma StepAmounts(e: Escrow)
    requires EscrowInv(e)
    ensures 0 <= e.arbiterBps <= 500 && 0 <= e.balance
    ensures Open(e) ==> 0 <= e.released < |e.milestones| && 0 < e.milestones[e.released] <= e.balance
    ensures e.paidSeller + e.balance < TWO64 && e.paidBuyer + e.balance < TWO64
  {
    OpenHoldsMoney(e);
    if Open(e) {
      SumToMonotone(e.milestones, e.released + 1, |e.milestones|);
    }
  }

  /** After a payment to the seller the rest still fits, and both parties are the same. */
  lemma PayRoom(e: Escrow, to: Address, amt: int, rest: int)
    requires 0 <= amt && 0 <= rest && amt + rest <= e.balance && e.paidSeller + e.balance < TWO64
      && e.paidBuyer + e.balance < TWO64
    ensures var b := Pay(e, to, amt).escrow;
      b.asset == e.asset && b.buyer == e.buyer && rest <= b.balance && b.paidSeller + rest < TWO64
        && b.paidBuyer + rest < TWO64
  {}

  /** The arbiter's fee leaves the parties alone and enough for both payments. */
  lemma ArbiterPaid(e: Escrow, toSeller: int)
    requires EscrowInv(e) && Open(e) && 0 <= toSeller <= e.balance - ArbiterCut(e)
    ensures 0 <= e.arbiterBps <= 500 && 0 <= ArbiterCut(e)
    ensures var rest := e.balance - ArbiterCut(e) - toSeller; var a := PayArbiter(e);
      && a.escrow.asset == e.asset && a.escrow.seller == e.seller && a.escrow.buyer == e.buyer
        && toSeller + rest <= a.escrow.balance
      && a.escrow.paidSeller + a.escrow.balance < TWO64 && a.escrow.paidBuyer + a.escrow.balance < TWO64
  {
    hide EscrowInv, BasisPoints;
    StepAmounts(e);
    BasisPointsBounds(e.balance, e.arbiterBps);
  }

  /** A resolved dispute pays arbiter, then seller, then buyer. */
  lemma ResolveOrder(e: Escrow, toSeller: int, m: Accounts)
    ensures var rest := e.balance - ArbiterCut(e) - toSeller;
      var a := PayArbiter(e); var b := Pay(a.escrow, e.seller, toSeller); var c := Pay(b.escrow, e.buyer, rest);
      && ResolveSplit(e, toSeller).escrow == c.escrow.(status := Resolved)
      && PaidOut(m, e.asset, ResolveSplit(e, toSeller).credits)
        == PaidOut(PaidOut(PaidOut(m, e.asset, a.credits), e.asset, b.credits), e.asset, c.credits)
  {
    hide Pay, PayArbiter, PaidOut, ArbiterCut;
    var a := PayArbiter(e);
    var b := Pay(a.escrow, e.seller, toSeller);
    var c := Pay(b.escrow, e.buyer, e.balance - ArbiterCut(e) - toSeller);
    PaidOutAppend(m, e.asset, a.credits, b.credits);
    PaidOutAppend(m, e.asset, a.credits + b.credits, c.credits);
  }

  // ---------------------------------------------------------------- transactions

  /** The parts a transaction's cost is added up from are all 64-bit amounts. */
  lemma CostFacts(s: State, tx: Tx)
    requires LedgerInv(s) && Shaped(s) && GoodTx(tx)
    ensures 0 <= tx.fee < TWO64
    ensures tx.body.Transfer? || tx.body.Burn? ==> 0 < tx.body.amount
    ensures tx.body.OpenCircle? ==> 0 <= tx.body.terms.deposit
    ensures tx.body.OpenEscrow? ==> 0 <= Sum(tx.body.agreed.milestones) < TWO64 && Fits(tx.body.agreed.milestones)
    ensures tx.body.CircleStep? ==> GoodStep(tx.body.step)
    ensures tx.body.CircleStep? && tx.body.pool in s.pools ==>
      var c := s.pools[tx.body.pool]; var i := Index(c.members, tx.from);
      && Shape(c) && 0 <= c.terms.contribution && 0 <= c.terms.deposit && (i >= 0 ==> 0 <= Need(c, i))
  {
    hide Conserved, Bounded, EscrowsOk, TargetsOk, AccountsOk, CircleInv, Need;
    match tx.body
    case OpenEscrow(agreed) => SumNonNeg(agreed.milestones);
    case CircleStep(id, _) =>
      if id in s.pools {
        assert CircleInv(s.pools[id]);
        StakeFacts(s.pools[id], tx.from);
      }
    case _ =>
  }

  lemma StakeFacts(c: Circle, from: Address)
    requires CircleInv(c)
    ensures Shape(c) && 0 <= c.terms.contribution && 0 <= c.terms.deposit
    ensures var i := Index(c.members, from); i >= 0 ==> 0 <= Need(c, i)
  {
    var i := Index(c.members, from);
    if i >= 0 {
      if c.terms.mode != Goal {
        PaidListAt(c, i);
      }
    }
  }

  /** A balance and a pot add up to a 64-bit amount, because both are part of one supply. */
  lemma AvailableFits(s: State, tx: Tx)
    requires LedgerInv(s) && Shaped(s)
    ensures 0 <= Balance(s.accounts, tx.from, tx.asset) <= Available(s, tx) < TWO64
  {
    hide CircleInv, EscrowsOk, TargetsOk, AccountsOk;
    AccountBounded(s, tx.from, tx.asset);
    if tx.body.CircleStep? && tx.body.pool in s.pools {
      CircleBounded(s, tx.body.pool, tx.from);
    }
  }

  lemma CostNonNeg(s: State, tx: Tx)
    requires LedgerInv(s) && Shaped(s) && GoodTx(tx)
    ensures 0 <= Cost(s, tx)
  {
    CostFacts(s, tx);
    hide LedgerInv, Shape, GoodTerms, GoodEscrowTerms;
  }

  /** The cost of everything but a step of a circle. */
  lemma CostIs(s: State, tx: Tx)
    requires Shaped(s) && 0 <= tx.fee < TWO64 && !tx.body.CircleStep?
    ensures CostIn64(s, tx) ==
      match tx.body
      case Mint(_, _) => 0
      case Transfer(_, amount) => (amount + tx.fee) % TWO64
      case Burn(amount) => (amount + tx.fee) % TWO64
      case OpenCircle(_, terms) => (terms.deposit + tx.fee) % TWO64
      case OpenEscrow(agreed) => (Sum(agreed.milestones) + tx.fee) % TWO64
      case _ => tx.fee
  {
    hide Shaped, Sum;
  }

  /** A cost that fits in 64 bits is added up exactly, and the program's checks are the exact ones. */
  lemma CostFits(s: State, tx: Tx)
    requires LedgerInv(s) && Shaped(s) && GoodTx(tx) && Cost(s, tx) < TWO64
    ensures 0 <= Cost(s, tx) == CostIn64(s, tx) && CheckIn64(s, tx) == Check(s, tx)
  {
    CostNonNeg(s, tx);
    hide LedgerInv, Shaped, GoodTx, Cost, CheckAt;
  }

  /** What the rules of a transaction read is in range. */
  lemma RuleFacts(s: State, tx: Tx)
    requires LedgerInv(s) && Shaped(s) && GoodTx(tx)
    ensures forall a, x :: 0 <= Balance(s.accounts, a, x) < TWO64
    ensures tx.body.Transfer? || tx.body.Mint? || tx.body.Burn? ==> 0 < tx.body.amount < TWO64
    ensures tx.body.CircleStep? ==> GoodStep(tx.body.step)
    ensures tx.body.CircleStep? && tx.body.pool in s.pools ==> Shape(s.pools[tx.body.pool])
    ensures tx.body.EscrowAct? && tx.body.escrow in s.escrows ==> 0 <= s.escrows[tx.body.escrow].arbiterBps <= 500
  {
    hide CircleInv;
    forall a, x ensures 0 <= Balance(s.accounts, a, x) < TWO64 {
      AccountBounded(s, a, x);
    }
  }

  /** What a circle and the accounts hold is one supply, so an allowed step has room for its credits. */
  lemma CircleRoom(s: State, tx: Tx)
    requires LedgerInv(s) && Shaped(s) && GoodTx(tx) && CheckIn64(s, tx) == None && tx.body.CircleStep?
    ensures tx.body.pool in s.pools && tx.asset == s.pools[tx.body.pool].asset
    ensures var c := s.pools[tx.body.pool]; var i := Index(c.members, tx.from);
      && CircleInv(c) && 0 <= i < |c.members| && c.members[i] == tx.from && GoodStep(tx.body.step)
      && StepCheck(c, i, tx.body.step, tx.from, s.now, Balance(s.accounts, tx.from, c.asset)) == None
      && Room(s.accounts, c.asset, Holdings(c))
  {
    hide Shape, CircleInv, EscrowsOk, TargetsOk, AccountsOk, StepCheck, Circles.Held, Need, InCircles, InAccounts,
      InEscrows;
    var c := s.pools[tx.body.pool];
    CircleBounded(s, tx.body.pool, tx.from);
    PlacesBounded(s, c.asset);
  }

  lemma EscrowRoom(s: State, tx: Tx)
    requires LedgerInv(s) && Shaped(s) && GoodTx(tx) && CheckIn64(s, tx) == None && tx.body.EscrowAct?
    ensures tx.body.escrow in s.escrows && tx.asset == s.escrows[tx.body.escrow].asset
    ensures var e := s.escrows[tx.body.escrow];
      && EscrowInv(e) && GoodEscrowStep(tx.body.act) && EscrowCheck(e, tx.from, tx.body.act, s.now) == None
      && Room(s.accounts, e.asset, e.balance)
  {
    hide Shape, CirclesOk, EscrowInv, TargetsOk, AccountsOk, EscrowCheck;
    var e := s.escrows[tx.body.escrow];
    EscrowBounded(s, tx.body.escrow);
    PlacesBounded(s, e.asset);
  }

  lemma EscrowBounded(s: State, id: Hash)
    requires LedgerInv(s) && id in s.escrows
    ensures 0 <= s.escrows[id].balance <= InEscrows(s.escrows, s.escrows[id].asset)
  {
    hide EscrowInv;
    var e := s.escrows[id];
    forall k | k in s.escrows ensures 0 <= EscrowLines(s.escrows, e.asset)[k] {
      OpenHoldsMoney(s.escrows[k]);
    }
    TotalNonNeg(EscrowLines(s.escrows, e.asset));
    assert EscrowLines(s.escrows, e.asset)[id] == e.balance;
  }

  lemma CircleEffectIs(sha: Sha, s: State, tx: Tx)
    requires LedgerInv(s) && Shaped(s) && GoodTx(tx) && CheckIn64(s, tx) == None && tx.body.CircleStep?
      && tx.body.pool in s.pools
    requires var c := s.pools[tx.body.pool]; var i := Index(c.members, tx.from);
      && Shape(c) && 0 <= i && StepCheck(c, i, tx.body.step, tx.from, s.now, Balance(s.accounts, tx.from, c.asset))
        == None
    ensures var c := s.pools[tx.body.pool]; var i := Index(c.members, tx.from);
      var r := StepIn64(sha, c, i, tx.body.step, tx.from, s.now, Balance(s.accounts, tx.from, c.asset));
      EffectIn64(sha, s, tx) == s.(pools := s.pools[tx.body.pool := r.circle],
        accounts := PaidOut(s.accounts, c.asset, r.credits))
  {
    hide LedgerInv, Shape, StepIn64, StepCheck, GoodTx;
  }

  lemma CircleAction(sha: Sha, s: State, tx: Tx)
    requires LedgerInv(s) && Shaped(s) && GoodTx(tx) && CheckIn64(s, tx) == None && tx.body.CircleStep?
    ensures tx.body.pool in s.pools && tx.asset == s.pools[tx.body.pool].asset
    ensures var c := s.pools[tx.body.pool]; var i := Index(c.members, tx.from);
      && Shape(c) && CircleInv(c) && 0 <= i < |c.members| && c.members[i] == tx.from && GoodStep(tx.body.step)
      && StepCheck(c, i, tx.body.step, tx.from, s.now, Balance(s.accounts, tx.from, c.asset)) == None
      && Room(s.accounts, c.asset, Holdings(c))
    ensures var c := s.pools[tx.body.pool]; var i := Index(c.members, tx.from);
      var r := StepIn64(sha, c, i, tx.body.step, tx.from, s.now, Balance(s.accounts, tx.from, c.asset));
      EffectIn64(sha, s, tx) == s.(pools := s.pools[tx.body.pool := r.circle],
        accounts := PaidOut(s.accounts, c.asset, r.credits))
  {
    hide LedgerInv, StepIn64, StepCheck, Stake, Holdings, EffectIn64, Room, GoodStep, PaidOut;
    CircleRoom(s, tx);
    assert Shape(s.pools[tx.body.pool]);
    CircleEffectIs(sha, s, tx);
  }

  lemma EscrowAction(sha: Sha, s: State, tx: Tx)
    requires LedgerInv(s) && Shaped(s) && GoodTx(tx) && CheckIn64(s, tx) == None && tx.body.EscrowAct?
    ensures tx.body.escrow in s.escrows
    ensures var e := s.escrows[tx.body.escrow];
      && EscrowInv(e) && GoodEscrowStep(tx.body.act) && EscrowCheck(e, tx.from, tx.body.act, s.now) == None
      && Room(s.accounts, e.asset, e.balance) && 0 <= e.released < |e.milestones|
    ensures var e := s.escrows[tx.body.escrow]; var r := EscrowEffect(e, tx.body.act, s.now);
      Effect(sha, s, tx) == s.(escrows := s.escrows[tx.body.escrow := r.escrow],
        accounts := PaidOut(s.accounts, e.asset, r.credits))
  {
    hide LedgerInv, EscrowEffect, Shape, Room, GoodEscrowStep, GoodTx;
    EscrowRoom(s, tx);
    StepAmounts(s.escrows[tx.body.escrow]);
  }

  /** A transfer, a mint and a burn keep every amount they touch within 64 bits. */
  lemma UnitsFit(s: State, tx: Tx)
    requires LedgerInv(s) && Shaped(s) && GoodTx(tx) && CheckIn64(s, tx) == None
      && (tx.body.Transfer? || tx.body.Mint? || tx.body.Burn?)
    ensures 0 < tx.body.amount && (tx.asset != ORP ==> tx.asset in s.defs)
    ensures !tx.body.Burn? ==>
      0 <= Balance(s.accounts, tx.body.to, tx.asset)
        && Balance(s.accounts, tx.body.to, tx.asset) + tx.body.amount < TWO64
    ensures tx.body.Mint? ==> 0 <= IssuedOf(s, tx.asset) && IssuedOf(s, tx.asset) + tx.body.amount < TWO64
    ensures tx.body.Burn? ==> tx.body.amount <= IssuedOf(s, tx.asset) < TWO64
  {
    hide Shape, Parts, AccountsOk, Conserved, Bounded, Balance;
    PlacesBounded(s, tx.asset);
    AccountBounded(s, tx.from, tx.asset);
    if !tx.body.Burn? {
      AccountBounded(s, tx.body.to, tx.asset);
    }
  }

  lemma UnitsAction(sha: Sha, s: State, tx: Tx)
    requires LedgerInv(s) && Shaped(s) && GoodTx(tx) && CheckIn64(s, tx) == None
      && (tx.body.Transfer? || tx.body.Mint? || tx.body.Burn?)
    ensures 0 <= tx.body.amount < TWO64
    ensures !tx.body.Burn? ==>
      0 <= Balance(s.accounts, tx.body.to, tx.asset)
        && Balance(s.accounts, tx.body.to, tx.asset) + tx.body.amount < TWO64
    ensures tx.body.Mint? ==> IssuedOf(s, tx.asset) + tx.body.amount < TWO64
    ensures tx.body.Burn? ==> tx.body.amount <= IssuedOf(s, tx.asset)
    ensures Effect(sha, s, tx) ==
      match tx.body
      case Transfer(to, amount) => s.(accounts := CreditTo(s.accounts, to, tx.asset, amount))
      case Mint(to, amount) =>
        s.(accounts := CreditTo(s.accounts, to, tx.asset, amount),
          issued := s.issued[tx.asset := IssuedOf(s, tx.asset) + amount])
      case Burn(amount) => s.(issued := s.issued[tx.asset := IssuedOf(s, tx.asset) - amount])
      case _ => s
  {
    hide LedgerInv, Shape, CreditTo, Balance;
    UnitsFit(s, tx);
  }

  lemma OpenAction(sha: Sha, s: State, tx: Tx)
    requires Shaped(s) && GoodTx(tx) && CheckIn64(s, tx) == None && (tx.body.OpenCircle? || tx.body.OpenEscrow?)
    ensures tx.body.OpenCircle? ==>
      tx.id !in s.pools && GoodTerms(tx.body.members, tx.body.terms, tx.from) && tx.from in tx.body.members
    ensures tx.body.OpenEscrow? ==> tx.id !in s.escrows && GoodEscrowTerms(tx.body.agreed, tx.from)
    ensures Effect(sha, s, tx) ==
      match tx.body
      case OpenCircle(members, terms) =>
        s.(pools := s.pools[tx.id := NewCircle(tx.id, tx.asset, tx.from, members, terms)])
      case OpenEscrow(agreed) => s.(escrows := s.escrows[tx.id := NewEscrow(tx.asset, tx.from, agreed, s.now)])
      case _ => s
  {
    hide Shape, NewCircle, NewEscrow;
  }

  // ---------------------------------------------------------------- recovery

  /** The new account once the old balance and some of the old assets were added. */
  function PartMerged(into: Account, src: Account, done: set<Asset>): Account
    requires done <= src.assets.Keys
  {
    Account(into.balance + src.balance, into.nonce,
            map x | x in into.assets.Keys + done :: (if x in into.assets then into.assets[x] else 0) + if x in done
              then src.assets[x] else 0)
  }

  /** The accounts once the balance and these assets were credited; crediting nothing opens no account. */
  function PartMoved(m: Accounts, old0: Address, new0: Address, done: set<Asset>): Accounts
    requires done <= Get(m, old0).assets.Keys
  {
    var src := Get(m, old0);
    if src.balance > 0 || done != {} then m[new0 := PartMerged(Get(m, new0), src, done)] else m
  }

  lemma MergedNone(into: Account, src: Account)
    ensures PartMerged(into, src, {}) == into.(balance := into.balance + src.balance)
  {
    assert PartMerged(into, src, {}).assets == into.assets;
  }

  lemma MergedNext(into: Account, src: Account, done: set<Asset>, x: Asset)
    requires AccountOk(into) && AccountOk(src) && done <= src.assets.Keys && x in src.assets && x !in done
    ensures Ledger.Held(PartMerged(into, src, done), x) == Ledger.Held(into, x)
    ensures WithBalance(PartMerged(into, src, done), x, Ledger.Held(into, x) + src.assets[x])
      == PartMerged(into, src, done + {x})
  {
    var was := PartMerged(into, src, done);
    assert PartMerged(into, src, done + {x}).assets == was.assets[x := Ledger.Held(into, x) + src.assets[x]];
  }

  lemma MergedAll(into: Account, src: Account)
    requires AccountOk(into) && AccountOk(src)
    ensures PartMerged(into, src, src.assets.Keys) == Merged(into, src)
  {
    var a, b := PartMerged(into, src, src.assets.Keys).assets, Merged(into, src).assets;
    assert a.Keys == b.Keys;
    forall x | x in a ensures a[x] == b[x] {}
    assert a == b;
  }

  /** Each asset of the two accounts together fits in 64 bits. */
  ghost predicate CanMove(m: Accounts, old0: Address, new0: Address) {
    AccountsOk(m) && forall x :: Balance(m, old0, x) + Balance(m, new0, x) < TWO64
  }

  lemma HoldingsFit(m: Accounts, old0: Address, new0: Address)
    requires old0 != new0 && CanMove(m, old0, new0)
    ensures var src := Get(m, old0);
      && 0 <= src.balance < TWO64 && 0 <= Balance(m, new0, ORP) && Balance(m, new0, ORP) + src.balance < TWO64
      && PartMoved(m, old0, new0, {}) ==
           if src.balance > 0 then SetBalance(m, new0, ORP, Balance(m, new0, ORP) + src.balance) else m
  {
    hide PartMerged;
    assert Get(m, old0).balance == Balance(m, old0, ORP);
    BalanceNonNeg(m, new0, ORP);
    BalanceNonNeg(m, old0, ORP);
    MergedNone(Get(m, new0), Get(m, old0));
  }

  lemma NextMoved(m: Accounts, old0: Address, new0: Address, done: set<Asset>, x: Asset)
    requires old0 != new0 && CanMove(m, old0, new0)
    requires done <= Get(m, old0).assets.Keys && x in Get(m, old0).assets && x !in done
    ensures var v := Get(m, old0).assets[x]; var was := PartMoved(m, old0, new0, done);
      && 0 < v && 0 <= Balance(was, new0, x) && Balance(was, new0, x) + v < TWO64
      && SetBalance(was, new0, x, Balance(was, new0, x) + v) == PartMoved(m, old0, new0, done + {x})
  {
    hide PartMerged, WithBalance;
    var src, into := Get(m, old0), Get(m, new0);
    assert AccountOk(src) && AccountOk(into);
    assert src.assets[x] == Balance(m, old0, x);
    BalanceNonNeg(m, new0, x);
    MergedNext(into, src, done, x);
    MergedNone(into, src);
  }

  lemma AllMoved(m: Accounts, old0: Address, new0: Address)
    requires old0 != new0 && CanMove(m, old0, new0)
    ensures var src := Get(m, old0);
      MoveHoldings(m, old0, new0) == PartMoved(m, old0, new0, src.assets.Keys)[old0 := Account(0, src.nonce, map[])]
  {
    hide PartMerged, Merged;
    var src, into := Get(m, old0), Get(m, new0);
    assert AccountOk(src) && AccountOk(into);
    MergedAll(into, src);
    assert src.assets.Keys == {} <==> src.assets == map[];
  }

  /** Every record renamed but those still to do. */
  function PoolsRenamed(was: map<Hash, Circle>, todo: set<Hash>, old0: Address, new0: Address): map<Hash, Circle> {
    map id | id in was :: if id in todo then was[id] else RenameCircle(was[id], old0, new0)
  }

  lemma PoolsUntouched(was: map<Hash, Circle>, old0: Address, new0: Address)
    ensures PoolsRenamed(was, was.Keys, old0, new0) == was
  {}

  lemma PoolsNext(was: map<Hash, Circle>, todo: set<Hash>, id: Hash, old0: Address, new0: Address)
    requires id in todo && todo <= was.Keys
    ensures var now := PoolsRenamed(was, todo, old0, new0);
      id in now && now[id := RenameCircle(now[id], old0, new0)] == PoolsRenamed(was, todo - {id}, old0, new0)
  {
    hide RenameCircle;
  }

  /** Every record renamed but those still to do. */
  function EscrowsRenamed(was: map<Hash, Escrow>, todo: set<Hash>, old0: Address, new0: Address): map<Hash, Escrow> {
    map id | id in was :: if id in todo then was[id] else RenameEscrow(was[id], old0, new0)
  }

  lemma EscrowsUntouched(was: map<Hash, Escrow>, old0: Address, new0: Address)
    ensures EscrowsRenamed(was, was.Keys, old0, new0) == was
  {}

  lemma EscrowsNext(was: map<Hash, Escrow>, todo: set<Hash>, id: Hash, old0: Address, new0: Address)
    requires id in todo && todo <= was.Keys
    ensures var now := EscrowsRenamed(was, todo, old0, new0);
      id in now && now[id := RenameEscrow(now[id], old0, new0)] == EscrowsRenamed(was, todo - {id}, old0, new0)
  {
    hide RenameEscrow;
  }

  lemma MoveAccountIs(s: State, old0: Address, new0: Address)
    requires old0 in s.guards
    ensures MoveAccount(s, old0, new0) == s.(accounts := MoveHoldings(s.accounts, old0, new0),
      pools := PoolsRenamed(s.pools, {}, old0, new0), escrows := EscrowsRenamed(s.escrows, {}, old0, new0),
      guards := s.guards[new0 := s.guards[old0].(pending := None)] - {old0}, recoveredTo := s.recoveredTo[old0 := new0])
  {
    hide RenameCircle, RenameEscrow, MoveHoldings;
  }

  /** A setup after a start, an approval or a cancellation. */
  function SetupAfter(g: Guardianship, op: GuardOp, from: Address, now: int): Guardianship
    requires op.Approve? ==> g.pending.Some?
  {
    match op
    case StartRecovery(_, newOwner) => Started(g, from, newOwner, now)
    case Approve(_, _) => Approved(g, from, now)
    case CancelRecovery(_) => g.(pending := None)
    case _ => g
  }

  lemma SetupAction(s: State, from: Address, op: GuardOp)
    requires GuardCheck(s, from, op) == None
    ensures !op.SetGuards? ==> op.account in s.guards && (!op.StartRecovery? ==> s.guards[op.account].pending.Some?)
    ensures GuardEffect(s, from, op) ==
      match op
      case SetGuards(gs, threshold, delay) => s.(guards := s.guards[from := Guardianship(gs, threshold, delay, None)])
      case Finish(account) => MoveAccount(s, account, s.guards[account].pending.value.newOwner)
      case _ => s.(guards := s.guards[op.account := SetupAfter(s.guards[op.account], op, from, s.now)])
  {
    hide MoveAccount, Started, Approved;
  }

  // ---------------------------------------------------------------- settling

  /** The debit, the burned fee and the issuer's fee stay within 64 bits. */
  ghost predicate SettleFits(s: State, tx: Tx, cost: int)
    requires tx.asset != ORP ==> tx.asset in s.defs
  {
    && 0 <= Balance(s.accounts, tx.from, tx.asset) - cost < TWO64
    && (tx.asset == ORP ==> tx.fee <= s.supply && s.burned + tx.fee < TWO64)
    && (tx.asset != ORP ==>
          var issuer := s.defs[tx.asset].issuer; var debited := Debited(s, tx, cost);
          0 <= Balance(debited, issuer, tx.asset) && Balance(debited, issuer, tx.asset) + tx.fee < TWO64)
  }

  lemma DebitedIs(s: State, tx: Tx, cost: int)
    ensures var v := (Balance(s.accounts, tx.from, tx.asset) - cost) % TWO64;
      var paid := SetBalance(s.accounts, tx.from, tx.asset, v);
      tx.from in paid && DebitedIn64(s, tx, cost) == paid[tx.from := paid[tx.from].(nonce := paid[tx.from].nonce + 1)]
  {}

  /** Only a step of a circle has an effect that may wrap around. */
  lemma PlainEffect(sha: Sha, s: State, tx: Tx)
    requires Shaped(s) && GoodTx(tx) && Allowed(s, tx)
    ensures !tx.body.CircleStep? ==> EffectIn64(sha, s, tx) == Effect(sha, s, tx)
  {
    hide Shaped, GoodTx, Allowed, Effect;
  }

  lemma AppliedIs(sha: Sha, s: State, tx: Tx)
    requires LedgerInv(s) && Shaped(s) && GoodTx(tx) && CheckIn64(s, tx) == None
    ensures 0 <= tx.fee < TWO64 && (tx.asset != ORP ==> tx.asset in s.defs)
    ensures ApplyIn64(sha, s, tx) == Ok(SettleIn64(EffectIn64(sha, s, tx), tx, CostIn64(s, tx)))
  {
    hide LedgerInv, Shaped, CheckAt, CostIn64, EffectIn64, SettleIn64, Rule;
  }

  lemma GuardAction(sha: Sha, s: State, tx: Tx)
    requires LedgerInv(s) && Shaped(s) && GoodTx(tx) && CheckIn64(s, tx) == None && tx.body.Guard?
    ensures GuardCheck(s, tx.from, tx.body.op) == None && Effect(sha, s, tx) == GuardEffect(s, tx.from, tx.body.op)
    ensures tx.body.op.Finish? ==>
      var account := tx.body.op.account; var n := s.guards[account].pending.value.newOwner;
      account != n && CanMove(s.accounts, account, n)
  {
    hide Conserved, Bounded, AccountsOk, Shaped, GoodTx, GuardEffect, Balance, CirclesOk, EscrowsOk;
    GuardAllowed(s, tx);
    if tx.body.op.Finish? {
      var account := tx.body.op.account;
      var n := s.guards[account].pending.value.newOwner;
      assert TargetOk(account, s.guards[account]);
      PairsFit(s, account, n);
    }
  }

  lemma PairsFit(s: State, a: Address, b: Address)
    requires LedgerInv(s) && a != b
    ensures CanMove(s.accounts, a, b)
  {
    hide Parts, Conserved, Balance;
    forall x ensures Balance(s.accounts, a, x) + Balance(s.accounts, b, x) < TWO64 {
      PairBounded(s, a, b, x);
    }
  }

  /** After the effect of an accepted, Covered transaction the debit, the nonce and the fee settle within 64 bits. */
  lemma ApplyFits(sha: Sha, s: State, tx: Tx)
    requires LedgerInv(s) && Shaped(s) && GoodTx(tx) && Check(s, tx) == None && Covered(sha, s, tx)
      && s.supply + s.burned < TWO64
    ensures var mid := Effect(sha, s, tx); var t := Settle(mid, tx, Cost(s, tx));
      && 0 <= tx.fee && (tx.asset != ORP ==> tx.asset in s.defs) && SettleFits(mid, tx, Cost(s, tx))
      && Apply(sha, s, tx) == Ok(t) && LedgerInv(t) && t.supply + t.burned == s.supply + s.burned
  {
    hide Parts, AccountsOk, Conserved, Bounded, Shaped, GoodTx, Check, Covered, Effect, Settle, SettleFits, Cost;
    ApplyKeeps(sha, s, tx);
    InvParts(s);
    ApplyConserves(sha, s, tx);
    FeeNonNeg(tx);
    CheckedAsset(s, tx);
    DebitCovered(sha, s, tx);
    EffectKept(sha, s, tx);
    MidFacts(sha, s, tx);
    FinalFits(Effect(sha, s, tx), tx, Cost(s, tx));
  }

  /** The exact rules accept the transaction, and its debit is covered. */
  predicate Payable(sha: Sha, s: State, tx: Tx)
    requires Shaped(s)
  {
    Check(s, tx) == None && Covered(sha, s, tx)
  }

  lemma GainSame(sha: Sha, c: Circle, i: nat, op: Step, from: Address, now: int, bal: int)
    requires Shape(c) && i < |c.members| && StepCheck(c, i, op, from, now, bal) == None
    requires op.Autopay? ==> 0 <= At(c.prepaid, i) + op.amount < TWO64
    ensures StepIn64(sha, c, i, op, from, now, bal) == StepEffect(sha, c, i, op, from, now, bal)
  {
    hide Shape, StepCheck;
  }

  /** An autopay its sender can pay for leaves the reserve within 64 bits: both are part of one supply. */
  lemma ReserveRoom(s: State, tx: Tx)
    requires LedgerInv(s) && Shaped(s) && GoodTx(tx) && Check(s, tx) == None && tx.body.CircleStep?
    ensures tx.body.pool in s.pools
    ensures var c := s.pools[tx.body.pool]; var i := Index(c.members, tx.from);
      && Shape(c) && 0 <= i < |c.members| && tx.asset == c.asset
      && StepCheck(c, i, tx.body.step, tx.from, s.now, Balance(s.accounts, tx.from, c.asset)) == None
      && (tx.body.step.Autopay? ==> 0 <= At(c.prepaid, i) + tx.body.step.amount < TWO64)
  {
    hide Shape, CircleInv, EscrowsOk, TargetsOk, AccountsOk, StepCheck, Holdings, Circles.Held, Need, InCircles,
      InAccounts, InEscrows;
    var c := s.pools[tx.body.pool];
    CircleBounded(s, tx.body.pool, tx.from);
    AccountBounded(s, tx.from, c.asset);
    ReserveHeld(c, Index(c.members, tx.from));
  }

  lemma ReserveHeld(c: Circle, i: nat)
    requires CircleInv(c) && i < |c.members|
    ensures 0 <= At(c.prepaid, i) <= Holdings(c)
  {
    ReservesHeld(c);
    HoldingsNonNeg(c);
  }

  /** The effect of a transaction the exact rules accept does not wrap. */
  lemma EffectSame(sha: Sha, s: State, tx: Tx)
    requires LedgerInv(s) && Shaped(s) && GoodTx(tx) && Check(s, tx) == None
    ensures EffectIn64(sha, s, tx) == Effect(sha, s, tx)
  {
    hide LedgerInv, Shape, Shaped, GoodTx, Check, StepIn64, StepEffect, StepCheck, Balance;
    if tx.body.CircleStep? {
      ReserveRoom(s, tx);
      var c := s.pools[tx.body.pool];
      GainSame(sha, c, Index(c.members, tx.from), tx.body.step, tx.from, s.now, Balance(s.accounts, tx.from, c.asset));
    } else {
      PlainEffect(sha, s, tx);
    }
  }

  lemma SettleSame(s: State, tx: Tx, cost: int)
    requires (tx.asset != ORP ==> tx.asset in s.defs) && 0 <= tx.fee && SettleFits(s, tx, cost)
    requires tx.asset == ORP ==> 0 <= s.supply < TWO64 && 0 <= s.burned
    ensures SettleIn64(s, tx, cost) == Ledger.Settle(s, tx, cost)
  {
    hide Balance, SetBalance;
    assert DebitedIn64(s, tx, cost) == Debited(s, tx, cost);
  }

  /** A transaction that is Payable makes the same state in 64 bits as in exact numbers, and a sound one. */
  lemma PayableFits(sha: Sha, s: State, tx: Tx)
    requires LedgerInv(s) && Shaped(s) && GoodTx(tx) && 0 <= s.burned && s.supply + s.burned < TWO64
      && Payable(sha, s, tx)
    ensures CheckIn64(s, tx) == None && Apply(sha, s, tx).Ok? && ApplyIn64(sha, s, tx) == Apply(sha, s, tx)
    ensures var t := Apply(sha, s, tx).state; LedgerInv(t) && t.supply + t.burned == s.supply + s.burned
  {
    hide LedgerInv, Shaped, GoodTx, Cost, CheckIn64, Check, CostIn64, EffectIn64, Effect, SettleFits, Covered,
      SettleIn64, Settle;
    ExactAccepted(s, tx);
    CostFits(s, tx);
    ApplyFits(sha, s, tx);
    EffectSame(sha, s, tx);
    PlacesBounded(s, ORP);
    SettleSame(Effect(sha, s, tx), tx, Cost(s, tx));
  }

  /** For a Payable transaction t is the state the exact rules say, sound and with the same supply and burned total. */
  ghost predicate AgreesWhenPayable(sha: Sha, s: State, tx: Tx, t: State)
    requires Shaped(s) && GoodTx(tx)
  {
    s.supply + s.burned < TWO64 && Payable(sha, s, tx) ==>
      Apply(sha, s, tx) == Ok(t) && LedgerInv(t) && t.supply + t.burned == s.supply + s.burned
  }

  lemma PayableApply(sha: Sha, s: State, tx: Tx, t: State)
    requires LedgerInv(s) && Shaped(s) && GoodTx(tx) && 0 <= s.burned
    requires CheckIn64(s, tx) == None ==> ApplyIn64(sha, s, tx) == Ok(t)
    ensures AgreesWhenPayable(sha, s, tx, t)
  {
    hide LedgerInv, Shaped, GoodTx, CheckIn64, Payable, ApplyIn64, Apply;
    if s.supply + s.burned < TWO64 && Payable(sha, s, tx) {
      PayableFits(sha, s, tx);
    }
  }

  /** What the exact checks accept costs less than 2^64. */
  lemma ExactAccepted(s: State, tx: Tx)
    requires LedgerInv(s) && Shaped(s) && Check(s, tx) == None
    ensures Cost(s, tx) < TWO64
  {
    AvailableFits(s, tx);
    hide LedgerInv, Shaped, Cost, Available, Rule;
  }

  lemma MidFacts(sha: Sha, s: State, tx: Tx)
    requires LedgerInv(s) && Shaped(s) && GoodTx(tx) && Check(s, tx) == None && Kept(Effect(sha, s, tx))
      && Covered(sha, s, tx)
    ensures AccountsOk(Effect(sha, s, tx).accounts) && Apply(sha, s, tx)
      == Ok(Settle(Effect(sha, s, tx), tx, Cost(s, tx)))
  {
    hide Parts, AccountsOk, Conserved, Bounded, Shaped, GoodTx, Check, Covered, Effect, Settle, Cost;
  }

  lemma FinalFits(mid: State, tx: Tx, cost: int)
    requires (tx.asset != ORP ==> tx.asset in mid.defs) && 0 <= tx.fee && AccountsOk(mid.accounts)
    requires LedgerInv(Settle(mid, tx, cost)) && cost <= Balance(mid.accounts, tx.from, tx.asset)
    requires mid.supply + mid.burned < TWO64
    ensures SettleFits(mid, tx, cost)
  {
    hide Parts, AccountsOk, Conserved, Bounded, Balance, SetBalance, Debited;
    var t, debited := Settle(mid, tx, cost), Debited(mid, tx, cost);
    SettledAccounts(mid, tx, cost);
    DebitedOk(mid, tx, cost);
    DebitedBalance(mid, tx, cost);
    AccountBounded(t, tx.from, tx.asset);
    PlacesBounded(t, ORP);
    BalanceNonNeg(debited, tx.from, tx.asset);
    if tx.asset != ORP {
      var issuer := mid.defs[tx.asset].issuer;
      BalanceNonNeg(debited, issuer, tx.asset);
      AccountBounded(t, issuer, tx.asset);
      CreditRead(debited, issuer, tx.asset, tx.fee, issuer, tx.asset);
      CreditRead(debited, issuer, tx.asset, tx.fee, tx.from, tx.asset);
    }
  }

  lemma DebitedBalance(s: State, tx: Tx, cost: int)
    ensures Balance(Debited(s, tx, cost), tx.from, tx.asset) == Balance(s.accounts, tx.from, tx.asset) - cost
  {
    SetRead(s.accounts, tx.from, tx.asset, Balance(s.accounts, tx.from, tx.asset) - cost, tx.from, tx.asset);
  }

  lemma SettledAccounts(s: State, tx: Tx, cost: int)
    requires tx.asset != ORP ==> tx.asset in s.defs
    ensures Settle(s, tx, cost).accounts ==
      if tx.fee > 0 && tx.asset != ORP
      then CreditTo(Debited(s, tx, cost), s.defs[tx.asset].issuer, tx.asset, tx.fee)
      else Debited(s, tx, cost)
    ensures tx.asset == ORP && tx.fee > 0 ==>
      Settle(s, tx, cost).supply == s.supply - tx.fee && Settle(s, tx, cost).burned == s.burned + tx.fee
    ensures tx.asset != ORP || tx.fee <= 0 ==>
      Settle(s, tx, cost).supply == s.supply && Settle(s, tx, cost).burned == s.burned
  {}

  // ---------------------------------------------------------------- genesis

  function EmptyState(minFee: int): State { State(map[], map[], map[], map[], map[], 0, 0, minFee, map[], map[], 0) }

  predicate CanEndow(s: State, a: Address, amt: int) {
    !Wraps(Get(s.accounts, a).balance, amt) && !Wraps(s.supply, amt)
  }

  function Endowed(s: State, a: Address, amt: int): State {
    var acc := Get(s.accounts, a);
    s.(accounts := s.accounts[a := acc.(balance := acc.balance + amt)], supply := s.supply + amt)
  }

  // ---------------------------------------------------------------- missed payments, in two parts

  function Noted(c: Circle, j: nat): Circle
    requires c.defaults == [] || j < |c.defaults|
  {
    if c.defaults != [] then c.(defaults := c.defaults[j := c.defaults[j] + 1]) else c
  }

  function Drawn(c: Circle, j: nat, missing: int): Circle
    requires c.deposits == [] || j < |c.deposits|
  {
    if c.deposits != [] && c.deposits[j] >= missing then
      c.(deposits := c.deposits[j := c.deposits[j] - missing], balance := c.balance + missing)
    else if c.insurance >= missing then c.(insurance := c.insurance - missing, balance := c.balance + missing)
    else c
  }

  lemma CoverParts(c: Circle, j: nat)
    requires Shape(c) && c.terms.mode != Goal && j < |c.members|
    ensures j < |c.paid| && (c.defaults == [] || j < |c.defaults|) && (c.deposits == [] || j < |c.deposits|)
    ensures Noted(c, j).deposits == c.deposits
    ensures CoverStep(c, j) == if c.paid[j] then c else Drawn(Noted(c, j), j, Need(c, j))
  {
    hide Need;
  }

  lemma CoverStart(c: Circle)
    requires CircleInv(c) && c.terms.mode != Goal
    ensures Shape(c) && CoverTo(c, 0) == c
  {}
}
