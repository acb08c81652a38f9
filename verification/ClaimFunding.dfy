/**
  What a claim brings its sender, in closed form, and hence when a claim can pay its own fee out of the pot.
 */
module ClaimFunding {
  import opened Arithmetic
  import opened Core
  import opened Sequences
  import opened Circles
  import opened CircleBooks
  import opened CircleSteps
  import opened Escrows
  import opened Ledger
  import opened Conservation
  import opened LedgerSafety

  function ReceivedAll(cs: seq<Credit>, a: Address): int { Received(cs, a, |cs|) }

  lemma {:induction false} ReceivedPrefix(a: seq<Credit>, b: seq<Credit>, x: Address, k: nat)
    requires k <= |a|
    ensures Received(a + b, x, k) == Received(a, x, k)
  {
    if k > 0 {
      ReceivedPrefix(a, b, x, k - 1);
    }
  }

  lemma {:induction false} ReceivedSuffix(a: seq<Credit>, b: seq<Credit>, x: Address, k: nat)
    requires k <= |b|
    ensures Received(a + b, x, |a| + k) == ReceivedAll(a, x) + Received(b, x, k)
  {
    if k == 0 {
      ReceivedPrefix(a, b, x, |a|);
    } else {
      ReceivedSuffix(a, b, x, k - 1);
    }
  }

  lemma ReceivedAppend(a: seq<Credit>, b: seq<Credit>, x: Address)
    ensures ReceivedAll(a + b, x) == ReceivedAll(a, x) + ReceivedAll(b, x)
  {
    ReceivedSuffix(a, b, x, |b|);
  }

  lemma ReceivedOne(to: Address, v: int, x: Address)
    ensures ReceivedAll([Credit(to, v)], x) == if to == x then v else 0
  {
    assert Received([Credit(to, v)], x, 0) == 0;
  }

  lemma ReceivedRefund(to: Address, v: int, x: Address)
    requires 0 <= v
    ensures ReceivedAll(Circles.Refund(to, v), x) == if to == x then v else 0
  {
    ReceivedOne(to, v, x);
  }

  lemma {:induction false} SharesReceived(members: seq<Address>, i: nat, share: int, k: nat)
    requires Distinct(members) && i < |members| && k <= |members|
    ensures ReceivedAll(SharesTo(members, i, share, k), members[i]) == 0
  {
    if k > 0 {
      SharesReceived(members, i, share, k - 1);
      var last := if k - 1 != i then [Credit(members[k - 1], share)] else [];
      ReceivedAppend(SharesTo(members, i, share, k - 1), last, members[i]);
      ReceivedOne(members[k - 1], share, members[i]);
    }
  }

  lemma PotReceived(k: Circle, i: nat)
    requires Shape(k) && i < |k.members| && Distinct(k.members)
    ensures ReceivedAll(PotCredits(k, i), k.members[i]) == Winnings(k, i)
  {
    hide Winnings, DiscountShare;
    var pot := k.balance - BasisPoints(k.balance, k.terms.insuranceBps);
    var shares := if Discounted(k, i) then SharesTo(k.members, i, DiscountShare(k, i, pot), |k.members|) else [];
    SharesReceived(k.members, i, DiscountShare(k, i, pot), |k.members|);
    ReceivedAppend(shares, [Credit(k.members[i], Winnings(k, i))], k.members[i]);
    ReceivedOne(k.members[i], Winnings(k, i), k.members[i]);
  }

  lemma {:induction false} ReturnsReceived(c: Circle, i: nat, k: nat)
    requires Shape(c) && Distinct(c.members) && i < |c.members| && k <= |c.members| && NonNeg(c.prepaid)
      && NonNeg(c.deposits)
    ensures ReceivedAll(ReturnsTo(c, k), c.members[i]) == if i < k then At(c.prepaid, i) + At(c.deposits, i) else 0
  {
    hide Shape;
    if k > 0 {
      assert Shape(c);
      ReturnsReceived(c, i, k - 1);
      LinesAt(c, k - 1);
      var m := c.members[k - 1];
      ReceivedRefund(m, At(c.prepaid, k - 1), c.members[i]);
      ReceivedRefund(m, At(c.deposits, k - 1), c.members[i]);
      ReceivedAppend(ReturnsTo(c, k - 1), Circles.Refund(m, At(c.prepaid, k - 1)), c.members[i]);
      ReceivedAppend(ReturnsTo(c, k - 1) + Circles.Refund(m, At(c.prepaid, k - 1)),
        Circles.Refund(m, At(c.deposits, k - 1)), c.members[i]);
    }
  }

  lemma LinesAt(c: Circle, k: nat)
    requires Shape(c) && k < |c.members| && NonNeg(c.prepaid) && NonNeg(c.deposits)
    ensures (c.prepaid == [] || k < |c.prepaid|) && (c.deposits == [] || k < |c.deposits|)
    ensures 0 <= At(c.prepaid, k) && 0 <= At(c.deposits, k)
  {}

  lemma {:induction false} InsuranceReceived(members: seq<Address>, total: int, i: nat, k: nat)
    requires Distinct(members) && i < |members| && k <= |members|
    ensures ReceivedAll(InsuranceTo(members, total, k), members[i]) == if i < k
      then InsurancePart(total, |members|, i) else 0
  {
    hide InsurancePart;
    if k > 0 {
      InsuranceReceived(members, total, i, k - 1);
      var part := InsurancePart(total, |members|, k - 1);
      ReceivedAppend(InsuranceTo(members, total, k - 1), [Credit(members[k - 1], part)], members[i]);
      ReceivedOne(members[k - 1], part, members[i]);
    }
  }

  /** What closing a circle returns to member i. */
  function CloseReceipt(c: Circle, i: nat): int
    requires Shape(c) && i < |c.members|
  {
    At(c.prepaid, i) + At(c.deposits, i) + if c.insurance > 0 then InsurancePart(c.insurance, |c.members|, i) else 0
  }

  lemma CloseReceived(c: Circle, i: nat)
    requires Shape(c) && Distinct(c.members) && i < |c.members| && NonNeg(c.prepaid) && NonNeg(c.deposits)
    ensures ReceivedAll(Close(c).credits, c.members[i]) == CloseReceipt(c, i)
  {
    hide InsurancePart;
    var n := |c.members|;
    var insured := if c.insurance > 0 then InsuranceTo(c.members, c.insurance, n) else [];
    ReturnsReceived(c, i, n);
    InsuranceReceived(c.members, c.insurance, i, n);
    ReceivedAppend(ReturnsTo(c, n), insured, c.members[i]);
  }

  /** The winnings, and in the last round also everything still held for the member. */
  function ClaimReceipt(c: Circle, i: nat): int
    requires Shape(c) && c.terms.mode != Goal && i < |c.members|
  {
    var k := CoverTo(c, |c.members|);
    var next := NextRound(k, i);
    Winnings(k, i) + if next.round < |c.members| then 0 else CloseReceipt(next, i)
  }

  /** A claim credits its sender with exactly the claim receipt. */
  lemma ClaimReceived(c: Circle, i: nat)
    requires CircleInv(c) && c.terms.mode != Goal && c.status == Active && i < |c.members|
    requires if c.terms.mode == Bidding then !c.claimed[i] else i == c.round
    ensures ReceivedAll(Payout(c, i).credits, c.members[i]) == ClaimReceipt(c, i)
  {
    hide Winnings, PotCredits, Amounts, Books, Seats, Phase, Pledges, CloseReceipt, RunAutopay, Close;
    NextRoundKeeps(c, i);
    var k := CoverTo(c, |c.members|);
    var next := NextRound(k, i);
    PotReceived(k, i);
    if next.round >= |c.members| {
      NextAmounts(next);
      CloseReceived(next, i);
      ReceivedAppend(PotCredits(k, i), Close(next).credits, c.members[i]);
    }
  }

  lemma NextAmounts(c: Circle)
    requires Amounts(c)
    ensures NonNeg(c.prepaid) && NonNeg(c.deposits)
  {}

  lemma CloseReceiptNonNeg(c: Circle, i: nat)
    requires Shape(c) && i < |c.members| && NonNeg(c.prepaid) && NonNeg(c.deposits)
    ensures 0 <= CloseReceipt(c, i)
  {
    if c.insurance > 0 {
      PartBounds(c.insurance, |c.members|);
    }
  }

  lemma NextShape(k: Circle, i: nat)
    requires Shape(k) && k.terms.mode != Goal && i < |k.members|
    ensures Shape(NextRound(k, i)) && |NextRound(k, i).members| == |k.members|
  {
    hide Shape, Winnings;
  }

  lemma ReceiptCoversWinnings(c: Circle, i: nat)
    requires Shape(c) && c.terms.mode != Goal && i < |c.members| && Amounts(NextRound(CoverTo(c, |c.members|), i))
    ensures ClaimReceipt(c, i) >= Winnings(CoverTo(c, |c.members|), i)
  {
    hide Winnings, CloseReceipt, CoverTo, Amounts, NextRound, Shape;
    var k := CoverTo(c, |c.members|);
    NextShape(k, i);
    NextAmounts(NextRound(k, i));
    CloseReceiptNonNeg(NextRound(k, i), i);
  }

  lemma PlainWinnings(c: Circle, k: Circle, i: nat)
    requires Shape(c) && Shape(k) && i < |c.members| && CoveredFrom(c, k) && c.terms.insuranceBps == 0
      && !Discounted(c, i)
    ensures Winnings(k, i) == k.balance && c.balance <= k.balance
  {}

  /** Without an insurance cut and without a bid of their own, a claimer receives at least what was in the pot. */
  lemma PlainClaimReceipt(c: Circle, i: nat)
    requires CircleInv(c) && c.terms.mode != Goal && c.status == Active && i < |c.members|
    requires if c.terms.mode == Bidding then !c.claimed[i] else i == c.round
    requires c.terms.insuranceBps == 0 && !Discounted(c, i)
    ensures ClaimReceipt(c, i) >= c.balance
  {
    hide Winnings, Amounts, Books, Seats, Phase, Pledges, Discounted, CoveredFrom, NextRound, CoverTo, ClaimReceipt,
      PotCredits;
    NextRoundKeeps(c, i);
    PlainWinnings(c, CoverTo(c, |c.members|), i);
    ReceiptCoversWinnings(c, i);
  }

  /**
    The fee of a claim is covered exactly when balance and claim receipt together reach it; a plain claim that passes
    the funds check, which counts the pot, always is.
   */
  lemma ClaimCovered(sha: Sha, s: State, tx: Tx)
    requires LedgerInv(s) && Shaped(s) && GoodTx(tx) && Check(s, tx) == None && tx.body.CircleStep?
      && tx.body.step.Claim?
    ensures var c := s.pools[tx.body.pool]; var i := Index(c.members, tx.from);
      && (Covered(sha, s, tx) <==> Balance(s.accounts, tx.from, tx.asset) + ClaimReceipt(c, i) >= tx.fee)
      && (c.terms.insuranceBps == 0 && !Discounted(c, i) ==> Covered(sha, s, tx))
  {
    hide Amounts, Books, Seats, Phase, Pledges, EscrowInv, TargetOk, AccountsOk, Conserved, Bounded, Payout,
      ClaimReceipt, Recipient, Balance;
    var c := s.pools[tx.body.pool];
    var i := Index(c.members, tx.from);
    RecipientCollects(c, i);
    ClaimReceived(c, i);
    if c.terms.insuranceBps == 0 && !Discounted(c, i) {
      PlainClaimReceipt(c, i);
    }
  }
}
