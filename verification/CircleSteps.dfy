/**
  Theorems about whole circle steps and runs: every allowed step keeps the books and conserves money,
  who collects is well defined, and a scheduled circle is always driven to its end.
 */
module CircleSteps {
  import opened Core
  import opened Sequences
  import opened Circles
  import opened CircleBooks

  // ---------------------------------------------------------------- who collects

  /**
    r is the one who collects: the fixed turn, or the earliest of the highest positive bids, or with no bids the first
    who has not collected.
   */
  ghost predicate Collects(c: Circle, r: int)
    requires Shape(c)
  {
    && 0 <= r < |c.members| && !c.claimed[r]
    && if c.terms.mode != Bidding then r == c.round
       else if exists k :: 0 <= k < |c.members| && !c.claimed[k] && c.bids[k] > 0 then
         c.bids[r] > 0 && forall k :: 0 <= k < |c.members| && !c.claimed[k] ==>
           c.bids[k] < c.bids[r] || (c.bids[k] == c.bids[r] && r <= k)
       else forall k :: 0 <= k < r ==> c.claimed[k]
  }

  /** What the scan knows after looking at the first j members. */
  ghost predicate Leading(c: Circle, j: nat, best: int, first: int)
    requires Shape(c) && c.terms.mode == Bidding && j <= |c.members|
  {
    && -1 <= best < j && -1 <= first < j
    && (if first >= 0 then !c.claimed[first] && forall k :: 0 <= k < first ==> c.claimed[k]
        else forall k :: 0 <= k < j ==> c.claimed[k])
    && (if best >= 0 then
          !c.claimed[best] && c.bids[best] > 0
          && forall k :: 0 <= k < j && !c.claimed[k] ==>
            c.bids[k] < c.bids[best] || (c.bids[k] == c.bids[best] && best <= k)
        else forall k :: 0 <= k < j && !c.claimed[k] ==> c.bids[k] <= 0)
  }

  lemma LeadNext(c: Circle, j: nat, best: int, first: int)
    requires Shape(c) && c.terms.mode == Bidding && j < |c.members| && Leading(c, j, best, first)
    ensures c.claimed[j] ==> Leading(c, j + 1, best, first)
    ensures !c.claimed[j] ==>
      Leading(c, j + 1, if c.bids[j] > 0 && (best < 0 || c.bids[j] > c.bids[best]) then j else best,
        if first < 0 then j else first)
  {}

  lemma {:induction false} ScanLeads(c: Circle, j: nat, best: int, first: int) returns (b: int, f: int)
    requires Shape(c) && c.terms.mode == Bidding && j <= |c.members| && Leading(c, j, best, first)
    ensures Leading(c, |c.members|, b, f) && Scan(c, j, best, first) == if b >= 0 then b else f
    decreases |c.members| - j
  {
    assert best < |c.members| == |c.claimed| == |c.bids|;
    hide Leading, Shape;
    if j == |c.members| {
      b, f := best, first;
      return;
    }
    LeadNext(c, j, best, first);
    if c.claimed[j] {
      b, f := ScanLeads(c, j + 1, best, first);
    } else {
      b, f := ScanLeads(c, j + 1,
        if c.bids[j] > 0 && (best < 0 || c.bids[j] > c.bids[best]) then j else best,
        if first < 0 then j else first);
    }
  }

  /** Recipient finds the one member who collects, and there is exactly one. */
  lemma RecipientCollects(c: Circle, r: int)
    requires CircleInv(c) && c.terms.mode != Goal && c.status == Active
    ensures Collects(c, r) <==> r == Recipient(c)
  {
    if c.terms.mode == Bidding {
      CountBounds(c.claimed);
      var b, f := ScanLeads(c, 0, -1, -1);
      assert f >= 0;
    }
  }

  // ---------------------------------------------------------------- one step

  lemma RunAutopayTerms(c: Circle)
    requires Shape(c) && c.terms.mode != Goal && RoundBooks(c) && NonNeg(c.prepaid)
    ensures SameTerms(c, RunAutopay(c)) && RunAutopay(c).startedAt == c.startedAt
  {
    RunAutopayBooks(c);
  }

  lemma StartTerms(sha: Sha, c: Circle, now: int)
    requires CircleInv(c) && c.status == Forming
    ensures SameTerms(c, Start(sha, c, now))
  {
    ActivateKeeps(c, now);
    var a := c.(status := Active, startedAt := now);
    if a.terms.mode == Lottery {
      DrawKeeps(sha, a);
      RunAutopayTerms(DrawOrder(sha, a));
    } else if a.terms.mode != Goal {
      RunAutopayTerms(a);
    }
  }

  lemma PayoutTerms(c: Circle, i: nat)
    requires CircleInv(c) && c.terms.mode != Goal && c.status == Active && i < |c.members|
    requires if c.terms.mode == Bidding then !c.claimed[i] else i == c.round
    ensures SameTerms(c, Payout(c, i).circle) && Payout(c, i).circle.startedAt == c.startedAt
  {
    hide Amounts, Books, Seats, Phase, Pledges, CoveredFrom, PotCredits, RunAutopay, Moved, RoundBooks, Holdings;
    NextRoundKeeps(c, i);
    NextRoundTerms(c, i);
    NextReserves(NextRound(CoverTo(c, |c.members|), i));
    RunAutopayTerms(NextRound(CoverTo(c, |c.members|), i));
  }

  lemma NextReserves(c: Circle)
    requires Amounts(c)
    ensures NonNeg(c.prepaid)
  {}

  lemma NextRoundTerms(c: Circle, i: nat)
    requires Shape(c) && c.terms.mode != Goal && i < |c.members| && CoveredFrom(c, CoverTo(c, |c.members|))
    ensures SameTerms(c, NextRound(CoverTo(c, |c.members|), i)) && NextRound(CoverTo(c, |c.members|), i).startedAt
      == c.startedAt
  {
    hide Winnings;
  }

  /**
    A sound step: the circle stays sound, its terms stay, credits go to members only, and the sender's stake
    and the credits account for every unit moved.
   */
  ghost predicate Sound(c: Circle, stake: int, r: Payment) {
    && CircleInv(r.circle) && SameTerms(c, r.circle)
    && Holdings(r.circle) + SumCredits(r.credits) == Holdings(c) + stake
    && CreditsTo(r.credits, c.members)
  }

  lemma SingleCredit(c: Circle, r: Circle, stake: int, from: Address, v: int)
    requires CircleInv(r) && SameTerms(c, r) && from in c.members && 0 <= v && Holdings(r) + v == Holdings(c) + stake
    ensures Sound(c, stake, Payment(r, [Credit(from, v)]))
  {
    OneCredit(from, v, c.members);
  }

  lemma JoinSound(sha: Sha, c: Circle, i: nat, now: int)
    requires CircleInv(c) && i < |c.members| && c.status == Forming && !c.joined[i]
    ensures Sound(c, c.terms.deposit, Payment(JoinCircle(sha, c, i, now), []))
  {
    JoinKeeps(sha, c, i, now);
    AdmitKeeps(c, i);
    if false !in Admit(c, i).joined {
      StartTerms(sha, Admit(c, i), now);
    }
  }

  lemma ClaimSound(c: Circle, i: nat)
    requires CircleInv(c) && c.terms.mode != Goal && c.status == Active && i == Recipient(c) && i < |c.members|
    ensures Sound(c, 0, Payout(c, i))
  {
    RecipientCollects(c, i);
    PayoutKeeps(c, i);
    PayoutTerms(c, i);
  }

  lemma BidSound(c: Circle, i: nat, discount: int)
    requires CircleInv(c) && i < |c.members| && c.terms.mode == Bidding && 0 < discount
    ensures Sound(c, 0, Payment(c.(bids := c.bids[i := discount]), []))
  {
    assert PaidList(c.(bids := c.bids[i := discount])) == PaidList(c);
  }

  lemma AutopaySound(c: Circle, i: nat, amount: int)
    requires CircleInv(c) && i < |c.members| && c.terms.mode != Goal && (c.status == Forming || c.status == Active)
      && 0 <= amount
    ensures Sound(c, amount, Payment(AddAutopay(c, i, amount), []))
  {
    AutopayKeeps(c, i, amount);
    ReserveKeeps(c, i, amount);
    RunAutopayTerms(Reserve(c, i, amount));
  }

  lemma ContributeSound(c: Circle, i: nat, amount: int)
    requires CircleInv(c) && i < |c.members| && c.status == Active && 0 <= amount
    requires if c.terms.mode == Goal then amount > 0 else !c.paid[i] && amount <= Need(c, i)
    ensures Sound(c, if amount > 0 then amount else Need(c, i), Payment(ContributeTo(c, i, amount), []))
  {
    ContributeKeeps(c, i, amount);
    ContributeTerms(c, i, amount);
    hide CircleInv, ContributeTo, Holdings, SameTerms;
  }

  lemma ContributeTerms(c: Circle, i: nat, amount: int)
    requires CircleInv(c) && i < |c.members|
    ensures SameTerms(c, ContributeTo(c, i, amount))
  {
    hide Amounts, Books, Seats, Phase, Pledges, Need, PaidList;
  }

  lemma SwapSound(c: Circle, i: nat, from: Address, other: Address)
    requires CircleInv(c) && i < |c.members| && other in c.members && !c.claimed[i]
      && !c.claimed[Index(c.members, other)]
    ensures Sound(c, 0, Payment(SwapTurns(c, i, from, other), []))
  {
    SwapKeeps(c, i, from, other);
  }

  lemma WithdrawSound(c: Circle, i: nat, from: Address)
    requires CircleInv(c) && i < |c.members| && c.members[i] == from && c.terms.mode == Goal
      && (c.status == Active || c.status == Done)
    ensures Sound(c, 0, WithdrawFrom(c, i, from))
  {
    WithdrawKeeps(c, i, from);
    SingleCredit(c, WithdrawFrom(c, i, from).circle, 0, from, c.saved[i]);
  }

  lemma StopSound(c: Circle, i: nat, from: Address)
    requires CircleInv(c) && i < |c.members| && c.members[i] == from && c.prepaid != [] && c.prepaid[i] != 0
    ensures Sound(c, 0, Payment(c.(prepaid := c.prepaid[i := 0]), [Credit(from, c.prepaid[i])]))
  {
    StopKeeps(c, i);
    SingleCredit(c, c.(prepaid := c.prepaid[i := 0]), 0, from, c.prepaid[i]);
  }

  lemma CancelSound(c: Circle)
    requires CircleInv(c) && c.status == Forming
    ensures Sound(c, 0, CancelCircle(c))
  {
    CancelKeeps(c);
  }

  /** A goal circle unlocked by its deadline has started. */
  lemma UnlockedStarted(c: Circle, now: int)
    requires CircleInv(c) && c.terms.mode == Goal && Unlocked(c, now)
    ensures c.status == Active || c.status == Done
  {}

  /**
    Every operation a circle allows is sound: it keeps CircleInv and conserves money to the unit.
    What the circle holds afterwards plus what it paid to members is what it held before plus the sender's stake.
   */
  lemma StepSound(sha: Sha, c: Circle, i: nat, op: Step, from: Address, now: int, bal: int)
    requires CircleInv(c) && i < |c.members| && c.members[i] == from && GoodStep(op)
    requires StepCheck(c, i, op, from, now, bal) == None
    ensures Sound(c, Stake(c, i, op), StepEffect(sha, c, i, op, from, now, bal))
  {
    match op
    case Join => JoinSound(sha, c, i, now);
    case Contribute(amount) => ContributeSound(c, i, amount);
    case Claim => ClaimSound(c, i);
    case Bid(discount) => BidSound(c, i, discount);
    case Swap(other) => SwapSound(c, i, from, other);
    case Withdraw => UnlockedStarted(c, now); WithdrawSound(c, i, from);
    case Autopay(amount) => AutopaySound(c, i, amount);
    case StopAutopay => StopSound(c, i, from);
    case Cancel => CancelSound(c);
  }

  // ---------------------------------------------------------------- swaps

  /** A member's record without the pending request. */
  function Standing(c: Circle, k: nat): Seat
    requires Shape(c) && k < |c.members|
  {
    SeatOf(c, k).(swapWith := None)
  }

  lemma StandingKept(c: Circle, w: seq<Address>, k: nat)
    requires Shape(c) && k < |c.members| && |w| == |c.members|
    ensures Shape(c.(swapWith := w)) && Standing(c.(swapWith := w), k) == Standing(c, k)
  {}

  /** The guards of a swap keep both turns clear of what was paid out and of the turn being collected. */
  lemma SwapGuards(c: Circle, i: nat, from: Address, other: Address, now: int, bal: int, k: nat)
    requires CircleInv(c) && i < |c.members| && k < |c.members| && StepCheck(c, i, Step.Swap(other), from, now, bal)
      == None
    ensures var j := Index(c.members, other);
      0 <= j && (k < c.round || (c.status == Active && k == c.round) ==> k != i && k != j)
  {
    hide Amounts, Books, Pledges, Phase;
  }

  lemma SwapOutcome(c: Circle, i: nat, from: Address, other: Address)
    requires Shape(c) && i < |c.members| && other in c.members
    ensures var j := Index(c.members, other); var r := SwapTurns(c, i, from, other);
      |r.swapWith| == |c.members| &&
      if c.swapWith != [] && c.swapWith[j] == from && from.Key? then r == SwapIdx(c, i, j).(swapWith := r.swapWith)
      else from.Key? ==> r == c.(swapWith := r.swapWith)
  {
    hide SwapIdx;
  }

  /**
    A swap takes both sides: one request alone changes no record. When both have asked, the two records trade places
    whole, and no turn that was already paid out or is being collected now is disturbed.
   */
  lemma SwapLeavesTurns(c: Circle, i: nat, from: Address, other: Address, now: int, bal: int, k: nat)
    requires CircleInv(c) && i < |c.members| && k < |c.members| && c.members[i] == from
    requires StepCheck(c, i, Step.Swap(other), from, now, bal) == None
    ensures var j := Index(c.members, other); var r := SwapTurns(c, i, from, other);
      var agreed := c.swapWith != [] && c.swapWith[j] == from;
      && 0 <= j && |r.members| == |c.members|
      && Standing(r, k) == Standing(c, if agreed && k == i then j else if agreed && k == j then i else k)
      && (k < c.round || (c.status == Active && k == c.round) ==> Standing(r, k) == Standing(c, k))
  {
    SwapGuards(c, i, from, other, now, bal, k);
    SenderIsKey(c, i);
    hide CircleInv, StepCheck, SwapTurns, SwapIdx, Standing, Shape;
    var j := Index(c.members, other);
    var r := SwapTurns(c, i, from, other);
    SwapOutcome(c, i, from, other);
    if c.swapWith != [] && c.swapWith[j] == from {
      StandingKept(SwapIdx(c, i, j), r.swapWith, k);
      StandingSwapped(c, i, j, k);
    } else {
      StandingKept(c, r.swapWith, k);
    }
  }

  lemma SenderIsKey(c: Circle, i: nat)
    requires CircleInv(c) && i < |c.members|
    ensures c.members[i].Key? && Shape(c) && (c.swapWith == [] || |c.swapWith| == |c.members|)
  {}

  lemma StandingSwapped(c: Circle, i: nat, j: nat, k: nat)
    requires Shape(c) && i < |c.members| && j < |c.members| && k < |c.members|
    ensures Standing(SwapIdx(c, i, j), k) == Standing(c, if k == j then i else if k == i then j else k)
  {
    hide SwapIdx, Shape;
    SwapIdxSeat(c, i, j, k);
  }
}
