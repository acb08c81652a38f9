/**
  Whole histories of a circle: each seat collects exactly once, a scheduled circle past its last due date
  is driven to its end by its recipients, and autopay never sets aside more than there are rounds to pay.
 */
module CircleRuns {
  import opened Arithmetic
  import opened Core
  import opened Sequences
  import opened Circles
  import opened CircleBooks
  import opened CircleSteps
  import opened Ledger
  import opened LedgerSafety

  // ---------------------------------------------------------------- collecting exactly once

  /**
    What can happen to a circle: an operation by the member in a seat, with the block time and that member's balance
    at that point, or a recovery of some key.
   */
  datatype Event = Operated(seat: nat, op: Step, now: int, bal: int) | Rekeyed(old0: Address, new0: Address)

  /** The circle after one event, or None if the operation is refused. */
  function Next(sha: Sha, c: Circle, ev: Event): (r: Option<Circle>)
    requires Shape(c)
    ensures r.Some? ==> Shape(r.value)
  {
    match ev
    case Rekeyed(o, n) => if n.Key? then Some(RenameCircle(c, o, n)) else None
    case Operated(seat, op, now, bal) =>
      if seat < |c.members| && GoodStep(op) && StepCheck(c, seat, op, c.members[seat], now, bal) == None
      then Some(StepEffect(sha, c, seat, op, c.members[seat], now, bal).circle)
      else None
  }

  /** A created circle after some events, or None if an operation was refused. */
  function Replay(sha: Sha, start: Circle, evs: seq<Event>): (r: Option<Circle>)
    requires Shape(start)
    ensures r.Some? ==> Shape(r.value)
  {
    if |evs| == 0 then Some(start)
    else
      match Replay(sha, start, evs[..|evs| - 1])
      case None => None
      case Some(c) => Next(sha, c, evs[|evs| - 1])
  }

  predicate IsClaim(ev: Event) { ev.Operated? && ev.op.Claim? }

  /** The seats that claimed, in order. */
  function ClaimedSeats(evs: seq<Event>): seq<nat> {
    if |evs| == 0 then []
    else
      var last := evs[|evs| - 1];
      ClaimedSeats(evs[..|evs| - 1]) + if IsClaim(last) then [last.seat] else []
  }

  lemma RunAutopayClaims(c: Circle)
    requires CircleInv(c) && c.terms.mode != Goal
    ensures RunAutopay(c).claimed == c.claimed && RunAutopay(c).round == c.round
  {
    RunAutopayBooks(c);
  }

  lemma StartClaims(sha: Sha, c: Circle, now: int)
    requires CircleInv(c) && c.status == Forming
    ensures Start(sha, c, now).claimed == c.claimed && Start(sha, c, now).round == c.round
  {
    ActivateKeeps(c, now);
    var a := c.(status := Active, startedAt := now);
    if a.terms.mode == Lottery {
      DrawKeeps(sha, a);
      RunAutopayClaims(DrawOrder(sha, a));
    } else if a.terms.mode != Goal {
      RunAutopayClaims(a);
    }
  }

  /** The effect of member i's step on who has collected. */
  ghost predicate Collected(c: Circle, i: nat, op: Step, r: Circle) {
    && i < |c.claimed|
    && r.claimed == (if op.Claim? then c.claimed[i := true] else c.claimed)
    && r.round == (if op.Claim? then c.round + 1 else c.round)
    && (op.Claim? ==> !c.claimed[i] && (c.terms.mode != Bidding ==> i == c.round))
  }

  lemma JoinClaims(sha: Sha, c: Circle, i: nat, now: int)
    requires CircleInv(c) && i < |c.members| && c.status == Forming && !c.joined[i]
    ensures Collected(c, i, Step.Join, JoinCircle(sha, c, i, now))
  {
    AdmitKeeps(c, i);
    if false !in Admit(c, i).joined {
      StartClaims(sha, Admit(c, i), now);
    }
  }

  lemma ClaimCollects(c: Circle, i: nat)
    requires CircleInv(c) && i < |c.members| && c.terms.mode != Goal && c.status == Active && i == Recipient(c)
    ensures Collected(c, i, Step.Claim, Payout(c, i).circle)
  {
    RecipientCollects(c, i);
    PayoutKeeps(c, i);
  }

  lemma SwapCollects(c: Circle, i: nat, from: Address, other: Address)
    requires CircleInv(c) && i < |c.members| && other in c.members && !c.claimed[i]
      && !c.claimed[Index(c.members, other)]
    ensures Collected(c, i, Step.Swap(other), SwapTurns(c, i, from, other))
  {
    SwapIdxSeatsKept(c, i, Index(c.members, other));
  }

  lemma AutopayCollects(c: Circle, i: nat, amount: int)
    requires CircleInv(c) && i < |c.members| && c.terms.mode != Goal && (c.status == Forming || c.status == Active)
      && 0 <= amount
    ensures Collected(c, i, Step.Autopay(amount), AddAutopay(c, i, amount))
  {
    ReserveKeeps(c, i, amount);
    RunAutopayClaims(Reserve(c, i, amount));
  }

  lemma OtherCollects(sha: Sha, c: Circle, i: nat, op: Step, from: Address, now: int, bal: int)
    requires CircleInv(c) && i < |c.members| && StepCheck(c, i, op, from, now, bal) == None
    requires op.Contribute? || op.Bid? || op.Withdraw? || op.StopAutopay? || op.Cancel?
    ensures Collected(c, i, op, StepEffect(sha, c, i, op, from, now, bal).circle)
  {
    hide Need, Wraps, Sum, CancelReturnsTo;
  }

  /** What the check of a step says to the lemmas above. */
  lemma StepAllows(c: Circle, i: nat, op: Step, from: Address, now: int, bal: int)
    requires CircleInv(c) && i < |c.members| && StepCheck(c, i, op, from, now, bal) == None
    ensures op.Join? ==> c.status == Forming && !c.joined[i]
    ensures op.Claim? ==> c.terms.mode != Goal && c.status == Active && i == Recipient(c)
    ensures op.Swap? ==> op.other in c.members && !c.claimed[i] && !c.claimed[Index(c.members, op.other)]
    ensures op.Autopay? ==> c.terms.mode != Goal && (c.status == Forming || c.status == Active)
  {
    hide Recipient, AllPaid, Need, Wraps, Unlocked, RoundsLeft;
  }

  /** A step marks a seat as collected exactly when it is that seat's claim, and only if it had not collected. */
  lemma StepClaims(sha: Sha, c: Circle, i: nat, op: Step, from: Address, now: int, bal: int)
    requires CircleInv(c) && i < |c.members| && GoodStep(op) && StepCheck(c, i, op, from, now, bal) == None
    ensures Collected(c, i, op, StepEffect(sha, c, i, op, from, now, bal).circle)
  {
    hide CircleInv, StepCheck, JoinCircle, Payout, SwapTurns, AddAutopay, Recipient, Collected;
    StepAllows(c, i, op, from, now, bal);
    match op
    case Join => JoinClaims(sha, c, i, now);
    case Claim => ClaimCollects(c, i);
    case Swap(other) => SwapCollects(c, i, from, other);
    case Autopay(amount) => AutopayCollects(c, i, amount);
    case _ => OtherCollects(sha, c, i, op, from, now, bal);
  }

  /** What a history of a circle has established about who collected. */
  ghost predicate History(c: Circle, seats: seq<nat>)
    requires Shape(c)
  {
    && Distinct(seats) && |seats| == c.round
    && (forall j :: 0 <= j < |c.members| ==> (c.claimed[j] <==> j in seats))
    && (forall k :: 0 <= k < |seats| ==> seats[k] < |c.members|)
    && (c.terms.mode != Bidding ==> forall k :: 0 <= k < |seats| ==> seats[k] == k)
  }

  /** What neither an operation nor a recovery changes. */
  ghost predicate SameDeal(c: Circle, r: Circle) {
    r.id == c.id && r.asset == c.asset && r.terms == c.terms && |r.members| == |c.members|
  }

  lemma HistoryStep(c: Circle, seats: seq<nat>, i: nat, op: Step, r: Circle)
    requires Shape(c) && Shape(r) && History(c, seats) && SameDeal(c, r) && Collected(c, i, op, r) && i < |c.members|
    ensures History(r, seats + if op.Claim? then [i] else [])
  {
    if op.Claim? {
      assert i !in seats;
    } else {
      assert seats + [] == seats;
    }
  }

  /** One event keeps a circle sound and its history on record. */
  lemma NextRecorded(sha: Sha, c: Circle, seats: seq<nat>, ev: Event)
    requires CircleInv(c) && History(c, seats) && Next(sha, c, ev).Some?
    ensures var r := Next(sha, c, ev).value;
      CircleInv(r) && SameDeal(c, r) && History(r, seats + if IsClaim(ev) then [ev.seat] else [])
  {
    match ev {
      case Rekeyed(o, n) =>
        RenameKeeps(c, o, n);
        assert seats + [] == seats;
      case Operated(seat, op, now, bal) =>
        StepSound(sha, c, seat, op, c.members[seat], now, bal);
        StepClaims(sha, c, seat, op, c.members[seat], now, bal);
        HistoryStep(c, seats, seat, op, Next(sha, c, ev).value);
    }
  }

  /** A replayed circle is sound and its history is on record. */
  ghost predicate Recorded(start: Circle, c: Circle, evs: seq<Event>) {
    CircleInv(c) && SameDeal(start, c) && History(c, ClaimedSeats(evs))
  }

  lemma {:induction false} ReplayRecorded(sha: Sha, start: Circle, evs: seq<Event>)
    requires CircleInv(start) && start.round == 0
    requires Replay(sha, start, evs).Some?
    ensures Recorded(start, Replay(sha, start, evs).value, evs)
  {
    if |evs| == 0 {
      CountBounds(start.claimed);
    } else {
      hide CircleInv, History, Next, IsClaim;
      var before := evs[..|evs| - 1];
      ReplayRecorded(sha, start, before);
      NextRecorded(sha, Replay(sha, start, before).value, ClaimedSeats(before), evs[|evs| - 1]);
    }
  }

  /**
    Over any history of a circle, whoever acts and whichever keys are recovered, no seat ever collects twice; the
    seats that collected are exactly the Claimed ones, as many as rounds have passed, outside bidding circles in turn
    order, and when the circle is done every seat has.
   */
  lemma EachSeatOnce(sha: Sha, id: Hash, asset: Asset, from: Address, members: seq<Address>, t: Terms, evs: seq<Event>)
    requires GoodTerms(members, t, from)
    requires Shape(NewCircle(id, asset, from, members, t))
      && Replay(sha, NewCircle(id, asset, from, members, t), evs).Some?
    ensures var c := Replay(sha, NewCircle(id, asset, from, members, t), evs).value;
      && CircleInv(c) && History(c, ClaimedSeats(evs))
      && (c.status == Done && c.terms.mode != Goal ==> |ClaimedSeats(evs)| == |members|)
  {
    NewCircleInv(id, asset, from, members, t);
    ReplayRecorded(sha, NewCircle(id, asset, from, members, t), evs);
  }

  // ---------------------------------------------------------------- driven to the end

  /** The claim of the one who collects; a circle with no such member is left as it is. */
  function ClaimNext(p: Circle): (r: Circle)
    requires Shape(p)
    ensures Shape(r)
  {
    var i := Recipient(p);
    if p.terms.mode != Goal && 0 <= i < |p.members| then Payout(p, i).circle else p
  }

  /** k claims in a row, each by the member who collects. */
  function ClaimTimes(c: Circle, k: nat): (r: Circle)
    requires Shape(c)
    ensures Shape(r)
  {
    if k == 0 then c else ClaimNext(ClaimTimes(c, k - 1))
  }

  /** r is c some rounds later. */
  ghost predicate Later(c: Circle, k: nat, r: Circle) {
    && CircleInv(r) && SameTerms(c, r) && r.startedAt == c.startedAt && r.round == c.round + k
    && r.status == if r.round == |c.members| then Done else Active
  }

  lemma LaterOnce(c: Circle, k: nat, p: Circle)
    requires c.terms.mode != Goal && Later(c, k, p) && p.status == Active
    ensures Later(c, k + 1, ClaimNext(p))
  {
    RecipientCollects(p, Recipient(p));
    var i := Recipient(p);
    PayoutKeeps(p, i);
    PayoutTerms(p, i);
    SameTermsTransitive(c, p, Payout(p, i).circle);
  }

  lemma DueInOrder(c: Circle, r: int)
    requires Scheduled(c) && 0 <= r < |c.members|
    ensures DueAt(c, r) <= DueAt(c, |c.members| - 1)
  {
    MulMonotone(r + 1, |c.members|, c.terms.roundSecs);
    MulMonotone((r + 1) * c.terms.roundSecs, |c.members| * c.terms.roundSecs, 1000);
  }

  /** An active circle in which the claim of the one who collects is allowed for an account holding bal. */
  ghost predicate Claimable(p: Circle, now: int, bal: int) {
    && Shape(p) && p.status == Active && 0 <= Recipient(p) < |p.members|
    && StepCheck(p, Recipient(p), Step.Claim, p.members[Recipient(p)], now, bal) == None
  }

  /** Past the last due date the next claim is allowed, unless the pot could overflow the balance. */
  lemma ClaimAllowed(p: Circle, now: int, bal: int)
    requires CircleInv(p) && p.terms.mode != Goal && p.status == Active && Scheduled(p)
      && now >= DueAt(p, |p.members| - 1)
    ensures Claimable(p, now, bal) <==> !Wraps(bal, Pot(p))
  {
    RecipientCollects(p, Recipient(p));
    DueInOrder(p, p.round);
  }

  lemma LaterNow(c: Circle)
    requires CircleInv(c) && c.status == Active
    ensures Later(c, 0, c)
  {
    hide Amounts, Books, Seats, Pledges;
  }

  /** What being some rounds later means for an active scheduled circle, before its end and at it. */
  lemma LaterMeans(c: Circle, k: nat, r: Circle)
    requires Shape(c) && c.terms.mode != Goal && 0 <= c.round && Later(c, k, r)
    ensures Shape(r) && CircleInv(r) && r.terms == c.terms && Pot(r) == Pot(c)
    ensures c.round + k < |c.members| ==>
      r.status == Active && (Scheduled(c) ==> DueAt(r, |r.members| - 1) == DueAt(c, |c.members| - 1))
    ensures c.round + k == |c.members| ==> r.status == Done && Holdings(r) == 0
  {
    hide Amounts, Books, Seats, Pledges, Holdings;
  }

  lemma ClaimNone(c: Circle)
    requires Shape(c)
    ensures ClaimTimes(c, 0) == c
  {}

  lemma ClaimOnceMore(c: Circle, k: nat)
    requires Shape(c) && 0 < k
    ensures ClaimTimes(c, k) == ClaimNext(ClaimTimes(c, k - 1))
  {
    hide Shape, ClaimNext;
  }

  /** From k claims to k + 1. */
  lemma ClaimAdvances(c: Circle, k: nat)
    requires Shape(c) && c.terms.mode != Goal && 0 <= c.round && k < |c.members| - c.round
    requires Later(c, k, ClaimTimes(c, k))
    ensures Later(c, k + 1, ClaimTimes(c, k + 1))
  {
    hide CircleInv, Later, ClaimNext, ClaimTimes, Shape, DueAt, Pot, Holdings;
    ClaimOnceMore(c, k + 1);
    LaterMeans(c, k, ClaimTimes(c, k));
    LaterOnce(c, k, ClaimTimes(c, k));
  }

  lemma {:induction false} ClaimsAdvance(c: Circle, k: nat)
    requires CircleInv(c) && c.terms.mode != Goal && c.status == Active && k <= |c.members| - c.round
    ensures Later(c, k, ClaimTimes(c, k))
    decreases k
  {
    hide CircleInv, Later, ClaimNext, ClaimTimes, Shape, DueAt, Pot, Holdings;
    RoundInRange(c);
    if k == 0 {
      ClaimNone(c);
      LaterNow(c);
    } else {
      ClaimsAdvance(c, k - 1);
      ClaimAdvances(c, k - 1);
    }
  }

  lemma RoundInRange(c: Circle)
    requires CircleInv(c)
    ensures Shape(c) && 0 <= c.round <= |c.members|
  {
    hide Amounts, Books, Seats, Pledges;
  }

  lemma ClaimableEachRound(c: Circle, k: nat, now: int, bal: int)
    requires CircleInv(c) && c.terms.mode != Goal && c.status == Active && Scheduled(c)
      && now >= DueAt(c, |c.members| - 1)
    requires k < |c.members| - c.round
    ensures Claimable(ClaimTimes(c, k), now, bal) <==> !Wraps(bal, Pot(c))
  {
    hide CircleInv, Later, Claimable, ClaimTimes, DueAt, Pot, Shape;
    RoundInRange(c);
    ClaimsAdvance(c, k);
    LaterMeans(c, k, ClaimTimes(c, k));
    ClaimAllowed(ClaimTimes(c, k), now, bal);
  }

  lemma DoneAtTheEnd(c: Circle)
    requires CircleInv(c) && c.terms.mode != Goal && c.status == Active
    ensures c.round <= |c.members|
    ensures ClaimTimes(c, |c.members| - c.round).status == Done && Holdings(ClaimTimes(c, |c.members| - c.round)) == 0
  {
    hide CircleInv, Later, ClaimTimes, Holdings, Shape;
    RoundInRange(c);
    var k := |c.members| - c.round;
    ClaimsAdvance(c, k);
    LaterMeans(c, k, ClaimTimes(c, k));
  }

  /**
    An active scheduled circle whose last due date has passed cannot get stuck: at every remaining round the claim of
    the one who collects is allowed unless adding the pot could overflow their balance, and exactly n - Round such
    claims finish the circle, which then holds nothing.
   */
  lemma DrivenToDone(c: Circle, now: int, bal: int)
    requires CircleInv(c) && c.terms.mode != Goal && c.status == Active && Scheduled(c)
      && now >= DueAt(c, |c.members| - 1)
    ensures forall k :: 0 <= k < |c.members| - c.round ==>
      (Claimable(ClaimTimes(c, k), now, bal) <==> !Wraps(bal, Pot(c)))
    ensures ClaimTimes(c, |c.members| - c.round).status == Done && Holdings(ClaimTimes(c, |c.members| - c.round)) == 0
  {
    hide CircleInv, Claimable, ClaimTimes, DueAt, Pot, Holdings, Shape;
    RoundInRange(c);
    forall k | 0 <= k < |c.members| - c.round ensures Claimable(ClaimTimes(c, k), now, bal) <==> !Wraps(bal, Pot(c)) {
      ClaimableEachRound(c, k, now, bal);
    }
    DoneAtTheEnd(c);
  }
}
