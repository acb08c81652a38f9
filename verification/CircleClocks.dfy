/**
  The clock of a circle over its whole history: it starts at the block time of the last join, and nothing is taken for a
  missed payment before that round's due time, counted from there.
 */
module CircleClocks {
  import opened Arithmetic
  import opened Core
  import opened Sequences
  import opened Circles
  import opened CircleBooks
  import opened CircleSteps
  import opened CircleRuns
  import opened CircleHistories
  import opened Escrows
  import opened Ledger
  import opened LedgerSafety
  import opened LedgerRuns
  import opened CircleLaws
  import opened ClaimFunding

  // ---------------------------------------------------------------- one event

  predicate Started(c: Circle) { c.status == Active || c.status == Done }

  predicate IsJoin(ev: Event) { ev.Operated? && ev.op.Join? }

  /** How an event moves a circle's clock: only a join starts it, at that time, and nothing sets it again. */
  ghost predicate ClockStep(c: Circle, ev: Event, r: Circle) {
    && (Started(c) ==> Started(r) && r.startedAt == c.startedAt)
    && (!Started(c) && Started(r) ==> c.status == Forming && IsJoin(ev) && r.startedAt == ev.now)
  }

  lemma PayClock(c: Circle, i: nat, a: int)
    requires Shape(c) && i < |c.members|
    ensures var r := ContributeTo(c, i, a);
      r.startedAt == c.startedAt && (r.status == c.status || r.status == Done) && r.deposits == c.deposits
        && r.defaults == c.defaults
  {
    hide PaidList, Need;
  }

  lemma SwapClock(c: Circle, i: nat, from: Address, other: Address)
    requires Shape(c) && i < |c.members| && other in c.members
    ensures var r := SwapTurns(c, i, from, other);
      r.startedAt == c.startedAt && r.status == c.status && Sum(r.deposits) == Sum(c.deposits)
        && Sum(r.defaults) == Sum(c.defaults)
  {
    var j := Index(c.members, other);
    SwSum(c.deposits, i, j);
    SwSum(c.defaults, i, j);
  }

  lemma {:induction false} AutopayLeaves(c: Circle, k: nat)
    requires Shape(c) && c.prepaid != [] && k <= |c.members|
    ensures var r := AutopayTo(c, k);
      r == c.(prepaid := r.prepaid, paid := r.paid, paidAmt := r.paidAmt, balance := r.balance)
  {
    hide PaidList, Need;
    if k > 0 {
      AutopayLeaves(c, k - 1);
    }
  }

  lemma RunLeaves(c: Circle)
    requires Shape(c)
    ensures var r := RunAutopay(c);
      r == c.(prepaid := r.prepaid, paid := r.paid, paidAmt := r.paidAmt, balance := r.balance)
  {
    if c.prepaid != [] && c.status == Active {
      AutopayLeaves(c, |c.members|);
    }
  }

  lemma {:induction false} DrawSums(sha: Sha, c: Circle, k: nat, seed: Hash)
    requires Shape(c) && k < |c.members|
    ensures var r := DrawFrom(sha, c, k, seed);
      Sum(r.deposits) == Sum(c.deposits) && Sum(r.defaults) == Sum(c.defaults)
    decreases k
  {
    hide Shape, Pick;
    if k > 0 {
      var p := Pick(sha, sha.next(seed), k);
      SwapSums(c, k, p);
      DrawSums(sha, SwapIdx(c, k, p), k - 1, sha.next(seed));
    }
  }

  lemma SwapSums(c: Circle, i: nat, j: nat)
    requires Shape(c) && i < |c.members| && j < |c.members|
    ensures var r := SwapIdx(c, i, j); Sum(r.deposits) == Sum(c.deposits) && Sum(r.defaults) == Sum(c.defaults)
  {
    SwSum(c.deposits, i, j);
    SwSum(c.defaults, i, j);
  }

  lemma PayoutClock(c: Circle, i: nat)
    requires CircleInv(c) && c.terms.mode != Goal && c.status == Active && i < |c.members|
    requires if c.terms.mode == Bidding then !c.claimed[i] else i == c.round
    ensures var r := Payout(c, i).circle;
      && r.startedAt == c.startedAt && Started(r)
      && (FullyPaid(c) ==> r.defaults == c.defaults)
      && (FullyPaid(c) && r.status != Done ==> r.deposits == c.deposits)
  {
    PayoutKeeps(c, i);
    PayoutTerms(c, i);
    PaidMeans(c, i);
    hide RoundBooks, Amounts, Seats, Pledges, Winnings, Recipient, FullyPaid;
    if FullyPaid(c) {
      CoverNothing(c, |c.members|);
      RunLeaves(NextRound(c, i));
    }
  }

  /** What takes money from deposits or records a default. */
  ghost predicate TakesStep(c: Circle, ev: Event, r: Circle)
    requires Shape(c)
  {
    && (Sum(r.defaults) != Sum(c.defaults) ==> IsClaim(ev) && !FullyPaid(c))
    && (Sum(r.deposits) < Sum(c.deposits) ==>
      (ev.Operated? && ev.op.Cancel?) || (IsClaim(ev) && (!FullyPaid(c) || r.status == Done)))
  }

  lemma AdmitSums(c: Circle, i: nat)
    requires Shape(c) && i < |c.members| && c.status == Forming && Pledges(c) && !c.joined[i]
    ensures var d := Admit(c, i);
      && d.status == Forming && d.defaults == c.defaults && Sum(d.deposits) >= Sum(c.deposits)
      && |d.members| == |c.members|
  {
    if c.deposits != [] {
      SumUpdate(c.deposits, i, c.terms.deposit);
    }
  }

  lemma StartSums(sha: Sha, d: Circle, now: int)
    requires Shape(d)
    ensures var r := Start(sha, d, now);
      && r.status == Active && r.startedAt == now
      && Sum(r.defaults) == Sum(d.defaults) && Sum(r.deposits) == Sum(d.deposits)
  {
    hide DrawOrder, RunAutopay, Sum, DrawFrom;
    var a := d.(status := Active, startedAt := now);
    StartSituation(sha, d, now);
    DrawSums(sha, a, |a.members| - 1, sha.start(a.id, a.startedAt));
    DrawIs(sha, a);
    RunLeaves(if a.terms.mode == Lottery then DrawOrder(sha, a) else a);
  }

  lemma JoinClock(sha: Sha, c: Circle, i: nat, now: int)
    requires CircleInv(c) && i < |c.members| && c.status == Forming && !c.joined[i]
    ensures var r := JoinCircle(sha, c, i, now);
      && (r.status == Forming || (r.status == Active && r.startedAt == now))
      && Sum(r.defaults) == Sum(c.defaults) && Sum(r.deposits) >= Sum(c.deposits)
  {
    hide Amounts, Books, Seats, Phase, Pledges, Admit, Start, Sum;
    AdmitSums(c, i);
    StartSums(sha, Admit(c, i), now);
  }

  lemma DrawIs(sha: Sha, c: Circle)
    requires Shape(c)
    ensures DrawOrder(sha, c) == DrawFrom(sha, c, |c.members| - 1, sha.start(c.id, c.startedAt))
  {}

  lemma StepClock(sha: Sha, c: Circle, i: nat, op: Step, now: int, bal: int)
    requires CircleInv(c) && i < |c.members| && GoodStep(op) && StepCheck(c, i, op, c.members[i], now, bal) == None
    ensures var r, ev := StepEffect(sha, c, i, op, c.members[i], now, bal).circle, Operated(i, op, now, bal);
      ClockStep(c, ev, r) && TakesStep(c, ev, r)
  {
    hide Amounts, Books, Seats, Pledges, Recipient, FullyPaid, JoinCircle, ContributeTo, Payout, SwapTurns, AddAutopay,
      Sum;
    match op
    case Join => JoinClock(sha, c, i, now);
    case Contribute(a) => PayClock(c, i, a);
    case Claim =>
      RecipientCollects(c, i);
      PayoutClock(c, i);
    case Swap(other) => SwapClock(c, i, c.members[i], other);
    case Autopay(a) => AutopayClock(c, i, a);
    case _ => QuietClock(sha, c, i, op, now, bal);
  }

  lemma QuietClock(sha: Sha, c: Circle, i: nat, op: Step, now: int, bal: int)
    requires CircleInv(c) && i < |c.members| && GoodStep(op) && StepCheck(c, i, op, c.members[i], now, bal) == None
    requires op.Bid? || op.Withdraw? || op.StopAutopay? || op.Cancel?
    ensures var r, ev := StepEffect(sha, c, i, op, c.members[i], now, bal).circle, Operated(i, op, now, bal);
      ClockStep(c, ev, r) && TakesStep(c, ev, r)
  {
    hide Amounts, Books, Seats, Pledges, FullyPaid, CancelReturnsTo, Sum;
  }

  lemma AutopayClock(c: Circle, i: nat, a: int)
    requires Shape(c) && i < |c.members| && c.terms.mode != Goal
    ensures var r := AddAutopay(c, i, a);
      r.startedAt == c.startedAt && r.status == c.status && r.deposits == c.deposits && r.defaults == c.defaults
  {
    RunLeaves(Reserve(c, i, a));
    hide RunAutopay;
  }

  lemma NextClock(sha: Sha, c: Circle, ev: Event)
    requires CircleInv(c) && Next(sha, c, ev).Some?
    ensures ClockStep(c, ev, Next(sha, c, ev).value) && TakesStep(c, ev, Next(sha, c, ev).value)
  {
    hide CircleInv, StepEffect, StepCheck, FullyPaid, GoodStep;
    if ev.Operated? {
      StepClock(sha, c, ev.seat, ev.op, ev.now, ev.bal);
    }
  }

  // ---------------------------------------------------------------- whole histories

  /** The block time of the join that started a circle, looked up in its history. */
  function StartTime(sha: Sha, start: Circle, evs: seq<Event>): Option<int>
    requires Shape(start)
  {
    if |evs| == 0 then None
    else
      var before, last := evs[..|evs| - 1], evs[|evs| - 1];
      match StartTime(sha, start, before)
      case Some(t) => Some(t)
      case None =>
        match Replay(sha, start, evs)
        case None => None
        case Some(c) => if IsJoin(last) && c.status != Forming then Some(last.now) else None
  }

  /**
    Over any history the clock of a circle that has started is the block time of the join that started it, and no other
    circle has one.
   */
  lemma {:induction false} StartClock(sha: Sha, start: Circle, evs: seq<Event>)
    requires CircleInv(start) && start.round == 0 && start.status == Forming && Replay(sha, start, evs).Some?
    ensures var c := Replay(sha, start, evs).value;
      StartTime(sha, start, evs) == if Started(c) then Some(c.startedAt) else None
  {
    hide Amounts, Books, Seats, Phase, Pledges, Next, ClockStep, Recorded, Distinct, IsJoin;
    if |evs| > 0 {
      var before, ev := evs[..|evs| - 1], evs[|evs| - 1];
      var c := Replay(sha, start, before).value;
      StartClock(sha, start, before);
      ReplayRecorded(sha, start, before);
      RecordedInv(start, c, before);
      NextClock(sha, c, ev);
      if IsJoin(ev) {
        JoinStarts(sha, c, ev);
      }
      ClockMeans(c, ev, Next(sha, c, ev).value);
    }
  }

  lemma RecordedInv(start: Circle, c: Circle, evs: seq<Event>)
    requires Recorded(start, c, evs)
    ensures CircleInv(c) && c.terms == start.terms && |c.members| == |start.members|
      && |ClaimedSeats(evs)| == c.round
  {
    hide CircleInv;
  }

  lemma ClockMeans(c: Circle, ev: Event, r: Circle)
    requires ClockStep(c, ev, r)
    ensures Started(c) ==> Started(r) && r.startedAt == c.startedAt
    ensures !Started(c) && Started(r) ==> IsJoin(ev) && r.startedAt == ev.now
  {}

  /** A join leaves a circle forming or started. */
  lemma JoinStarts(sha: Sha, c: Circle, ev: Event)
    requires CircleInv(c) && Next(sha, c, ev).Some? && IsJoin(ev)
    ensures c.status == Forming && (Next(sha, c, ev).value.status == Forming || Started(Next(sha, c, ev).value))
  {
    hide Amounts, Books, Seats, Phase, Pledges, JoinCircle;
    JoinClock(sha, c, ev.seat, ev.now);
  }

  /** A claim is due: all of this round is paid, or its time, counted from the join that started the circle, is over. */
  ghost predicate Due(sha: Sha, start: Circle, evs: seq<Event>, c: Circle, now: int)
    requires Shape(start) && Shape(c)
  {
    || FullyPaid(c)
    || (start.terms.roundSecs > 0 && StartTime(sha, start, evs).Some?
        && now >= StartTime(sha, start, evs).value + 1000 * (start.terms.roundSecs * (|ClaimedSeats(evs)| + 1)))
  }

  /**
    Over any history of a circle every claim came when everybody had paid the round, or after that round's due time; a
    default was recorded only by a claim after the due time with a contribution missing; and deposits fell only by such
    a claim, by the last claim of all, which returns them, or by a cancellation.
   */
  lemma TakenOnlyWhenDue(sha: Sha, start: Circle, evs: seq<Event>, ev: Event)
    requires CircleInv(start) && start.round == 0 && start.status == Forming
    requires Replay(sha, start, evs).Some? && Next(sha, Replay(sha, start, evs).value, ev).Some?
    ensures var c := Replay(sha, start, evs).value; var r := Next(sha, c, ev).value;
      && (IsClaim(ev) ==> Due(sha, start, evs, c, ev.now))
      && (Sum(r.defaults) != Sum(c.defaults) ==>
        IsClaim(ev) && !FullyPaid(c) && Due(sha, start, evs, c, ev.now))
      && (Sum(r.deposits) < Sum(c.deposits) ==>
        || (ev.Operated? && ev.op.Cancel?)
        || (IsClaim(ev) && Due(sha, start, evs, c, ev.now) && (!FullyPaid(c) || r.status == Done)))
  {
    hide Amounts, Books, Seats, Phase, Pledges, Distinct, Next, Recorded, FullyPaid, ClockStep, Replay;
    var c := Replay(sha, start, evs).value;
    ReplayRecorded(sha, start, evs);
    RecordedInv(start, c, evs);
    NextClock(sha, c, ev);
    if IsClaim(ev) {
      StartClock(sha, start, evs);
      ClaimDue(sha, c, ev);
    }
  }

  lemma ClaimDue(sha: Sha, c: Circle, ev: Event)
    requires CircleInv(c) && Next(sha, c, ev).Some? && IsClaim(ev)
    ensures c.status == Active && (FullyPaid(c) || PastDue(c, ev.now))
  {
    hide CircleInv, FullyPaid, PastDue, StepCheck, Collects;
    StepsExactly(c, ev.seat, Step.Claim, ev.now, ev.bal);
  }

  /** A transaction that claims from this circle. */
  predicate ClaimsFrom(tx: Tx, id: Hash) { tx.body == CircleStep(id, Step.Claim) }

  /**
    The same in every ledger run, for every circle opened in it: a default is recorded, or a deposit falls without a
    cancellation, only by a committed claim, in a block after the due time of that round unless everybody had paid it.
   */
  lemma RunTakesWhenDue(sha: Sha, es: seq<Entry>, ss: seq<State>, id: Hash, i: nat, k: nat)
    requires Trace(sha, es, ss) && LedgerInv(ss[0]) && i < k < |es| && OpensAt(es, i, id)
    ensures GoodTx(es[i].tx) && id in ss[k].pools && id in ss[k + 1].pools && Shape(ss[k].pools[id])
    ensures var c, r, start, evs := ss[k].pools[id], ss[k + 1].pools[id], OpenedAs(es[i].tx),
      EventsIn(es, ss, id, i, k);
      && (ClaimsFrom(es[k].tx, id) ==> Due(sha, start, evs, c, es[k].now))
      && (Sum(r.defaults) != Sum(c.defaults) ==> ClaimsFrom(es[k].tx, id) && !FullyPaid(c))
      && (Sum(r.deposits) < Sum(c.deposits) ==>
        || es[k].tx.body == CircleStep(id, Step.Cancel)
        || (ClaimsFrom(es[k].tx, id) && (!FullyPaid(c) || r.status == Done)))
  {
    hide Committed, LedgerInv, EventOf, Next, GoodTx, Due, Replay, FullyPaid, CircleInv, OpenedAs;
    CircleReplays(sha, es, ss, id, i, k);
    RunKeeps(sha, es, ss, k);
    assert Committed(sha, ss[k], es[k], ss[k + 1]);
    var s, e, start, evs := ss[k], es[k], OpenedAs(es[i].tx), EventsIn(es, ss, id, i, k);
    OpenedFresh(es[i].tx);
    ReplayRecorded(sha, start, evs);
    RecordedShape(start, s.pools[id], evs);
    CommittedFollows(sha, s, e, ss[k + 1], id);
    if ClaimsFrom(e.tx, id) {
      ClaimSeated(sha, s, e, ss[k + 1], id);
    }
    EventTakes(sha, s.(now := e.now), e.tx, id, start, evs, ss[k + 1]);
  }

  lemma ClaimSeated(sha: Sha, s: State, e: Entry, t: State, id: Hash)
    requires Committed(sha, s, e, t) && ClaimsFrom(e.tx, id) && id in s.pools
    ensures EventOf(s.(now := e.now), e.tx, id) != []
  {
    hide Shape, Covered, Apply, StepCheck, Balance, Cost;
  }

  lemma EventTakes(sha: Sha, s: State, tx: Tx, id: Hash, start: Circle, evs: seq<Event>, t: State)
    requires CircleInv(start) && start.round == 0 && start.status == Forming
    requires id in s.pools && Shape(s.pools[id]) && Replay(sha, start, evs) == Some(s.pools[id])
    requires Follows(sha, s, EventOf(s, tx, id), id, t) && (ClaimsFrom(tx, id) ==> EventOf(s, tx, id) != [])
    ensures id in t.pools
    ensures var c, r := s.pools[id], t.pools[id];
      && (ClaimsFrom(tx, id) ==> Due(sha, start, evs, c, s.now))
      && (Sum(r.defaults) != Sum(c.defaults) ==> ClaimsFrom(tx, id) && !FullyPaid(c))
      && (Sum(r.deposits) < Sum(c.deposits) ==>
        || tx.body == CircleStep(id, Step.Cancel)
        || (ClaimsFrom(tx, id) && (!FullyPaid(c) || r.status == Done)))
  {
    hide Amounts, Books, Seats, Phase, Pledges, Distinct, Next, Due, FullyPaid, Sum, Balance, Replay;
    var more := EventOf(s, tx, id);
    if more != [] {
      TakenOnlyWhenDue(sha, start, evs, more[0]);
    }
  }

  lemma RecordedShape(start: Circle, c: Circle, evs: seq<Event>)
    requires Recorded(start, c, evs)
    ensures Shape(c)
  {}

  lemma OpenedFresh(tx: Tx)
    requires GoodTx(tx) && tx.body.OpenCircle?
    ensures CircleInv(OpenedAs(tx)) && OpenedAs(tx).round == 0 && OpenedAs(tx).status == Forming
  {
    hide GoodTerms;
    NewCircleInv(tx.id, tx.asset, tx.from, tx.body.members, tx.body.terms);
  }
}
