/**
  Who may do what in a circle, and what each operation records: every rule in both directions, and for every operation
  the sender's own record, everybody else's, and what the sender receives.
 */
module CircleLaws {
  import opened Arithmetic
  import opened Core
  import opened Sequences
  import opened Circles
  import opened CircleBooks
  import opened CircleSteps

  // ---------------------------------------------------------------- who may do what

  /** What a member has paid toward the present round. */
  function PaidIn(c: Circle, k: nat): int
    requires Shape(c) && k < |c.members|
  {
    if c.paidAmt != [] then c.paidAmt[k] else if c.paid[k] then c.terms.contribution else 0
  }

  /** Every member has paid the whole contribution of this round. */
  ghost predicate FullyPaid(c: Circle)
    requires Shape(c)
  {
    forall k :: 0 <= k < |c.members| ==> PaidIn(c, k) == c.terms.contribution
  }

  /** The contributions of this round were due. */
  predicate PastDue(c: Circle, now: int) {
    c.terms.roundSecs > 0 && now >= c.startedAt + 1000 * (c.terms.roundSecs * (c.round + 1))
  }

  /** Rounds a member still has to pay, the present one included unless it is paid. */
  function RoundsToPay(c: Circle, i: nat): int
    requires Shape(c) && i < |c.members|
  {
    if c.status == Active && c.paid[i] then |c.members| - c.round - 1 else |c.members| - c.round
  }

  /** The rounds that old and new autopay money cover, as a 64-bit number. */
  function RoundsCovered(c: Circle, i: nat, amount: int): int
    requires Shape(c) && i < |c.members|
  {
    (At(c.prepaid, i) / c.terms.contribution + amount / c.terms.contribution) % TWO64
  }

  /** When member i, whose account holds bal, may take this step. */
  ghost predicate MayStep(c: Circle, i: nat, op: Step, now: int, bal: int)
    requires Shape(c) && i < |c.members|
  {
    match op
    case Join => c.status == Forming && !c.joined[i]
    case Contribute(a) =>
      && c.status == Active
      && if c.terms.mode == Goal then a > 0 && c.balance + a < TWO64
         else PaidIn(c, i) < c.terms.contribution && PaidIn(c, i) + a <= c.terms.contribution
    case Claim =>
      && c.terms.mode != Goal && c.status == Active && Collects(c, i) && (FullyPaid(c) || PastDue(c, now))
      && bal + c.terms.contribution * |c.members| < TWO64
    case Bid(d) =>
      c.terms.mode == Bidding && c.status == Active && !c.claimed[i] && 2 * d <= c.terms.contribution * |c.members|
    case Swap(other) =>
      && c.terms.mode in {Rotation, Lottery} && c.status in {Forming, Active}
      && exists j :: 0 <= j < |c.members| && MaySwap(c, i, j, other)
    case Withdraw =>
      && c.terms.mode == Goal && c.saved[i] > 0 && bal + c.saved[i] < TWO64
      && (c.status == Done
         || (c.terms.roundSecs > 0 && c.startedAt > 0 && now >= c.startedAt + 1000 * c.terms.roundSecs))
    case Autopay(a) =>
      && c.terms.mode != Goal && c.status in {Forming, Active} && a % c.terms.contribution == 0
      && (RoundsCovered(c, i, a) <= RoundsToPay(c, i) || RoundsCovered(c, i, a) >= TWO64 / 2)
    case StopAutopay => c.prepaid != [] && c.prepaid[i] > 0
    case Cancel => c.members[i] == c.creator && c.status == Forming
  }

  /** Member j is the other one, and neither turn was paid out or is being collected. */
  predicate MaySwap(c: Circle, i: nat, j: nat, other: Address)
    requires Shape(c) && i < |c.members| && j < |c.members|
  {
    && c.members[j] == other && j != i && !c.claimed[i] && !c.claimed[j]
    && (c.status == Active ==> c.round != i && c.round != j)
  }

  lemma PaidMeans(c: Circle, i: nat)
    requires Shape(c) && RoundBooks(c) && c.terms.mode != Goal && i < |c.members|
    ensures c.paid[i] <==> PaidIn(c, i) == c.terms.contribution
    ensures 0 <= PaidIn(c, i) <= c.terms.contribution && Need(c, i) == c.terms.contribution - PaidIn(c, i)
    ensures AllPaid(c) <==> FullyPaid(c)
  {
    forall k | 0 <= k < |c.members| ensures PaidList(c)[k] == PaidIn(c, k) {}
    if AllPaid(c) {
      assert forall k :: 0 <= k < |c.members| ==> c.paid[k];
    }
  }

  lemma ClaimExactly(c: Circle, i: nat, from: Address, now: int, bal: int)
    requires CircleInv(c) && i < |c.members|
    ensures StepCheck(c, i, Step.Claim, from, now, bal) == None <==> MayStep(c, i, Step.Claim, now, bal)
  {
    if c.terms.mode != Goal && c.status == Active {
      RecipientCollects(c, i);
      PaidMeans(c, i);
      DueMeans(c, now);
    }
    hide CircleInv, FullyPaid, AllPaid, Recipient, Collects, PastDue, DueAt;
  }

  lemma DueMeans(c: Circle, now: int)
    ensures Scheduled(c) && now >= DueAt(c, c.round) <==> PastDue(c, now)
  {
    assert (c.round + 1) * c.terms.roundSecs * 1000 == 1000 * (c.terms.roundSecs * (c.round + 1));
  }

  lemma SwapExactly(c: Circle, i: nat, other: Address, from: Address, now: int, bal: int)
    requires CircleInv(c) && i < |c.members|
    ensures StepCheck(c, i, Step.Swap(other), from, now, bal) == None <==> MayStep(c, i, Step.Swap(other), now, bal)
  {
    hide Amounts, Books, Seats, Phase, Pledges;
    var j := Index(c.members, other);
    if j >= 0 {
      assert forall k :: 0 <= k < |c.members| && c.members[k] == other ==> k == j;
      if StepCheck(c, i, Step.Swap(other), from, now, bal) == None {
        assert MaySwap(c, i, j, other);
      }
    }
  }

  lemma ContributeExactly(c: Circle, i: nat, a: int, from: Address, now: int, bal: int)
    requires CircleInv(c) && i < |c.members| && 0 <= a
    ensures StepCheck(c, i, Step.Contribute(a), from, now, bal) == None
      <==> MayStep(c, i, Step.Contribute(a), now, bal)
  {
    if c.terms.mode != Goal {
      PaidMeans(c, i);
    }
    hide CircleInv, Need, PaidIn, FullyPaid;
  }

  lemma AutopayExactly(c: Circle, i: nat, a: int, from: Address, now: int, bal: int)
    requires CircleInv(c) && i < |c.members| && 0 <= a
    ensures StepCheck(c, i, Step.Autopay(a), from, now, bal) == None <==> MayStep(c, i, Step.Autopay(a), now, bal)
  {
    RoundsInRange(c, i);
    hide CircleInv;
  }

  lemma RoundsInRange(c: Circle, i: nat)
    requires CircleInv(c) && i < |c.members|
    ensures 0 <= c.round && RoundsLeft(c, i) == RoundsToPay(c, i) && -1 <= RoundsToPay(c, i) <= 50
  {}

  /** The rules allow a step exactly when it is due to its sender. */
  lemma StepsExactly(c: Circle, i: nat, op: Step, now: int, bal: int)
    requires CircleInv(c) && i < |c.members| && GoodStep(op)
    ensures StepCheck(c, i, op, c.members[i], now, bal) == None <==> MayStep(c, i, op, now, bal)
  {
    hide StepCheck, MayStep;
    var from := c.members[i];
    match op
    case Contribute(a) => ContributeExactly(c, i, a, from, now, bal);
    case Claim => ClaimExactly(c, i, from, now, bal);
    case Swap(other) => SwapExactly(c, i, other, from, now, bal);
    case Autopay(a) => AutopayExactly(c, i, a, from, now, bal);
    case _ => OtherExactly(c, i, op, now, bal);
  }

  lemma OtherExactly(c: Circle, i: nat, op: Step, now: int, bal: int)
    requires CircleInv(c) && i < |c.members| && GoodStep(op)
    requires op.Join? || op.Bid? || op.Withdraw? || op.StopAutopay? || op.Cancel?
    ensures StepCheck(c, i, op, c.members[i], now, bal) == None <==> MayStep(c, i, op, now, bal)
  {
    hide Books, Seats, Phase, Pledges, Collects, FullyPaid;
  }

  // ---------------------------------------------------------------- what an operation records

  /** A member's record, with what was paid this round and what is set aside as numbers. */
  function Record(c: Circle, k: nat): (r: Seat)
    requires Shape(c) && k < |c.members|
  {
    SeatOf(c, k).(paidAmt := Some(PaidIn(c, k)), prepaid := Some(At(c.prepaid, k)))
  }

  /** Member i's record became s, and everybody else's is as it was. */
  ghost predicate OnlyRecord(c: Circle, i: nat, s: Seat, r: Circle)
    requires Shape(c) && Shape(r) && i < |c.members|
  {
    && |r.members| == |c.members|
    && forall k :: 0 <= k < |c.members| ==> Record(r, k) == if k == i then s else Record(c, k)
  }

  /** Nothing but records, the pot and the situation changed. */
  ghost predicate SameElse(c: Circle, r: Circle) {
    && r.id == c.id && r.asset == c.asset && r.creator == c.creator && r.terms == c.terms && r.round == c.round
    && r.startedAt == c.startedAt && r.insurance == c.insurance
  }

  /** A bid is on record for its sender alone. */
  lemma BidRecorded(sha: Sha, c: Circle, i: nat, d: int, now: int, bal: int)
    requires CircleInv(c) && i < |c.members| && StepCheck(c, i, Step.Bid(d), c.members[i], now, bal) == None
    ensures var p := StepEffect(sha, c, i, Step.Bid(d), c.members[i], now, bal);
      && OnlyRecord(c, i, Record(c, i).(bid := Some(d)), p.circle) && SameElse(c, p.circle) && p.credits == []
      && p.circle.balance == c.balance && p.circle.status == c.status
  {
    hide Books, Amounts, Seats, Phase, Pledges;
  }

  /** A payment toward the round is on record for its sender alone; without an amount it is all that is still owed. */
  lemma PaymentRecorded(sha: Sha, c: Circle, i: nat, a: int, now: int, bal: int)
    requires CircleInv(c) && i < |c.members| && c.terms.mode != Goal && 0 <= a
      && StepCheck(c, i, Step.Contribute(a), c.members[i], now, bal) == None
    ensures var p := StepEffect(sha, c, i, Step.Contribute(a), c.members[i], now, bal);
      var sum := if a == 0 then c.terms.contribution else PaidIn(c, i) + a;
      && OnlyRecord(c, i, Record(c, i).(paidAmt := Some(sum), paid := sum == c.terms.contribution), p.circle)
      && SameElse(c, p.circle) && p.credits == [] && p.circle.status == c.status
      && p.circle.balance == c.balance + sum - PaidIn(c, i)
  {
    PaidMeans(c, i);
    hide Amounts, Seats, Phase, Pledges, RoundBooks;
    var v := if a == 0 then Need(c, i) else a;
    PayInRecorded(c, i, v);
  }

  /** A payment writes the pot and two slices. */
  lemma PayInLeaves(c: Circle, i: nat, v: int)
    requires Shape(c) && i < |c.members| && c.terms.mode != Goal
    ensures var r := PayIn(c, i, v); r == c.(paid := r.paid, paidAmt := r.paidAmt, balance := c.balance + v)
  {
    hide PaidList;
  }

  lemma PaidInList(c: Circle, k: nat)
    requires Shape(c) && k < |c.members|
    ensures PaidList(c)[k] == PaidIn(c, k)
  {}

  /** The record of a circle that differs in these two slices. */
  lemma RecordPaid(c: Circle, r: Circle, k: nat)
    requires Shape(c) && Shape(r) && k < |c.members|
      && r == c.(paid := r.paid, paidAmt := r.paidAmt, balance := r.balance)
    ensures Record(r, k) == Record(c, k).(paid := r.paid[k], paidAmt := Some(PaidIn(r, k)))
  {}

  lemma PayInRecorded(c: Circle, i: nat, v: int)
    requires Shape(c) && RoundBooks(c) && i < |c.members| && c.terms.mode != Goal && 0 <= v <= Need(c, i)
    ensures var r, sum := PayIn(c, i, v), PaidIn(c, i) + v;
      && OnlyRecord(c, i, Record(c, i).(paidAmt := Some(sum), paid := sum == c.terms.contribution), r)
      && SameElse(c, r) && r.status == c.status && r.balance == c.balance + v
  {
    PaidMeans(c, i);
    hide RoundBooks, Record, PaidIn, PaidList, PayIn, FullyPaid, AllPaid;
    PayInBooks(c, i, v);
    PayInLeaves(c, i, v);
    var r := PayIn(c, i, v);
    forall k | 0 <= k < |c.members|
      ensures Record(r, k) == if k == i then
        Record(c, i).(paidAmt := Some(PaidIn(c, i) + v), paid := PaidIn(c, i) + v == c.terms.contribution)
        else Record(c, k)
    {
      PaidInList(r, k);
      PaidInList(c, k);
      PaidInList(c, i);
      RecordPaid(c, r, k);
      RecordPaid(c, c, k);
    }
  }

  /** Savings are on record for their sender alone, and the goal is reached exactly when the circle holds its target. */
  lemma SavingsRecorded(sha: Sha, c: Circle, i: nat, a: int, now: int, bal: int)
    requires CircleInv(c) && i < |c.members| && c.terms.mode == Goal
      && StepCheck(c, i, Step.Contribute(a), c.members[i], now, bal) == None
    ensures var p := StepEffect(sha, c, i, Step.Contribute(a), c.members[i], now, bal);
      && OnlyRecord(c, i, Record(c, i).(saved := Some(c.saved[i] + a)), p.circle) && SameElse(c, p.circle)
      && p.credits == [] && p.circle.balance == c.balance + a
      && p.circle.status == if c.balance + a >= c.terms.target then Done else Active
  {
    hide Books, Amounts, Seats, Phase, Pledges;
  }

  lemma LastOut(w: seq<bool>, i: nat)
    requires i < |w|
    ensures false !in w[i := true] <==> forall k :: 0 <= k < |w| && k != i ==> w[k]
  {
    var out := w[i := true];
    if false !in out {
      forall k | 0 <= k < |w| && k != i ensures w[k] {
        assert out[k] == w[k];
      }
    }
  }

  /** A withdrawal brings its sender exactly their own savings, and empties their record alone. */
  lemma WithdrawalPaid(sha: Sha, c: Circle, i: nat, now: int, bal: int)
    requires CircleInv(c) && i < |c.members|
      && StepCheck(c, i, Step.Withdraw, c.members[i], now, bal) == None
    ensures c.terms.mode == Goal
    ensures var p := StepEffect(sha, c, i, Step.Withdraw, c.members[i], now, bal);
      && p.credits == [Credit(c.members[i], c.saved[i])]
      && OnlyRecord(c, i, Record(c, i).(saved := Some(0), withdrawn := Some(true)), p.circle)
      && SameElse(c, p.circle) && p.circle.balance == c.balance - c.saved[i]
    ensures var p := StepEffect(sha, c, i, Step.Withdraw, c.members[i], now, bal);
      p.circle.status ==
        if forall k :: 0 <= k < |c.members| && k != i ==> c.withdrawn[k] then Done else c.status
  {
    hide Books, Amounts, Seats, Phase, Pledges;
    LastOut(c.withdrawn, i);
    WithdrawRecords(c, i, c.members[i]);
    hide Record;
  }

  lemma WithdrawRecords(c: Circle, i: nat, from: Address)
    requires Shape(c) && i < |c.members| && c.terms.mode == Goal
    ensures OnlyRecord(c, i, Record(c, i).(saved := Some(0), withdrawn := Some(true)), WithdrawFrom(c, i, from).circle)
  {}

  /** Stopping autopay brings its sender exactly their own reserve, and empties their record alone. */
  lemma ReserveReturned(sha: Sha, c: Circle, i: nat, now: int, bal: int)
    requires CircleInv(c) && i < |c.members|
      && StepCheck(c, i, Step.StopAutopay, c.members[i], now, bal) == None
    ensures c.prepaid != []
    ensures var p := StepEffect(sha, c, i, Step.StopAutopay, c.members[i], now, bal);
      && p.credits == [Credit(c.members[i], c.prepaid[i])]
      && OnlyRecord(c, i, Record(c, i).(prepaid := Some(0)), p.circle) && SameElse(c, p.circle)
      && p.circle.balance == c.balance && p.circle.status == c.status
  {
    hide Books, Amounts, Seats, Phase, Pledges;
  }

  /** Somebody else is still out. */
  predicate OthersOut(c: Circle, i: nat)
    requires Shape(c) && i < |c.members|
  {
    exists k :: 0 <= k < |c.members| && k != i && !c.joined[k]
  }

  lemma AdmitOut(c: Circle, i: nat)
    requires Shape(c) && i < |c.members|
    ensures false in Admit(c, i).joined <==> OthersOut(c, i)
  {
    var d := Admit(c, i);
    if false in d.joined {
      var k :| 0 <= k < |d.joined| && !d.joined[k];
    }
    if k :| 0 <= k < |c.members| && k != i && !c.joined[k] {
      assert d.joined[k] == false;
    }
  }

  /** A member who joins is in, with the deposit put down where the circle keeps deposits. */
  lemma AdmitRecorded(c: Circle, i: nat)
    requires Shape(c) && i < |c.members|
    ensures var s := Record(c, i).(joined := true,
      deposit := if c.deposits == [] then None else Some(c.terms.deposit));
      OnlyRecord(c, i, s, Admit(c, i)) && SameElse(c, Admit(c, i)) && Admit(c, i).balance == c.balance
    ensures Admit(c, i).status == c.status && (false in Admit(c, i).joined <==> OthersOut(c, i))
  {
    AdmitOut(c, i);
    hide OthersOut;
  }

  /**
    A join records its sender's deposit and nothing else while somebody is out; the last one starts the circle, at that
    time, with every record of those who joined.
   */
  lemma JoinRecorded(sha: Sha, c: Circle, i: nat, now: int, bal: int)
    requires CircleInv(c) && i < |c.members| && StepCheck(c, i, Step.Join, c.members[i], now, bal) == None
    ensures var p, d := StepEffect(sha, c, i, Step.Join, c.members[i], now, bal), Admit(c, i);
      && p.credits == []
      && (OthersOut(c, i) ==> p.circle == d)
      && (!OthersOut(c, i) ==>
        && p.circle.status == Active && p.circle.startedAt == now
        && var a := d.(status := Active, startedAt := now);
          p.circle == RunAutopay(if c.terms.mode == Lottery then DrawOrder(sha, a) else a))
  {
    AdmitRecorded(c, i);
    hide Books, Amounts, Seats, Phase, Pledges, DrawOrder, OthersOut;
    if !OthersOut(c, i) {
      StartSituation(sha, Admit(c, i), now);
    }
  }

  lemma StartSituation(sha: Sha, c: Circle, now: int)
    requires Shape(c)
    ensures Start(sha, c, now).status == Active && Start(sha, c, now).startedAt == now
  {
    var a := c.(status := Active, startedAt := now);
    DrawSituation(sha, a, |a.members| - 1, sha.start(a.id, a.startedAt));
    AutopaySituation(if a.terms.mode == Lottery then DrawOrder(sha, a) else a);
  }

  lemma {:induction false} DrawSituation(sha: Sha, c: Circle, k: nat, seed: Hash)
    requires Shape(c) && k < |c.members|
    ensures DrawFrom(sha, c, k, seed).status == c.status && DrawFrom(sha, c, k, seed).startedAt == c.startedAt
    decreases k
  {
    hide Pick, Shape;
    if k > 0 {
      DrawSituation(sha, SwapIdx(c, k, Pick(sha, sha.next(seed), k)), k - 1, sha.next(seed));
    }
  }

  lemma {:induction false} AutopayToSituation(c: Circle, k: nat)
    requires Shape(c) && c.prepaid != [] && k <= |c.members|
    ensures AutopayTo(c, k).status == c.status && AutopayTo(c, k).startedAt == c.startedAt
  {
    if k > 0 {
      AutopayToSituation(c, k - 1);
    }
  }

  lemma AutopaySituation(c: Circle)
    requires Shape(c)
    ensures RunAutopay(c).status == c.status && RunAutopay(c).startedAt == c.startedAt
  {
    if c.prepaid != [] {
      AutopayToSituation(c, |c.members|);
    }
  }

  // ---------------------------------------------------------------- autopay

  lemma ReservePut(c: Circle, i: nat, a: int)
    requires Shape(c) && i < |c.members| && c.terms.mode != Goal
    ensures var d := Reserve(c, i, a);
      && OnlyRecord(c, i, Record(c, i).(prepaid := Some(At(c.prepaid, i) + a)), d) && SameElse(c, d)
      && d.balance == c.balance && d.status == c.status
  {}

  /** Autopay money is on record for its sender alone; then autopay runs for everybody. */
  lemma ReserveRecorded(sha: Sha, c: Circle, i: nat, a: int, now: int, bal: int)
    requires CircleInv(c) && i < |c.members|
      && StepCheck(c, i, Step.Autopay(a), c.members[i], now, bal) == None
    ensures c.terms.mode != Goal
    ensures var p, d := StepEffect(sha, c, i, Step.Autopay(a), c.members[i], now, bal), Reserve(c, i, a);
      && OnlyRecord(c, i, Record(c, i).(prepaid := Some(At(c.prepaid, i) + a)), d) && SameElse(c, d)
      && d.balance == c.balance && d.status == c.status && p.circle == RunAutopay(d) && p.credits == []
  {
    hide Books, Amounts, Seats, Phase, Pledges, RunAutopay, OnlyRecord, Record, SameElse, Reserve;
    ReservePut(c, i, a);
  }

  /** What autopay makes of a record: the whole need is paid if the reserve reaches it, and nothing otherwise. */
  function Served(c: Circle, k: nat): Seat
    requires Shape(c) && k < |c.members|
  {
    var need := c.terms.contribution - PaidIn(c, k);
    if c.status == Active && need > 0 && At(c.prepaid, k) >= need then
      Record(c, k).(paid := true, paidAmt := Some(c.terms.contribution), prepaid := Some(At(c.prepaid, k) - need))
    else Record(c, k)
  }

  lemma AutopayStepServes(c: Circle, j: nat, k: nat)
    requires Shape(c) && RoundBooks(c) && NonNeg(c.prepaid) && c.prepaid != [] && c.terms.mode != Goal
      && j < |c.members| && k < |c.members| && c.status == Active
    ensures Record(AutopayStep(c, j), k) == if k == j then Served(c, k) else Record(c, k)
  {
    PaidMeans(c, j);
    hide RoundBooks, PayIn, FullyPaid, AllPaid, Record;
    var need := Need(c, j);
    if !c.paid[j] && c.prepaid[j] >= need {
      var d := c.(prepaid := c.prepaid[j := c.prepaid[j] - need]);
      SameRound(c, d);
      RecordPrepaid(c, d, k);
      PayInRecorded(d, j, need);
    }
  }

  lemma RecordPrepaid(c: Circle, d: Circle, k: nat)
    requires Shape(c) && Shape(d) && d == c.(prepaid := d.prepaid) && k < |c.members| && d.prepaid != []
    ensures Record(d, k) == Record(c, k).(prepaid := Some(d.prepaid[k])) && PaidIn(d, k) == PaidIn(c, k)
  {}

  /** The books of the round do not look at the money set aside. */
  lemma SameRound(c: Circle, d: Circle)
    requires Shape(c) && Shape(d) && d == c.(prepaid := d.prepaid) && RoundBooks(c)
    ensures RoundBooks(d)
  {
    assert PaidList(d) == PaidList(c);
  }

  lemma {:induction false} AutopayToServes(c: Circle, j: nat, k: nat)
    requires Shape(c) && RoundBooks(c) && NonNeg(c.prepaid) && c.prepaid != [] && c.terms.mode != Goal
      && j <= |c.members| && k < |c.members| && c.status == Active
    ensures Record(AutopayTo(c, j), k) == if k < j then Served(c, k) else Record(c, k)
    ensures AutopayTo(c, j).status == c.status && AutopayTo(c, j).terms == c.terms
  {
    hide RoundBooks, Record, AutopayStep;
    if j > 0 {
      var m := AutopayTo(c, j - 1);
      AutopayToServes(c, j - 1, k);
      AutopayToBooks(c, j - 1);
      AutopayToBooks(c, j);
      AutopayStepServes(m, j - 1, k);
      ServedAlike(m, c, k);
    }
  }

  /** What autopay makes of a record depends on the record alone. */
  lemma ServedAlike(m: Circle, c: Circle, k: nat)
    requires Shape(m) && Shape(c) && k < |c.members| == |m.members| && m.status == c.status && m.terms == c.terms
    ensures Record(m, k) == Record(c, k) ==> Served(m, k) == Served(c, k)
  {}

  /** Autopay serves every member of an active circle as said, and touches nothing else but the pot. */
  lemma AutopayServes(c: Circle, k: nat)
    requires CircleInv(c) && c.terms.mode != Goal && k < |c.members|
    ensures Record(RunAutopay(c), k) == Served(c, k) && SameElse(c, RunAutopay(c))
    ensures |RunAutopay(c).members| == |c.members| && RunAutopay(c).status == c.status
  {
    RunAutopayBooks(c);
    PaidMeans(c, k);
    hide Seats, Phase, Pledges, RoundBooks, Record, FullyPaid;
    if c.prepaid != [] && c.status == Active {
      AutopayToServes(c, |c.members|, k);
    } else {
      NilServed(c, k);
    }
  }

  lemma NilServed(c: Circle, k: nat)
    requires Shape(c) && k < |c.members| && (c.prepaid == [] || c.status != Active)
    ensures Served(c, k) == Record(c, k)
  {}

  // ---------------------------------------------------------------- swaps, turns and creation

  /** Whom a member has asked to swap with. */
  function Request(c: Circle, k: nat): Address
    requires Shape(c) && k < |c.members|
  {
    if c.swapWith == [] then NoAddress else c.swapWith[k]
  }

  /**
    A request is on record for its sender alone; when the other one had asked for the sender, all requests are gone
    with the swap.
   */
  lemma SwapRecorded(sha: Sha, c: Circle, i: nat, other: Address, now: int, bal: int, k: nat)
    requires CircleInv(c) && i < |c.members| && k < |c.members|
      && StepCheck(c, i, Step.Swap(other), c.members[i], now, bal) == None
    ensures other in c.members
    ensures var p, j := StepEffect(sha, c, i, Step.Swap(other), c.members[i], now, bal), Index(c.members, other);
      && |p.circle.members| == |c.members| && p.credits == []
      && Request(p.circle, k) == if Request(c, j) == c.members[i] then NoAddress
        else if k == i then other else Request(c, k)
  {
    hide Books, Amounts, Seats, Phase, Pledges, SwapIdx;
    assert c.members[i] != NoAddress;
  }

  /** The round turns over: a record of the next round, from that of this one with missed payments covered. */
  lemma RoundTurns(c: Circle, i: nat, k: nat)
    requires CircleInv(c) && c.terms.mode != Goal && i < |c.members| && k < |c.members|
    ensures var m := CoverTo(c, |c.members|); var next := NextRound(m, i);
      && |next.members| == |c.members| == |m.members|
      && Record(next, k) == Record(m, k).(paid := false, paidAmt := Some(0), claimed := c.claimed[k] || k == i,
        bid := if c.bids == [] then None else Some(0),
        paidOut := if c.paidOut == [] then None else if k == i then Some(Winnings(m, i)) else Some(c.paidOut[k]))
      && Record(m, k) == Record(c, k).(deposit := Record(m, k).deposit, defaulted := Record(m, k).defaulted)
      && SameElse(c, next.(round := c.round, insurance := c.insurance)) && next.round == c.round + 1
    ensures Payout(c, i).circle == if c.round + 1 < |c.members| then RunAutopay(NextRound(CoverTo(c, |c.members|), i))
      else Close(NextRound(CoverTo(c, |c.members|), i)).circle
  {
    CoverLeaves(c, |c.members|);
    hide CoverTo, Winnings, RoundBooks, Amounts, Seats, Phase, Pledges;
  }

  lemma {:induction false} CoverLeaves(c: Circle, k: nat)
    requires Shape(c) && c.terms.mode != Goal && k <= |c.members|
    ensures var r := CoverTo(c, k);
      r == c.(deposits := r.deposits, defaults := r.defaults, insurance := r.insurance, balance := r.balance)
  {
    hide Shape, Need;
    if k > 0 {
      CoverLeaves(c, k - 1);
    }
  }

  /**
    A new circle: its creator is in and has put down the deposit, nobody else is, nothing is paid and nothing has
    started.
   */
  lemma CircleOpened(id: Hash, asset: Asset, from: Address, members: seq<Address>, t: Terms, k: nat)
    requires GoodTerms(members, t, from) && k < |members|
    ensures var c, kept, savings := NewCircle(id, asset, from, members, t), t.roundSecs > 0 && t.mode != Goal,
      t.mode == Goal;
      && Shape(c) && c.id == id && c.asset == asset && c.creator == from && c.members == members && c.terms == t
      && c.status == Forming && c.round == 0 && c.startedAt == 0 && c.balance == 0 && c.insurance == 0
      && Record(c, k) == Seat(members[k], members[k] == from, false, false,
        if kept then Some(if members[k] == from then t.deposit else 0) else None, if kept then Some(0) else None,
        if kept then Some(0) else None, Some(0), Some(0), if t.mode == Bidding then Some(0) else None,
        if savings then Some(0) else None, if savings then Some(false) else None, None)
  {
    NewCircleInv(id, asset, from, members, t);
    hide Amounts, Books, Seats, Phase, Pledges, GoodTerms;
    assert Distinct(members) && from in members by { DistinctMembers(members, t, from); }
    assert Index(members, from) >= 0;
  }

  lemma DistinctMembers(members: seq<Address>, t: Terms, from: Address)
    requires GoodTerms(members, t, from)
    ensures Distinct(members) && from in members
  {}
}
