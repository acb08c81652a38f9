/**
  Circles in ledger runs: the history of every circle is read off the committed transactions, so what holds over circle
  histories holds on the ledger; and autopay money over a circle's history.
 */
module CircleHistories {
  import opened Core
  import opened Sequences
  import opened Circles
  import opened CircleBooks
  import opened CircleSteps
  import opened CircleRuns
  import opened CircleAutopay
  import opened Escrows
  import opened Ledger
  import opened LedgerSafety
  import opened LedgerRuns

  // ---------------------------------------------------------------- one transaction, one circle

  /** What a transaction is to an existing circle: an operation on it, a recovery, or nothing. */
  function EventOf(s: State, tx: Tx, id: Hash): seq<Event> {
    match tx.body
    case CircleStep(pool, step) =>
      if pool != id || id !in s.pools then []
      else
        var c := s.pools[id];
        var i := Index(c.members, tx.from);
        if i < 0 then [] else [Operated(i, step, s.now, Balance(s.accounts, tx.from, c.asset))]
    case Guard(op) =>
      if op.Finish? && op.account in s.guards && s.guards[op.account].pending.Some?
      then [Rekeyed(op.account, s.guards[op.account].pending.value.newOwner)] else []
    case _ => []
  }

  lemma SettlePools(s: State, tx: Tx, cost: int)
    requires tx.asset != ORP ==> tx.asset in s.defs
    ensures Settle(s, tx, cost).pools == s.pools
  {}

  /** The circle in state t is the one in state s after this event, if any. */
  ghost predicate Follows(sha: Sha, s: State, evs: seq<Event>, id: Hash, t: State)
    requires id in s.pools && Shape(s.pools[id])
  {
    && id in t.pools && |evs| <= 1
    && (if evs == [] then t.pools[id] == s.pools[id] else Next(sha, s.pools[id], evs[0]) == Some(t.pools[id]))
  }

  lemma StepFollows(sha: Sha, s: State, tx: Tx, id: Hash)
    requires Shaped(s) && GoodTx(tx) && Check(s, tx) == None && id in s.pools && tx.body.CircleStep?
    ensures Follows(sha, s, EventOf(s, tx, id), id, Effect(sha, s, tx))
  {
    hide Shape, StepCheck, StepEffect, Balance, Stake, GoodStep;
    var c := s.pools[tx.body.pool];
    assert Index(c.members, tx.from) >= 0;
  }

  lemma TargetNamed(s: State, account: Address)
    requires TargetsOk(s.guards) && account in s.guards && s.guards[account].pending.Some?
    ensures s.guards[account].pending.value.newOwner.Key?
  {
    assert TargetOk(account, s.guards[account]);
  }

  lemma GuardFollows(sha: Sha, s: State, tx: Tx, id: Hash)
    requires Shaped(s) && GoodTx(tx) && Check(s, tx) == None && id in s.pools && tx.body.Guard? && TargetsOk(s.guards)
    ensures Follows(sha, s, EventOf(s, tx, id), id, Effect(sha, s, tx))
  {
    hide Shape, Shaped, Check, RenameCircle, RenameEscrow, MoveHoldings, Started, Approved, TargetsOk;
    GuardAllowed(s, tx);
    if tx.body.op.Finish? {
      TargetNamed(s, tx.body.op.account);
    }
  }

  lemma OpeningFollows(sha: Sha, s: State, tx: Tx, id: Hash)
    requires Shaped(s) && GoodTx(tx) && Check(s, tx) == None && id in s.pools && tx.body.OpenCircle?
    ensures Follows(sha, s, EventOf(s, tx, id), id, Effect(sha, s, tx))
  {
    assert tx.id !in s.pools;
    hide Shape, Shaped, NewCircle, Balance, Check, Rule, GoodTx, GuardCheck;
  }

  lemma ActPools(sha: Sha, s: State, tx: Tx)
    requires Shaped(s) && GoodTx(tx) && Check(s, tx) == None && tx.body.EscrowAct?
    ensures Effect(sha, s, tx).pools == s.pools
  {
    hide Shape, EscrowEffect, CreditsApplied, Balance;
  }

  lemma EscrowPools(sha: Sha, s: State, tx: Tx)
    requires Shaped(s) && GoodTx(tx) && Check(s, tx) == None && tx.body.OpenEscrow?
    ensures Effect(sha, s, tx).pools == s.pools
  {
    hide Shape, Shaped, NewEscrow, GoodTx, Check;
  }

  lemma PaymentPools(sha: Sha, s: State, tx: Tx)
    requires Shaped(s) && GoodTx(tx) && Check(s, tx) == None && (tx.body.Transfer? || tx.body.Mint? || tx.body.Burn?)
    ensures Effect(sha, s, tx).pools == s.pools
  {
    hide Shape, Shaped, CreditTo, IssuedOf, GoodTx, Check;
  }

  lemma OtherPools(sha: Sha, s: State, tx: Tx)
    requires Shaped(s) && GoodTx(tx) && Check(s, tx) == None && !tx.body.CircleStep? && !tx.body.Guard?
      && !tx.body.OpenCircle?
    ensures Effect(sha, s, tx).pools == s.pools
  {
    hide Shaped, Effect, GoodTx, Check;
    match tx.body {
      case EscrowAct(_, _) => ActPools(sha, s, tx);
      case OpenEscrow(_) => EscrowPools(sha, s, tx);
      case _ => PaymentPools(sha, s, tx);
    }
  }

  lemma OtherFollows(sha: Sha, s: State, tx: Tx, id: Hash)
    requires Shaped(s) && GoodTx(tx) && Check(s, tx) == None && id in s.pools
    requires !tx.body.CircleStep? && !tx.body.Guard? && !tx.body.OpenCircle?
    ensures Follows(sha, s, EventOf(s, tx, id), id, Effect(sha, s, tx))
  {
    hide Shape, Shaped, Check, GoodTx, Effect, Next, Balance;
    OtherPools(sha, s, tx);
  }

  lemma EffectFollows(sha: Sha, s: State, tx: Tx, id: Hash)
    requires Shaped(s) && GoodTx(tx) && Check(s, tx) == None && id in s.pools && TargetsOk(s.guards)
    ensures Follows(sha, s, EventOf(s, tx, id), id, Effect(sha, s, tx))
  {
    hide Shaped, GoodTx, Check, Follows, Effect, EventOf;
    if tx.body.CircleStep? {
      StepFollows(sha, s, tx, id);
    } else if tx.body.Guard? {
      GuardFollows(sha, s, tx, id);
    } else if tx.body.OpenCircle? {
      OpeningFollows(sha, s, tx, id);
    } else {
      OtherFollows(sha, s, tx, id);
    }
  }

  lemma CommittedFollows(sha: Sha, s: State, e: Entry, t: State, id: Hash)
    requires LedgerInv(s) && Committed(sha, s, e, t) && id in s.pools && Shape(s.pools[id])
    ensures Follows(sha, s, EventOf(s.(now := e.now), e.tx, id), id, t)
  {
    var at := s.(now := e.now);
    CheckedAsset(at, e.tx);
    InvParts(s);
    hide Shaped, GoodTx, Check, Effect, EventOf, Settle, Next, Shape, LedgerInv, Parts;
    EffectFollows(sha, at, e.tx, id);
    SettlePools(Effect(sha, at, e.tx), e.tx, Cost(at, e.tx));
  }

  // ---------------------------------------------------------------- whole runs

  /** What the transactions after position i and before k were to a circle. */
  function EventsIn(es: seq<Entry>, ss: seq<State>, id: Hash, i: nat, k: nat): seq<Event>
    requires |ss| == |es| + 1 && k <= |es|
  {
    if k <= i + 1 then []
    else EventsIn(es, ss, id, i, k - 1) + EventOf(ss[k - 1].(now := es[k - 1].now), es[k - 1].tx, id)
  }

  /** Position i opened this circle. */
  predicate OpensAt(es: seq<Entry>, i: nat, id: Hash) { i < |es| && es[i].tx.body.OpenCircle? && es[i].tx.id == id }

  function OpenedAs(tx: Tx): (c: Circle)
    requires GoodTx(tx) && tx.body.OpenCircle?
    ensures Shape(c)
  {
    NewCircleInv(tx.id, tx.asset, tx.from, tx.body.members, tx.body.terms);
    NewCircle(tx.id, tx.asset, tx.from, tx.body.members, tx.body.terms)
  }

  lemma CommittedOpens(sha: Sha, s: State, e: Entry, t: State)
    requires Committed(sha, s, e, t) && e.tx.body.OpenCircle?
    ensures e.tx.id in t.pools && t.pools[e.tx.id] == OpenedAs(e.tx)
  {
    var at := s.(now := e.now);
    CheckedAsset(at, e.tx);
    SettlePools(Effect(sha, at, e.tx), e.tx, Cost(at, e.tx));
    hide Shape, Shaped, NewCircle, Settle, Rule, GoodTerms;
  }

  lemma NextReplays(sha: Sha, start: Circle, evs: seq<Event>, more: seq<Event>, c: Circle, r: Circle)
    requires Shape(start) && Replay(sha, start, evs) == Some(c) && |more| <= 1
    requires if more == [] then r == c else Next(sha, c, more[0]) == Some(r)
    ensures Replay(sha, start, evs + more) == Some(r)
  {
    hide Next, Shape;
    if more == [] {
      assert evs + more == evs;
    } else {
      assert (evs + more)[..|evs + more| - 1] == evs;
    }
  }

  /**
    Every circle of a ledger run is the replay of what the committed transactions were to it, recoveries included,
    from the circle its opening created.
   */
  lemma {:induction false} CircleReplays(sha: Sha, es: seq<Entry>, ss: seq<State>, id: Hash, i: nat, k: nat)
    requires Trace(sha, es, ss) && LedgerInv(ss[0]) && i < k <= |es| && OpensAt(es, i, id)
    ensures GoodTx(es[i].tx) && id in ss[k].pools
    ensures Replay(sha, OpenedAs(es[i].tx), EventsIn(es, ss, id, i, k)) == Some(ss[k].pools[id])
  {
    hide Committed, LedgerInv, EventOf, Follows, Next, GoodTx, Shape, OpenedAs;
    assert Committed(sha, ss[k - 1], es[k - 1], ss[k]);
    CommittedGood(sha, ss[i], es[i], ss[i + 1]);
    if k == i + 1 {
      CommittedOpens(sha, ss[i], es[i], ss[k]);
    } else {
      CircleReplays(sha, es, ss, id, i, k - 1);
      RunKeeps(sha, es, ss, k - 1);
      CommittedFollows(sha, ss[k - 1], es[k - 1], ss[k], id);
      FollowsNext(sha, ss, es, id, i, k);
    }
  }

  lemma CommittedGood(sha: Sha, s: State, e: Entry, t: State)
    requires Committed(sha, s, e, t)
    ensures GoodTx(e.tx)
  {
    hide GoodTx, Shaped, Check, Apply;
  }

  lemma FollowsNext(sha: Sha, ss: seq<State>, es: seq<Entry>, id: Hash, i: nat, k: nat)
    requires |ss| == |es| + 1 && i + 1 < k <= |es| && OpensAt(es, i, id) && GoodTx(es[i].tx) && id in ss[k - 1].pools
    requires Replay(sha, OpenedAs(es[i].tx), EventsIn(es, ss, id, i, k - 1)) == Some(ss[k - 1].pools[id])
    requires Follows(sha, ss[k - 1], EventOf(ss[k - 1].(now := es[k - 1].now), es[k - 1].tx, id), id, ss[k])
    ensures id in ss[k].pools && Replay(sha, OpenedAs(es[i].tx), EventsIn(es, ss, id, i, k)) == Some(ss[k].pools[id])
  {
    hide EventOf, Next, GoodTx, Shape, OpenedAs, Replay;
    var more := EventOf(ss[k - 1].(now := es[k - 1].now), es[k - 1].tx, id);
    NextReplays(sha, OpenedAs(es[i].tx), EventsIn(es, ss, id, i, k - 1), more, ss[k - 1].pools[id], ss[k].pools[id]);
  }

  /** A circle that was not there at the start was opened by a committed transaction. */
  lemma {:induction false} CircleOpened(sha: Sha, es: seq<Entry>, ss: seq<State>, id: Hash, k: nat) returns (i: nat)
    requires Trace(sha, es, ss) && LedgerInv(ss[0]) && k <= |es| && id !in ss[0].pools && id in ss[k].pools
    ensures i < k && OpensAt(es, i, id)
  {
    hide Committed, LedgerInv;
    if id in ss[k - 1].pools {
      i := CircleOpened(sha, es, ss, id, k - 1);
    } else {
      i := k - 1;
      assert Committed(sha, ss[i], es[i], ss[k]);
      RunKeeps(sha, es, ss, i);
      NewPoolOpened(sha, ss[i], es[i], ss[k], id);
    }
  }

  lemma NewPoolOpened(sha: Sha, s: State, e: Entry, t: State, id: Hash)
    requires LedgerInv(s) && Committed(sha, s, e, t) && id !in s.pools && id in t.pools
    ensures e.tx.body.OpenCircle? && e.tx.id == id
  {
    var at := s.(now := e.now);
    CheckedAsset(at, e.tx);
    hide Shape, Shaped, GoodTx, Check, Effect, Settle, LedgerInv;
    SettlePools(Effect(sha, at, e.tx), e.tx, Cost(at, e.tx));
    if e.tx.body.CircleStep? {
      StepKeys(sha, at, e.tx, id);
    } else if e.tx.body.Guard? {
      GuardKeys(sha, at, e.tx, id);
    } else if e.tx.body.OpenCircle? {
      OpenKeys(sha, at, e.tx, id);
    } else {
      OtherPools(sha, at, e.tx);
    }
  }

  lemma StepKeys(sha: Sha, s: State, tx: Tx, id: Hash)
    requires Shaped(s) && GoodTx(tx) && Check(s, tx) == None && tx.body.CircleStep?
    ensures id in Effect(sha, s, tx).pools ==> id in s.pools
  {
    hide Shape, StepCheck, StepEffect, Balance, Stake, GoodStep;
  }

  lemma GuardKeys(sha: Sha, s: State, tx: Tx, id: Hash)
    requires Shaped(s) && GoodTx(tx) && Check(s, tx) == None && tx.body.Guard?
    ensures id in Effect(sha, s, tx).pools ==> id in s.pools
  {
    hide Shape, Shaped, Check, GuardEffect, GuardCheck, GoodTx;
    GuardAllowed(s, tx);
    GuardOpKeys(s, tx.from, tx.body.op, id);
  }

  lemma GuardOpKeys(s: State, from: Address, op: GuardOp, id: Hash)
    requires GuardCheck(s, from, op) == None
    ensures id in GuardEffect(s, from, op).pools ==> id in s.pools
  {
    hide RenameCircle, RenameEscrow, MoveHoldings, Started, Approved;
  }

  lemma OpenKeys(sha: Sha, s: State, tx: Tx, id: Hash)
    requires Shaped(s) && GoodTx(tx) && Check(s, tx) == None && tx.body.OpenCircle?
    ensures id in Effect(sha, s, tx).pools ==> id in s.pools || id == tx.id
  {
    hide Shape, Shaped, NewCircle, Check, GoodTx;
  }

  /**
    Every circle pays each seat exactly once, in every run of the ledger from a state without that circle: no seat
    collects twice, the Claimed seats are those whose claims were committed, as many as rounds have passed and in turn
    order outside bidding circles, and a finished circle has paid every seat.
   */
  lemma SeatsPaidOnce(sha: Sha, es: seq<Entry>, ss: seq<State>, id: Hash, k: nat) returns (i: nat)
    requires Trace(sha, es, ss) && LedgerInv(ss[0]) && k <= |es| && id !in ss[0].pools && id in ss[k].pools
    ensures i < k && OpensAt(es, i, id)
    ensures var c, seats := ss[k].pools[id], ClaimedSeats(EventsIn(es, ss, id, i, k));
      && CircleInv(c) && History(c, seats)
      && (c.status == Done && c.terms.mode != Goal ==> |seats| == |c.members|)
  {
    hide Committed, LedgerInv, EventsIn, Replay, History, CircleInv, GoodTerms;
    i := CircleOpened(sha, es, ss, id, k);
    CircleReplays(sha, es, ss, id, i, k);
    var tx := es[i].tx;
    OpenedGood(tx);
    EachSeatOnce(sha, tx.id, tx.asset, tx.from, tx.body.members, tx.body.terms, EventsIn(es, ss, id, i, k));
    SeatsAtEnd(ss[k].pools[id], ClaimedSeats(EventsIn(es, ss, id, i, k)));
  }

  lemma OpenedGood(tx: Tx)
    requires GoodTx(tx) && tx.body.OpenCircle?
    ensures GoodTerms(tx.body.members, tx.body.terms, tx.from)
    ensures OpenedAs(tx) == NewCircle(tx.id, tx.asset, tx.from, tx.body.members, tx.body.terms)
  {
    hide GoodTerms;
  }

  lemma SeatsAtEnd(c: Circle, seats: seq<nat>)
    requires CircleInv(c) && History(c, seats)
    ensures c.status == Done && c.terms.mode != Goal ==> |seats| == |c.members|
  {
    hide Amounts, Books, Seats, Pledges;
  }

  // ---------------------------------------------------------------- autopay over a history

  lemma {:induction false} AutopayTable(c: Circle, k: nat)
    requires Shape(c) && c.terms.mode != Goal && c.prepaid != [] && k <= |c.members|
    ensures |c.paidAmt| <= |AutopayTo(c, k).paidAmt|
  {
    if k > 0 {
      AutopayTable(c, k - 1);
      hide Shape;
    }
  }

  lemma RunTable(c: Circle)
    requires Shape(c) && c.terms.mode != Goal
    ensures |c.paidAmt| <= |RunAutopay(c).paidAmt|
  {
    if c.prepaid != [] && c.status == Active {
      AutopayTable(c, |c.members|);
    }
  }

  lemma StartTable(sha: Sha, c: Circle, now: int)
    requires Shape(c) && c.terms.mode != Goal
    ensures |c.paidAmt| <= |Start(sha, c, now).paidAmt|
  {
    var a := c.(status := Active, startedAt := now);
    if a.terms.mode == Lottery {
      DrawNil(sha, a, |a.members| - 1, sha.start(a.id, a.startedAt));
      RunTable(DrawOrder(sha, a));
    } else {
      RunTable(a);
    }
  }

  lemma PayoutTable(c: Circle, i: nat)
    requires CircleInv(c) && c.terms.mode != Goal && c.status == Active && i < |c.members|
    ensures |c.paidAmt| <= |Payout(c, i).circle.paidAmt|
  {
    CoverToBooks(c, |c.members|);
    var next := NextRound(CoverTo(c, |c.members|), i);
    hide CoverTo, Shape;
    if next.round < |c.members| {
      RunTable(next);
    }
  }

  /** Once instalments are in use they stay in use: no event goes back to a nil PaidAmt. */
  lemma TableStays(sha: Sha, c: Circle, ev: Event)
    requires CircleInv(c) && Next(sha, c, ev).Some?
    ensures |c.paidAmt| <= |Next(sha, c, ev).value.paidAmt|
  {
    hide Books, Seats, Pledges, Amounts, Recipient, Circles.Payout, RunAutopay, Need, DrawOrder;
    if ev.Operated? && c.terms.mode != Goal {
      match ev.op {
        case Join => StartTable(sha, Admit(c, ev.seat), ev.now);
        case Claim =>
          RecipientCollects(c, ev.seat);
          PayoutTable(c, ev.seat);
        case Swap(other) => SwapNil(c, ev.seat, Index(c.members, other));
        case Autopay(amount) => RunTable(Reserve(c, ev.seat, amount));
        case _ =>
      }
    }
  }

  /** After an autopay the rounds set aside, old and new together, fit a signed 64-bit int. */
  predicate SumFits(c: Circle, ev: Event)
    requires Shape(c)
  {
    ev.Operated? && ev.op.Autopay? && ev.seat < |c.members| ==> RoundsWith(c, ev.seat, ev.op.amount) < TWO64 / 2
  }

  /** Every autopay of the history is such a one when its turn comes. */
  predicate SumsFit(sha: Sha, start: Circle, evs: seq<Event>)
    requires Shape(start)
  {
    |evs| == 0 || (
      var before := evs[..|evs| - 1];
      && SumsFit(sha, start, before)
      && match Replay(sha, start, before)
         case None => true
         case Some(c) => SumFits(c, evs[|evs| - 1]))
  }

  /** Reserved at the start and after every event. */
  ghost predicate ReservedThroughout(sha: Sha, start: Circle, evs: seq<Event>)
    requires Shape(start)
  {
    && (|evs| > 0 ==> ReservedThroughout(sha, start, evs[..|evs| - 1]))
    && match Replay(sha, start, evs)
       case None => true
       case Some(c) => Reserved(c)
  }

  lemma NextReserved(sha: Sha, c: Circle, ev: Event)
    requires CircleInv(c) && Reserved(c) && c.paidAmt == [] && Next(sha, c, ev).Some?
    ensures Reserved(Next(sha, c, ev).value) <==> SumFits(c, ev)
  {
    hide Reserved, RoundsWith, CircleInv;
    match ev {
      case Rekeyed(o, n) => RekeyReserved(c, o, n);
      case Operated(seat, op, now, bal) => StepReserved(sha, c, seat, op, c.members[seat], now, bal);
    }
  }

  lemma RekeyReserved(c: Circle, o: Address, n: Address)
    requires Shape(c) && Reserved(c)
    ensures Shape(RenameCircle(c, o, n)) && Reserved(RenameCircle(c, o, n))
  {
    SameLines(c, RenameCircle(c, o, n));
  }

  /** A history that ends without instalments is Reserved throughout if and only if every sum of its autopays fits. */
  lemma {:induction false} HistoryReserved(sha: Sha, start: Circle, evs: seq<Event>)
    requires CircleInv(start) && start.round == 0 && Reserved(start) && Replay(sha, start, evs).Some?
    requires Replay(sha, start, evs).value.paidAmt == []
    ensures ReservedThroughout(sha, start, evs) <==> SumsFit(sha, start, evs)
  {
    hide Amounts, Books, Seats, Phase, Pledges, Shape, Reserved, Next, SumFits;
    if |evs| > 0 {
      var before, ev := evs[..|evs| - 1], evs[|evs| - 1];
      var c := Replay(sha, start, before).value;
      ReplayRecorded(sha, start, before);
      TableStays(sha, c, ev);
      HistoryReserved(sha, start, before);
      if SumsFit(sha, start, before) {
        assert ReservedThroughout(sha, start, before);
        NextReserved(sha, c, ev);
      }
    }
  }

  /** Every autopay of the history is of fewer than 2^63 - 50 rounds. */
  predicate RoundsBelow(contribution: int, evs: seq<Event>)
    requires 0 < contribution
  {
    forall k :: 0 <= k < |evs| && evs[k].Operated? && evs[k].op.Autopay? ==>
      evs[k].op.amount / contribution < TWO64 / 2 - 50
  }

  /** Such autopays always fit, because no member ever has more than fifty rounds set aside. */
  lemma {:induction false} BelowFits(sha: Sha, start: Circle, evs: seq<Event>)
    requires CircleInv(start) && start.round == 0 && Reserved(start) && Replay(sha, start, evs).Some?
    requires Replay(sha, start, evs).value.paidAmt == [] && RoundsBelow(start.terms.contribution, evs)
    ensures SumsFit(sha, start, evs)
  {
    hide Amounts, Books, Seats, Pledges, Shape, Reserved, Next;
    if |evs| > 0 {
      var before, ev := evs[..|evs| - 1], evs[|evs| - 1];
      var c := Replay(sha, start, before).value;
      ReplayRecorded(sha, start, before);
      TableStays(sha, c, ev);
      BelowFits(sha, start, before);
      HistoryReserved(sha, start, before);
      if ev.Operated? && ev.op.Autopay? && ev.seat < |c.members| {
        AutopayOpen(sha, c, ev);
        FewRounds(c, ev.seat);
      }
    }
  }

  lemma AutopayOpen(sha: Sha, c: Circle, ev: Event)
    requires Shape(c) && Next(sha, c, ev).Some? && ev.Operated? && ev.op.Autopay?
    ensures c.status == Forming || c.status == Active
  {}

  /**
    Over any history of a circle in which nobody pays in instalments, every member's autopay money is at all times a
    whole number of contributions for rounds still to be paid, if and only if no autopay brought the rounds a member had
    set aside to 2^63 or more; and then, when the last round is being collected, there is none left, and the final
    payout returns none.
   */
  lemma AutopayUsedUp(
    sha: Sha, id: Hash, asset: Asset, from: Address, members: seq<Address>, t: Terms, evs: seq<Event>, i: nat)
    requires GoodTerms(members, t, from) && Shape(NewCircle(id, asset, from, members, t))
    requires Replay(sha, NewCircle(id, asset, from, members, t), evs).Some?
    requires Replay(sha, NewCircle(id, asset, from, members, t), evs).value.paidAmt == []
    ensures var start := NewCircle(id, asset, from, members, t);
      && (ReservedThroughout(sha, start, evs) <==> SumsFit(sha, start, evs))
      && (RoundsBelow(t.contribution, evs) ==> SumsFit(sha, start, evs))
    ensures var c := Replay(sha, NewCircle(id, asset, from, members, t), evs).value;
      SumsFit(sha, NewCircle(id, asset, from, members, t), evs) && c.status == Active && c.round == |c.members| - 1
        && i < |c.members| && c.terms.mode != Goal ==>
        Sum(c.prepaid) == 0 && Sum(NextRound(CoverTo(c, |c.members|), i).prepaid) == 0
  {
    var start := NewCircle(id, asset, from, members, t);
    NewCircleInv(id, asset, from, members, t);
    NoPrepaidReserved(start);
    hide NewCircle, GoodTerms, CircleInv, Reserved, SumsFit, RoundsBelow;
    ReplayRecorded(sha, start, evs);
    HistoryReserved(sha, start, evs);
    if RoundsBelow(t.contribution, evs) {
      BelowFits(sha, start, evs);
    }
    if SumsFit(sha, start, evs) {
      LastRound(Replay(sha, start, evs).value, i);
    }
  }

  lemma LastRound(c: Circle, i: nat)
    requires CircleInv(c) && Reserved(c) && c.paidAmt == []
    ensures c.status == Active && c.round == |c.members| - 1 && i < |c.members| && c.terms.mode != Goal ==>
      Sum(c.prepaid) == 0 && Sum(NextRound(CoverTo(c, |c.members|), i).prepaid) == 0
  {
    if c.status == Active && c.round == |c.members| - 1 && i < |c.members| && c.terms.mode != Goal {
      NothingLeftOver(c);
      CoverToBooks(c, |c.members|);
    }
  }
}
