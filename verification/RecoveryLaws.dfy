/**
  Who may do what in a recovery, what ends one, and that enough guardians always complete one.
 */
module RecoveryLaws {
  import opened Core
  import opened Sequences
  import opened Circles
  import opened Escrows
  import opened Ledger
  import opened LedgerSafety
  import opened LedgerRuns
  import opened RecoverySafety
  import opened RecoveryOrigins

  // ---------------------------------------------------------------- who may act

  /** When an address may take a step of a recovery. */
  ghost predicate MayGuard(s: State, who: Address, op: GuardOp) {
    match op
    case SetGuards(_, _, _) => !HasPending(s, who) && who !in s.recoveredTo
    case StartRecovery(a, _) => a in s.guards && who in s.guards[a].guardians && s.guards[a].pending == None
    case Approve(a, n) =>
      && HasPending(s, a) && who in s.guards[a].guardians
      && PendingOf(s, a).newOwner == n && who !in PendingOf(s, a).approvals
    case CancelRecovery(a) => who == a && HasPending(s, a)
    case Finish(a) =>
      && HasPending(s, a) && |PendingOf(s, a).approvals| >= s.guards[a].threshold
      && PendingOf(s, a).readyAt <= s.now
  }

  /** The rules allow a step of a recovery exactly to whom it is due; only the account's own key cancels. */
  lemma GuardsExactly(s: State, who: Address, op: GuardOp)
    ensures GuardCheck(s, who, op) == None <==> MayGuard(s, who, op)
  {}

  /** What a step of a recovery leaves of the setup it is about. */
  lemma GuardRecorded(s: State, who: Address, op: GuardOp)
    requires GuardCheck(s, who, op) == None && !op.Finish?
    ensures var a := if op.SetGuards? then who else op.account; var t := GuardEffect(s, who, op);
      && t == s.(guards := s.guards[a := t.guards[a]])
      && match op
         case SetGuards(gs, threshold, delay) => t.guards[a] == Guardianship(gs, threshold, delay, None)
         case StartRecovery(_, n) =>
           && SameSet(t.guards[a], s.guards[a]) && t.guards[a].pending.Some?
           && var p := t.guards[a].pending.value;
             p.newOwner == n && p.approvals == [who] && p.startedAt == s.now
               && p.readyAt == if s.guards[a].threshold <= 1 then s.now + 1000 * s.guards[a].delaySecs else 0
         case Approve(_, n) =>
           && SameSet(t.guards[a], s.guards[a]) && t.guards[a].pending.Some?
           && var was, p := PendingOf(s, a), t.guards[a].pending.value;
             p.newOwner == n && p.approvals == was.approvals + [who] && p.startedAt == was.startedAt
               && p.readyAt == if was.readyAt != 0 || |was.approvals| + 1 < s.guards[a].threshold then was.readyAt
                 else s.now + 1000 * s.guards[a].delaySecs
         case CancelRecovery(_) => SameSet(t.guards[a], s.guards[a]) && t.guards[a].pending == None
         case Finish(_) => true
  {}

  // ---------------------------------------------------------------- what ends a recovery

  lemma PendingStays(s: State, who: Address, op: GuardOp, a: Address)
    requires GuardCheck(s, who, op) == None && HasPending(s, a)
    ensures var t := GuardEffect(s, who, op);
      || op == Finish(a)
      || (op == CancelRecovery(a) && who == a)
      || (op.Finish? && HasPending(s, op.account) && PendingOf(s, op.account).newOwner == a)
      || (HasPending(t, a) && PendingOf(t, a).newOwner == PendingOf(s, a).newOwner
          && PendingOf(s, a).approvals <= PendingOf(t, a).approvals)
  {
    hide RenameCircle, RenameEscrow, MoveHoldings;
  }

  /**
    A pending recovery ends only by its own finish, by a cancellation that the account's own key sent, or by a recovery
    that finishes into the account; otherwise it stays, for the same new key, with every approval it had.
   */
  lemma RecoveryEnds(sha: Sha, s: State, e: Entry, t: State, a: Address)
    requires Committed(sha, s, e, t) && HasPending(s, a)
    ensures
      || FinishesFor(e.tx, a) || FinishesInto(s, e.tx, a)
      || (e.tx.body == Guard(CancelRecovery(a)) && e.tx.from == a)
      || (HasPending(t, a) && PendingOf(t, a).newOwner == PendingOf(s, a).newOwner
          && PendingOf(s, a).approvals <= PendingOf(t, a).approvals)
  {
    hide Committed, GuardEffect, GuardCheck, GoodGuardOp;
    CommittedGuards(sha, s, e, t);
    if e.tx.body.Guard? {
      PendingStays(s.(now := e.now), e.tx.from, e.tx.body.op, a);
    }
  }

  lemma MarksSettle(s: State, tx: Tx, cost: int)
    requires tx.asset != ORP ==> tx.asset in s.defs
    ensures Settle(s, tx, cost).recoveredTo == s.recoveredTo
  {}

  lemma StepMarks(sha: Sha, s: State, tx: Tx)
    requires Shaped(s) && GoodTx(tx) && Allowed(s, tx) && (tx.body.CircleStep? || tx.body.EscrowAct?)
    ensures Effect(sha, s, tx).recoveredTo == s.recoveredTo
  {
    hide Shape, StepEffect, EscrowEffect, StepCheck, EscrowCheck, CreditsApplied, Balance;
  }

  lemma UnitsMarks(sha: Sha, s: State, tx: Tx)
    requires Shaped(s) && GoodTx(tx) && Allowed(s, tx) && (tx.body.Transfer? || tx.body.Mint? || tx.body.Burn?)
    ensures Effect(sha, s, tx).recoveredTo == s.recoveredTo
  {
    hide Shape, Shaped, CreditTo, IssuedOf, Allowed, GoodTx;
  }

  lemma OpenMarks(sha: Sha, s: State, tx: Tx)
    requires Shaped(s) && GoodTx(tx) && Allowed(s, tx) && (tx.body.OpenCircle? || tx.body.OpenEscrow?)
    ensures Effect(sha, s, tx).recoveredTo == s.recoveredTo
  {
    hide Shape, Shaped, NewCircle, NewEscrow, Allowed, GoodTx;
  }

  lemma GuardMarks(s: State, who: Address, op: GuardOp)
    requires GuardCheck(s, who, op) == None
    ensures GuardEffect(s, who, op).recoveredTo ==
      if op.Finish? && HasPending(s, op.account)
      then s.recoveredTo[op.account := PendingOf(s, op.account).newOwner] else s.recoveredTo
  {
    hide RenameCircle, RenameEscrow, MoveHoldings;
  }

  /** A finished recovery records where the account went; nothing else touches that record. */
  lemma RecoveryMarks(sha: Sha, s: State, e: Entry, t: State)
    requires Committed(sha, s, e, t)
    ensures t.recoveredTo ==
      if e.tx.body.Guard? && e.tx.body.op.Finish? && HasPending(s, e.tx.body.op.account)
      then s.recoveredTo[e.tx.body.op.account := PendingOf(s, e.tx.body.op.account).newOwner] else s.recoveredTo
  {
    var at := s.(now := e.now);
    hide Shaped, GoodTx, Check, Covered, Effect, Settle, Cost, GuardEffect, GuardCheck;
    CheckedAsset(at, e.tx);
    MarksSettle(Effect(sha, at, e.tx), e.tx, Cost(at, e.tx));
    if e.tx.body.Guard? {
      GuardAsEffect(sha, at, e.tx);
      GuardMarks(at, e.tx.from, e.tx.body.op);
    } else if e.tx.body.CircleStep? || e.tx.body.EscrowAct? {
      StepMarks(sha, at, e.tx);
    } else if e.tx.body.OpenCircle? || e.tx.body.OpenEscrow? {
      OpenMarks(sha, at, e.tx);
    } else {
      UnitsMarks(sha, at, e.tx);
    }
  }

  /** A recovered account is marked for good, and its old key never sets guardians again. */
  lemma {:induction false} RecoveredForGood(sha: Sha, es: seq<Entry>, ss: seq<State>, i: nat, k: nat, a: Address)
    requires Trace(sha, es, ss) && i < k <= |es| && FinishesFor(es[i].tx, a)
    ensures a in ss[k].recoveredTo && (k < |es| ==> !SetsOwn(es[k].tx, a))
  {
    hide Committed, GuardCheck;
    if k == i + 1 {
      assert Committed(sha, ss[i], es[i], ss[k]);
      CommittedGuards(sha, ss[i], es[i], ss[k]);
      GuardsExactly(ss[i].(now := es[i].now), es[i].tx.from, es[i].tx.body.op);
    } else {
      RecoveredForGood(sha, es, ss, i, k - 1, a);
    }
    RecoveryMarks(sha, ss[k - 1], es[k - 1], ss[k]);
    if k < |es| && SetsOwn(es[k].tx, a) {
      CommittedGuards(sha, ss[k], es[k], ss[k + 1]);
      GuardsExactly(ss[k].(now := es[k].now), a, es[k].tx.body.op);
    }
  }

  // ---------------------------------------------------------------- enough guardians complete one

  /** Guardians 1 to k - 1 of a setup approve, one after the other, what guardian 0 started. */
  function Backing(g: Guardianship, n: Address, k: nat, now: int): (r: Guardianship)
    requires 0 < k <= |g.guardians|
    ensures r.pending.Some?
  {
    if k == 1 then Started(g, g.guardians[0], n, now) else Approved(Backing(g, n, k - 1, now), g.guardians[k - 1], now)
  }

  lemma {:induction false} BackingIs(g: Guardianship, n: Address, k: nat, now: int)
    requires 0 < k <= |g.guardians| && 1 <= g.threshold && k <= g.threshold && 0 <= now && 0 < g.delaySecs
    ensures var r := Backing(g, n, k, now);
      && SameSet(r, g) && r.pending.value.newOwner == n && r.pending.value.approvals == g.guardians[..k]
      && r.pending.value.readyAt == if k == g.threshold then now + g.delaySecs * 1000 else 0
  {
    if k > 1 {
      BackingIs(g, n, k - 1, now);
      assert g.guardians[..k] == g.guardians[..k - 1] + [g.guardians[k - 1]];
    } else {
      assert g.guardians[..1] == [g.guardians[0]];
    }
  }

  /** A ledger in which the account's setup is this one. */
  function With(s: State, a: Address, g: Guardianship, now: int): State { s.(guards := s.guards[a := g], now := now) }

  /** A setup that enough guardians can complete: no recovery is pending, and its guardians are different keys. */
  ghost predicate Ready(g: Guardianship) {
    && g.pending == None && Distinct(g.guardians) && 1 <= g.threshold <= |g.guardians| && 0 < g.delaySecs
  }

  lemma NextApproves(s: State, a: Address, g: Guardianship, n: Address, k: nat, now: int)
    requires Ready(g) && 0 < k < g.threshold && 0 <= now
    ensures GuardCheck(With(s, a, Backing(g, n, k, now), now), g.guardians[k], Approve(a, n)) == None
  {
    BackingIs(g, n, k, now);
    assert g.guardians[k] !in g.guardians[..k];
    hide Backing;
  }

  lemma FinishesAfter(s: State, a: Address, g: Guardianship, n: Address, now: int, later: int, who: Address)
    requires Ready(g) && 0 <= now
    ensures GuardCheck(With(s, a, Backing(g, n, g.threshold, now), later), who, Finish(a)) == None
      <==> later >= now + 1000 * g.delaySecs
  {
    BackingIs(g, n, g.threshold, now);
    hide Backing;
  }

  /**
    The first Threshold guardians of an account can always recover it: the first may start, each next one may approve,
    and once the last has, anyone may finish exactly from the moment the delay is over.
   */
  lemma GuardiansComplete(s: State, a: Address, n: Address, now: int, later: int, who: Address)
    requires a in s.guards && Ready(s.guards[a]) && 0 <= now
    ensures var g := s.guards[a];
      && GuardCheck(With(s, a, g, now), g.guardians[0], StartRecovery(a, n)) == None
      && (forall k :: 0 < k < g.threshold ==>
        GuardCheck(With(s, a, Backing(g, n, k, now), now), g.guardians[k], Approve(a, n)) == None)
      && (GuardCheck(With(s, a, Backing(g, n, g.threshold, now), later), who, Finish(a)) == None
        <==> later >= now + 1000 * g.delaySecs)
  {
    var g := s.guards[a];
    assert GuardCheck(With(s, a, g, now), g.guardians[0], StartRecovery(a, n)) == None;
    hide GuardCheck, Backing, With;
    FinishesAfter(s, a, g, n, now, later, who);
    forall k | 0 < k < g.threshold
      ensures GuardCheck(With(s, a, Backing(g, n, k, now), now), g.guardians[k], Approve(a, n)) == None
    {
      NextApproves(s, a, g, n, k, now);
    }
  }
}
