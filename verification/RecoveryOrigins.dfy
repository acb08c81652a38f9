/**
  Where an account's guardians come from: over whole runs its guardians, threshold and delay are those of its own last
  SetGuards, unless a recovery finished into it since; then they are those of the account recovered last.
 */
module RecoveryOrigins {
  import opened Core
  import opened Escrows
  import opened Ledger
  import opened LedgerSafety
  import opened LedgerRuns
  import opened RecoverySafety

  predicate SetsOwn(tx: Tx, a: Address) { tx.from == a && tx.body.Guard? && tx.body.op.SetGuards? }

  /** The transaction finishes a recovery whose new key is a. */
  predicate FinishesInto(s: State, tx: Tx, a: Address) {
    tx.body.Guard? && tx.body.op.Finish? && HasPending(s, tx.body.op.account)
      && PendingOf(s, tx.body.op.account).newOwner == a
  }

  predicate Fixes(s: State, tx: Tx, a: Address) { SetsOwn(tx, a) || FinishesInto(s, tx, a) }

  /** The setup that such a transaction gives to a. */
  function GivenBy(s: State, tx: Tx, a: Address): Guardianship
    requires Fixes(s, tx, a)
  {
    if SetsOwn(tx, a) then Guardianship(tx.body.op.guardians, tx.body.op.threshold, tx.body.op.delaySecs, None)
    else s.guards[tx.body.op.account].(pending := None)
  }

  // ---------------------------------------------------------------- one transaction

  lemma MovedGuards(s: State, account: Address, a: Address)
    requires HasPending(s, account) && TargetsOk(s.guards)
    ensures var n := PendingOf(s, account).newOwner; var t := MoveAccount(s, account, n);
      && n != account && (a in t.guards <==> a == n || (a in s.guards && a != account))
      && (a == n ==> t.guards[a] == s.guards[account].(pending := None))
      && (a != n && a != account && a in s.guards ==> t.guards[a] == s.guards[a])
  {
    hide MoveHoldings, RenameCircle, RenameEscrow;
    assert TargetOk(account, s.guards[account]);
  }

  /** A start, an approval and a cancel touch nothing but what is pending. */
  lemma PendingOnly(s: State, from: Address, op: GuardOp, a: Address)
    requires GuardCheck(s, from, op) == None && !op.SetGuards? && !op.Finish?
    ensures var t := GuardEffect(s, from, op);
      t.guards.Keys == s.guards.Keys && (a in s.guards ==> SameSet(t.guards[a], s.guards[a]))
  {}

  lemma FinishPending(s: State, from: Address, account: Address)
    requires GuardCheck(s, from, Finish(account)) == None
    ensures HasPending(s, account)
      && GuardEffect(s, from, Finish(account)) == MoveAccount(s, account, PendingOf(s, account).newOwner)
  {
    hide MoveAccount;
  }

  lemma GuardOrigin(s: State, tx: Tx, a: Address)
    requires tx.body.Guard? && GuardCheck(s, tx.from, tx.body.op) == None && TargetsOk(s.guards)
    ensures var t := GuardEffect(s, tx.from, tx.body.op);
      && (a in t.guards <==> Fixes(s, tx, a) || (a in s.guards && !FinishesFor(tx, a)))
      && (Fixes(s, tx, a) ==> a in t.guards && t.guards[a] == GivenBy(s, tx, a))
      && (!Fixes(s, tx, a) && a in t.guards ==> SameSet(t.guards[a], s.guards[a]))
  {
    hide TargetsOk, MoveAccount;
    match tx.body.op
    case SetGuards(_, _, _) =>
    case Finish(account) => FinishPending(s, tx.from, account); MovedGuards(s, account, a);
    case _ => hide SameSet; PendingOnly(s, tx.from, tx.body.op, a);
  }

  /**
    One committed transaction gives an account a setup only if the account sends SetGuards or a recovery finishes into
    it, takes it away only if the account is recovered, and otherwise leaves guardians, threshold and delay alone.
   */
  lemma SetupChanges(sha: Sha, s: State, e: Entry, t: State, a: Address)
    requires Committed(sha, s, e, t) && TargetsOk(s.guards)
    ensures a in t.guards <==> Fixes(s, e.tx, a) || (a in s.guards && !FinishesFor(e.tx, a))
    ensures Fixes(s, e.tx, a) ==> a in t.guards && t.guards[a] == GivenBy(s, e.tx, a)
    ensures !Fixes(s, e.tx, a) && a in t.guards ==> SameSet(t.guards[a], s.guards[a])
  {
    hide Committed, GuardEffect, GuardCheck, GoodGuardOp, TargetOk;
    CommittedGuards(sha, s, e, t);
    if e.tx.body.Guard? {
      GuardOrigin(s.(now := e.now), e.tx, a);
    }
  }

  // ---------------------------------------------------------------- whole runs

  /** The setup of a in ss[k] was fixed by transaction i, and nothing has fixed or removed it since. */
  ghost predicate FixedAt(es: seq<Entry>, ss: seq<State>, i: nat, k: nat, a: Address)
    requires |ss| == |es| + 1 && k <= |es|
  {
    && i < k && Fixes(ss[i], es[i].tx, a)
    && forall q :: i < q < k ==> !Fixes(ss[q], es[q].tx, a) && !FinishesFor(es[q].tx, a)
  }

  lemma RunTargets(sha: Sha, es: seq<Entry>, ss: seq<State>, k: nat)
    requires Trace(sha, es, ss) && k <= |es| && LedgerInv(ss[0])
    ensures TargetsOk(ss[k].guards)
  {
    hide Trace;
    RunKeeps(sha, es, ss, k);
  }

  lemma FixedNext(es: seq<Entry>, ss: seq<State>, i: nat, k: nat, a: Address)
    requires |ss| == |es| + 1 && 0 < k <= |es|
    ensures var s, tx := ss[k - 1], es[k - 1].tx;
      FixedAt(es, ss, i, k, a) <==> (if i == k - 1 then Fixes(s, tx, a)
        else FixedAt(es, ss, i, k - 1, a) && !Fixes(s, tx, a) && !FinishesFor(tx, a))
  {
    hide Fixes, FinishesFor;
  }

  /**
    In every reachable state an account has a setup if and only if a transaction of the run fixed it and it was not
    taken away since, and its guardians, threshold and delay are the ones that transaction gave it.
   */
  lemma {:induction false} SetupOrigin(sha: Sha, es: seq<Entry>, ss: seq<State>, k: nat, a: Address)
    requires Trace(sha, es, ss) && k <= |es| && LedgerInv(ss[0]) && ss[0].guards == map[]
    ensures a in ss[k].guards <==> exists i: nat :: FixedAt(es, ss, i, k, a)
    ensures forall i: nat :: FixedAt(es, ss, i, k, a) ==>
      a in ss[k].guards && SameSet(ss[k].guards[a], GivenBy(ss[i], es[i].tx, a))
  {
    hide Committed, Fixes, GivenBy, LedgerInv, TargetsOk, FinishesFor;
    if k > 0 {
      var s, e, t := ss[k - 1], es[k - 1], ss[k];
      SetupOrigin(sha, es, ss, k - 1, a);
      RunTargets(sha, es, ss, k - 1);
      SetupChanges(sha, s, e, t, a);
      forall i: nat ensures FixedAt(es, ss, i, k, a) <==> (if i == k - 1 then Fixes(s, e.tx, a)
        else FixedAt(es, ss, i, k - 1, a) && !Fixes(s, e.tx, a) && !FinishesFor(e.tx, a))
      {
        FixedNext(es, ss, i, k, a);
      }
      if Fixes(s, e.tx, a) {
        assert FixedAt(es, ss, k - 1, k, a);
      } else if a in t.guards {
        var i :| FixedAt(es, ss, i, k - 1, a);
        assert FixedAt(es, ss, i, k, a);
      }
    }
  }

  /** No recovery finished into a between the transactions i and k. */
  ghost predicate NoneInto(es: seq<Entry>, ss: seq<State>, i: nat, k: nat, a: Address)
    requires |ss| == |es| + 1 && k <= |es|
  {
    forall q :: i < q < k ==> !FinishesInto(ss[q], es[q].tx, a)
  }

  /**
    The setup an account has is that of its own last SetGuards if and only if no recovery finished into it since;
    otherwise it is that of the account last recovered into it, whatever its own key had chosen.
   */
  lemma OwnSetup(sha: Sha, es: seq<Entry>, ss: seq<State>, i: nat, k: nat, a: Address) returns (from: nat)
    requires Trace(sha, es, ss) && i < k <= |es| && LedgerInv(ss[0]) && ss[0].guards == map[] && a in ss[k].guards
    requires SetsOwn(es[i].tx, a) && forall q :: i < q < k ==> !SetsOwn(es[q].tx, a)
    ensures FixedAt(es, ss, from, k, a) && SameSet(ss[k].guards[a], GivenBy(ss[from], es[from].tx, a))
    ensures from == i <==> NoneInto(es, ss, i, k, a)
    ensures from != i ==> i < from && FinishesInto(ss[from], es[from].tx, a)
  {
    hide Committed, SetsOwn, FinishesInto, GivenBy, SameSet, LedgerInv, FinishesFor;
    SetupOrigin(sha, es, ss, k, a);
    from :| FixedAt(es, ss, from, k, a);
    assert Fixes(ss[i], es[i].tx, a);
  }

  /** An account is its own guardian only when a recovery finished into it, since SetGuards never names its sender. */
  lemma SelfGuarded(sha: Sha, es: seq<Entry>, ss: seq<State>, k: nat, a: Address) returns (from: nat)
    requires Trace(sha, es, ss) && k <= |es| && LedgerInv(ss[0]) && ss[0].guards == map[]
    requires a in ss[k].guards && a in ss[k].guards[a].guardians
    ensures FixedAt(es, ss, from, k, a) && FinishesInto(ss[from], es[from].tx, a)
  {
    hide LedgerInv, Committed, FinishesInto, FinishesFor, GuardEffect, GuardCheck;
    SetupOrigin(sha, es, ss, k, a);
    from :| FixedAt(es, ss, from, k, a);
    CommittedGuards(sha, ss[from], es[from], ss[from + 1]);
  }

  /**
    Every recovery that finishes was started under guardians the account had already been given: by its own SetGuards,
    or by a recovery that finished into it.
   */
  lemma RecoveryChosen(sha: Sha, es: seq<Entry>, ss: seq<State>, k: nat, a: Address) returns (from: nat, at: seq<nat>)
    requires Trace(sha, es, ss) && k < |es| && LedgerInv(ss[0]) && ss[0].guards == map[] && FinishesFor(es[k].tx, a)
    ensures Backed(es, ss, k, a, at) && FixedAt(es, ss, from, k, a) && from < at[0]
    ensures SameSet(ss[k].guards[a], GivenBy(ss[from], es[from].tx, a))
  {
    hide LedgerInv, Committed, SameSet, FinishesFor, TargetsOk;
    at := RecoveryAuthorised(sha, es, ss, k, a);
    SetupOrigin(sha, es, ss, k, a);
    from :| FixedAt(es, ss, from, k, a);
    RunTargets(sha, es, ss, from);
    SetupChanges(sha, ss[from], es[from], ss[from + 1], a);
    assert ss[from + 1].guards[a].pending == None;
  }
}
