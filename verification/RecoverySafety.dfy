/**
  Social recovery over whole runs: an account's money leaves it only by its own transactions or by a recovery, and
  a recovery finishes only after enough distinct guardians agreed on that same new key and the safety delay passed.
 */
module RecoverySafety {
  import opened Core
  import opened Sequences
  import opened Circles
  import opened CircleBooks
  import opened CircleSteps
  import opened Escrows
  import opened Ledger
  import opened Conservation
  import opened LedgerSafety
  import opened LedgerRuns

  // ---------------------------------------------------------------- who can move money out of an account

  predicate FinishesFor(tx: Tx, a: Address) { tx.body.Guard? && tx.body.op.Finish? && tx.body.op.account == a }

  lemma SettleBalance(s: State, tx: Tx, cost: int, a: Address, x: Asset)
    requires (tx.asset != ORP ==> tx.asset in s.defs) && a != tx.from
    ensures Balance(Settle(s, tx, cost).accounts, a, x) >= Balance(s.accounts, a, x)
  {
    hide SetBalance;
    var v := Balance(s.accounts, tx.from, tx.asset) - cost;
    SetRead(s.accounts, tx.from, tx.asset, v, a, x);
    var next := Debited(s, tx, cost);
    assert Get(next, a) == Get(SetBalance(s.accounts, tx.from, tx.asset, v), a);
    if tx.fee > 0 && tx.asset != ORP {
      CreditRead(next, s.defs[tx.asset].issuer, tx.asset, tx.fee, a, x);
    }
  }

  lemma GuardBalance(s: State, from: Address, op: GuardOp, a: Address, x: Asset)
    requires Parts(s) && AccountsOk(s.accounts) && GuardCheck(s, from, op) == None && !(op.Finish? && op.account == a)
    ensures Balance(GuardEffect(s, from, op).accounts, a, x) >= Balance(s.accounts, a, x)
  {
    hide CirclesOk, EscrowsOk, RenameCircle, RenameEscrow, MoveHoldings, AccountsOk;
    if op.Finish? {
      assert TargetOk(op.account, s.guards[op.account]);
      MoveRead(s.accounts, op.account, s.guards[op.account].pending.value.newOwner, a, x);
      BalanceNonNeg(s.accounts, op.account, x);
    }
  }

  lemma CircleBalance(sha: Sha, s: State, tx: Tx, a: Address, x: Asset)
    requires Parts(s) && Shaped(s) && GoodTx(tx) && Check(s, tx) == None && tx.body.CircleStep?
    ensures Balance(Effect(sha, s, tx).accounts, a, x) >= Balance(s.accounts, a, x)
  {
    hide Shape, CircleInv, EscrowInv, TargetOk, StepEffect, StepCheck, Stake, Holdings, CreditsApplied, Balance;
    var c := s.pools[tx.body.pool];
    var i := Index(c.members, tx.from);
    StepSound(sha, c, i, tx.body.step, tx.from, s.now, Balance(s.accounts, tx.from, c.asset));
    var r := StepEffect(sha, c, i, tx.body.step, tx.from, s.now, Balance(s.accounts, tx.from, c.asset));
    CreditsRead(s.accounts, c.asset, r.credits, |r.credits|, a, x);
    ReceivedNonNeg(r.credits, a, |r.credits|);
  }

  lemma EscrowBalance(sha: Sha, s: State, tx: Tx, a: Address, x: Asset)
    requires Parts(s) && Shaped(s) && GoodTx(tx) && Check(s, tx) == None && tx.body.EscrowAct?
    ensures Balance(Effect(sha, s, tx).accounts, a, x) >= Balance(s.accounts, a, x)
  {
    hide Shape, CircleInv, TargetOk, EscrowEffect, EscrowCheck, EscrowInv, CreditsApplied, Balance;
    var e := s.escrows[tx.body.escrow];
    EscrowStepKeeps(e, tx.from, tx.body.act, s.now);
    var r := EscrowEffect(e, tx.body.act, s.now);
    CreditsRead(s.accounts, e.asset, r.credits, |r.credits|, a, x);
    ReceivedNonNeg(r.credits, a, |r.credits|);
  }

  lemma EffectBalance(sha: Sha, s: State, tx: Tx, a: Address, x: Asset)
    requires Parts(s) && AccountsOk(s.accounts) && Shaped(s) && GoodTx(tx) && Check(s, tx) == None
      && !FinishesFor(tx, a)
    ensures Balance(Effect(sha, s, tx).accounts, a, x) >= Balance(s.accounts, a, x)
  {
    hide Shaped, Parts, AccountsOk, SetBalance, GuardEffect, CircleEffect, ActEffect, GuardCheck, NewCircle,
      NewEscrow, Check, Balance;
    match tx.body
    case Transfer(to, amount) => CreditRead(s.accounts, to, tx.asset, amount, a, x);
    case Mint(to, amount) => CreditRead(s.accounts, to, tx.asset, amount, a, x);
    case CircleStep(_, _) => CircleBalance(sha, s, tx, a, x);
    case EscrowAct(_, _) => EscrowBalance(sha, s, tx, a, x);
    case Guard(op) =>
      GuardAllowed(s, tx);
      GuardBalance(s, tx.from, op, a, x);
    case _ =>
  }

  /**
    A committed transaction lowers an account's balance only if that account sent it, or if it finishes that account's
    recovery.
   */
  lemma OnlyOwnerOrRecovery(sha: Sha, s: State, e: Entry, t: State, a: Address, x: Asset)
    requires LedgerInv(s) && Committed(sha, s, e, t)
    requires a != e.tx.from && !FinishesFor(e.tx, a)
    ensures Balance(t.accounts, a, x) >= Balance(s.accounts, a, x)
  {
    hide Conserved, Bounded, Shape, GoodTx, Covered, Effect, Rule, Cost, Available, Settle, Parts, AccountsOk, Balance;
    var at := s.(now := e.now);
    NowKeeps(s, e.now);
    InvParts(at);
    EffectBalance(sha, at, e.tx, a, x);
    SettleBalance(Effect(sha, at, e.tx), e.tx, Cost(at, e.tx), a, x);
  }

  // ---------------------------------------------------------------- how recovery setups change

  predicate Seated(c: Circle, a: Address) { a in c.members }

  predicate HasRole(e: Escrow, a: Address) { a == e.buyer || a == e.seller || a == e.arbiter }

  /** What a recovery leaves of one circle: at most the old key's own seat and its place as creator change hands. */
  ghost predicate SeatMoved(c: Circle, account: Address, n: Address, r: Circle) {
    && Distinct(r.members) && r == c.(members := r.members, creator := r.creator) && |r.members| == |c.members|
    && (forall j :: 0 <= j < |c.members| ==>
          r.members[j] == c.members[j] || (c.members[j] == account && r.members[j] == n))
    && (r.creator == c.creator || (c.creator == account && r.creator == n))
    && (Seated(r, account) <==> Seated(c, account) && Seated(c, n))
    && (Seated(r, n) <==> Seated(c, account) || Seated(c, n))
    && (r.creator == account <==> c.creator == account && Seated(c, n))
    && (Seated(c, n) ==> r == c)
  }

  lemma SeatMoves(c: Circle, account: Address, n: Address)
    requires CircleInv(c) && account != n && n.Key?
    ensures SeatMoved(c, account, n, RenameCircle(c, account, n))
  {
    RenameKeeps(c, account, n);
    hide Amounts, Books, Seats, Phase, Pledges, Shape, RenameCircle;
    RenamedSeats(c, account, n);
  }

  /**
    What a recovery leaves behind. The old key has no money, no escrow role and no recovery setup, and its nonce
    stays; the new key has all of that, with the same guardians and nothing pending. A circle's seat moves along
    unless the circle already seats the new key: exactly then the old key keeps its seat, and the circle is left as it
    is.
   */
  lemma RecoveredHoldsNothing(s: State, account: Address, from: Address, x: Asset)
    requires Parts(s) && AccountsOk(s.accounts) && GuardCheck(s, from, Finish(account)) == None
    ensures var n := s.guards[account].pending.value.newOwner; var t := GuardEffect(s, from, Finish(account));
      && Balance(t.accounts, account, x) == 0
      && Balance(t.accounts, n, x) == Balance(s.accounts, n, x) + Balance(s.accounts, account, x)
      && Get(t.accounts, account).nonce == Get(s.accounts, account).nonce
      && account !in t.guards && n in t.guards && t.guards[n] == s.guards[account].(pending := None)
      && t.recoveredTo[account] == n
    ensures var n := s.guards[account].pending.value.newOwner; var t := GuardEffect(s, from, Finish(account));
      && t.pools.Keys == s.pools.Keys && t.escrows.Keys == s.escrows.Keys
      && (forall id :: id in t.escrows ==>
            && !HasRole(t.escrows[id], account)
            && (HasRole(t.escrows[id], n) <==> HasRole(s.escrows[id], account) || HasRole(s.escrows[id], n)))
      && (forall id :: id in t.pools ==> SeatMoved(s.pools[id], account, n, t.pools[id]))
    ensures var t := GuardEffect(s, from, Finish(account)); forall id :: id in t.escrows ==> var e := t.escrows[id];
      e == s.escrows[id].(buyer := e.buyer, seller := e.seller, arbiter := e.arbiter)
  {
    hide EscrowsOk, MoveHoldings, AccountsOk, CircleInv, RenameCircle, SeatMoved;
    assert TargetOk(account, s.guards[account]);
    var n := s.guards[account].pending.value.newOwner;
    MoveRead(s.accounts, account, n, account, x);
    MoveRead(s.accounts, account, n, n, x);
    forall id | id in s.pools ensures SeatMoved(s.pools[id], account, n, RenameCircle(s.pools[id], account, n)) {
      SeatMoves(s.pools[id], account, n);
    }
  }

  lemma RenamedSeats(c: Circle, account: Address, n: Address)
    requires account != n
    ensures var r := RenameCircle(c, account, n);
      && (Seated(r, account) <==> Seated(c, account) && Seated(c, n))
      && (Seated(r, n) <==> Seated(c, account) || Seated(c, n)) && (Seated(c, n) ==> r == c)
      && (r.creator == account <==> c.creator == account && Seated(c, n))
      && r == c.(members := r.members, creator := r.creator) && |r.members| == |c.members|
      && (forall j :: 0 <= j < |c.members| ==>
            r.members[j] == c.members[j] || (c.members[j] == account && r.members[j] == n))
      && (r.creator == c.creator || (c.creator == account && r.creator == n))
  {
    if !Seated(c, n) {
      var r := ReplaceMember(c.members, account, n);
      if account in c.members {
        var i := Index(c.members, account);
        assert r[i] == n;
      }
    }
  }

  /** The three parties of an escrow are different keys. */
  predicate RolesDistinct(e: Escrow) { e.buyer != e.seller && e.buyer != e.arbiter && e.seller != e.arbiter }

  /**
    A recovery keeps an escrow's three parties apart if and only if the old and the new key are not both among them.
   */
  lemma RolesStayDistinct(s: State, account: Address, n: Address, id: Hash)
    requires account in s.guards && account != n && id in s.escrows && RolesDistinct(s.escrows[id])
    ensures RolesDistinct(MoveAccount(s, account, n).escrows[id])
      <==> !(HasRole(s.escrows[id], account) && HasRole(s.escrows[id], n))
  {
    hide MoveHoldings, RenameCircle;
  }

  /** A recovery setup as GuardSet accepts it, with any pending recovery backed by distinct guardians of the set. */
  ghost predicate SetupOk(g: Guardianship) {
    && 1 <= g.threshold <= |g.guardians| && 3600 <= g.delaySecs
    && (g.pending.Some? ==>
          var p := g.pending.value;
          && 1 <= |p.approvals| && Distinct(p.approvals) && (forall j :: 0 <= j < |p.approvals| ==>
            p.approvals[j] in g.guardians)
          && (p.readyAt != 0 <==> |p.approvals| >= g.threshold))
  }

  ghost predicate SetupsOk(s: State) { forall a :: a in s.guards ==> SetupOk(s.guards[a]) }

  lemma StartedOk(g: Guardianship, from: Address, n: Address, now: int)
    requires SetupOk(g) && from in g.guardians && 0 <= now
    ensures SetupOk(Started(g, from, n, now))
  {}

  lemma ApprovedOk(g: Guardianship, from: Address, now: int)
    requires SetupOk(g) && g.pending.Some? && from in g.guardians && from !in g.pending.value.approvals && 0 <= now
    ensures SetupOk(Approved(g, from, now))
  {}

  /**
    The ready time is set exactly when the threshold is reached, in every recovery setup, after every guard operation.
   */
  lemma GuardSetupsOk(s: State, from: Address, op: GuardOp)
    requires SetupsOk(s) && 0 <= s.now && GoodGuardOp(op, from) && GuardCheck(s, from, op) == None
    ensures SetupsOk(GuardEffect(s, from, op))
  {
    hide Started, Approved, MoveHoldings, RenameCircle, RenameEscrow;
    match op
    case StartRecovery(account, n) => StartedOk(s.guards[account], from, n, s.now);
    case Approve(account, _) => ApprovedOk(s.guards[account], from, s.now);
    case _ =>
  }

  lemma StepGuards(sha: Sha, s: State, tx: Tx)
    requires Shaped(s) && GoodTx(tx) && Check(s, tx) == None && (tx.body.CircleStep? || tx.body.EscrowAct?)
    ensures Effect(sha, s, tx).guards == s.guards
  {
    hide Shape, StepEffect, EscrowEffect, StepCheck, EscrowCheck, CreditsApplied, Balance, Stake;
  }

  lemma OpenGuards(sha: Sha, s: State, tx: Tx)
    requires Shaped(s) && GoodTx(tx) && Check(s, tx) == None && (tx.body.OpenCircle? || tx.body.OpenEscrow?)
    ensures Effect(sha, s, tx).guards == s.guards
  {
    hide Shape, Shaped, NewCircle, NewEscrow, Check, GoodTx;
  }

  lemma PaymentGuards(sha: Sha, s: State, tx: Tx)
    requires Shaped(s) && GoodTx(tx) && Check(s, tx) == None && (tx.body.Transfer? || tx.body.Mint? || tx.body.Burn?)
    ensures Effect(sha, s, tx).guards == s.guards
  {
    hide Shape, Shaped, CreditTo, IssuedOf, Check, GoodTx;
  }

  lemma GuardAsEffect(sha: Sha, s: State, tx: Tx)
    requires Shaped(s) && GoodTx(tx) && Check(s, tx) == None && tx.body.Guard?
    ensures GuardCheck(s, tx.from, tx.body.op) == None && Effect(sha, s, tx) == GuardEffect(s, tx.from, tx.body.op)
  {
    hide Shape, Shaped, GuardEffect, Check, GuardCheck, GoodTx;
    GuardAllowed(s, tx);
  }

  /** Only guard operations touch recovery setups. */
  lemma EffectGuards(sha: Sha, s: State, tx: Tx)
    requires Shaped(s) && GoodTx(tx) && Check(s, tx) == None
    ensures tx.body.Guard? ==> GuardCheck(s, tx.from, tx.body.op) == None
    ensures Effect(sha, s, tx).guards == if tx.body.Guard? then GuardEffect(s, tx.from, tx.body.op).guards else s.guards
  {
    hide Shaped, GuardEffect, Check, GuardCheck, GoodTx, Effect;
    if tx.body.Guard? {
      GuardAsEffect(sha, s, tx);
    } else if tx.body.CircleStep? || tx.body.EscrowAct? {
      StepGuards(sha, s, tx);
    } else if tx.body.OpenCircle? || tx.body.OpenEscrow? {
      OpenGuards(sha, s, tx);
    } else {
      PaymentGuards(sha, s, tx);
    }
  }

  lemma CommittedGuards(sha: Sha, s: State, e: Entry, t: State)
    requires Committed(sha, s, e, t)
    ensures var at := s.(now := e.now);
      && (e.tx.body.Guard? ==> GuardCheck(at, e.tx.from, e.tx.body.op) == None && GoodGuardOp(e.tx.body.op, e.tx.from))
      && t.guards == if e.tx.body.Guard? then GuardEffect(at, e.tx.from, e.tx.body.op).guards else s.guards
  {
    hide Shaped, Check, Effect, GuardEffect, GuardCheck, Covered, GoodGuardOp;
    EffectGuards(sha, s.(now := e.now), e.tx);
    CheckedAsset(s.(now := e.now), e.tx);
    SettleGuards(Effect(sha, s.(now := e.now), e.tx), e.tx, Cost(s.(now := e.now), e.tx));
  }

  lemma SettleGuards(s: State, tx: Tx, cost: int)
    requires tx.asset != ORP ==> tx.asset in s.defs
    ensures Settle(s, tx, cost).guards == s.guards
  {}

  lemma {:induction false} RunSetupsOk(sha: Sha, es: seq<Entry>, ss: seq<State>, k: nat)
    requires Trace(sha, es, ss) && k <= |es| && SetupsOk(ss[0])
    ensures SetupsOk(ss[k])
  {
    hide Committed, SetupsOk, GuardEffect, GuardCheck, GoodGuardOp;
    if k > 0 {
      RunSetupsOk(sha, es, ss, k - 1);
      assert Committed(sha, ss[k - 1], es[k - 1], ss[k]);
      CommittedSetups(sha, ss[k - 1], es[k - 1], ss[k]);
    }
  }

  lemma CommittedSetups(sha: Sha, s: State, e: Entry, t: State)
    requires Committed(sha, s, e, t) && SetupsOk(s)
    ensures SetupsOk(t)
  {
    hide Shaped, Check, Apply, GuardEffect, GuardCheck, Covered, GoodGuardOp, SetupOk;
    CommittedGuards(sha, s, e, t);
    if e.tx.body.Guard? {
      GuardSetupsOk(s.(now := e.now), e.tx.from, e.tx.body.op);
    }
  }

  // ---------------------------------------------------------------- what stands behind a pending recovery

  predicate SameSet(g: Guardianship, h: Guardianship) {
    g.guardians == h.guardians && g.threshold == h.threshold && g.delaySecs == h.delaySecs
  }

  predicate HasPending(s: State, a: Address) { a in s.guards && s.guards[a].pending.Some? }

  function PendingOf(s: State, a: Address): Recovery
    requires HasPending(s, a)
  {
    s.guards[a].pending.value
  }

  /**
    Since position i the account's setup is the one in ss[k], with a recovery to the same new key pending throughout.
   */
  ghost predicate Unbroken(ss: seq<State>, i: nat, k: nat, a: Address)
    requires k < |ss| && HasPending(ss[k], a)
  {
    forall q :: i < q <= k ==>
      HasPending(ss[q], a) && SameSet(ss[q].guards[a], ss[k].guards[a])
        && PendingOf(ss[q], a).newOwner == PendingOf(ss[k], a).newOwner
  }

  /**
    at lists the positions of the transactions behind a pending recovery: a start and then approvals, all naming the
    same account and new key, each sent by the guardian recorded for it, under one unchanged guardian set and with
    nothing cancelled in between; a set ready time is the safety delay after the approval that reached the threshold.
   */
  ghost predicate Backed(es: seq<Entry>, ss: seq<State>, k: nat, a: Address, at: seq<nat>)
    requires |ss| == |es| + 1 && k < |ss|
  {
    && HasPending(ss[k], a)
    && var g := ss[k].guards[a]; var p := PendingOf(ss[k], a);
    && 1 <= |at| == |p.approvals|
    && (forall m :: 0 <= m < |at| ==> at[m] < k && es[at[m]].tx.from == p.approvals[m])
    && (forall m, n :: 0 <= m < n < |at| ==> at[m] < at[n])
    && es[at[0]].tx.body == Guard(StartRecovery(a, p.newOwner))
    && (forall m :: 1 <= m < |at| ==> es[at[m]].tx.body == Guard(Approve(a, p.newOwner)))
    && Unbroken(ss, at[0], k, a)
    && (p.readyAt != 0 ==> 1 <= g.threshold <= |at| && p.readyAt == es[at[g.threshold - 1]].now + g.delaySecs * 1000)
  }

  /** How one guard operation changes the setup of account a. */
  lemma GuardsAt(s: State, from: Address, op: GuardOp, a: Address)
    requires GuardCheck(s, from, op) == None && HasPending(GuardEffect(s, from, op), a)
    ensures a in s.guards
    ensures var g := s.guards[a]; var h := GuardEffect(s, from, op).guards[a];
      || (op.StartRecovery? && op.account == a && g.pending.None? && h == Started(g, from, op.newOwner, s.now))
      || (op.Approve? && op.account == a && g.pending.Some? && g.pending.value.newOwner == op.newOwner
        && h == Approved(g, from, s.now))
      || (h == g && !(op.StartRecovery? && op.account == a) && !(op.Approve? && op.account == a))
  {
    hide Started, Approved, MoveHoldings, RenameCircle, RenameEscrow;
  }

  lemma BackedKept(es: seq<Entry>, ss: seq<State>, k: nat, a: Address, at: seq<nat>)
    requires |ss| == |es| + 1 && k + 1 < |ss| && Backed(es, ss, k, a, at)
    requires a in ss[k + 1].guards && ss[k + 1].guards[a] == ss[k].guards[a]
    ensures Backed(es, ss, k + 1, a, at)
  {}

  lemma BackedStart(es: seq<Entry>, ss: seq<State>, k: nat, a: Address)
    requires |ss| == |es| + 1 && k + 1 < |ss| && a in ss[k].guards && a in ss[k + 1].guards && SetupOk(ss[k].guards[a])
    requires es[k].tx.body.Guard? && es[k].tx.body.op.StartRecovery? && es[k].tx.body.op.account == a
    requires ss[k + 1].guards[a] == Started(ss[k].guards[a], es[k].tx.from, es[k].tx.body.op.newOwner, es[k].now)
    ensures Backed(es, ss, k + 1, a, [k])
  {}

  lemma BackedApprove(es: seq<Entry>, ss: seq<State>, k: nat, a: Address, at: seq<nat>)
    requires |ss| == |es| + 1 && k + 1 < |ss| && Backed(es, ss, k, a, at) && a in ss[k + 1].guards
      && SetupOk(ss[k].guards[a])
    requires es[k].tx.body.Guard? && es[k].tx.body.op.Approve? && es[k].tx.body.op.account == a
    requires PendingOf(ss[k], a).newOwner == es[k].tx.body.op.newOwner
    requires ss[k + 1].guards[a] == Approved(ss[k].guards[a], es[k].tx.from, es[k].now)
    ensures Backed(es, ss, k + 1, a, at + [k])
  {
    var more := at + [k];
    var g, p := ss[k].guards[a], PendingOf(ss[k], a);
    var h, r := ss[k + 1].guards[a], PendingOf(ss[k + 1], a);
    assert r.approvals == p.approvals + [es[k].tx.from];
    assert Unbroken(ss, more[0], k + 1, a);
    if r.readyAt != 0 {
      if p.readyAt != 0 {
        assert more[h.threshold - 1] == at[g.threshold - 1];
      } else {
        assert |p.approvals| < g.threshold;
        assert more[h.threshold - 1] == k;
      }
    }
  }

  /** Every pending recovery in every reachable state is backed by the run that led to it. */
  lemma {:induction false} PendingBacked(sha: Sha, es: seq<Entry>, ss: seq<State>, k: nat, a: Address)
      returns (at: seq<nat>)
    requires Trace(sha, es, ss) && k <= |es| && ss[0].guards == map[] && HasPending(ss[k], a)
    ensures Backed(es, ss, k, a, at)
  {
    hide Committed, GuardEffect, GuardCheck, GoodGuardOp, Started, Approved, Backed, SetupOk;
    var s, e, t := ss[k - 1], es[k - 1], ss[k];
    assert Committed(sha, s, e, t);
    RunSetupsOk(sha, es, ss, k - 1);
    CommittedGuards(sha, s, e, t);
    if e.tx.body.Guard? {
      GuardsAt(s.(now := e.now), e.tx.from, e.tx.body.op, a);
      if e.tx.body.op.StartRecovery? && e.tx.body.op.account == a {
        BackedStart(es, ss, k - 1, a);
        at := [k - 1];
      } else {
        at := PendingBacked(sha, es, ss, k - 1, a);
        if e.tx.body.op.Approve? && e.tx.body.op.account == a {
          BackedApprove(es, ss, k - 1, a, at);
          at := at + [k - 1];
        } else {
          BackedKept(es, ss, k - 1, a, at);
        }
      }
    } else {
      at := PendingBacked(sha, es, ss, k - 1, a);
      BackedKept(es, ss, k - 1, a, at);
    }
  }

  /**
    Recovery safety over every run from a ledger without recovery setups: a recovery finishes only if at least Threshold
    distinct guardians of the account's unchanged set approved this very key, the block time is at least DelaySecs past
    the approval that reached the threshold, and the recovery was pending without a break all along.
   */
  lemma RecoveryAuthorised(sha: Sha, es: seq<Entry>, ss: seq<State>, k: nat, a: Address) returns (at: seq<nat>)
    requires Trace(sha, es, ss) && k < |es| && ss[0].guards == map[] && FinishesFor(es[k].tx, a)
    ensures Backed(es, ss, k, a, at)
    ensures var g := ss[k].guards[a]; var p := PendingOf(ss[k], a);
      && 1 <= g.threshold <= |at| && Distinct(p.approvals) && (forall m :: 0 <= m < |at| ==>
        p.approvals[m] in g.guardians)
      && es[k].now >= es[at[g.threshold - 1]].now + g.delaySecs * 1000
  {
    hide Committed, GuardEffect, GoodGuardOp;
    assert Committed(sha, ss[k], es[k], ss[k + 1]);
    RunSetupsOk(sha, es, ss, k);
    CommittedGuards(sha, ss[k], es[k], ss[k + 1]);
    at := PendingBacked(sha, es, ss, k, a);
    assert SetupOk(ss[k].guards[a]);
  }
}
