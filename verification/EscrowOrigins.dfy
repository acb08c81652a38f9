/**
  Escrows in ledger runs: who holds which role and on which terms, from the transaction that opened the escrow on, when
  its clocks started, who may act, and whom each step pays.
 */
module EscrowOrigins {
  import opened Arithmetic
  import opened Core
  import opened Sequences
  import opened Circles
  import opened CircleBooks
  import opened Escrows
  import opened Ledger
  import opened Conservation
  import opened LedgerSafety
  import opened LedgerRuns
  import opened ClaimFunding
  import opened Outcomes

  // ---------------------------------------------------------------- opening

  /** The escrow that this transaction agreed to, at this time: nothing released, nothing paid, nothing dispatched. */
  ghost predicate AsAgreed(e: Escrow, tx: Tx, now: int)
    requires tx.body.OpenEscrow?
  {
    var a := tx.body.agreed;
    && e.buyer == tx.from && e.seller == a.seller && e.arbiter == a.arbiter && e.asset == tx.asset
    && e.milestones == a.milestones && e.shipBy == a.shipBy && e.reviewSecs == a.reviewSecs
    && e.arbiterBps == a.arbiterBps && e.createdAt == now && e.status == Funded && e.released == 0
    && e.balance == Sum(a.milestones) && e.dispatchedAt == 0 && e.paidSeller == 0 && e.paidBuyer == 0
    && e.arbiterFee == 0
  }

  lemma OpeningEffect(sha: Sha, s: State, tx: Tx)
    requires Shaped(s) && GoodTx(tx) && Allowed(s, tx) && tx.body.OpenEscrow?
    ensures tx.id !in s.escrows && s.now < tx.body.agreed.shipBy
    ensures var t := Effect(sha, s, tx); tx.id in t.escrows && AsAgreed(t.escrows[tx.id], tx, s.now)
    ensures forall id :: id in s.escrows ==>
      id in Effect(sha, s, tx).escrows && Effect(sha, s, tx).escrows[id] == s.escrows[id]
  {
    hide Shape, Shaped, GoodEscrowTerms, Sum;
  }

  // ---------------------------------------------------------------- what happens to an open escrow

  /** The account a recovery takes over and its new key, when the transaction finishes one. */
  function Move(s: State, tx: Tx): Option<(Address, Address)> {
    if tx.body.Guard? && tx.body.op.Finish? && tx.body.op.account in s.guards
      && s.guards[tx.body.op.account].pending.Some?
    then Some((tx.body.op.account, s.guards[tx.body.op.account].pending.value.newOwner))
    else None
  }

  /** The name an address goes by after a transaction. */
  function NameAfter(s: State, tx: Tx, a: Address): Address {
    match Move(s, tx)
    case None => a
    case Some((o, n)) => if a == o then n else a
  }

  /** r is e after this transaction, which may be a step of it. */
  ghost predicate Moves(s: State, tx: Tx, id: Hash, e: Escrow, r: Escrow) {
    if tx.body.EscrowAct? && tx.body.escrow == id then
      && EscrowCheck(e, tx.from, tx.body.act, s.now) == None
      && 0 <= e.released < |e.milestones| && r == EscrowEffect(e, tx.body.act, s.now).escrow
    else
      r == e.(buyer := NameAfter(s, tx, e.buyer), seller := NameAfter(s, tx, e.seller),
        arbiter := NameAfter(s, tx, e.arbiter))
  }

  lemma CheckedOpen(e: Escrow, who: Address, op: EscrowStep, now: int)
    requires EscrowCheck(e, who, op, now) == None
    ensures Open(e)
  {}

  lemma ActMoves(sha: Sha, s: State, tx: Tx, id: Hash)
    requires Shaped(s) && GoodTx(tx) && Allowed(s, tx) && tx.body.EscrowAct? && id in s.escrows
    ensures id in Effect(sha, s, tx).escrows && Moves(s, tx, id, s.escrows[id], Effect(sha, s, tx).escrows[id])
  {
    hide Shape, EscrowEffect, EscrowCheck, CreditsApplied;
    CheckedOpen(s.escrows[tx.body.escrow], tx.from, tx.body.act, s.now);
  }

  lemma GuardEscrows(s: State, from: Address, op: GuardOp, id: Hash)
    requires GuardCheck(s, from, op) == None && id in s.escrows
    ensures var t := GuardEffect(s, from, op);
      && id in t.escrows
      && t.escrows[id] == if op.Finish? && s.guards[op.account].pending.Some?
        then RenameEscrow(s.escrows[id], op.account, s.guards[op.account].pending.value.newOwner) else s.escrows[id]
  {
    hide RenameCircle, RenameEscrow, MoveHoldings, Started, Approved;
  }

  lemma GuardMoves(sha: Sha, s: State, tx: Tx, id: Hash)
    requires Shaped(s) && GoodTx(tx) && Allowed(s, tx) && tx.body.Guard? && id in s.escrows
    ensures id in Effect(sha, s, tx).escrows && Moves(s, tx, id, s.escrows[id], Effect(sha, s, tx).escrows[id])
  {
    hide Shape, Shaped, GuardEffect, GuardCheck, GoodTx;
    GuardAllowed(s, tx);
    GuardEscrows(s, tx.from, tx.body.op, id);
    GuardHasSetup(s, tx.from, tx.body.op);
  }

  lemma GuardHasSetup(s: State, from: Address, op: GuardOp)
    requires GuardCheck(s, from, op) == None
    ensures op.Finish? ==> op.account in s.guards
  {}

  lemma CircleStepEscrows(sha: Sha, s: State, tx: Tx)
    requires Shaped(s) && GoodTx(tx) && Allowed(s, tx) && tx.body.CircleStep?
    ensures Effect(sha, s, tx).escrows == s.escrows
  {
    hide Shape, StepEffect, StepCheck, CreditsApplied, Balance;
  }

  lemma PlainEscrows(sha: Sha, s: State, tx: Tx)
    requires Shaped(s) && GoodTx(tx) && Allowed(s, tx)
    requires tx.body.Transfer? || tx.body.Mint? || tx.body.Burn? || tx.body.OpenCircle?
    ensures Effect(sha, s, tx).escrows == s.escrows
  {
    hide Shape, Shaped, CreditTo, IssuedOf, NewCircle, Allowed, GoodTx;
  }

  lemma EffectMoves(sha: Sha, s: State, tx: Tx, id: Hash)
    requires Shaped(s) && GoodTx(tx) && Allowed(s, tx) && id in s.escrows
    ensures id in Effect(sha, s, tx).escrows && Moves(s, tx, id, s.escrows[id], Effect(sha, s, tx).escrows[id])
  {
    hide Shaped, GoodTx, Allowed, Effect, EscrowCheck, EscrowEffect;
    if tx.body.EscrowAct? {
      ActMoves(sha, s, tx, id);
    } else if tx.body.Guard? {
      GuardMoves(sha, s, tx, id);
    } else if tx.body.OpenEscrow? {
      OpeningEffect(sha, s, tx);
    } else if tx.body.CircleStep? {
      CircleStepEscrows(sha, s, tx);
    } else {
      PlainEscrows(sha, s, tx);
    }
  }

  lemma SettleEscrows(s: State, tx: Tx, cost: int)
    requires tx.asset != ORP ==> tx.asset in s.defs
    ensures Settle(s, tx, cost).escrows == s.escrows
  {}

  lemma CommittedMoves(sha: Sha, s: State, e: Entry, t: State, id: Hash)
    requires Committed(sha, s, e, t) && id in s.escrows
    ensures id in t.escrows && Moves(s.(now := e.now), e.tx, id, s.escrows[id], t.escrows[id])
  {
    var at := s.(now := e.now);
    hide Shaped, GoodTx, Check, Covered, Effect, Settle, Cost, Moves;
    CheckedAsset(at, e.tx);
    EffectMoves(sha, at, e.tx, id);
    SettleEscrows(Effect(sha, at, e.tx), e.tx, Cost(at, e.tx));
  }

  lemma CommittedOpening(sha: Sha, s: State, e: Entry, t: State)
    requires Committed(sha, s, e, t) && e.tx.body.OpenEscrow?
    ensures e.tx.id !in s.escrows && e.now < e.tx.body.agreed.shipBy
    ensures e.tx.id in t.escrows && AsAgreed(t.escrows[e.tx.id], e.tx, e.now)
  {
    var at := s.(now := e.now);
    hide Shaped, GoodTx, Check, Covered, Effect, Settle, Cost, AsAgreed;
    CheckedAsset(at, e.tx);
    OpeningEffect(sha, at, e.tx);
    SettleEscrows(Effect(sha, at, e.tx), e.tx, Cost(at, e.tx));
  }

  // ---------------------------------------------------------------- whole runs

  /** The name an address goes by in ss[k], after the recoveries of the transactions from i on. */
  function NameAt(es: seq<Entry>, ss: seq<State>, i: nat, k: nat, a: Address): Address
    requires |ss| == |es| + 1 && k <= |es|
  {
    if k <= i then a
    else NameAfter(ss[k - 1], es[k - 1].tx, NameAt(es, ss, i, k - 1, a))
  }

  /** The block time of the last dispatch of an escrow among the transactions from i on, or 0. */
  function DispatchTime(es: seq<Entry>, id: Hash, i: nat, k: nat): int
    requires k <= |es|
  {
    if k <= i then 0
    else if es[k - 1].tx.body == EscrowAct(id, Dispatch) then es[k - 1].now
    else DispatchTime(es, id, i, k - 1)
  }

  /** Some dispatch of it is among them. */
  predicate WasDispatched(es: seq<Entry>, id: Hash, i: nat, k: nat)
    requires k <= |es|
  {
    exists q :: i <= q < k && es[q].tx.body == EscrowAct(id, Dispatch)
  }

  /** The terms of an opening, which nothing changes. */
  ghost predicate OnTerms(e: Escrow, tx: Tx, now: int)
    requires tx.body.OpenEscrow?
  {
    var a := tx.body.agreed;
    && e.asset == tx.asset && e.milestones == a.milestones && e.shipBy == a.shipBy && e.reviewSecs == a.reviewSecs
    && e.arbiterBps == a.arbiterBps && e.createdAt == now
  }

  predicate OpensEscrow(es: seq<Entry>, i: nat, id: Hash) { i < |es| && es[i].tx.body.OpenEscrow? && es[i].tx.id == id }

  /**
    In every run an escrow stays on the terms its opening agreed; its buyer, seller and arbiter are the opener and the
    two named in the opening, under the names later recoveries gave them; and its review clock is the block time of its
    dispatch.
   */
  ghost predicate Origin(es: seq<Entry>, ss: seq<State>, id: Hash, i: nat, k: nat)
    requires |ss| == |es| + 1 && i < k <= |es| && OpensEscrow(es, i, id)
  {
    var a := es[i].tx.body.agreed;
    && id in ss[k].escrows
    && var e := ss[k].escrows[id];
    && OnTerms(e, es[i].tx, es[i].now)
    && e.buyer == NameAt(es, ss, i + 1, k, es[i].tx.from) && e.seller == NameAt(es, ss, i + 1, k, a.seller)
    && e.arbiter == NameAt(es, ss, i + 1, k, a.arbiter)
    && e.dispatchedAt == DispatchTime(es, id, i + 1, k)
    && (e.status == Dispatched ==> WasDispatched(es, id, i + 1, k))
    && (e.status == Funded ==> !WasDispatched(es, id, i + 1, k))
  }

  lemma StepTerms(e: Escrow, op: EscrowStep, now: int)
    requires 0 <= e.released < |e.milestones|
    ensures var r := EscrowEffect(e, op, now).escrow;
      && r.asset == e.asset && r.milestones == e.milestones && r.shipBy == e.shipBy && r.reviewSecs == e.reviewSecs
      && r.arbiterBps == e.arbiterBps && r.createdAt == e.createdAt && r.buyer == e.buyer && r.seller == e.seller
      && r.arbiter == e.arbiter
      && r.dispatchedAt == (if op.Dispatch? then now else e.dispatchedAt)
      && (op.Dispatch? ==> r.status == Dispatched)
      && (!op.Dispatch? && r.status == Dispatched ==> e.status == Dispatched)
      && (!op.Dispatch? && r.status == Funded ==> e.status == Funded)
  {}

  lemma DispatchedMore(es: seq<Entry>, id: Hash, i: nat, k: nat)
    requires i < k <= |es|
    ensures WasDispatched(es, id, i, k) <==>
      WasDispatched(es, id, i, k - 1) || es[k - 1].tx.body == EscrowAct(id, Dispatch)
  {}

  lemma NamesSettle(s: State, now: int, tx: Tx, a: Address)
    ensures NameAfter(s.(now := now), tx, a) == NameAfter(s, tx, a)
    ensures tx.body.EscrowAct? ==> NameAfter(s, tx, a) == a
  {}

  lemma OriginNext(sha: Sha, es: seq<Entry>, ss: seq<State>, id: Hash, i: nat, k: nat)
    requires Trace(sha, es, ss) && i + 1 < k <= |es| && OpensEscrow(es, i, id) && Origin(es, ss, id, i, k - 1)
    ensures Origin(es, ss, id, i, k)
  {
    hide Committed, EscrowEffect, EscrowCheck, NameAfter, WasDispatched;
    var s, tx, a := ss[k - 1], es[k - 1].tx, es[i].tx.body.agreed;
    var e := s.escrows[id];
    CommittedMoves(sha, s, es[k - 1], ss[k], id);
    DispatchedMore(es, id, i + 1, k);
    NamesSettle(s, es[k - 1].now, tx, e.buyer);
    NamesSettle(s, es[k - 1].now, tx, e.seller);
    NamesSettle(s, es[k - 1].now, tx, e.arbiter);
    if tx.body.EscrowAct? && tx.body.escrow == id {
      StepTerms(e, tx.body.act, es[k - 1].now);
      assert tx.body == EscrowAct(id, tx.body.act);
    }
  }

  lemma {:induction false} EscrowOrigin(sha: Sha, es: seq<Entry>, ss: seq<State>, id: Hash, i: nat, k: nat)
    requires Trace(sha, es, ss) && i < k <= |es| && OpensEscrow(es, i, id)
    ensures Origin(es, ss, id, i, k)
  {
    hide Committed, Origin;
    if k == i + 1 {
      OriginFirst(sha, es, ss, id, i);
    } else {
      EscrowOrigin(sha, es, ss, id, i, k - 1);
      OriginNext(sha, es, ss, id, i, k);
    }
  }

  lemma OriginFirst(sha: Sha, es: seq<Entry>, ss: seq<State>, id: Hash, i: nat)
    requires Trace(sha, es, ss) && i < |es| && OpensEscrow(es, i, id)
    ensures Origin(es, ss, id, i, i + 1)
  {
    hide Committed;
    CommittedOpening(sha, ss[i], es[i], ss[i + 1]);
  }

  // ---------------------------------------------------------------- who may act, and whom it pays

  /** Who may take a step of an escrow, in which situation and when. */
  predicate MayAct(e: Escrow, who: Address, op: EscrowStep, now: int) {
    match op
    case Dispatch => e.status == Funded && who == e.seller
    case Release => (e.status == Funded || e.status == Dispatched) && who == e.buyer
    case Dispute => (e.status == Funded || e.status == Dispatched) && who in {e.buyer, e.seller}
    case Resolve(toSeller) =>
      e.status == Disputed && who == e.arbiter && toSeller + e.balance * e.arbiterBps / 10000 <= e.balance
    case Refund =>
      || (who == e.seller && e.status in {Funded, Dispatched, Disputed})
      || (who == e.buyer && e.status == Funded && e.shipBy < now)
    case ClaimRest => e.status == Dispatched && who == e.seller && e.dispatchedAt + 1000 * e.reviewSecs <= now
  }

  /** The rules allow a step exactly to whom and when it is due. */
  lemma ActsExactly(e: Escrow, who: Address, op: EscrowStep, now: int)
    ensures EscrowCheck(e, who, op, now) == None <==> MayAct(e, who, op, now)
  {}

  /** What a step brings the seller, the buyer and the arbiter. */
  function Shares(e: Escrow, op: EscrowStep): (int, int, int)
    requires 0 <= e.released < |e.milestones|
  {
    var fee := e.balance * e.arbiterBps / 10000;
    match op
    case Release => (e.milestones[e.released], 0, 0)
    case Resolve(toSeller) => (toSeller, e.balance - toSeller - fee, fee)
    case Refund => (0, e.balance, 0)
    case ClaimRest => (e.balance, 0, 0)
    case _ => (0, 0, 0)
  }

  /** The situation after a step. */
  function StatusAfter(e: Escrow, op: EscrowStep): EscrowStatus {
    match op
    case Dispatch => Dispatched
    case Release => if e.released + 1 == |e.milestones| then Completed else e.status
    case Dispute => Disputed
    case Resolve(_) => Resolved
    case Refund => Refunded
    case ClaimRest => Completed
  }

  lemma StepReceives(e: Escrow, who: Address, op: EscrowStep, now: int, x: Address)
    requires EscrowInv(e) && GoodEscrowStep(op) && EscrowCheck(e, who, op, now) == None && Open(e)
    ensures var (seller, buyer, arbiter) := Shares(e, op);
      ReceivedAll(EscrowEffect(e, op, now).credits, x)
        == (if x == e.seller then seller else 0) + (if x == e.buyer then buyer else 0)
           + (if x == e.arbiter then arbiter else 0)
  {
    OpenHoldsMoney(e);
    hide Pay, ResolveSplit, ReceivedAll;
    match op {
      case Release =>
        assert EscrowEffect(e, op, now).credits == Pay(e, e.seller, e.milestones[e.released]).credits;
        ReceivedPay(e, e.seller, e.milestones[e.released], x);
      case Resolve(amount) => ResolveReceived(e, amount, x);
      case Refund => ReceivedPay(e, e.buyer, e.balance, x);
      case ClaimRest => ReceivedPay(e, e.seller, e.balance, x);
      case Dispatch => ReceivedNone(x);
      case Dispute => ReceivedNone(x);
    }
  }

  lemma ReceivedNone(x: Address)
    ensures ReceivedAll([], x) == 0
  {}

  lemma StepTallies(e: Escrow, who: Address, op: EscrowStep, now: int)
    requires EscrowInv(e) && GoodEscrowStep(op) && EscrowCheck(e, who, op, now) == None && Open(e)
    ensures var r, (seller, buyer, arbiter) := EscrowEffect(e, op, now).escrow, Shares(e, op);
      && r.balance == e.balance - seller - buyer - arbiter && r.arbiterFee == e.arbiterFee + arbiter
      && (e.seller != e.buyer ==> r.paidSeller == e.paidSeller + seller && r.paidBuyer == e.paidBuyer + buyer)
  {
    OpenHoldsMoney(e);
    BasisPointsBounds(e.balance, e.arbiterBps);
  }

  /** Each step pays exactly the shares of the three roles, and leaves exactly this situation and these tallies. */
  lemma StepPays(e: Escrow, who: Address, op: EscrowStep, now: int, x: Address)
    requires EscrowInv(e) && GoodEscrowStep(op) && EscrowCheck(e, who, op, now) == None
    ensures 0 <= e.released < |e.milestones|
    ensures var r, (seller, buyer, arbiter) := EscrowEffect(e, op, now), Shares(e, op);
      && ReceivedAll(r.credits, x)
        == (if x == e.seller then seller else 0) + (if x == e.buyer then buyer else 0)
           + (if x == e.arbiter then arbiter else 0)
      && r.escrow.status == StatusAfter(e, op)
      && r.escrow.released == (if op.Release? then e.released + 1 else if op.ClaimRest? then |e.milestones|
        else e.released)
      && r.escrow.balance == e.balance - seller - buyer - arbiter
      && r.escrow.arbiterFee == e.arbiterFee + arbiter
      && (e.seller != e.buyer ==>
        r.escrow.paidSeller == e.paidSeller + seller && r.escrow.paidBuyer == e.paidBuyer + buyer)
  {
    CheckedOpen(e, who, op, now);
    OpenHoldsMoney(e);
    StepReceives(e, who, op, now, x);
    StepTallies(e, who, op, now);
    hide EscrowInv, EscrowCheck, Shares, ReceivedAll;
  }

  /**
    In every run a committed step of an escrow is one that its opening, under the names recoveries gave its parties, and
    the block time of its dispatch allow; and it brings every address exactly the shares of its roles, less the cost if
    it sent the step, plus the fee if it is the asset's issuer.
   */
  lemma RunPays(sha: Sha, es: seq<Entry>, ss: seq<State>, id: Hash, i: nat, k: nat, x: Address)
    requires Trace(sha, es, ss) && LedgerInv(ss[0]) && i < k < |es| && OpensEscrow(es, i, id)
    requires es[k].tx.body.EscrowAct? && es[k].tx.body.escrow == id
    ensures Origin(es, ss, id, i, k)
    ensures var e, tx := ss[k].escrows[id], es[k].tx;
      && MayAct(e, tx.from, tx.body.act, es[k].now) && 0 <= e.released < |e.milestones|
      && (tx.asset != ORP ==> tx.asset in ss[k].defs) && tx.asset == e.asset
      && var (seller, buyer, arbiter) := Shares(e, tx.body.act);
        Balance(ss[k + 1].accounts, x, e.asset) == Balance(ss[k].accounts, x, e.asset)
          + (if x == e.seller then seller else 0) + (if x == e.buyer then buyer else 0)
          + (if x == e.arbiter then arbiter else 0) - (if x == tx.from then tx.fee else 0)
          + if e.asset != ORP && x == ss[k].defs[e.asset].issuer then tx.fee else 0
  {
    hide Committed, LedgerInv, Origin, EscrowEffect, MayAct, Shares;
    EscrowOrigin(sha, es, ss, id, i, k);
    RunKeeps(sha, es, ss, k);
    OriginHere(es, ss, id, i, k);
    assert Committed(sha, ss[k], es[k], ss[k + 1]);
    ActCommitted(sha, ss[k], es[k], ss[k + 1], x);
  }

  lemma OriginHere(es: seq<Entry>, ss: seq<State>, id: Hash, i: nat, k: nat)
    requires |ss| == |es| + 1 && i < k <= |es| && OpensEscrow(es, i, id) && Origin(es, ss, id, i, k)
    ensures id in ss[k].escrows
  {}

  lemma ActCommitted(sha: Sha, s: State, e: Entry, t: State, x: Address)
    requires LedgerInv(s) && Committed(sha, s, e, t) && e.tx.body.EscrowAct? && e.tx.body.escrow in s.escrows
    ensures var w, tx := s.escrows[e.tx.body.escrow], e.tx;
      && MayAct(w, tx.from, tx.body.act, e.now) && 0 <= w.released < |w.milestones|
      && (tx.asset != ORP ==> tx.asset in s.defs) && tx.asset == w.asset
      && var (seller, buyer, arbiter) := Shares(w, tx.body.act);
        Balance(t.accounts, x, w.asset) == Balance(s.accounts, x, w.asset)
          + (if x == w.seller then seller else 0) + (if x == w.buyer then buyer else 0)
          + (if x == w.arbiter then arbiter else 0) - (if x == tx.from then tx.fee else 0)
          + if w.asset != ORP && x == s.defs[w.asset].issuer then tx.fee else 0
  {
    var at, w, tx := s.(now := e.now), s.escrows[e.tx.body.escrow], e.tx;
    hide Conserved, Bounded, AccountOk, CirclesOk, Shaped, Check, Covered, EscrowCheck, EscrowEffect, MayAct, Shares,
      Balance, EscrowInv, GoodEscrowStep, Brought;
    CheckedAsset(at, tx);
    ActRule(at, tx);
    ActsExactly(w, tx.from, tx.body.act, e.now);
    StepPays(w, tx.from, tx.body.act, e.now, x);
    BalancesAfter(sha, at, tx, x, w.asset);
    ActBrought(sha, at, tx, x);
  }

  lemma ActRule(s: State, tx: Tx)
    requires Shaped(s) && GoodTx(tx) && Allowed(s, tx) && tx.body.EscrowAct?
    ensures tx.body.escrow in s.escrows && tx.asset == s.escrows[tx.body.escrow].asset && Cost(s, tx) == tx.fee
    ensures GoodEscrowStep(tx.body.act) && EscrowCheck(s.escrows[tx.body.escrow], tx.from, tx.body.act, s.now) == None
  {
    hide Shape, EscrowCheck;
  }

  lemma ActBrought(sha: Sha, s: State, tx: Tx, x: Address)
    requires Shaped(s) && GoodTx(tx) && Check(s, tx) == None && tx.body.EscrowAct?
    ensures var e := s.escrows[tx.body.escrow];
      && 0 <= e.released < |e.milestones|
      && Brought(sha, s, tx, x, e.asset) == ReceivedAll(EscrowEffect(e, tx.body.act, s.now).credits, x)
  {
    hide Shape, EscrowEffect;
  }
}
