/**
  The limits every circle, escrow and recovery setup of a ledger run stays within, in plain numbers.
 */
module RunLimits {
  import opened Core
  import opened Sequences
  import opened Circles
  import opened CircleBooks
  import opened CircleRuns
  import opened CircleHistories
  import opened Escrows
  import opened Ledger
  import opened LedgerSafety
  import opened LedgerRuns
  import opened RecoverySafety
  import opened EscrowOrigins

  // ---------------------------------------------------------------- circles

  /**
    Two to fifty members; a positive contribution, a pot that fits in 64 bits; no schedule or rounds of one hour to
    366 days; a deposit of at most the pot and only with a schedule; at most a tenth for insurance; a target exactly in
    a savings circle, which has neither deposit nor insurance.
   */
  predicate CircleWithin(c: Circle) {
    var t, n := c.terms, |c.members|;
    && 2 <= n <= 50 && 1 <= t.contribution && t.contribution * n < TWO64
    && (t.roundSecs == 0 || 3600 <= t.roundSecs <= 31622400)
    && 0 <= t.deposit <= t.contribution * n && (t.deposit > 0 ==> t.roundSecs > 0)
    && 0 <= t.insuranceBps <= 1000
    && (t.mode == Goal <==> t.target > 0) && (t.mode == Goal ==> t.deposit == 0 && t.insuranceBps == 0)
  }

  lemma TermsWithin(id: Hash, asset: Asset, from: Address, members: seq<Address>, t: Terms)
    requires GoodTerms(members, t, from)
    ensures CircleWithin(NewCircle(id, asset, from, members, t))
    ensures from in members && NoAddress !in members && Distinct(members)
  {
    NewCircleInv(id, asset, from, members, t);
    hide Amounts, Books, Seats, Phase, Pledges;
  }

  /** Every circle opened in a run stays within these limits, and its members stay different keys. */
  lemma CirclesWithin(sha: Sha, es: seq<Entry>, ss: seq<State>, id: Hash, i: nat, k: nat)
    requires Trace(sha, es, ss) && LedgerInv(ss[0]) && i < k <= |es| && OpensAt(es, i, id)
    ensures id in ss[k].pools && CircleWithin(ss[k].pools[id])
    ensures Distinct(ss[k].pools[id].members) && NoAddress !in ss[k].pools[id].members
  {
    hide Committed, LedgerInv, EventOf, GoodTerms, Replay, EventsIn, CircleWithin;
    CircleReplays(sha, es, ss, id, i, k);
    var tx, evs, c := es[i].tx, EventsIn(es, ss, id, i, k), ss[k].pools[id];
    OpenedGood(tx);
    NewCircleInv(tx.id, tx.asset, tx.from, tx.body.members, tx.body.terms);
    ReplayRecorded(sha, OpenedAs(tx), evs);
    TermsWithin(tx.id, tx.asset, tx.from, tx.body.members, tx.body.terms);
    StillWithin(OpenedAs(tx), c, evs);
  }

  lemma StillWithin(start: Circle, c: Circle, evs: seq<Event>)
    requires Recorded(start, c, evs) && CircleWithin(start)
    ensures CircleWithin(c) && Distinct(c.members) && NoAddress !in c.members
  {
    hide Amounts, Books, Seats, Phase, Pledges, History;
  }

  // ---------------------------------------------------------------- escrows

  /**
    One to ten milestones, each positive, that fit in 64 bits together; a review of one hour to ninety days; at most a
    twentieth for the arbiter.
   */
  predicate EscrowWithin(e: Escrow) {
    && 1 <= |e.milestones| <= 10 && (forall j :: 0 <= j < |e.milestones| ==> 1 <= e.milestones[j])
    && Sum(e.milestones) < TWO64 && 3600 <= e.reviewSecs <= 7776000 && 0 <= e.arbiterBps <= 500
    && e.createdAt < e.shipBy
  }

  /** Every escrow opened in a run stays within these limits, and was opened with three different keys. */
  lemma EscrowsWithin(sha: Sha, es: seq<Entry>, ss: seq<State>, id: Hash, i: nat, k: nat)
    requires Trace(sha, es, ss) && i < k <= |es| && OpensEscrow(es, i, id)
    ensures id in ss[k].escrows && EscrowWithin(ss[k].escrows[id])
    ensures var tx := es[i].tx; Distinct([tx.from, tx.body.agreed.seller, tx.body.agreed.arbiter])
  {
    hide Committed, NameAt, Sum;
    EscrowOrigin(sha, es, ss, id, i, k);
    CommittedOpening(sha, ss[i], es[i], ss[i + 1]);
    CommittedGood(sha, ss[i], es[i], ss[i + 1]);
  }

  // ---------------------------------------------------------------- recovery setups

  /** One to five different guardians, a threshold they can reach, and a delay of one hour to thirty days. */
  predicate SetupWithin(g: Guardianship) {
    && 1 <= |g.guardians| <= 5 && Distinct(g.guardians) && NoAddress !in g.guardians
    && 1 <= g.threshold <= |g.guardians| && 3600 <= g.delaySecs <= 2592000
  }

  lemma GuardWithin(s: State, from: Address, op: GuardOp)
    requires GuardCheck(s, from, op) == None && GoodGuardOp(op, from)
    requires forall a :: a in s.guards ==> SetupWithin(s.guards[a])
    ensures forall a :: a in GuardEffect(s, from, op).guards ==> SetupWithin(GuardEffect(s, from, op).guards[a])
  {
    hide RenameCircle, RenameEscrow, MoveHoldings;
  }

  /** Every recovery setup of a run stays within these limits. */
  lemma {:induction false} SetupsWithin(sha: Sha, es: seq<Entry>, ss: seq<State>, k: nat, a: Address)
    requires Trace(sha, es, ss) && k <= |es| && ss[0].guards == map[]
    ensures a in ss[k].guards ==> SetupWithin(ss[k].guards[a])
  {
    hide Committed, SetupWithin, GuardEffect, GuardCheck, GoodGuardOp;
    if k > 0 {
      var before := ss[k - 1];
      forall b | b in before.guards ensures SetupWithin(before.guards[b]) {
        SetupsWithin(sha, es, ss, k - 1, b);
      }
      CommittedGuards(sha, before, es[k - 1], ss[k]);
      if es[k - 1].tx.body.Guard? {
        GuardWithin(before.(now := es[k - 1].now), es[k - 1].tx.from, es[k - 1].tx.body.op);
      }
    }
  }

  // ---------------------------------------------------------------- payments

  /**
    Every committed transfer, mint and burn is of a positive amount that fits in 64 bits with its fee; a transfer goes
    to another key; ORP is neither minted nor burned.
   */
  lemma PaymentsWithin(sha: Sha, es: seq<Entry>, ss: seq<State>, k: nat)
    requires Trace(sha, es, ss) && k < |es|
    ensures var tx := es[k].tx;
      && tx.from.Key? && 0 <= tx.fee < TWO64
      && (tx.body.Transfer? || tx.body.Mint? || tx.body.Burn? ==>
        1 <= tx.body.amount && tx.body.amount + tx.fee < TWO64)
      && (tx.body.Transfer? ==> tx.body.to.Key? && tx.body.to != tx.from)
      && (tx.body.Mint? ==> tx.body.to.Key? && tx.fee == 0)
      && (tx.body.Mint? || tx.body.Burn? ==> tx.asset != ORP)
  {
    hide Committed;
    CommittedGood(sha, ss[k], es[k], ss[k + 1]);
    hide GoodTerms, GoodEscrowTerms, GoodGuardOp;
  }
}
