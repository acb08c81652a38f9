/**
  Whole runs of the ledger: everything that holds after any sequence of committed transactions.
 */
module LedgerRuns {
  import opened Core
  import opened Sequences
  import opened Circles
  import opened CircleBooks
  import opened Escrows
  import opened Ledger
  import opened Conservation
  import opened LedgerSafety

  /** A committed transaction and the block time it was executed at. */
  datatype Entry = Entry(now: int, tx: Tx)

  /** t follows s by one committed transaction. */
  ghost predicate Committed(sha: Sha, s: State, e: Entry, t: State) {
    var at := s.(now := e.now);
    && 0 <= e.now && Shaped(at) && GoodTx(e.tx) && Check(at, e.tx) == None && Covered(sha, at, e.tx)
    && Apply(sha, at, e.tx) == Ok(t)
  }

  /** ss are the states before, between and after the committed transactions es. */
  ghost predicate Trace(sha: Sha, es: seq<Entry>, ss: seq<State>) {
    |ss| == |es| + 1 && forall k :: 0 <= k < |es| ==> Committed(sha, ss[k], es[k], ss[k + 1])
  }

  lemma NowKeeps(s: State, now: int)
    requires LedgerInv(s)
    ensures LedgerInv(s.(now := now)) && Shaped(s.(now := now))
  {
    hide CircleInv, EscrowInv, AccountsOk, TargetsOk;
    var t := s.(now := now);
    InvShaped(s);
    forall x ensures Money(t, x) == SupplyOf(t, x) && SupplyOf(t, x) < TWO64 {
      assert Money(s, x) == SupplyOf(s, x) && SupplyOf(s, x) < TWO64;
    }
  }

  lemma CommittedKeeps(sha: Sha, s: State, e: Entry, t: State)
    requires LedgerInv(s) && Committed(sha, s, e, t)
    ensures LedgerInv(t) && t.supply + t.burned == s.supply + s.burned
  {
    hide Parts, AccountsOk, Conserved, Bounded, Shaped, GoodTx, Check, Covered, Apply;
    NowKeeps(s, e.now);
    ApplyKeeps(sha, s.(now := e.now), e.tx);
    InvParts(s.(now := e.now));
    ApplyConserves(sha, s.(now := e.now), e.tx);
  }

  /**
    Conservation over every run: in every reachable state every asset's money adds up to its supply, nothing leaves
    64 bits, every circle, escrow and recovery is sound, and ORP supply plus burned is what it was at genesis.
   */
  lemma {:induction false} RunKeeps(sha: Sha, es: seq<Entry>, ss: seq<State>, k: nat)
    requires Trace(sha, es, ss) && k <= |es| && LedgerInv(ss[0])
    ensures LedgerInv(ss[k]) && ss[k].supply + ss[k].burned == ss[0].supply + ss[0].burned
  {
    hide LedgerInv, Committed;
    if k > 0 {
      RunKeeps(sha, es, ss, k - 1);
      assert Committed(sha, ss[k - 1], es[k - 1], ss[k]);
      CommittedKeeps(sha, ss[k - 1], es[k - 1], ss[k]);
    }
  }

  // ---------------------------------------------------------------- nonces

  lemma DebitedNonce(s: State, tx: Tx, cost: int, a: Address)
    ensures Get(Debited(s, tx, cost), a).nonce == Get(s.accounts, a).nonce + if a == tx.from then 1 else 0
  {}

  lemma SettleNonce(s: State, tx: Tx, cost: int, a: Address)
    requires tx.asset != ORP ==> tx.asset in s.defs
    ensures Get(Settle(s, tx, cost).accounts, a).nonce == Get(s.accounts, a).nonce + if a == tx.from then 1 else 0
  {
    hide SetBalance;
    DebitedNonce(s, tx, cost, a);
    if tx.fee > 0 && tx.asset != ORP {
      var next := Debited(s, tx, cost);
      var issuer := s.defs[tx.asset].issuer;
      SetRead(next, issuer, tx.asset, Balance(next, issuer, tx.asset) + tx.fee, a, tx.asset);
    }
  }

  lemma MoveNonce(m: Accounts, old0: Address, new0: Address, a: Address)
    ensures Get(MoveHoldings(m, old0, new0), a).nonce == Get(m, a).nonce
  {}

  lemma GuardNonce(s: State, from: Address, op: GuardOp, a: Address)
    requires GuardCheck(s, from, op) == None
    ensures Get(GuardEffect(s, from, op).accounts, a).nonce == Get(s.accounts, a).nonce
  {
    hide RenameCircle, RenameEscrow, MoveHoldings, Started, Approved;
    if op.Finish? {
      MoveNonce(s.accounts, op.account, s.guards[op.account].pending.value.newOwner, a);
    }
  }

  lemma CircleNonce(sha: Sha, s: State, tx: Tx, a: Address)
    requires Shaped(s) && GoodTx(tx) && Allowed(s, tx) && tx.body.CircleStep?
    ensures Get(Effect(sha, s, tx).accounts, a).nonce == Get(s.accounts, a).nonce
  {
    hide Shape, StepEffect, StepCheck, CreditsApplied, Get;
    var c := s.pools[tx.body.pool];
    var r := StepEffect(sha, c, Index(c.members, tx.from), tx.body.step, tx.from, s.now,
      Balance(s.accounts, tx.from, c.asset));
    CreditsRead(s.accounts, c.asset, r.credits, |r.credits|, a, c.asset);
  }

  lemma EscrowNonce(sha: Sha, s: State, tx: Tx, a: Address)
    requires Shaped(s) && GoodTx(tx) && Allowed(s, tx) && tx.body.EscrowAct?
    ensures Get(Effect(sha, s, tx).accounts, a).nonce == Get(s.accounts, a).nonce
  {
    hide Shape, EscrowEffect, CreditsApplied, Get;
    var e := s.escrows[tx.body.escrow];
    var r := EscrowEffect(e, tx.body.act, s.now);
    CreditsRead(s.accounts, e.asset, r.credits, |r.credits|, a, e.asset);
  }

  lemma PaymentNonce(sha: Sha, s: State, tx: Tx, a: Address)
    requires Shaped(s) && GoodTx(tx) && Allowed(s, tx) && (tx.body.Transfer? || tx.body.Mint?)
    ensures Get(Effect(sha, s, tx).accounts, a).nonce == Get(s.accounts, a).nonce
  {
    hide Shape, Shaped, SetBalance, GoodTx, Get, Balance, IssuedOf, Allowed;
    var to, v := tx.body.to, tx.body.amount;
    SetRead(s.accounts, to, tx.asset, Balance(s.accounts, to, tx.asset) + v, a, tx.asset);
  }

  lemma OpenNonce(sha: Sha, s: State, tx: Tx)
    requires Shaped(s) && GoodTx(tx) && Allowed(s, tx)
      && (tx.body.Burn? || tx.body.OpenCircle? || tx.body.OpenEscrow?)
    ensures Effect(sha, s, tx).accounts == s.accounts
  {
    hide Shape, Shaped, NewCircle, NewEscrow, GoodTx, IssuedOf, Allowed;
  }

  lemma SetupNonce(sha: Sha, s: State, tx: Tx, a: Address)
    requires Shaped(s) && GoodTx(tx) && Allowed(s, tx) && tx.body.Guard?
    ensures Get(Effect(sha, s, tx).accounts, a).nonce == Get(s.accounts, a).nonce
  {
    hide Shape, Shaped, GuardEffect, GuardCheck, GoodTx, Get;
    GuardAllowed(s, tx);
    GuardNonce(s, tx.from, tx.body.op, a);
  }

  /** No effect touches a nonce, not even a recovery. */
  lemma EffectNonce(sha: Sha, s: State, tx: Tx, a: Address)
    requires Shaped(s) && GoodTx(tx) && Allowed(s, tx)
    ensures Get(Effect(sha, s, tx).accounts, a).nonce == Get(s.accounts, a).nonce
  {
    hide Shaped, Effect, GoodTx, Get, Allowed;
    match tx.body
    case Transfer(_, _) => PaymentNonce(sha, s, tx, a);
    case Mint(_, _) => PaymentNonce(sha, s, tx, a);
    case CircleStep(_, _) => CircleNonce(sha, s, tx, a);
    case EscrowAct(_, _) => EscrowNonce(sha, s, tx, a);
    case Guard(_) => SetupNonce(sha, s, tx, a);
    case _ => OpenNonce(sha, s, tx);
  }

  lemma CommittedNonce(sha: Sha, s: State, e: Entry, t: State, a: Address)
    requires LedgerInv(s) && Committed(sha, s, e, t)
    ensures e.tx.nonce == Get(s.accounts, e.tx.from).nonce
    ensures Get(t.accounts, a).nonce == Get(s.accounts, a).nonce + if a == e.tx.from then 1 else 0
  {
    hide Conserved, Bounded, Shape, GoodTx, Covered, Effect, Rule, Cost, Available, Settle, Parts, AccountsOk;
    var at := s.(now := e.now);
    NowKeeps(s, e.now);
    InvParts(at);
    EffectNonce(sha, at, e.tx, a);
    SettleNonce(Effect(sha, at, e.tx), e.tx, Cost(at, e.tx), a);
  }

  /** How many of the first k transactions an address sent. */
  function SentBy(es: seq<Entry>, a: Address, k: nat): nat
    requires k <= |es|
  {
    if k == 0 then 0 else SentBy(es, a, k - 1) + if es[k - 1].tx.from == a then 1 else 0
  }

  lemma {:induction false} NonceCounts(sha: Sha, es: seq<Entry>, ss: seq<State>, k: nat, a: Address)
    requires Trace(sha, es, ss) && k <= |es| && LedgerInv(ss[0])
    ensures Get(ss[k].accounts, a).nonce == Get(ss[0].accounts, a).nonce + SentBy(es, a, k)
  {
    hide LedgerInv, Committed;
    if k > 0 {
      NonceCounts(sha, es, ss, k - 1, a);
      RunKeeps(sha, es, ss, k - 1);
      assert Committed(sha, ss[k - 1], es[k - 1], ss[k]);
      CommittedNonce(sha, ss[k - 1], es[k - 1], ss[k], a);
    }
  }

  lemma {:induction false} SentByGrows(es: seq<Entry>, a: Address, i: nat, j: nat)
    requires i <= j <= |es|
    ensures SentBy(es, a, i) <= SentBy(es, a, j)
    ensures i < j && es[i].tx.from == a ==> SentBy(es, a, i) < SentBy(es, a, j)
  {
    if i < j {
      SentByGrows(es, a, i, j - 1);
    }
  }

  /**
    Nonce discipline over every run: the k-th transaction carries the number of transactions its sender committed
    before it, so a sender's transactions carry consecutive nonces and no (sender, nonce) pair ever commits twice.
   */
  lemma NonceDiscipline(sha: Sha, es: seq<Entry>, ss: seq<State>, i: nat, j: nat)
    requires Trace(sha, es, ss) && i < j < |es| && LedgerInv(ss[0])
    ensures es[i].tx.nonce == Get(ss[0].accounts, es[i].tx.from).nonce + SentBy(es, es[i].tx.from, i)
    ensures es[i].tx.from == es[j].tx.from ==> es[i].tx.nonce < es[j].tx.nonce
  {
    hide LedgerInv, Committed;
    assert Committed(sha, ss[i], es[i], ss[i + 1]) && Committed(sha, ss[j], es[j], ss[j + 1]);
    RunKeeps(sha, es, ss, i);
    RunKeeps(sha, es, ss, j);
    CommittedNonce(sha, ss[i], es[i], ss[i + 1], es[i].tx.from);
    CommittedNonce(sha, ss[j], es[j], ss[j + 1], es[j].tx.from);
    NonceCounts(sha, es, ss, i, es[i].tx.from);
    NonceCounts(sha, es, ss, j, es[j].tx.from);
    SentByGrows(es, es[i].tx.from, i, j);
  }
}
