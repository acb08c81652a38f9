/**
  The real ledger under the chain: it obeys the chain's laws, and every chain that replays from a genesis document keeps
  its money conserved.
 */
module ChainLedger {
  import opened Core
  import opened Circles
  import opened Ledger
  import opened Conservation
  import opened LedgerSafety
  import opened LedgerRuns
  import Outcomes
  import opened WrappedCosts
  import opened ChainRules
  import G = Genesis

  /**
    The ledger's rules with the state root as some function of everything but the time, and signatures as some
    predicate.
   */
  ghost function LedgerRules(sha: Sha, root: State -> Hash, signed: Tx -> bool): Rules<State> {
    Rules(
      tx => GoodTx(tx) && signed(tx),
      (s: State, t: int) => s.(now := t),
      (s: State, tx: Tx) => Answered(sha, s, tx),
      (s: State) => root(s.(now := 0)),
      (s: State, a: Address) => Get(s.accounts, a).nonce,
      (s: State, tx: Tx) => if Shaped(s) then CostIn64(s, tx) else 0,
      (s: State, a: Address, x: Asset) => Balance(s.accounts, a, x))
  }

  ghost function Answered(sha: Sha, s: State, tx: Tx): Applied<State> {
    if !Shaped(s) || !GoodTx(tx) then Refused(PoolRule)
    else
      match ApplyIn64(sha, s, tx)
      case Fail(e) => Refused(e)
      case Ok(t) => Next(t)
  }

  // ---------------------------------------------------------------- the laws

  lemma EffectIn64Nonce(sha: Sha, s: State, tx: Tx, a: Address)
    requires Shaped(s) && GoodTx(tx) && Allowed(s, tx)
    ensures Get(EffectIn64(sha, s, tx).accounts, a).nonce == Get(s.accounts, a).nonce
  {
    hide Shape, Shaped, Effect, GoodTx, Get, Allowed;
    if tx.body.CircleStep? && tx.body.step.Autopay? {
      WrappedAccounts(sha, s, tx);
    } else {
      EffectNonce(sha, s, tx, a);
      EffectAsExact(sha, s, tx);
    }
  }

  lemma SettleIn64Nonce(s: State, tx: Tx, cost: int, a: Address)
    requires tx.asset != ORP ==> tx.asset in s.defs
    ensures Get(SettleIn64(s, tx, cost).accounts, a).nonce == Get(s.accounts, a).nonce + if a == tx.from then 1 else 0
  {
    hide SetBalance, DebitedIn64;
    DebitedIn64Nonce(s, tx, cost, a);
    if tx.fee > 0 && tx.asset != ORP {
      var next := DebitedIn64(s, tx, cost);
      var issuer := s.defs[tx.asset].issuer;
      SetRead(next, issuer, tx.asset, (Balance(next, issuer, tx.asset) + tx.fee) % TWO64, a, tx.asset);
    }
  }

  lemma DebitedIn64Nonce(s: State, tx: Tx, cost: int, a: Address)
    ensures Get(DebitedIn64(s, tx, cost), a).nonce == Get(s.accounts, a).nonce + if a == tx.from then 1 else 0
  {}

  lemma AppliedNonce(sha: Sha, s: State, tx: Tx, a: Address)
    requires Answered(sha, s, tx).Next?
    ensures Get(s.accounts, tx.from).nonce == tx.nonce
    ensures Get(Answered(sha, s, tx).state.accounts, a).nonce == Get(s.accounts, a).nonce + if a == tx.from then 1
      else 0
  {
    hide Shape, EffectIn64, Rule, CostIn64, Available, SettleIn64, GoodTx;
    EffectIn64Nonce(sha, s, tx, a);
    SettleIn64Nonce(EffectIn64(sha, s, tx), tx, CostIn64(s, tx), a);
  }

  /** The ledger obeys every law the chain relies on. */
  lemma LedgerLawful(sha: Sha, root: State -> Hash, signed: Tx -> bool)
    ensures Lawful(LedgerRules(sha, root, signed))
  {
    var r := LedgerRules(sha, root, signed);
    forall s: State, tx: Tx | r.apply(s, tx).Next? ensures r.nonce(s, tx.from) == tx.nonce {
      AppliedNonce(sha, s, tx, tx.from);
    }
    forall s: State, tx: Tx, a: Address | r.apply(s, tx).Next?
      ensures r.nonce(r.apply(s, tx).state, a) == r.nonce(s, a) + if a == tx.from then 1 else 0
    {
      AppliedNonce(sha, s, tx, a);
    }
    forall s: State, tx: Tx | tx.nonce < r.nonce(s, tx.from) ensures r.apply(s, tx) != Refused(NonceTooHigh) {
      NeverTooHigh(sha, s, tx);
    }
  }

  lemma NeverTooHigh(sha: Sha, s: State, tx: Tx)
    requires tx.nonce < Get(s.accounts, tx.from).nonce
    ensures Answered(sha, s, tx) != Refused(NonceTooHigh)
  {
    hide Shape, GoodTx, Rule, CostIn64, Available;
  }

  // ---------------------------------------------------------------- conservation along the chain

  /** Each accepted transaction of a run is Settled when its turn comes: it leads to the exact next ledger. */
  ghost predicate SettledRun(sha: Sha, r: Rules<State>, s: State, txs: seq<Tx>) {
    txs == [] || (
      var before, tx := txs[..|txs| - 1], txs[|txs| - 1];
      && SettledRun(sha, r, s, before)
      && match Run(r, s, before)
         case None => true
         case Some(m) => Shaped(m) && CheckIn64(m, tx) == None ==> Settled(sha, m, tx))
  }

  /** Along a run each transaction leads to the very ledger that exact numbers give. */
  ghost predicate ExactRun(sha: Sha, r: Rules<State>, s: State, txs: seq<Tx>) {
    txs == [] || (
      var before, tx := txs[..|txs| - 1], txs[|txs| - 1];
      && ExactRun(sha, r, s, before)
      && match Run(r, s, before)
         case None => true
         case Some(m) => Shaped(m) && GoodTx(tx) ==> ApplyIn64(sha, m, tx) == Apply(sha, m, tx))
  }

  ghost predicate Totals(s: State, total: int) {
    LedgerInv(s) && 0 <= s.burned && s.supply + s.burned == total < TWO64
  }

  lemma StepSoundly(sha: Sha, s: State, tx: Tx, t: State, total: int)
    requires Totals(s, total) && Shaped(s) && Answered(sha, s, tx) == Next(t)
    ensures GoodTx(tx) && CheckIn64(s, tx) == None
    ensures Settled(sha, s, tx) <==> ApplyIn64(sha, s, tx) == Apply(sha, s, tx)
    ensures Settled(sha, s, tx) ==> Totals(t, total)
  {
    hide LedgerInv, Shaped, GoodTx, CheckIn64, Check, LedgerSafety.Covered, Outcomes.PaysItself;
    SameExactly(sha, s, tx);
    if Settled(sha, s, tx) {
      InvParts(s);
      ApplyConserves(sha, s, tx);
      BurnedGrows(sha, s, tx);
    }
  }

  lemma BurnedGrows(sha: Sha, s: State, tx: Tx)
    requires Shaped(s) && GoodTx(tx) && Apply(sha, s, tx).Ok?
    ensures Apply(sha, s, tx).state.burned >= s.burned
  {
    hide Shaped, Check, Effect, SetBalance, CreditTo, GoodTx;
    FeeNonNeg(tx);
  }

  lemma {:induction false} RunSoundly(sha: Sha, root: State -> Hash, signed: Tx -> bool, s: State, txs: seq<Tx>,
      t: State, total: int)
    requires Totals(s, total) && Run(LedgerRules(sha, root, signed), s, txs) == Some(t)
    ensures var r := LedgerRules(sha, root, signed);
      && (SettledRun(sha, r, s, txs) <==> ExactRun(sha, r, s, txs))
      && (SettledRun(sha, r, s, txs) ==> Totals(t, total))
  {
    hide LedgerInv, Shaped, GoodTx, Answered, CheckIn64, Settled, ApplyIn64, Apply;
    if txs != [] {
      var r, before, tx := LedgerRules(sha, root, signed), txs[..|txs| - 1], txs[|txs| - 1];
      var m := Run(r, s, before).value;
      RunSoundly(sha, root, signed, s, before, m, total);
      if SettledRun(sha, r, s, before) {
        SoundShaped(m);
        StepSoundly(sha, m, tx, t, total);
      }
    }
  }

  lemma SoundShaped(s: State)
    requires LedgerInv(s)
    ensures Shaped(s)
  {
    InvShaped(s);
  }

  /** Every transaction of every block is Settled when its turn comes. */
  ghost predicate SettledChain(sha: Sha, w: World<State>, blocks: seq<Block>) {
    blocks == [] || (
      var before, b := blocks[..|blocks| - 1], blocks[|blocks| - 1];
      && SettledChain(sha, w, before)
      && match Replay(w, before)
         case None => true
         case Some(s) => SettledRun(sha, w.rules, w.rules.at(s, b.header.time), b.txs))
  }

  /** Every transaction of every block leads to the very ledger that exact numbers give. */
  ghost predicate ExactChain(sha: Sha, w: World<State>, blocks: seq<Block>) {
    blocks == [] || (
      var before, b := blocks[..|blocks| - 1], blocks[|blocks| - 1];
      && ExactChain(sha, w, before)
      && match Replay(w, before)
         case None => true
         case Some(s) => ExactRun(sha, w.rules, w.rules.at(s, b.header.time), b.txs))
  }

  lemma {:induction false} ReplayTotals(sha: Sha, root: State -> Hash, signed: Tx -> bool, w: World<State>,
      d: G.Document, blocks: seq<Block>, t: State)
    requires w.rules == LedgerRules(sha, root, signed) && w.start == G.First(d) && G.Allocated(d) < TWO64
    requires Replay(w, blocks) == Some(t)
    ensures SettledChain(sha, w, blocks) <==> ExactChain(sha, w, blocks)
    ensures SettledChain(sha, w, blocks) ==> Totals(t, G.Allocated(d))
  {
    hide LedgerInv, SettledRun, ExactRun, Run, HeaderOk;
    if blocks == [] {
      G.FirstSound(d);
    } else {
      var before, b := blocks[..|blocks| - 1], blocks[|blocks| - 1];
      var s := Replay(w, before).value;
      ReplayTotals(sha, root, signed, w, d, before, s);
      if SettledChain(sha, w, before) {
        NowKeeps(s, b.header.time);
        RunSoundly(sha, root, signed, s.(now := b.header.time), b.txs, t, G.Allocated(d));
      }
    }
  }

  /**
    For every block list that replays from a genesis document: all its transactions lead where exact numbers lead if and
    only if each is Settled when its turn comes; and then the state they lead to satisfies the ledger invariant, with
    ORP supply and burned fees adding up to what the document allocated.
   */
  lemma ReplaySoundly(sha: Sha, root: State -> Hash, signed: Tx -> bool, w: World<State>,
      d: G.Document, blocks: seq<Block>, t: State)
    requires w.rules == LedgerRules(sha, root, signed) && w.start == G.First(d) && G.Allocated(d) < TWO64
    requires Replay(w, blocks) == Some(t)
    ensures ExactChain(sha, w, blocks) <==> SettledChain(sha, w, blocks)
    ensures SettledChain(sha, w, blocks) ==> LedgerInv(t) && t.supply + t.burned == G.Allocated(d)
  {
    hide LedgerInv, SettledChain, ExactChain, Replay;
    ReplayTotals(sha, root, signed, w, d, blocks, t);
  }
}
