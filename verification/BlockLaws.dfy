/**
  What a committed block is, in terms of the block list and the ledgers before and after each block alone: a list
  replays exactly when every block is linked, timed, authorised, rooted and executed as stated here.
 */
module BlockLaws {
  import opened Core
  import opened Merkle
  import opened Ledger
  import opened ChainRules

  // ---------------------------------------------------------------- execution

  /** The ledgers between a block's transactions: each transaction is well formed and applies to the one before it. */
  ghost predicate Steps<S>(r: Rules<S>, txs: seq<Tx>, ss: seq<S>) {
    && |ss| == |txs| + 1
    && forall j :: 0 <= j < |txs| ==> r.good(txs[j]) && r.apply(ss[j], txs[j]) == Next(ss[j + 1])
  }

  ghost predicate Executes<S(!new)>(r: Rules<S>, s: S, txs: seq<Tx>, t: S) {
    exists ss: seq<S> :: Steps(r, txs, ss) && ss[0] == s && ss[|txs|] == t
  }

  lemma {:induction false} RunSteps<S(!new)>(r: Rules<S>, s: S, txs: seq<Tx>, t: S) returns (ss: seq<S>)
    requires Run(r, s, txs) == Some(t)
    ensures Steps(r, txs, ss) && ss[0] == s && ss[|txs|] == t
  {
    if txs == [] {
      ss := [s];
    } else {
      var before := txs[..|txs| - 1];
      ss := RunSteps(r, s, before, Run(r, s, before).value);
      assert forall j :: 0 <= j < |before| ==> before[j] == txs[j];
      ss := ss + [t];
    }
  }

  lemma {:induction false} StepsRun<S(!new)>(r: Rules<S>, txs: seq<Tx>, ss: seq<S>)
    requires Steps(r, txs, ss)
    ensures Run(r, ss[0], txs) == Some(ss[|txs|])
  {
    if txs != [] {
      var before := txs[..|txs| - 1];
      assert forall j :: 0 <= j < |before| ==> before[j] == txs[j];
      StepsRun(r, before, ss[..|txs|]);
    }
  }

  /** Running transactions succeeds with t exactly when there are ledgers in between, one transaction apart. */
  lemma RunExactly<S(!new)>(r: Rules<S>, s: S, txs: seq<Tx>, t: S)
    ensures Run(r, s, txs) == Some(t) <==> Executes(r, s, txs, t)
  {
    if Run(r, s, txs) == Some(t) {
      var ss := RunSteps(r, s, txs, t);
    }
    if Executes(r, s, txs, t) {
      var ss: seq<S> :| Steps(r, txs, ss) && ss[0] == s && ss[|txs|] == t;
      StepsRun(r, txs, ss);
    }
  }

  // ---------------------------------------------------------------- one block

  /** Under an authority a block needs it as proposer, its signature, a later time and a transaction. */
  predicate Authorised<S>(w: World<S>, last: int, b: Block) {
    w.signed(b.header, b.sig) && b.header.proposer == w.proposer && last < b.header.time && b.txs != []
  }

  /**
    A block may stand at this height, after a block with this hash and time, between these two ledgers.
   */
  ghost predicate MayStand<S(!new)>(w: World<S>, height: int, prev: Hash, last: int, s: S, b: Block, t: S) {
    && b.header.chainId == w.chainId && b.header.height == height && b.header.prevHash == prev
    && last <= b.header.time && (w.bft || Authorised(w, last, b))
    && |b.txs| <= 1000
    && b.header.txRoot == (if b.txs == [] then 0 else TreeHash(w.hashing, Ids(b.txs)))
    && b.header.stateRoot == w.rules.root(t)
    && Executes(w.rules, w.rules.at(s, b.header.time), b.txs, t)
  }

  /** The hash and time the block at position k builds on: those of the block before, or of genesis. */
  function PrevHash<S>(w: World<S>, blocks: seq<Block>, k: nat): Hash
    requires k <= |blocks|
  {
    if k == 0 then w.hash else w.headerHash(blocks[k - 1].header)
  }

  function PrevTime<S>(w: World<S>, blocks: seq<Block>, k: nat): int
    requires k <= |blocks|
  {
    if k == 0 then w.time else blocks[k - 1].header.time
  }

  /** What a block verifies to is exactly the ledger it may stand before. */
  lemma VerifiesExactly<S(!new)>(w: World<S>, s: S, blocks: seq<Block>, b: Block, t: S)
    requires Tip(w, blocks).height == |blocks|
    ensures Verify(w, s, blocks, b) == Some(t)
      <==> MayStand(w, |blocks| + 1, PrevHash(w, blocks, |blocks|), PrevTime(w, blocks, |blocks|), s, b, t)
  {
    hide Executes, Run;
    RunExactly(w.rules, w.rules.at(s, b.header.time), b.txs, t);
  }

  /** A block may follow these blocks, on the ledger s they lead to, and leads to t. */
  ghost predicate StandsNext<S(!new)>(w: World<S>, blocks: seq<Block>, s: S, b: Block, t: S) {
    MayStand(w, |blocks| + 1, PrevHash(w, blocks, |blocks|), PrevTime(w, blocks, |blocks|), s, b, t)
  }

  lemma StandsExactly<S(!new)>(w: World<S>, blocks: seq<Block>, s: S, b: Block)
    requires Replay(w, blocks).Some?
    ensures forall t :: Verify(w, s, blocks, b) == Some(t) <==> StandsNext(w, blocks, s, b, t)
    ensures Verify(w, s, blocks, b).Some? && !w.bft ==>
      w.signed(b.header, b.sig) && b.header.proposer == w.proposer
  {
    ReplayTip(w, blocks);
    forall t ensures Verify(w, s, blocks, b) == Some(t) <==> StandsNext(w, blocks, s, b, t) {
      VerifiesExactly(w, s, blocks, b, t);
    }
    if Verify(w, s, blocks, b).Some? && !w.bft {
      assert StandsNext(w, blocks, s, b, Verify(w, s, blocks, b).value);
    }
  }

  // ---------------------------------------------------------------- whole lists

  /** ledgers are the ledgers before, between and after the blocks, and every block may stand where it does. */
  ghost predicate Linked<S(!new)>(w: World<S>, blocks: seq<Block>, ledgers: seq<S>) {
    && |ledgers| == |blocks| + 1 && ledgers[0] == w.start
    && forall k :: 0 <= k < |blocks| ==>
      MayStand(w, k + 1, PrevHash(w, blocks, k), PrevTime(w, blocks, k), ledgers[k], blocks[k], ledgers[k + 1])
  }

  lemma LinkedMore<S(!new)>(w: World<S>, blocks: seq<Block>, ledgers: seq<S>, t: S)
    requires blocks != [] && Linked(w, blocks[..|blocks| - 1], ledgers)
    requires var n := |blocks| - 1;
      MayStand(w, n + 1, PrevHash(w, blocks[..n], n), PrevTime(w, blocks[..n], n), ledgers[n], blocks[n], t)
    ensures Linked(w, blocks, ledgers + [t])
  {
    hide MayStand, PrevHash, PrevTime;
    var n, all := |blocks| - 1, ledgers + [t];
    forall k | 0 <= k < |blocks| ensures
      MayStand(w, k + 1, PrevHash(w, blocks, k), PrevTime(w, blocks, k), all[k], blocks[k], all[k + 1])
    {
      PrevBefore(w, blocks, n, k);
      if k < n {
        assert blocks[..n][k] == blocks[k] && all[k] == ledgers[k] && all[k + 1] == ledgers[k + 1];
      }
    }
  }

  lemma PrevBefore<S>(w: World<S>, blocks: seq<Block>, n: nat, k: nat)
    requires k <= n <= |blocks|
    ensures PrevHash(w, blocks[..n], k) == PrevHash(w, blocks, k)
    ensures PrevTime(w, blocks[..n], k) == PrevTime(w, blocks, k)
  {}

  lemma {:induction false} ReplayLinked<S(!new)>(w: World<S>, blocks: seq<Block>, t: S) returns (ledgers: seq<S>)
    requires Replay(w, blocks) == Some(t)
    ensures Linked(w, blocks, ledgers) && ledgers[|blocks|] == t
  {
    hide Verify, MayStand;
    if blocks == [] {
      ledgers := [w.start];
    } else {
      var before, b := blocks[..|blocks| - 1], blocks[|blocks| - 1];
      var s := Replay(w, before).value;
      ledgers := ReplayLinked(w, before, s);
      ReplayTip(w, before);
      VerifiesExactly(w, s, before, b, t);
      LinkedMore(w, blocks, ledgers, t);
      ledgers := ledgers + [t];
    }
  }

  lemma ReplayTip<S(!new)>(w: World<S>, blocks: seq<Block>)
    requires Replay(w, blocks).Some?
    ensures Tip(w, blocks).height == |blocks|
  {
    ReplayHeights(w, blocks);
  }

  lemma {:induction false} LinkedReplay<S(!new)>(w: World<S>, blocks: seq<Block>, ledgers: seq<S>)
    requires Linked(w, blocks, ledgers)
    ensures Replay(w, blocks) == Some(ledgers[|blocks|])
  {
    hide Verify, MayStand;
    if blocks != [] {
      var before, b := blocks[..|blocks| - 1], blocks[|blocks| - 1];
      assert forall k :: 0 <= k < |before| ==> before[k] == blocks[k];
      assert Linked(w, before, ledgers[..|blocks|]);
      LinkedReplay(w, before, ledgers[..|blocks|]);
      ReplayTip(w, before);
      VerifiesExactly(w, ledgers[|before|], before, b, ledgers[|blocks|]);
    }
  }

  /**
    A block list replays from genesis to a ledger exactly when every block of it carries this chain's id, its own
    height, the header hash of the block before, a time that does not go back, the Merkle Tree Hash of its own ids and
    the root of the ledger its transactions, each applying to the one before, lead to; and, under an authority, the
    authority's name and signature, a later time and at least one transaction.
   */
  lemma ReplaysExactly<S(!new)>(w: World<S>, blocks: seq<Block>, t: S)
    ensures Replay(w, blocks) == Some(t)
      <==> exists ledgers: seq<S> :: Linked(w, blocks, ledgers) && ledgers[|blocks|] == t
  {
    hide Replay, MayStand;
    if Replay(w, blocks) == Some(t) {
      var ledgers := ReplayLinked(w, blocks, t);
    }
    if ledgers: seq<S> :| Linked(w, blocks, ledgers) && ledgers[|blocks|] == t {
      LinkedReplay(w, blocks, ledgers);
    }
  }

  // ---------------------------------------------------------------- blocks decided by consensus

  /** The transactions at the positions marked. */
  function Selected(txs: seq<Decided>, ok: seq<bool>): seq<Tx>
    requires |ok| == |txs|
  {
    if txs == [] then []
    else
      var n := |txs| - 1;
      Selected(txs[..n], ok[..n]) + if ok[n] && txs[n].Some? then [txs[n].value] else []
  }

  /** A decided transaction can run after those already selected: it parsed, is well formed, fits and applies. */
  predicate CanRun<S>(r: Rules<S>, s: S, before: seq<Tx>, tx: Decided) {
    && tx.Some? && r.good(tx.value) && |before| < 1000
    && match Run(r, s, before)
       case None => false
       case Some(m) => r.apply(m, tx.value).Next?
  }

  /**
    Executing decided transactions marks exactly those that can run after the ones marked before them, keeps those in
    order, and ends in the state that running them alone ends in.
   */
  lemma {:induction false} ExecutesExactly<S>(r: Rules<S>, s: S, txs: seq<Decided>)
    ensures var x := Execute(r, s, txs);
      && x.kept == Selected(txs, x.ok) && Run(r, s, x.kept) == Some(x.state)
      && forall j :: 0 <= j < |txs| ==> (x.ok[j] <==> CanRun(r, s, Selected(txs[..j], x.ok[..j]), txs[j]))
  {
    hide Execute, CanRun, Selected, Run;
    if txs == [] {
      ExecuteNone(r, s);
    } else {
      var n := |txs| - 1;
      var before, x := Execute(r, s, txs[..n]), Execute(r, s, txs);
      ExecutesExactly(r, s, txs[..n]);
      KeptAlone(r, s, txs);
      ExecuteLast(r, s, txs);
      SelectedLast(txs, x.ok);
      EarlierRan(r, s, txs, x.ok);
    }
  }

  lemma ExecuteNone<S>(r: Rules<S>, s: S)
    ensures Execute(r, s, []) == Execution([], s, []) && Selected([], []) == [] && Run(r, s, []) == Some(s)
  {}

  lemma SelectedLast(txs: seq<Decided>, ok: seq<bool>)
    requires |ok| == |txs| && txs != []
    ensures var n := |txs| - 1;
      Selected(txs, ok) == Selected(txs[..n], ok[..n]) + if ok[n] && txs[n].Some? then [txs[n].value] else []
  {}

  lemma EarlierRan<S>(r: Rules<S>, s: S, txs: seq<Decided>, ok: seq<bool>)
    requires |ok| == |txs| && txs != []
    requires var n := |txs| - 1; forall j :: 0 <= j < n ==>
      (ok[..n][j] <==> CanRun(r, s, Selected(txs[..n][..j], ok[..n][..j]), txs[..n][j]))
    ensures forall j :: 0 <= j < |txs| - 1 ==> (ok[j] <==> CanRun(r, s, Selected(txs[..j], ok[..j]), txs[j]))
  {
    hide CanRun, Selected;
    var n := |txs| - 1;
    forall j | 0 <= j < n ensures ok[j] <==> CanRun(r, s, Selected(txs[..j], ok[..j]), txs[j]) {
      assert txs[..n][..j] == txs[..j] && ok[..n][..j] == ok[..j];
      assert ok[..n][j] == ok[j] && txs[..n][j] == txs[j];
    }
  }

  /** One transaction more. */
  lemma ExecuteStep<S>(r: Rules<S>, s: S, txs: seq<Decided>)
    requires txs != []
    ensures var n := |txs| - 1; var before, x := Execute(r, s, txs[..n]), Execute(r, s, txs);
      var fits := txs[n].Some? && |before.kept| < 1000 && r.good(txs[n].value)
        && r.apply(before.state, txs[n].value).Next?;
      x.ok == before.ok + [fits] && x.kept == before.kept + if fits then [txs[n].value] else []
  {}

  lemma ExecuteLast<S>(r: Rules<S>, s: S, txs: seq<Decided>)
    requires txs != [] && Run(r, s, Execute(r, s, txs[..|txs| - 1]).kept) == Some(Execute(r, s, txs[..|txs| - 1]).state)
    ensures var n, x := |txs| - 1, Execute(r, s, txs); var before := Execute(r, s, txs[..n]);
      && x.ok[..n] == before.ok && (x.ok[n] <==> CanRun(r, s, before.kept, txs[n]))
      && x.kept == before.kept + if x.ok[n] && txs[n].Some? then [txs[n].value] else []
  {
    hide Execute, Run;
    ExecuteStep(r, s, txs);
  }

  /**
    The block consensus decides carries this chain's id, the next height's links, the decided time but never one before
    the tip's, the proposer consensus names, the transactions that run, and no signature.
   */
  lemma DecidedFields<S(!new)>(w: World<S>, s: S, blocks: seq<Block>, height: int, time: int, proposer: Address,
      txs: seq<Decided>)
    ensures var b, ok := DecidedBlock(w, s, blocks, height, time, proposer, txs), DecidedOk(w, s, blocks, time, txs);
      && b.header.chainId == w.chainId && b.header.height == height && b.header.proposer == proposer && b.sig == 0
      && b.header.prevHash == PrevHash(w, blocks, |blocks|)
      && b.header.time == Max(time, PrevTime(w, blocks, |blocks|)) && b.txs == Selected(txs, ok)
      && forall j :: 0 <= j < |txs| ==>
        (ok[j] <==> CanRun(w.rules, w.rules.at(s, b.header.time), Selected(txs[..j], ok[..j]), txs[j]))
  {
    ExecutesExactly(w.rules, w.rules.at(s, Max(time, PrevTime(w, blocks, |blocks|))), txs);
    hide Execute, Selected, CanRun;
  }
}
