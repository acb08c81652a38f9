/**
  The application consensus drives: blocks are executed when decided and persisted on commit; and what a restart
  recovers.
 */
module Abci {
  import opened Core
  import opened Ledger
  import opened ChainRules
  import opened BlockLaws
  import opened Chains

  datatype TxResult = OkTx(id: Hash) | BadTx | RejectedTx

  datatype Info = Info(height: int, root: Option<Hash>)

  /** What FinalizeBlock decided, until Commit. */
  datatype Decision<S> = Decision(block: Block, state: S)

  /** What is reported for each position. */
  function Reported(txs: seq<Decided>, ok: seq<bool>): (rs: seq<TxResult>)
    requires |ok| == |txs|
    ensures |rs| == |txs|
  {
    seq(|txs|, i requires 0 <= i < |txs| =>
      if txs[i] == None then BadTx else if ok[i] then OkTx(txs[i].value.id) else RejectedTx)
  }

  method Report(txs: seq<Decided>, ok: seq<bool>) returns (results: seq<TxResult>)
    requires |ok| == |txs|
    ensures results == Reported(txs, ok)
  {
    results := [];
    var i := 0;
    while i < |txs|
      invariant 0 <= i <= |txs| && results == Reported(txs, ok)[..i]
    {
      if txs[i] == None {
        results := results + [BadTx];
      } else if !ok[i] {
        results := results + [RejectedTx];
      } else {
        results := results + [OkTx(txs[i].value.id)];
      }
      i := i + 1;
    }
  }

  lemma RootDecided<S>(w: World<S>, s: S, blocks: seq<Block>, height: int, time: int, proposer: Address,
      txs: seq<Decided>)
    ensures DecidedBlock(w, s, blocks, height, time, proposer, txs).header.stateRoot
      == w.rules.root(DecidedState(w, s, blocks, time, txs))
  {}

  class Application<S(!new)> {
    const chain: Chain<S>
    /** Parses submitted bytes, here numbered; None when they are too long or malformed. */
    const decode: nat -> Option<Tx>
    var pending: Option<Decision<S>>
    /** How many blocks the pending decision was made on. */
    ghost var base: nat

    ghost predicate Valid()
      reads this, chain, chain.tables
    {
      && chain.Valid() && chain.world.bft
      && (pending.Some? ==> DecidedAt(chain.world, chain.blocks, base, pending.value.block, pending.value.state))
    }

    constructor (c: Chain<S>, d: nat -> Option<Tx>)
      requires c.Valid() && c.world.bft
      ensures Valid() && chain == c && decode == d && pending == None
    {
      chain, decode, pending, base := c, d, None, 0;
    }

    /** How far this node has committed: consensus replays exactly the blocks after it. */
    method GetInfo() returns (info: Info)
      requires Valid()
      ensures info.height == |chain.blocks|
      ensures info.root == if chain.blocks == [] then None else Some(chain.blocks[|chain.blocks| - 1].header.stateRoot)
    {
      var h := |chain.blocks|;
      if h > 0 {
        RootIsTip(chain.world, chain.state, chain.blocks);
      }
      info := Info(h, if h > 0 then Some(chain.world.rules.root(chain.state)) else None);
    }

    function Parsed(raw: seq<nat>): (txs: seq<Decided>)
      ensures |txs| == |raw|
    {
      seq(|raw|, i requires 0 <= i < |raw| => decode(raw[i]))
    }

    /**
      Executes a decided block and keeps the outcome; the chain itself is untouched until Commit. Each position reports
      whether its bytes parsed, and whether its transaction was executed.
     */
    method FinalizeBlock(height: int, time: int, proposer: Address, raw: seq<nat>)
        returns (results: seq<TxResult>, appHash: Hash)
      requires Valid() && height == |chain.blocks| + 1
      modifies this
      ensures Valid() && pending.Some? && base == |chain.blocks|
      ensures appHash == chain.world.rules.root(pending.value.state) == pending.value.block.header.stateRoot
      ensures pending.value.block ==
        DecidedBlock(chain.world, chain.state, chain.blocks, height, time, proposer, Parsed(raw))
      ensures results == Reported(Parsed(raw), DecidedOk(chain.world, chain.state, chain.blocks, time, Parsed(raw)))
    {
      hide DecidedBlock, DecidedState, DecidedOk;
      var txs := Parsed(raw);
      var b, next, ok := chain.ExecuteDecided(height, time, proposer, txs);
      pending, base := Some(Decision(b, next)), |chain.blocks|;
      results := Report(txs, ok);
      appHash := b.header.stateRoot;
      RootDecided(chain.world, chain.state, chain.blocks, height, time, proposer, txs);
    }

    /**
      Persists the pending decision. When no block was committed since FinalizeBlock, it never fails, and the root of
      the committed state is the app hash that was agreed on.
     */
    method Commit(diskOk: bool) returns (ok: bool)
      requires Valid()
      modifies this, chain, chain.tables
      ensures Valid() && pending == None
      ensures old(pending).None? ==> ok && chain.blocks == old(chain.blocks)
      ensures old(pending).Some? ==>
        && (ok <==> old(base) == |old(chain.blocks)|)
        && (ok ==> chain.blocks == old(chain.blocks) + [old(pending).value.block])
        && (ok ==> chain.world.rules.root(chain.state) == old(pending).value.block.header.stateRoot)
        && (!ok ==> chain.blocks == old(chain.blocks))
    {
      var p := pending;
      pending := None;
      if p == None {
        return true;
      }
      ok := chain.CommitDecided(p.value.block, p.value.state, diskOk, base);
    }

    /** One round of consensus, from decision to commit. */
    method Round(height: int, time: int, proposer: Address, raw: seq<nat>, diskOk: bool) returns (appHash: Hash)
      requires Valid() && height == |chain.blocks| + 1
      modifies this, chain, chain.tables
      ensures Valid() && |chain.blocks| == height && chain.blocks[..height - 1] == old(chain.blocks)
      ensures appHash == chain.world.rules.root(chain.state) == chain.blocks[height - 1].header.stateRoot
    {
      var results;
      results, appHash := FinalizeBlock(height, time, proposer, raw);
      var ok := Commit(diskOk);
    }
  }

  /** The committed state's root is the one in the tip's header. */
  lemma RootIsTip<S(!new)>(w: World<S>, s: S, blocks: seq<Block>)
    requires Lawful(w.rules) && Replay(w, blocks).Some? && Same(w.rules, s, Replay(w, blocks).value) && blocks != []
    ensures w.rules.root(s) == blocks[|blocks| - 1].header.stateRoot
  {
    SameAt(w.rules, s, Replay(w, blocks).value, 0);
  }

  /** The ids reported as executed, in order. */
  function OkIds(rs: seq<TxResult>): seq<Hash> {
    if rs == [] then [] else OkIds(rs[..|rs| - 1]) + if rs[|rs| - 1].OkTx? then [rs[|rs| - 1].id] else []
  }

  lemma {:induction false} ReportsSelected(txs: seq<Decided>, ok: seq<bool>)
    requires |ok| == |txs| && forall j :: 0 <= j < |txs| && ok[j] ==> txs[j].Some?
    ensures OkIds(Reported(txs, ok)) == Ids(Selected(txs, ok))
  {
    if txs != [] {
      var n := |txs| - 1;
      ReportsSelected(txs[..n], ok[..n]);
      assert Reported(txs, ok)[..n] == Reported(txs[..n], ok[..n]);
    }
  }

  /**
    The ids that FinalizeBlock reports as executed are, in order, the ids of the decided block; a position reports bad
    bytes exactly when they did not parse.
   */
  lemma ReportsMatchBlock<S(!new)>(w: World<S>, s: S, blocks: seq<Block>, height: int, time: int, proposer: Address,
      txs: seq<Decided>)
    ensures var rs := Reported(txs, DecidedOk(w, s, blocks, time, txs));
      && OkIds(rs) == Ids(DecidedBlock(w, s, blocks, height, time, proposer, txs).txs)
      && forall j :: 0 <= j < |txs| ==> (rs[j] == BadTx <==> txs[j] == None)
  {
    DecidedFields(w, s, blocks, height, time, proposer, txs);
    hide DecidedBlock, DecidedOk, Selected, Run, OkIds;
    ReportsSelected(txs, DecidedOk(w, s, blocks, time, txs));
  }
}
