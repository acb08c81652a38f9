/**
  A node that stops and starts again, with or without a snapshot, and also when it stops in the middle of an append.
 */
module Restarts {
  import opened Core
  import opened Encoding
  import opened ChainRules
  import opened ChainIndex
  import opened Snapshots
  import opened BlockLog
  import opened Chains

  /**
    Restart equivalence: a node reopened from its log and its snapshot, if any, has the same blocks, the same tables
    and, but for the time it was last evaluated at, the same state as before; only pending transactions are lost.
   */
  method Restart<S(!new)>(c: Chain<S>, diskOk: bool) returns (d: Chain<S>)
    requires c.Valid()
    ensures fresh(d) && d.Valid() && d.world == c.world && d.blocks == c.blocks && d.mempool == map[]
    ensures Same(c.world.rules, d.state, c.state) && d.world.rules.root(d.state) == c.world.rules.root(c.state)
    ensures forall a :: Listed(d.tables.byAddr, a) == Listed(c.tables.byAddr, a)
    ensures forall id :: Listed(d.tables.byPool, id) == Listed(c.tables.byPool, id)
    ensures forall id :: Listed(d.tables.byEscrow, id) == Listed(c.tables.byEscrow, id)
  {
    hide Verify, Found, MempoolOk, Hits, SubjectHits, Replay, Loadable;
    d := Reload(c, c.disk, diskOk);
    SameAt(c.world.rules, c.state, Replay(c.world, c.blocks).value, 0);
    SameAt(c.world.rules, d.state, Replay(c.world, c.blocks).value, 0);
  }

  /** A new node over a log that replays and begins with this node's blocks, with this node's snapshot. */
  method Reload<S(!new)>(c: Chain<S>, stored: seq<Block>, diskOk: bool) returns (d: Chain<S>)
    requires Lawful(c.world.rules) && Signing(c.world) && Replay(c.world, stored).Some?
      && SnapshotOk(c.world, stored, c.snapshot)
    ensures fresh(d) && fresh(d.tables) && d.Valid() && d.world == c.world && d.blocks == stored == d.disk
      && d.mempool == map[]
  {
    d := new Chain(c.world, c.snapshotEvery);
    SnapshotUsed(c.world, stored, c.snapshot);
    OpeningAgrees(c.world, stored, c.snapshot, d.state);
    var ok := d.Load(stored, c.snapshot, diskOk);
  }

  lemma SnapshotUsed<S(!new)>(w: World<S>, stored: seq<Block>, snap: Option<Snapshot<S>>)
    requires Lawful(w.rules) && SnapshotOk(w, stored, snap)
    ensures Usable(w, stored, snap) == snap
  {
    if snap.Some? {
      OwnSnapshotLoads(w, stored, snap.value);
    }
  }

  /**
    A crash at any byte of the append of a block that verified: the node that opens the log left behind has the blocks
    that were committed, and the new one exactly when its last byte arrived, in the state they lead to; and the log is
    cut to their encoding. A block that is whole on disk but was never committed is committed by the restart.
   */
  method RestartAfterCrash<S(!new)>(c: Chain<S>, j: Json<Block>, ghost b: Block, ghost cut: nat, bytes: Bytes,
      diskOk: bool)
    returns (d: Chain<S>, log: Log<Block>)
    requires c.Valid() && Verify(c.world, c.state, c.blocks, b).Some?
    requires Inverse(j) && cut <= |Line(j, b)| && bytes == Written(j, c.disk) + Line(j, b)[..cut]
    ensures fresh(d) && d.Valid() && d.world == c.world && d.mempool == map[] && fresh(log)
      && log.file == Written(j, d.blocks)
    ensures d.blocks == if cut == |Line(j, b)| then c.blocks + [b] else c.blocks
    ensures Same(c.world.rules, d.state,
      if cut == |Line(j, b)| then Verify(c.world, c.state, c.blocks, b).value else c.state)
  {
    hide Verify, Found, MempoolOk, Replay, Loadable, Inverse, Written, Line, SnapshotOk, Agree;
    var read;
    log, read := Reopen(j, c.disk, b, cut, bytes);
    ghost var next := Verify(c.world, c.state, c.blocks, b).value;
    ReplayNext(c.world, c.state, c.blocks, b, next);
    SnapshotKept(c.world, c.blocks, b, c.snapshot);
    d := Reload(c, read, diskOk);
  }
}
