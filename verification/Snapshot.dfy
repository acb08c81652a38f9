/**
  Snapshots and start-up: what loading accepts, which blocks are then taken on trust, and when the result is that of a
  full replay from genesis.
 */
module Snapshots {
  import opened Core
  import opened ChainRules

  datatype Snapshot<S> = Snapshot(height: int, blockHash: Hash, state: S)

  // ---------------------------------------------------------------- snapshots of this node

  /** A snapshot this node wrote: the replayed state at a block it still has. */
  ghost predicate SnapshotOk<S(!new)>(w: World<S>, blocks: seq<Block>, snap: Option<Snapshot<S>>) {
    snap.Some? ==>
      var x := snap.value;
      && 1 <= x.height <= |blocks| && x.blockHash == w.headerHash(blocks[x.height - 1].header)
      && Replay(w, blocks[..x.height]).Some? && Same(w.rules, x.state, Replay(w, blocks[..x.height]).value)
  }

  lemma SnapshotKept<S(!new)>(w: World<S>, blocks: seq<Block>, b: Block, snap: Option<Snapshot<S>>)
    requires SnapshotOk(w, blocks, snap)
    ensures SnapshotOk(w, blocks + [b], snap)
  {
    if snap.Some? {
      assert (blocks + [b])[..snap.value.height] == blocks[..snap.value.height];
    }
  }

  /** The state after the last block, as it is written. */
  function Taken<S>(w: World<S>, s: S, blocks: seq<Block>): Snapshot<S>
    requires blocks != []
  {
    Snapshot(|blocks|, w.headerHash(blocks[|blocks| - 1].header), s)
  }

  lemma TakenOk<S(!new)>(w: World<S>, s: S, blocks: seq<Block>)
    requires blocks != [] && Replay(w, blocks).Some? && Same(w.rules, s, Replay(w, blocks).value)
    ensures SnapshotOk(w, blocks, Some(Taken(w, s, blocks)))
  {
    assert blocks[..|blocks|] == blocks;
  }

  /** What loading a snapshot accepts: a block of the log, its hash, and a state with that block's root. */
  predicate Loadable<S>(w: World<S>, stored: seq<Block>, x: Snapshot<S>) {
    && 1 <= x.height <= |stored|
    && w.headerHash(stored[x.height - 1].header) == x.blockHash
    && w.rules.root(x.state) == stored[x.height - 1].header.stateRoot
  }

  /** The snapshot start-up uses: one that does not load is ignored. */
  function Usable<S>(w: World<S>, stored: seq<Block>, snap: Option<Snapshot<S>>): (x: Option<Snapshot<S>>)
    ensures x.Some? ==> x == snap && Loadable(w, stored, x.value)
  {
    if snap.Some? && Loadable(w, stored, snap.value) then snap else None
  }

  /** A snapshot this node wrote always loads. */
  lemma OwnSnapshotLoads<S(!new)>(w: World<S>, blocks: seq<Block>, x: Snapshot<S>)
    requires Lawful(w.rules) && SnapshotOk(w, blocks, Some(x))
    ensures Loadable(w, blocks, x)
  {
    var before := blocks[..x.height];
    assert before[|before| - 1] == blocks[x.height - 1];
    SameAt(w.rules, x.state, Replay(w, before).value, 0);
  }

  // ---------------------------------------------------------------- start-up

  /**
    Start-up from position i of the log, in state s: a block at or below the snapshot's height is taken on trust
    wherever it stands, and the one at that height sets the state; every other block is verified.
   */
  function Opened<S>(w: World<S>, stored: seq<Block>, i: nat, snap: Option<Snapshot<S>>, s: S): Option<S>
    requires i <= |stored|
    decreases |stored| - i
  {
    if i == |stored| then Some(s)
    else if snap.Some? && stored[i].header.height <= snap.value.height then
      Opened(w, stored, i + 1, snap, if stored[i].header.height == snap.value.height then snap.value.state else s)
    else
      match Verify(w, s, stored[..i], stored[i])
      case None => None
      case Some(next) => Opened(w, stored, i + 1, snap, next)
  }

  /** Among the first k blocks none after the snapshot stands at or below its height. */
  predicate NoneStray<S>(stored: seq<Block>, snap: Option<Snapshot<S>>, k: nat)
    requires k <= |stored|
  {
    snap.Some? ==> forall j :: Max(0, snap.value.height) <= j < k ==> stored[j].header.height > snap.value.height
  }

  lemma NoneStrayBefore<S>(stored: seq<Block>, snap: Option<Snapshot<S>>, k: nat)
    requires k < |stored|
    ensures NoneStray(stored, snap, k + 1) ==> NoneStray(stored, snap, k)
  {}

  /**
    A stored block verifies on the replayed state if and only if the log replays that far; a failure there fails the
    whole log.
   */
  lemma StoredVerifies<S(!new)>(w: World<S>, s: S, stored: seq<Block>, i: nat)
    requires Lawful(w.rules) && i < |stored| && Replay(w, stored[..i]).Some?
    requires Same(w.rules, s, Replay(w, stored[..i]).value)
    ensures Verify(w, s, stored[..i], stored[i]) == None ==> Replay(w, stored) == None
    ensures Verify(w, s, stored[..i], stored[i]) == Replay(w, stored[..i + 1])
  {
    VerifySame(w, s, Replay(w, stored[..i]).value, stored[..i], stored[i]);
    assert stored[..i + 1][..i] == stored[..i];
    if Replay(w, stored).Some? {
      ReplayPrefix(w, stored, i);
      ReplayPrefix(w, stored, i + 1);
    }
  }

  /** Verifying the rest of a log from the replay of its first i blocks is replaying the log. */
  lemma {:induction false} OpenedFrom<S(!new)>(w: World<S>, stored: seq<Block>, i: nat, snap: Option<Snapshot<S>>, s: S)
    requires Lawful(w.rules) && i <= |stored| && NoneStray(stored, snap, |stored|)
      && (snap.Some? ==> 0 <= snap.value.height <= i)
    requires Replay(w, stored[..i]).Some? && Same(w.rules, s, Replay(w, stored[..i]).value)
    ensures var o := Opened(w, stored, i, snap, s);
      && (o.Some? <==> Replay(w, stored).Some?) && (o.Some? ==> Same(w.rules, o.value, Replay(w, stored).value))
    decreases |stored| - i
  {
    hide Replay, Verify;
    if i == |stored| {
      assert stored[..i] == stored;
    } else {
      StoredVerifies(w, s, stored, i);
      var next := Verify(w, s, stored[..i], stored[i]);
      if next.Some? {
        OpenedFrom(w, stored, i + 1, snap, next.value);
      }
    }
  }

  lemma HeightsBelow<S(!new)>(w: World<S>, stored: seq<Block>, x: Snapshot<S>)
    requires SnapshotOk(w, stored, Some(x))
    ensures 1 <= x.height <= |stored| && forall i :: 0 <= i < x.height ==> stored[i].header.height == i + 1
  {
    hide Replay;
    ReplayHeights(w, stored[..x.height]);
    assert forall i :: 0 <= i < x.height ==> stored[i] == stored[..x.height][i];
  }

  /** Up to its height a snapshot's log is only recorded. */
  lemma {:induction false} OpenedTrusts<S(!new)>(w: World<S>, stored: seq<Block>, i: nat, x: Snapshot<S>, s: S)
    requires SnapshotOk(w, stored, Some(x)) && i < x.height
    ensures Opened(w, stored, i, Some(x), s) == Opened(w, stored, x.height, Some(x), x.state)
    decreases x.height - i
  {
    HeightsBelow(w, stored, x);
    if i + 1 < x.height {
      OpenedTrusts(w, stored, i + 1, x, s);
    }
  }

  /**
    Start-up against a full replay, for every log and every snapshot this node wrote of it. A log that replays is
    accepted and leads to the same state; a log that is accepted replays if and only if no block after the snapshot
    stands at or below its height.
   */
  lemma OpeningAgrees<S(!new)>(w: World<S>, stored: seq<Block>, snap: Option<Snapshot<S>>, s: S)
    requires Lawful(w.rules) && SnapshotOk(w, stored, snap) && Same(w.rules, s, w.start)
    ensures var o := Opened(w, stored, 0, snap, s); var r := Replay(w, stored);
      && (r.Some? ==> o.Some? && Same(w.rules, o.value, r.value) && NoneStray(stored, snap, |stored|))
      && (o.Some? ==> (r.Some? <==> NoneStray(stored, snap, |stored|)))
  {
    assert stored[..0] == [];
    if snap.Some? && NoneStray(stored, snap, |stored|) {
      OpenedTrusts(w, stored, 0, snap.value, s);
      OpenedFrom(w, stored, snap.value.height, snap, snap.value.state);
    } else if snap.None? {
      OpenedFrom(w, stored, 0, snap, s);
    } else if Replay(w, stored).Some? {
      ReplayHeights(w, stored);
    }
  }

  /** Any block at or below the snapshot's height is accepted after it, although the log does not replay. */
  lemma StrayAccepted<S(!new)>(w: World<S>, stored: seq<Block>, x: Snapshot<S>, b: Block, s: S)
    requires Lawful(w.rules) && SnapshotOk(w, stored, Some(x)) && x.height == |stored| && b.header.height <= x.height
    ensures var log := stored + [b];
      && SnapshotOk(w, log, Some(x)) && Loadable(w, log, x)
      && Opened(w, log, 0, Some(x), s).Some? && Replay(w, log) == None
  {
    var log := stored + [b];
    SnapshotKept(w, stored, b, Some(x));
    OwnSnapshotLoads(w, log, x);
    OpenedTrusts(w, log, 0, x, s);
    assert log[|stored|] == b;
    if Replay(w, log).Some? {
      ReplayHeights(w, log);
    }
  }

  /**
    Such a log exists for every chain under external consensus: one decided block, its snapshot, and the same block
    again. Without the snapshot the log is refused, with it the node starts.
   */
  lemma StrayLog<S(!new)>(w: World<S>, s: S) returns (log: seq<Block>, x: Snapshot<S>)
    requires Lawful(w.rules) && w.bft && Same(w.rules, s, w.start)
    ensures SnapshotOk(w, log, Some(x)) && Loadable(w, log, x) && log == [log[0], log[0]]
    ensures Opened(w, log, 0, Some(x), s).Some? && Opened(w, log, 0, None, s) == None && Replay(w, log) == None
  {
    var b, next := DecidedBlock(w, w.start, [], 1, 0, NoAddress, []), DecidedState(w, w.start, [], 0, []);
    DecidedVerifies(w, w.start, [], 1, 0, NoAddress, []);
    var one := [b];
    assert one[..0] == [];
    assert Replay(w, one) == Some(next);
    x := Taken(w, next, one);
    TakenOk(w, next, one);
    log := one + [b];
    StrayAccepted(w, one, x, b, s);
    OpeningAgrees(w, log, None, s);
  }

  // ---------------------------------------------------------------- snapshots from anywhere

  /**
    Start-up uses a snapshot exactly when the log has a block at its height, that block's header hashes to the hash in
    the snapshot, and the snapshot's state has the root in that header.
   */
  lemma UsedExactly<S>(w: World<S>, stored: seq<Block>, x: Snapshot<S>)
    ensures Usable(w, stored, Some(x)) == Some(x) <==>
      && 0 < x.height <= |stored|
      && var h := stored[x.height - 1].header; w.headerHash(h) == x.blockHash && h.stateRoot == w.rules.root(x.state)
    ensures Usable(w, stored, None) == None
  {}

  lemma {:induction false} OpenedRoot<S(!new)>(w: World<S>, stored: seq<Block>, i: nat, snap: Option<Snapshot<S>>, s: S)
    requires Lawful(w.rules) && i <= |stored| && 0 < |stored| && NoneStray(stored, snap, |stored|)
    requires snap.Some? ==> 0 < snap.value.height <= |stored| && Numbered(stored, snap.value.height)
    requires snap.Some? ==> w.rules.root(snap.value.state) == stored[snap.value.height - 1].header.stateRoot
    requires 0 < i && (snap.Some? ==> snap.value.height <= i) ==> w.rules.root(s) == stored[i - 1].header.stateRoot
    requires Opened(w, stored, i, snap, s).Some?
    ensures w.rules.root(Opened(w, stored, i, snap, s).value) == stored[|stored| - 1].header.stateRoot
    decreases |stored| - i
  {
    hide Run, HeaderOk;
    if i < |stored| {
      if snap.Some? && stored[i].header.height <= snap.value.height {
        assert i < snap.value.height;
        OpenedRoot(w, stored, i + 1, snap,
          if stored[i].header.height == snap.value.height then snap.value.state else s);
      } else {
        OpenedRoot(w, stored, i + 1, snap, Verify(w, s, stored[..i], stored[i]).value);
      }
    }
  }

  /** The first k blocks have the heights 1 to k. */
  predicate Numbered(stored: seq<Block>, k: nat)
    requires k <= |stored|
  {
    forall j :: 0 <= j < k ==> stored[j].header.height == j + 1
  }

  /**
    Whatever snapshot is found, if no block is out of place, start-up ends in a state with the root of the last block of
    the log.
   */
  lemma LoadedRoot<S(!new)>(w: World<S>, stored: seq<Block>, snap: Option<Snapshot<S>>, s: S)
    requires Lawful(w.rules) && 0 < |stored|
    requires var x := Usable(w, stored, snap);
      NoneStray(stored, x, |stored|) && (x.Some? ==> Numbered(stored, x.value.height))
    requires Opened(w, stored, 0, Usable(w, stored, snap), s).Some?
    ensures w.rules.root(Opened(w, stored, 0, Usable(w, stored, snap), s).value)
      == stored[|stored| - 1].header.stateRoot
  {
    OpenedRoot(w, stored, 0, Usable(w, stored, snap), s);
  }
}
