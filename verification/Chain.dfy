/**
  The chain: committed blocks, the state they lead to, pending transactions, lookup tables, log and snapshots.
  Valid says that all of them agree with a replay of the block list from genesis; every operation keeps it.
 */
module Chains {
  import opened Core
  import opened MapSums
  import opened Ledger
  import opened Merkle
  import opened ChainRules
  import opened BlockLaws
  import opened ChainIndex
  import opened Snapshots

  const MAX_MEMPOOL: int := 10000
  const MAX_AHEAD: int := 16
  const MEMPOOL_TTL: int := 600000

  /** A pending transaction and when it was added. */
  datatype Pending = Pending(tx: Tx, added: int)

  datatype Answer =
    | Accepted
    | Malformed
    | Duplicate
    | Full
    | TooFarAhead
    | Rejected(error: Error)
    | NonceTaken
    | Unfunded

  datatype Produced = Nothing | Made(block: Block) | Invalid

  type Mempool = map<Hash, Pending>

  // ---------------------------------------------------------------- pending transactions

  /**
    Pending transactions are stored under their ids, are well formed, and have nonces in their sender's window, all
    different.
   */
  ghost predicate MempoolOk<S>(w: World<S>, s: S, m: Mempool) {
    && (forall id :: id in m ==> m[id].tx.id == id && w.rules.good(m[id].tx))
    && (forall id :: id in m ==>
          w.rules.nonce(s, m[id].tx.from) <= m[id].tx.nonce < w.rules.nonce(s, m[id].tx.from) + MAX_AHEAD)
    && (forall i, j :: i in m && j in m && m[i].tx.from == m[j].tx.from && m[i].tx.nonce == m[j].tx.nonce ==> i == j)
  }

  lemma {:induction false} InjectiveCount(ids: set<Hash>, f: Hash -> int, lo: int, n: nat)
    requires forall id :: id in ids ==> lo <= f(id) < lo + n
    requires forall i, j :: i in ids && j in ids && f(i) == f(j) ==> i == j
    ensures |ids| <= n
  {
    if n == 0 {
      assert ids == {};
    } else if id :| id in ids && f(id) == lo + n - 1 {
      InjectiveCount(ids - {id}, f, lo, n - 1);
    } else {
      InjectiveCount(ids, f, lo, n - 1);
    }
  }

  function PendingOf(m: Mempool, a: Address): set<Hash> { set id | id in m && m[id].tx.from == a }

  ghost predicate Uses(m: Mempool, a: Address, n: int) {
    exists id :: id in m && m[id].tx.from == a && m[id].tx.nonce == n
  }

  /** A sender never has more than sixteen transactions pending. */
  lemma AtMostSixteen<S>(w: World<S>, s: S, m: Mempool, a: Address)
    requires MempoolOk(w, s, m)
    ensures |PendingOf(m, a)| <= 16
  {
    InjectiveCount(PendingOf(m, a), id => if id in m then m[id].tx.nonce else 0, w.rules.nonce(s, a), MAX_AHEAD);
  }

  /** The pending transactions that stay after a block: not in it, and with a nonce still to come. */
  function Remaining<S>(w: World<S>, s: S, m: Mempool, b: Block): Mempool {
    map id | id in m && id !in Ids(b.txs) && m[id].tx.nonce >= w.rules.nonce(s, m[id].tx.from) :: m[id]
  }

  /** After a block nonces only grew, so what stays pending is still in its sender's window. */
  lemma RemainingOk<S(!new)>(w: World<S>, s: S, next: S, m: Mempool, b: Block)
    requires MempoolOk(w, s, m) && forall a :: w.rules.nonce(s, a) <= w.rules.nonce(next, a)
    ensures MempoolOk(w, next, Remaining(w, next, m, b))
  {}

  lemma {:induction false} SmallerMap<K, V>(a: map<K, V>, b: map<K, V>)
    requires a.Keys <= b.Keys
    ensures |a| <= |b|
    decreases |b|
  {
    if k :| k in b.Keys && k !in a.Keys {
      SmallerMap(a, b - {k});
    } else {
      assert a.Keys == b.Keys;
      SameSize(a);
      SameSize(b);
    }
  }

  lemma SameSize<K, V>(m: map<K, V>)
    ensures |m| == |m.Keys|
  {}

  /** What a sender's pending transactions in one asset will cost, seen from some of them. */
  ghost function Pledges<S>(w: World<S>, s: S, m: Mempool, tx: Tx, ids: set<Hash>): map<Hash, int> {
    map id | id in m && id in ids && m[id].tx.from == tx.from && m[id].tx.asset == tx.asset :: w.rules.cost(s, m[id].tx)
  }

  /** What a transaction and some of its sender's pending ones will cost, added up in 64 bits as the mempool does. */
  ghost function Needed<S>(w: World<S>, s: S, m: Mempool, tx: Tx, ids: set<Hash>): int {
    (w.rules.cost(s, tx) + Total(Pledges(w, s, m, tx, ids))) % TWO64
  }

  predicate Claims(tx: Tx) { tx.body.CircleStep? && tx.body.step.Claim? }

  /** The rules of the mempool, on the state at the time of the check. */
  ghost predicate Admissible<S>(w: World<S>, s: S, m: Mempool, known: map<Hash, Loc>, tx: Tx) {
    && w.rules.good(tx) && tx.id !in m && tx.id !in known && |m| < MAX_MEMPOOL
    && tx.nonce < w.rules.nonce(s, tx.from) + MAX_AHEAD
    && (w.rules.apply(s, tx).Next? || w.rules.apply(s, tx) == Refused(NonceTooHigh))
    && (forall id :: id in m && m[id].tx.from == tx.from ==> m[id].tx.nonce != tx.nonce)
    && (Claims(tx) || Needed(w, s, m, tx, m.Keys) <= w.rules.balance(s, tx.from, tx.asset))
  }

  /** A transaction that gets as far as being tried: well formed, new, with room for it and in its sender's window. */
  ghost predicate Tryable<S>(w: World<S>, s: S, m: Mempool, known: map<Hash, Loc>, tx: Tx) {
    && w.rules.good(tx) && tx.id !in m && tx.id !in known && |m| < 10000
    && tx.nonce < w.rules.nonce(s, tx.from) + 16
  }

  /** What each answer of the mempool means, in the order the reasons are looked at. */
  ghost predicate Answers<S>(w: World<S>, s: S, m: Mempool, known: map<Hash, Loc>, tx: Tx, a: Answer) {
    match a
    case Malformed => !w.rules.good(tx)
    case Duplicate => w.rules.good(tx) && (tx.id in m || tx.id in known)
    case Full => w.rules.good(tx) && tx.id !in m && tx.id !in known && |m| >= 10000
    case TooFarAhead =>
      && w.rules.good(tx) && tx.id !in m && tx.id !in known && |m| < 10000
      && tx.nonce >= w.rules.nonce(s, tx.from) + 16
    case Rejected(e) => Tryable(w, s, m, known, tx) && w.rules.apply(s, tx) == Refused(e) && e != NonceTooHigh
    case NonceTaken =>
      && Tryable(w, s, m, known, tx) && (w.rules.apply(s, tx).Refused? ==> w.rules.apply(s, tx).error == NonceTooHigh)
      && Uses(m, tx.from, tx.nonce)
    case Unfunded =>
      && Tryable(w, s, m, known, tx) && (w.rules.apply(s, tx).Refused? ==> w.rules.apply(s, tx).error == NonceTooHigh)
      && !Uses(m, tx.from, tx.nonce) && !Claims(tx)
      && Needed(w, s, m, tx, m.Keys) > w.rules.balance(s, tx.from, tx.asset)
    case Accepted =>
      && Tryable(w, s, m, known, tx) && (w.rules.apply(s, tx).Refused? ==> w.rules.apply(s, tx).error == NonceTooHigh)
      && !Uses(m, tx.from, tx.nonce)
      && (Claims(tx) || Needed(w, s, m, tx, m.Keys) <= w.rules.balance(s, tx.from, tx.asset))
  }

  lemma PledgesNext<S>(w: World<S>, s: S, m: Mempool, tx: Tx, ids: set<Hash>, id: Hash)
    requires id in m && id !in ids
    ensures Total(Pledges(w, s, m, tx, ids + {id})) == Total(Pledges(w, s, m, tx, ids))
      + if m[id].tx.from == tx.from && m[id].tx.asset == tx.asset then w.rules.cost(s, m[id].tx) else 0
  {
    var was := Pledges(w, s, m, tx, ids);
    if m[id].tx.from == tx.from && m[id].tx.asset == tx.asset {
      assert Pledges(w, s, m, tx, ids + {id}) == was[id := w.rules.cost(s, m[id].tx)];
      TotalPut(was, id, w.rules.cost(s, m[id].tx));
    } else {
      assert Pledges(w, s, m, tx, ids + {id}) == was;
    }
  }

  lemma NeededStart<S>(w: World<S>, s: S, m: Mempool, tx: Tx)
    ensures Needed(w, s, m, tx, m.Keys - m.Keys) == w.rules.cost(s, tx) % TWO64
  {
    assert Pledges(w, s, m, tx, m.Keys - m.Keys) == map[];
  }

  lemma NeededNext<S>(w: World<S>, s: S, m: Mempool, tx: Tx, ids: set<Hash>, id: Hash)
    requires id in m && id !in ids
    ensures Needed(w, s, m, tx, ids + {id}) ==
      if m[id].tx.from == tx.from && m[id].tx.asset == tx.asset
        then (Needed(w, s, m, tx, ids) + w.rules.cost(s, m[id].tx)) % TWO64
      else Needed(w, s, m, tx, ids)
  {
    hide Pledges;
    PledgesNext(w, s, m, tx, ids, id);
    var sum, more := w.rules.cost(s, tx) + Total(Pledges(w, s, m, tx, ids)), w.rules.cost(s, m[id].tx);
    assert (sum % TWO64 + more) % TWO64 == (sum + more) % TWO64;
  }

  lemma AdmittedOk<S(!new)>(w: World<S>, s: S, m: Mempool, known: map<Hash, Loc>, tx: Tx, added: int)
    requires Lawful(w.rules) && MempoolOk(w, s, m) && Admissible(w, s, m, known, tx)
    ensures MempoolOk(w, s, m[tx.id := Pending(tx, added)])
  {}

  lemma MempoolNow<S(!new)>(w: World<S>, s: S, m: Mempool, t: int)
    requires Lawful(w.rules) && MempoolOk(w, s, m)
    ensures MempoolOk(w, w.rules.at(s, t), m)
  {}

  // ---------------------------------------------------------------- block candidates

  ghost predicate IsPending(m: Mempool, tx: Tx) { exists id :: id in m && m[id].tx == tx }

  /** The pending transactions that have not waited too long. */
  function Unexpired(m: Mempool, wall: int): Mempool { map id | id in m && wall - m[id].added <= MEMPOOL_TTL :: m[id] }

  /** Pending, and for at most ten minutes. */
  ghost predicate Waiting(m: Mempool, wall: int, tx: Tx) {
    exists id :: id in m && m[id].tx == tx && wall <= m[id].added + 600000
  }

  lemma WaitingExactly(m: Mempool, wall: int)
    ensures forall tx :: IsPending(Unexpired(m, wall), tx) <==> Waiting(m, wall, tx)
  {
    forall tx ensures IsPending(Unexpired(m, wall), tx) <==> Waiting(m, wall, tx) {
      if id :| id in m && m[id].tx == tx && wall <= m[id].added + 600000 {
        assert Unexpired(m, wall)[id].tx == tx;
      }
    }
  }

  /** What building a block over these candidates leaves pending: what has not waited too long and may still succeed. */
  ghost predicate Leaves<S>(r: Rules<S>, start: S, order: seq<Tx>, was: Mempool, wall: int, id: Hash) {
    id in was && wall <= was[id].added + 600000 && !HopelessId(r, start, order, |order|, id)
  }

  /** The mempool holds exactly what building a block over these candidates leaves, as it was. */
  ghost predicate LeftBy<S>(r: Rules<S>, start: S, order: seq<Tx>, was: Mempool, wall: int, m: Mempool) {
    Shrunk(was, m) && forall id :: id in m <==> Leaves(r, start, order, was, wall, id)
  }

  /** The same less what the block committed and what its senders' nonces have passed. */
  ghost predicate LeftAfter<S>(w: World<S>, start: S, order: seq<Tx>, was: Mempool, wall: int, b: Block, t: S,
      m: Mempool)
  {
    && Shrunk(was, m)
    && forall id :: id in m <==>
      && Leaves(w.rules, start, order, was, wall, id)
      && id !in Ids(b.txs) && was[id].tx.nonce >= w.rules.nonce(t, was[id].tx.from)
  }

  lemma FilledLeaves<S>(r: Rules<S>, start: S, order: seq<Tx>, was: Mempool, wall: int, m: Mempool)
    requires Shrunk(Unexpired(was, wall), m)
    requires forall id :: id in m <==> id in Unexpired(was, wall) && !HopelessId(r, start, order, |order|, id)
    ensures LeftBy(r, start, order, was, wall, m)
  {
    hide HopelessId;
  }

  lemma LeftRemains<S>(w: World<S>, start: S, order: seq<Tx>, was: Mempool, wall: int, b: Block, t: S, m: Mempool)
    requires LeftBy(w.rules, start, order, was, wall, m)
    ensures LeftAfter(w, start, order, was, wall, b, t, Remaining(w, t, m, b))
  {
    hide Leaves;
  }

  function Rank(a: Address): int { if a.Key? then a.pub else -1 }

  /** By sender, then by nonce. */
  predicate Ordered(a: Tx, b: Tx) {
    Rank(a.from) < Rank(b.from) || (Rank(a.from) == Rank(b.from) && a.nonce <= b.nonce)
  }

  predicate Sorted(txs: seq<Tx>) { forall i, j :: 0 <= i < j < |txs| ==> Ordered(txs[i], txs[j]) }

  /** The same transactions, each sender's in nonce order. */
  method Sort(txs: seq<Tx>) returns (out: seq<Tx>)
    ensures Sorted(out) && multiset(out) == multiset(txs)
  {
    out := [];
    var i := 0;
    while i < |txs|
      invariant 0 <= i <= |txs| && Sorted(out) && multiset(out) == multiset(txs[..i])
    {
      out := Insert(out, txs[i]);
      assert txs[..i + 1] == txs[..i] + [txs[i]];
      i := i + 1;
    }
    assert txs[..i] == txs;
  }

  method Insert(txs: seq<Tx>, tx: Tx) returns (out: seq<Tx>)
    requires Sorted(txs)
    ensures Sorted(out) && multiset(out) == multiset(txs) + multiset{tx}
  {
    var i := 0;
    while i < |txs| && Ordered(txs[i], tx)
      invariant 0 <= i <= |txs| && forall j :: 0 <= j < i ==> Ordered(txs[j], tx)
    {
      i := i + 1;
    }
    assert txs == txs[..i] + txs[i..];
    out := txs[..i] + [tx] + txs[i..];
  }

  /** Some entries left, none changed or added. */
  ghost predicate Shrunk(was: Mempool, m: Mempool) { forall id :: id in m ==> id in was && m[id] == was[id] }

  lemma ShrunkOk<S>(w: World<S>, s: S, was: Mempool, m: Mempool)
    requires MempoolOk(w, s, was) && Shrunk(was, m)
    ensures MempoolOk(w, s, m) && |m| <= |was|
  {
    SmallerMap(m, was);
  }

  lemma SortedSame(a: seq<Tx>, b: seq<Tx>)
    requires multiset(a) == multiset(b)
    ensures forall tx :: tx in a <==> tx in b
  {
    forall tx ensures tx in a <==> tx in b {
      assert tx in a <==> tx in multiset(a);
      assert tx in b <==> tx in multiset(b);
    }
  }

  lemma PendingGood<S>(w: World<S>, s: S, m: Mempool, txs: seq<Tx>)
    requires MempoolOk(w, s, m) && forall tx :: tx in txs ==> IsPending(m, tx)
    ensures forall tx :: tx in txs ==> w.rules.good(tx)
  {}

  // ---------------------------------------------------------------- snapshots

  /** The time of the next block: never at or before the tip's. */
  function BlockTime<S>(w: World<S>, blocks: seq<Block>, nowMs: int): (t: int)
    ensures t == Max(nowMs, PrevTime(w, blocks, |blocks|) + 1)
  {
    var tip := Tip(w, blocks);
    if nowMs <= tip.time then tip.time + 1 else nowMs
  }

  /** A list of the pending transactions that leaves none out. */
  lemma PendingAll(m: Mempool, txs: seq<Tx>)
    requires forall id :: id in m ==> m[id].tx in txs
    ensures forall tx :: IsPending(m, tx) ==> tx in txs
  {}

  lemma FillStart<S>(r: Rules<S>, start: S, order: seq<Tx>)
    ensures Tried(r, start, order, 0).kept == [] && Tried(r, start, order, 0).state == start
    ensures forall id :: !HopelessId(r, start, order, 0, id)
  {}

  /** One candidate more. */
  lemma FillNext<S>(r: Rules<S>, start: S, order: seq<Tx>, i: nat, was: Mempool, m: Mempool)
    requires i < |order| && r.good(order[i]) && |Tried(r, start, order, i).kept| < MAX_BLOCK_TXS
    requires var a := r.apply(Tried(r, start, order, i).state, order[i]);
      m == if a.Refused? && a.error != NonceTooHigh then was - {order[i].id} else was
    ensures var was, x := Tried(r, start, order, i), Tried(r, start, order, i + 1);
      var a := r.apply(was.state, order[i]);
      if a.Refused? then x.kept == was.kept && x.state == was.state
      else x.kept == was.kept + [order[i]] && x.state == a.state
    ensures forall id :: (id in m <==> id in was && !(order[i].id == id && Hopeless(r, start, order, i)))
    ensures forall id :: HopelessId(r, start, order, i + 1, id) <==>
      HopelessId(r, start, order, i, id) || (order[i].id == id && Hopeless(r, start, order, i))
  {
    TriedNext(r, start, order, i);
    forall id {
      HopelessNext(r, start, order, i, id);
    }
  }

  lemma FillEnd<S>(r: Rules<S>, start: S, order: seq<Tx>, i: nat)
    requires i <= |order| && (i == |order| || |Tried(r, start, order, i).kept| == MAX_BLOCK_TXS)
    requires forall tx :: tx in order ==> r.good(tx)
    ensures var x, y := Tried(r, start, order, i), Tried(r, start, order, |order|);
      x.kept == y.kept && x.state == y.state
    ensures forall id :: HopelessId(r, start, order, |order|, id) <==> HopelessId(r, start, order, i, id)
  {
    hide Tried, HopelessId;
    if i < |order| {
      TriedFull(r, start, order, i, |order|);
    }
    forall id {
      HopelessFull(r, start, order, i, id);
    }
  }

  lemma TriedRuns<S>(r: Rules<S>, start: S, order: seq<Tx>)
    ensures var x := Tried(r, start, order, |order|); Run(r, start, x.kept) == Some(x.state)
  {
    KeptAlone(r, start, Offered(order[..|order|]));
  }

  // ---------------------------------------------------------------- the node

  /** Consensus decided this block, at this time and over these transactions, on top of these blocks. */
  ghost predicate DecidedWith<S>(w: World<S>, s: S, blocks: seq<Block>, b: Block, next: S, time: int,
      proposer: Address, txs: seq<Decided>)
  {
    b == DecidedBlock(w, s, blocks, |blocks| + 1, time, proposer, txs) && next == DecidedState(w, s, blocks, time, txs)
  }

  /** Consensus decided this block and state on top of the first k blocks. */
  ghost predicate DecidedAt<S(!new)>(w: World<S>, blocks: seq<Block>, k: nat, b: Block, next: S) {
    && k <= |blocks| && Replay(w, blocks[..k]).Some?
    && exists time, proposer,
      txs :: DecidedWith(w, Replay(w, blocks[..k]).value, blocks[..k], b, next, time, proposer, txs)
  }

  class Chain<S(!new)> {
    const world: World<S>
    const snapshotEvery: int
    const tables: Tables
    var state: S
    var blocks: seq<Block>
    var mempool: Mempool
    /** The blocks in the log. */
    var disk: seq<Block>
    var snapshot: Option<Snapshot<S>>
    var replayedFrom: int

    /** State and tables are the replay and the scan of the block list; pending transactions and snapshot fit it. */
    ghost predicate Sound()
      reads this`state, this`blocks, this`mempool, this`snapshot, tables
    {
      && Lawful(world.rules) && Signing(world)
      && Replay(world, blocks).Some? && Same(world.rules, state, Replay(world, blocks).value)
      && Agree(tables, blocks) && Found(tables.txIndex, blocks)
      && MempoolOk(world, state, mempool) && |mempool| <= MAX_MEMPOOL
      && SnapshotOk(world, blocks, snapshot)
    }

    ghost predicate Valid()
      reads this, tables
    {
      Sound() && disk == blocks
    }

    // -------------------------------------------------------------- opening

    constructor (w: World<S>, every: int)
      requires Lawful(w.rules) && Signing(w)
      ensures Valid() && world == w && snapshotEvery == every && state == w.start && blocks == [] && mempool == map[]
        && fresh(tables)
    {
      world, snapshotEvery := w, every;
      tables := new Tables();
      state, blocks, mempool, disk, snapshot, replayedFrom := w.start, [], map[], [], None, 0;
    }

    /**
      Starts from the log: every block is verified again, except those a usable snapshot makes it take on trust. With
      a snapshot this node wrote, the result is that of a full replay exactly when no block after it stands at or
      below its height.
     */
    method Load(stored: seq<Block>, snap: Option<Snapshot<S>>, diskOk: bool) returns (ok: bool)
      requires Valid() && blocks == [] && mempool == map[] && snapshot == None
      modifies this, tables
      ensures var o := Opened(world, stored, 0, Usable(world, stored, snap), old(state));
        && (ok <==> o.Some?)
        && (ok ==> state == o.value && blocks == stored && disk == stored && mempool == map[])
      ensures SnapshotOk(world, stored, Usable(world, stored, snap)) && ok ==>
        (Valid() <==> NoneStray(stored, Usable(world, stored, snap), |stored|))
    {
      hide Verify, Replay, SnapshotOk, Lawful, Signing, Loaded, Same, NoneStray, Usable;
      var used := Usable(world, stored, snap);
      ghost var start, own := state, SnapshotOk(world, stored, used);
      LoadStart(stored, used);
      var i := 0;
      while i < |stored|
        invariant 0 <= i <= |stored| && blocks == stored[..i] && mempool == map[]
        invariant Opened(world, stored, 0, used, start) == Opened(world, stored, i, used, state)
        invariant own && NoneStray(stored, used, i) ==> Loaded(used, i)
      {
        var b := stored[i];
        NoneStrayBefore(stored, used, i);
        if used.Some? && b.header.height <= used.value.height {
          LoadRecorded(b, stored, i, used.value);
        } else {
          var taken := LoadVerified(b, stored, i, used, diskOk);
          if !taken {
            return false;
          }
        }
        i := i + 1;
      }
      assert stored[..i] == stored;
      disk := stored;
      ok := true;
      if own {
        LoadEnd(stored, used, start);
      }
    }

    /** While recording only, tables fit the blocks; state and snapshot are still to come. */
    ghost predicate Recorded()
      reads this`blocks, this`mempool, this`snapshot, tables
    {
      && Lawful(world.rules) && Signing(world) && Agree(tables, blocks) && Found(tables.txIndex, blocks)
      && mempool == map[] && snapshot == None
    }

    /** What loading has established after i blocks. */
    ghost predicate Loaded(used: Option<Snapshot<S>>, i: nat)
      reads this`state, this`blocks, this`mempool, this`snapshot, tables
    {
      if used.Some? && i < used.value.height then Recorded() else Sound()
    }

    lemma LoadStart(stored: seq<Block>, used: Option<Snapshot<S>>)
      requires Valid() && blocks == [] && mempool == map[] && snapshot == None
      ensures Loaded(used, 0) && stored[..0] == [] && Lawful(world.rules) && Same(world.rules, state, world.start)
    {}

    lemma LoadEnd(stored: seq<Block>, used: Option<Snapshot<S>>, start: S)
      requires Lawful(world.rules) && SnapshotOk(world, stored, used) && Same(world.rules, start, world.start)
      requires blocks == stored == disk && Opened(world, stored, 0, used, start) == Some(state)
      requires NoneStray(stored, used, |stored|) ==> Loaded(used, |stored|)
      ensures Valid() <==> NoneStray(stored, used, |stored|)
    {
      OpeningAgrees(world, stored, used, start);
    }

    /** A block at or below the snapshot: recorded; with the one at its height the snapshot's state is taken. */
    method LoadRecorded(b: Block, ghost stored: seq<Block>, ghost i: nat, used: Snapshot<S>)
      requires i < |stored| && b == stored[i] && b.header.height <= used.height && blocks == stored[..i]
        && mempool == map[]
      modifies this`state, this`blocks, this`snapshot, this`replayedFrom, tables
      ensures blocks == stored[..i + 1] && mempool == map[]
      ensures state == if b.header.height == used.height then used.state else old(state)
      ensures SnapshotOk(world, stored, Some(used)) && NoneStray(stored, Some(used), i + 1)
        && old(Loaded(Some(used), i))
        ==> Loaded(Some(used), i + 1)
    {
      hide Verify, Replay, Agree, Found, Lawful, Signing, SnapshotOk, Same;
      ghost var fits := SnapshotOk(world, stored, Some(used)) && NoneStray(stored, Some(used), i + 1)
          && Loaded(Some(used), i);
      tables.Index(b, blocks);
      blocks := blocks + [b];
      assert stored[..i + 1] == stored[..i] + [b];
      if b.header.height == used.height {
        state, replayedFrom, snapshot := used.state, used.height, Some(used);
      }
      if fits {
        HeightsBelow(world, stored, used);
        SnapshotHere(world, stored, used);
      }
    }

    /** Any other block: verified and committed, or the whole log is refused. */
    method LoadVerified(b: Block, ghost stored: seq<Block>, ghost i: nat, ghost used: Option<Snapshot<S>>, diskOk: bool)
      returns (ok: bool)
      requires i < |stored| && b == stored[i] && blocks == stored[..i] && mempool == map[]
      requires used.Some? ==> b.header.height > used.value.height
      modifies this`state, this`blocks, this`mempool, this`snapshot, tables
      ensures ok <==> Verify(world, old(state), stored[..i], b).Some?
      ensures ok ==>
        blocks == stored[..i + 1] && mempool == map[] && Verify(world, old(state), stored[..i], b) == Some(state)
      ensures ok && SnapshotOk(world, stored, used) && old(Loaded(used, i)) ==> Loaded(used, i + 1)
    {
      hide Verify, Replay, Agree, Found, SnapshotOk, MempoolOk;
      var next := Verify(world, state, blocks, b);
      if next == None {
        return false;
      }
      if SnapshotOk(world, stored, used) && used.Some? {
        HeightsBelow(world, stored, used.value);
      }
      assert stored[..i + 1] == stored[..i] + [b];
      Commit(b, next.value, diskOk);
      assert mempool == map[];
      ok := true;
    }

    // -------------------------------------------------------------- committing

    method DropCommitted(b: Block)
      modifies this`mempool
      ensures mempool == map id | id in old(mempool) && id !in Ids(b.txs) :: old(mempool)[id]
    {
      ghost var was := mempool;
      var i := 0;
      while i < |b.txs|
        invariant 0 <= i <= |b.txs|
        invariant mempool == map id | id in was && id !in Ids(b.txs)[..i] :: was[id]
      {
        mempool := mempool - {b.txs[i].id};
        assert Ids(b.txs)[..i + 1] == Ids(b.txs)[..i] + [b.txs[i].id];
        i := i + 1;
      }
      assert Ids(b.txs)[..i] == Ids(b.txs);
    }

    /** Pending transactions whose nonce was used can never succeed. */
    method DropStale()
      modifies this`mempool
      ensures mempool == map id | id in old(mempool)
        && old(mempool)[id].tx.nonce >= world.rules.nonce(state, old(mempool)[id].tx.from) :: old(mempool)[id]
    {
      ghost var was := mempool;
      var todo := mempool.Keys;
      while todo != {}
        invariant todo <= was.Keys
        invariant mempool == map id | id in was
          && (id in todo || was[id].tx.nonce >= world.rules.nonce(state, was[id].tx.from)) :: was[id]
        decreases |todo|
      {
        var id :| id in todo;
        if mempool[id].tx.nonce < world.rules.nonce(state, mempool[id].tx.from) {
          mempool := mempool - {id};
        }
        todo := todo - {id};
      }
    }

    method DropPending(b: Block)
      modifies this`mempool
      ensures mempool == Remaining(world, state, old(mempool), b)
    {
      DropCommitted(b);
      DropStale();
    }

    /**
      Every so many blocks the state is written; at other heights, and when the write fails, the old snapshot stays.
     */
    method MaybeSnapshot(diskOk: bool)
      modifies this`snapshot
      ensures snapshot ==
        if 0 < snapshotEvery && blocks != [] && |blocks| % snapshotEvery == 0 && diskOk
          then Some(Taken(world, state, blocks))
        else old(snapshot)
    {
      var h := |blocks|;
      if snapshotEvery <= 0 || h == 0 || h % snapshotEvery != 0 {
        return;
      }
      if diskOk {
        snapshot := Some(Snapshot(h, world.headerHash(blocks[h - 1].header), state));
      }
    }

    /** Commits a verified block; on a sound chain the chain stays sound. */
    method Commit(b: Block, next: S, diskOk: bool)
      requires Verify(world, state, blocks, b) == Some(next)
      modifies this`state, this`blocks, this`mempool, this`snapshot, tables
      ensures old(Sound()) ==> Sound()
      ensures state == next && blocks == old(blocks) + [b]
      ensures mempool == Remaining(world, next, old(mempool), b)
    {
      hide Replay, Verify, MempoolOk, Agree, Found, SnapshotOk, Lawful, Signing, Remaining, Taken;
      ghost var fits := Sound();
      if fits {
        CommitFacts(world, state, blocks, b, next, mempool);
        SnapshotKept(world, blocks, b, snapshot);
        TakenOk(world, next, blocks + [b]);
      }
      state := next;
      tables.Index(b, blocks);
      blocks := blocks + [b];
      DropPending(b);
      MaybeSnapshot(diskOk);
    }

    // -------------------------------------------------------------- pending transactions

    /** The time a transaction is checked at: the clock, but after the tip. */
    function CheckTime(clock: int): (t: int)
      reads this`blocks
      ensures clock <= t && PrevTime(world, blocks, |blocks|) < t
      ensures t == clock || t == PrevTime(world, blocks, |blocks|) + 1
    {
      Max(clock, Tip(world, blocks).time + 1)
    }

    method SetNow(now: int)
      requires Valid()
      modifies this`state
      ensures Valid() && state == world.rules.at(old(state), now)
    {
      MempoolNow(world, state, mempool, now);
      SameNow(world.rules, state, now);
      state := world.rules.at(state, now);
    }

    /** What the sender's pending transactions need besides this one, or None when one of them has its nonce. */
    method Need(tx: Tx) returns (need: Option<int>)
      ensures need == None <==> exists id ::
        id in mempool && mempool[id].tx.from == tx.from && mempool[id].tx.nonce == tx.nonce
      ensures need.Some? ==> need.value == Needed(world, state, mempool, tx, mempool.Keys)
    {
      hide Needed, Pledges;
      NeededStart(world, state, mempool, tx);
      var sum := world.rules.cost(state, tx) % TWO64;
      var todo := mempool.Keys;
      while todo != {}
        invariant todo <= mempool.Keys
        invariant forall id :: id in mempool && id !in todo && mempool[id].tx.from == tx.from ==>
          mempool[id].tx.nonce != tx.nonce
        invariant sum == Needed(world, state, mempool, tx, mempool.Keys - todo)
        decreases |todo|
      {
        var id :| id in todo;
        var p := mempool[id];
        NeededNext(world, state, mempool, tx, mempool.Keys - todo, id);
        assert mempool.Keys - (todo - {id}) == mempool.Keys - todo + {id};
        if p.tx.from == tx.from {
          if p.tx.nonce == tx.nonce {
            return None;
          }
          if p.tx.asset == tx.asset {
            sum := (sum + world.rules.cost(state, p.tx)) % TWO64;
          }
        }
        todo := todo - {id};
      }
      assert mempool.Keys - {} == mempool.Keys;
      need := Some(sum);
    }

    /** A transaction is added to the mempool exactly when it is admissible; nothing else ever changes but the time. */
    method Submit(tx: Tx, clock: int, added: int) returns (a: Answer)
      requires Valid()
      modifies this`state, this`mempool
      ensures Valid() && (state == old(state) || state == world.rules.at(old(state), CheckTime(clock)))
      ensures a == Accepted <==>
        Admissible(world, world.rules.at(old(state), CheckTime(clock)), old(mempool), tables.txIndex, tx)
      ensures Answers(world, world.rules.at(old(state), CheckTime(clock)), old(mempool), tables.txIndex, tx, a)
      ensures a == Accepted ==> forall l: Loc :: Within(blocks, l) ==> TxAt(blocks, l).id != tx.id
      ensures mempool == if a == Accepted then old(mempool)[tx.id := Pending(tx, added)] else old(mempool)
    {
      hide Replay, Agree, SnapshotOk, Signing, MempoolOk, Same;
      var rules := world.rules;
      assert rules.nonce(rules.at(state, CheckTime(clock)), tx.from) == rules.nonce(state, tx.from);
      assert forall l: Loc :: Within(blocks, l) ==> TxAt(blocks, l).id in tables.txIndex;
      hide Found, Needed, Uses;
      if !rules.good(tx) {
        return Malformed;
      }
      if tx.id in mempool || tx.id in tables.txIndex {
        return Duplicate;
      }
      if |mempool| >= MAX_MEMPOOL {
        return Full;
      }
      if tx.nonce >= rules.nonce(state, tx.from) + MAX_AHEAD {
        return TooFarAhead;
      }
      SetNow(CheckTime(clock));
      var checked := rules.apply(state, tx);
      if checked.Refused? && checked.error != NonceTooHigh {
        return Rejected(checked.error);
      }
      a := Admit(tx, added);
    }

    method Admit(tx: Tx, added: int) returns (a: Answer)
      requires Valid() && world.rules.good(tx) && tx.id !in mempool && tx.id !in tables.txIndex
        && |mempool| < MAX_MEMPOOL
      requires tx.nonce < world.rules.nonce(state, tx.from) + MAX_AHEAD
      requires world.rules.apply(state, tx).Next? || world.rules.apply(state, tx) == Refused(NonceTooHigh)
      modifies this`mempool
      ensures Valid()
      ensures a == Accepted <==> Admissible(world, state, old(mempool), tables.txIndex, tx)
      ensures Answers(world, state, old(mempool), tables.txIndex, tx, a)
      ensures mempool == if a == Accepted then old(mempool)[tx.id := Pending(tx, added)] else old(mempool)
    {
      var need := Need(tx);
      if need == None {
        return NonceTaken;
      }
      if !Claims(tx) && need.value > world.rules.balance(state, tx.from, tx.asset) {
        return Unfunded;
      }
      AdmittedOk(world, state, mempool, tables.txIndex, tx, added);
      mempool := mempool[tx.id := Pending(tx, added)];
      a := Accepted;
    }

    /** Checks a transaction for the shared mempool, without adding it. */
    method CheckPending(tx: Tx, clock: int) returns (a: Answer)
      requires Valid()
      modifies this`state
      ensures Valid() && (state == old(state) || state == world.rules.at(old(state), CheckTime(clock)))
      ensures a == Accepted <==>
        var s := world.rules.at(old(state), CheckTime(clock));
        && world.rules.good(tx) && tx.nonce < world.rules.nonce(s, tx.from) + 16
        && (world.rules.apply(s, tx).Next? || world.rules.apply(s, tx) == Refused(NonceTooHigh))
      ensures a == Malformed <==> !world.rules.good(tx)
      ensures a.Rejected? ==> world.rules.apply(world.rules.at(old(state), CheckTime(clock)), tx) == Refused(a.error)
      ensures a in {Malformed, TooFarAhead, Accepted} || a.Rejected?
    {
      hide Replay, Agree, Found, SnapshotOk, Signing, MempoolOk, Same;
      var rules := world.rules;
      assert rules.nonce(rules.at(state, CheckTime(clock)), tx.from) == rules.nonce(state, tx.from);
      if !rules.good(tx) {
        return Malformed;
      }
      if tx.nonce >= rules.nonce(state, tx.from) + MAX_AHEAD {
        return TooFarAhead;
      }
      SetNow(CheckTime(clock));
      var checked := rules.apply(state, tx);
      a := if checked.Refused? && checked.error != NonceTooHigh then Rejected(checked.error) else Accepted;
    }

    method Forget(id: Hash)
      requires Valid()
      modifies this`mempool
      ensures Valid() && mempool == old(mempool) - {id}
    {
      SmallerMap(mempool - {id}, mempool);
      mempool := mempool - {id};
    }

    /** The next nonce a sender should use: the least one, from the committed nonce on, that nothing pending has. */
    method NextNonce(a: Address) returns (n: int)
      requires Valid()
      ensures world.rules.nonce(state, a) <= n <= world.rules.nonce(state, a) + 16
      ensures !Uses(mempool, a, n)
      ensures forall k :: world.rules.nonce(state, a) <= k < n ==> Uses(mempool, a, k)
    {
      var start := world.rules.nonce(state, a);
      n := start;
      while true
        invariant start <= n <= start + MAX_AHEAD
        invariant forall k :: start <= k < n ==> Uses(mempool, a, k)
        decreases start + MAX_AHEAD - n
      {
        var found := PendingWith(a, n);
        if !found {
          return;
        }
        assert n < start + MAX_AHEAD;
        n := n + 1;
      }
    }

    method PendingWith(a: Address, n: int) returns (found: bool)
      ensures found <==> Uses(mempool, a, n)
    {
      var todo := mempool.Keys;
      while todo != {}
        invariant todo <= mempool.Keys
        invariant forall id :: id in mempool && id !in todo && mempool[id].tx.from == a ==> mempool[id].tx.nonce != n
        decreases |todo|
      {
        var id :| id in todo;
        if mempool[id].tx.from == a && mempool[id].tx.nonce == n {
          return true;
        }
        todo := todo - {id};
      }
      found := false;
    }

    // -------------------------------------------------------------- blocks

    /**
      A block from another node is taken exactly when it may stand after the blocks there are; under an authority that
      takes its signature and name.
     */
    method AddBlock(b: Block, diskOk: bool) returns (ok: bool)
      requires Valid()
      modifies this`state, this`blocks, this`mempool, this`snapshot, this`disk, tables
      ensures Valid() && (ok <==> Verify(world, old(state), old(blocks), b).Some?)
      ensures ok <==> exists next :: StandsNext(world, old(blocks), old(state), b, next)
      ensures ok ==> StandsNext(world, old(blocks), old(state), b, state)
      ensures ok && !world.bft ==> world.signed(b.header, b.sig) && b.header.proposer == world.proposer
      ensures ok ==> blocks == old(blocks) + [b] && mempool == Remaining(world, state, old(mempool), b)
      ensures !ok ==> blocks == old(blocks) && state == old(state) && mempool == old(mempool)
    {
      hide Verify, Replay, Agree, Found, SnapshotOk, MempoolOk;
      StandsExactly(world, blocks, state, b);
      var next := Verify(world, state, blocks, b);
      if next == None {
        return false;
      }
      disk := disk + [b];
      Commit(b, next.value, diskOk);
      ok := true;
    }

    /** Runs a decided block on a copy of the state; the chain itself does not change. */
    method ExecuteDecided(height: int, time: int, proposer: Address, txs: seq<Decided>)
        returns (b: Block, next: S, ok: seq<bool>)
      requires Valid()
      ensures b == DecidedBlock(world, state, blocks, height, time, proposer, txs)
      ensures next == DecidedState(world, state, blocks, time, txs)
      ensures ok == DecidedOk(world, state, blocks, time, txs)
      ensures world.bft && height == |blocks| + 1 ==>
        Verify(world, state, blocks, b) == Some(next) && DecidedAt(world, blocks, |blocks|, b, next)
    {
      hide Verify, Replay, Agree, Found, SnapshotOk, MempoolOk;
      var tip := Tip(world, blocks);
      var at := if time < tip.time then tip.time else time;
      var kept: seq<Tx>;
      kept, next, ok := ExecuteAll(world.rules.at(state, at), txs);
      var root := TxRoot(world.hashing, Ids(kept));
      b := Block(Header(world.chainId, height, tip.hash, at, root, world.rules.root(next), proposer), kept, 0);
      if world.bft && height == |blocks| + 1 {
        ReplayHeights(world, blocks);
        DecidedVerifies(world, state, blocks, height, time, proposer, txs);
        DecidedHere(world, state, blocks, time, proposer, txs);
      }
    }

    /** Decided transactions, one by one: what fails is skipped and reported by position. */
    method ExecuteAll(start: S, txs: seq<Decided>) returns (kept: seq<Tx>, next: S, ok: seq<bool>)
      ensures var x := Execute(world.rules, start, txs); kept == x.kept && next == x.state && ok == x.ok
    {
      kept, next, ok := [], start, [];
      var i := 0;
      while i < |txs|
        invariant 0 <= i <= |txs|
        invariant Execute(world.rules, start, txs[..i]) == Execution(kept, next, ok)
      {
        assert txs[..i + 1][..i] == txs[..i];
        var fits := false;
        if txs[i].Some? && |kept| != MAX_BLOCK_TXS && world.rules.good(txs[i].value) {
          var r := world.rules.apply(next, txs[i].value);
          if r.Next? {
            kept, next, fits := kept + [txs[i].value], r.state, true;
          }
        }
        ok := ok + [fits];
        i := i + 1;
      }
      assert txs[..i] == txs;
    }

    /**
      Commits what ExecuteDecided returned for the next height, provided no block was committed in between; a stale
      block has the wrong height and is refused.
     */
    method CommitDecided(b: Block, next: S, diskOk: bool, ghost k: nat) returns (ok: bool)
      requires Valid() && world.bft && DecidedAt(world, blocks, k, b, next)
      modifies this`state, this`blocks, this`mempool, this`snapshot, this`disk, tables
      ensures Valid() && (ok <==> k == |old(blocks)|)
      ensures ok ==> blocks == old(blocks) + [b] && state == next && world.rules.root(state) == b.header.stateRoot
      ensures !ok ==> blocks == old(blocks) && state == old(state)
    {
      hide Verify, Agree, Found, SnapshotOk, MempoolOk, Replay;
      DecidedHeight(world, blocks, k, b, next);
      if b.header.height != |blocks| + 1 {
        return false;
      }
      DecidedStands(world, state, blocks, b, next);
      disk := disk + [b];
      Commit(b, next, diskOk);
      ok := true;
    }

    // -------------------------------------------------------------- producing

    /** Drops what has waited too long and lists the rest in some order. */
    method Collect(wall: int) returns (pending: seq<Tx>)
      modifies this`mempool
      ensures mempool == Unexpired(old(mempool), wall)
      ensures forall id :: id in mempool ==> mempool[id].tx in pending
      ensures forall tx :: tx in pending ==> IsPending(mempool, tx)
    {
      ghost var was := mempool;
      var todo := mempool.Keys;
      pending := [];
      while todo != {}
        invariant todo <= was.Keys
        invariant mempool == map id | id in was && (id in todo || wall - was[id].added <= MEMPOOL_TTL) :: was[id]
        invariant forall id :: id in mempool && id !in todo ==> mempool[id].tx in pending
        invariant forall tx :: tx in pending ==> IsPending(Unexpired(was, wall), tx)
        decreases |todo|
      {
        var id :| id in todo;
        var p := mempool[id];
        todo := todo - {id};
        if wall - p.added > MEMPOOL_TTL {
          mempool := mempool - {id};
        } else {
          assert Unexpired(was, wall)[id].tx == p.tx;
          pending := pending + [p.tx];
        }
      }
    }

    /**
      Applies candidates in order, until the block is full: the same transactions are kept as by deterministic
      execution, and exactly those that can no longer succeed leave the mempool; one with a later nonce stays.
     */
    method Fill(order: seq<Tx>, now: int) returns (txs: seq<Tx>, next: S)
      requires forall tx :: tx in order ==> world.rules.good(tx)
      modifies this`mempool
      ensures var x := Tried(world.rules, world.rules.at(state, now), order, |order|); txs == x.kept && next == x.state
      ensures Shrunk(old(mempool), mempool)
      ensures forall id :: id in mempool <==>
        id in old(mempool) && !HopelessId(world.rules, world.rules.at(state, now), order, |order|, id)
    {
      hide Tried, Hopeless, HopelessId;
      ghost var was := mempool;
      var start := world.rules.at(state, now);
      txs, next := [], start;
      var i := 0;
      FillStart(world.rules, start, order);
      while i < |order| && |txs| != MAX_BLOCK_TXS
        invariant 0 <= i <= |order| && Shrunk(was, mempool)
        invariant var x := Tried(world.rules, start, order, i); txs == x.kept && next == x.state
        invariant forall id :: id in mempool <==> id in was && !HopelessId(world.rules, start, order, i, id)
      {
        ghost var before := mempool;
        match world.rules.apply(next, order[i]) {
          case Next(t) =>
            txs, next := txs + [order[i]], t;
          case Refused(e) =>
            if e != NonceTooHigh {
              mempool := mempool - {order[i].id};
            }
        }
        FillNext(world.rules, start, order, i, before, mempool);
        i := i + 1;
      }
      FillEnd(world.rules, start, order, i);
    }

    /**
      Builds, seals and commits the next block from the mempool. It holds what deterministic execution keeps of the
      unexpired pending transactions, by sender and nonce; whatever is pending, the sealed block is never refused when
      the authority's own key is used or consensus does not ask for it.
     */
    method Produce(key: nat, nowMs: int, wall: int, diskOk: bool) returns (r: Produced, ghost order: seq<Tx>)
      requires Valid()
      modifies this`state, this`blocks, this`mempool, this`snapshot, this`disk, tables
      ensures Valid() && (r.Made? ==> blocks == old(blocks) + [r.block])
        && (!r.Made? ==> blocks == old(blocks) && state == old(state))
      ensures r.Invalid? ==> !world.bft && world.addressOf(key) != world.proposer
      ensures r.Made? ==>
        && (world.bft || world.addressOf(key) == world.proposer)
        && 0 < |r.block.txs| <= 1000 && r.block.header.time == BlockTime(world, old(blocks), nowMs)
        && r.block.txs ==
          Tried(world.rules, world.rules.at(old(state), BlockTime(world, old(blocks), nowMs)), order, |order|).kept
      ensures r.Nothing? <==>
        Tried(world.rules, world.rules.at(old(state), BlockTime(world, old(blocks), nowMs)), order, |order|).kept == []
      ensures Sorted(order) && forall tx :: tx in order <==> Waiting(old(mempool), wall, tx)
      ensures r.Made? ==>
        r.block.header.proposer == world.addressOf(key) && r.block.sig == world.sign(key, r.block.header)
      ensures var start := world.rules.at(old(state), BlockTime(world, old(blocks), nowMs));
        if r.Made? then LeftAfter(world, start, order, old(mempool), wall, r.block, state, mempool)
        else LeftBy(world.rules, start, order, old(mempool), wall, mempool)
    {
      hide Verify, Replay, Agree, Found, SnapshotOk, MempoolOk, Run, Signing, Tried, Remaining, Sorted, BlockTime,
        LeftBy, LeftAfter, Waiting;
      ghost var was := mempool;
      var now, txs, next;
      now, txs, next, order := Candidates(nowMs, wall);
      r := Nothing;
      if txs == [] {
        return;
      }
      var b := Seal(key, now, txs, next);
      var checked := Verify(world, state, blocks, b);
      if checked == None {
        r := Invalid;
        return;
      }
      LeftRemains(world, world.rules.at(state, now), order, was, wall, b, next, mempool);
      disk := disk + [b];
      Commit(b, next, diskOk);
      r := Made(b);
    }

    method Candidates(nowMs: int, wall: int) returns (now: int, txs: seq<Tx>, next: S, ghost order: seq<Tx>)
      requires Valid()
      modifies this`mempool
      ensures Valid() && now == BlockTime(world, blocks, nowMs)
      ensures var x := Tried(world.rules, world.rules.at(state, now), order, |order|); txs == x.kept && next == x.state
      ensures Run(world.rules, world.rules.at(state, now), txs) == Some(next) && |txs| <= MAX_BLOCK_TXS
      ensures Sorted(order) && forall tx :: tx in order <==> Waiting(old(mempool), wall, tx)
      ensures LeftBy(world.rules, world.rules.at(state, now), order, old(mempool), wall, mempool)
    {
      hide Verify, Replay, Agree, Found, SnapshotOk, MempoolOk, Run, Tried, HopelessId, Waiting, LeftBy, Unexpired;
      ghost var was := mempool;
      var sorted := Gather(wall);
      var tip := Tip(world, blocks);
      now := if nowMs <= tip.time then tip.time + 1 else nowMs;
      ghost var kept := mempool;
      txs, next := Fill(sorted, now);
      order := sorted;
      ShrunkOk(world, state, kept, mempool);
      FilledLeaves(world.rules, world.rules.at(state, now), order, was, wall, mempool);
      TriedRuns(world.rules, world.rules.at(state, now), order);
    }

    /** Drops what has waited too long and lists the rest by sender and nonce. */
    method Gather(wall: int) returns (sorted: seq<Tx>)
      requires Valid()
      modifies this`mempool
      ensures Valid() && mempool == Unexpired(old(mempool), wall)
      ensures forall tx :: tx in sorted ==> world.rules.good(tx)
      ensures Sorted(sorted) && forall tx :: tx in sorted <==> Waiting(old(mempool), wall, tx)
    {
      hide Verify, Replay, Agree, Found, SnapshotOk, MempoolOk, IsPending, Waiting;
      ghost var was := mempool;
      WaitingExactly(was, wall);
      var pending := Collect(wall);
      ShrunkOk(world, state, was, mempool);
      PendingAll(mempool, pending);
      sorted := Sort(pending);
      SortedSame(sorted, pending);
      PendingGood(world, state, mempool, sorted);
    }

    method Seal(key: nat, now: int, txs: seq<Tx>, next: S) returns (b: Block)
      requires Valid() && Tip(world, blocks).time < now && 0 < |txs| <= MAX_BLOCK_TXS
      requires Run(world.rules, world.rules.at(state, now), txs) == Some(next)
      ensures b.txs == txs && b.header.time == now
      ensures b.header.proposer == world.addressOf(key) && b.sig == world.sign(key, b.header)
      ensures Verify(world, state, blocks, b) == if world.bft || world.addressOf(key) == world.proposer
        then Some(next) else None
    {
      hide Verify, Replay, Agree, Found, SnapshotOk, MempoolOk, Run, Lawful, Signing, Same;
      var tip := Tip(world, blocks);
      var root := TxRoot(world.hashing, Ids(txs));
      var h := Header(world.chainId, tip.height + 1, tip.hash, now, root, world.rules.root(next), world.addressOf(key));
      b := Block(h, txs, world.sign(key, h));
      SealedVerifies(world, state, blocks, now, txs, next, key);
    }

    // -------------------------------------------------------------- lookups

    /** A committed transaction by its id, or a pending one, or nothing. */
    method Lookup(id: Hash) returns (tx: Option<Tx>, loc: Option<Loc>)
      requires Valid()
      ensures loc.Some? <==> exists l: Loc :: Within(blocks, l) && TxAt(blocks, l).id == id
      ensures loc.Some? ==> Within(blocks, loc.value) && tx == Some(TxAt(blocks, loc.value)) && tx.value.id == id
      ensures loc == None ==> tx == if id in mempool then Some(mempool[id].tx) else None
    {
      hide Replay, Agree, SnapshotOk, MempoolOk;
      if id in tables.txIndex {
        var l := tables.txIndex[id];
        return Some(blocks[l.height - 1].txs[l.index]), Some(l);
      }
      loc := None;
      tx := if id in mempool then Some(mempool[id].tx) else None;
    }

    /** An address's committed transactions, newest first: the reverse of the last hits of a scan of all blocks. */
    method History(a: Address, limit: int) returns (out: seq<Tx>)
      requires Valid()
      ensures |out| == Max(0, Min(limit, |Hits(blocks, a)|))
      ensures forall j :: 0 <= j < |out| ==>
        var l := Hits(blocks, a)[|Hits(blocks, a)| - 1 - j]; Within(blocks, l) && out[j] == TxAt(blocks, l)
    {
      hide Hits, SnapshotOk, MempoolOk, Replay, Found;
      ReplayHeights(world, blocks);
      var locs := Listed(tables.byAddr, a);
      forall i | 0 <= i < |locs| ensures Within(blocks, locs[i]) {
        HitsExact(blocks, a, locs[i]);
      }
      out := Newest(locs, limit);
    }

    method Newest(locs: seq<Loc>, limit: int) returns (out: seq<Tx>)
      requires forall i :: 0 <= i < |locs| ==> Within(blocks, locs[i])
      ensures |out| == Max(0, Min(limit, |locs|))
      ensures forall j :: 0 <= j < |out| ==> out[j] == TxAt(blocks, locs[|locs| - 1 - j])
    {
      out := [];
      var i := |locs| - 1;
      while i >= 0 && |out| < limit
        invariant -1 <= i < |locs| && |out| == |locs| - 1 - i && |out| <= Max(0, limit)
        invariant forall j :: 0 <= j < |out| ==> out[j] == TxAt(blocks, locs[|locs| - 1 - j])
      {
        out := out + [blocks[locs[i].height - 1].txs[locs[i].index]];
        i := i - 1;
      }
    }
  }

  lemma CommitFacts<S(!new)>(w: World<S>, s: S, blocks: seq<Block>, b: Block, next: S, m: Mempool)
    requires Lawful(w.rules) && Replay(w, blocks).Some? && Same(w.rules, s, Replay(w, blocks).value)
    requires Verify(w, s, blocks, b) == Some(next) && MempoolOk(w, s, m)
    ensures Replay(w, blocks + [b]) == Some(next) && b.header.height == |blocks| + 1
    ensures MempoolOk(w, next, Remaining(w, next, m, b)) && |Remaining(w, next, m, b)| <= |m|
  {
    ReplayNext(w, s, blocks, b, next);
    ReplayHeights(w, blocks);
    var at := w.rules.at(s, b.header.time);
    forall a ensures w.rules.nonce(s, a) <= w.rules.nonce(next, a) {
      RunNonces(w.rules, at, b.txs, a);
      assert w.rules.nonce(at, a) == w.rules.nonce(s, a);
    }
    RemainingOk(w, s, next, m, b);
    SmallerMap(Remaining(w, next, m, b), m);
  }

  /** At its own height a snapshot this node wrote is the state and the snapshot of the recorded blocks. */
  lemma SnapshotHere<S(!new)>(w: World<S>, stored: seq<Block>, x: Snapshot<S>)
    requires SnapshotOk(w, stored, Some(x))
    ensures var blocks := stored[..x.height];
      && Replay(w, blocks).Some? && Same(w.rules, x.state, Replay(w, blocks).value)
      && SnapshotOk(w, blocks, Some(x)) && MempoolOk(w, x.state, map[])
  {
    assert stored[..x.height][..x.height] == stored[..x.height];
  }

  /** A decision on the tip, phrased on the replayed state. */
  lemma DecidedHere<S(!new)>(w: World<S>, s: S, blocks: seq<Block>, time: int, proposer: Address, txs: seq<Decided>)
    requires Lawful(w.rules) && Replay(w, blocks).Some? && Same(w.rules, s, Replay(w, blocks).value)
    ensures DecidedAt(w, blocks, |blocks|, DecidedBlock(w, s, blocks, |blocks| + 1, time, proposer, txs),
      DecidedState(w, s, blocks, time, txs))
  {
    hide Replay, Execute;
    var r := Replay(w, blocks).value;
    assert blocks[..|blocks|] == blocks;
    SameAt(w.rules, s, r, if time < Tip(w, blocks).time then Tip(w, blocks).time else time);
    assert DecidedWith(w, r, blocks, DecidedBlock(w, s, blocks, |blocks| + 1, time, proposer, txs),
      DecidedState(w, s, blocks, time, txs), time, proposer, txs);
  }

  lemma DecidedHeight<S(!new)>(w: World<S>, blocks: seq<Block>, k: nat, b: Block, next: S)
    requires DecidedAt(w, blocks, k, b, next)
    ensures b.header.height == k + 1
  {
    hide Replay, Execute;
  }

  /** A block decided on the present tip verifies on the present state and leads to the state decided with it. */
  lemma DecidedStands<S(!new)>(w: World<S>, s: S, blocks: seq<Block>, b: Block, next: S)
    requires Lawful(w.rules) && w.bft && Replay(w, blocks).Some? && Same(w.rules, s, Replay(w, blocks).value)
    requires DecidedAt(w, blocks, |blocks|, b, next)
    ensures Verify(w, s, blocks, b) == Some(next) && w.rules.root(next) == b.header.stateRoot
  {
    hide Execute;
    assert blocks[..|blocks|] == blocks;
    var r := Replay(w, blocks).value;
    ReplayHeights(w, blocks);
    var time, proposer, txs :| DecidedWith(w, r, blocks, b, next, time, proposer, txs);
    DecidedVerifies(w, r, blocks, |blocks| + 1, time, proposer, txs);
    VerifySame(w, s, r, blocks, b);
  }
}
