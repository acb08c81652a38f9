/**
  Blocks over any ledger: what a block must satisfy, what executing it yields, and the replay of a block list from
  genesis. The ledger is a record of functions; ChainLedger shows that the ledger of this project obeys the laws used
  here.
 */
module ChainRules {
  import opened Core
  import opened Merkle
  import opened Ledger

  datatype Applied<S> = Refused(error: Error) | Next(state: S)

  /**
    A ledger as the chain sees it. at sets the time rules are evaluated at; good is the stateless check with the
    signature.
   */
  datatype Rules<!S> = Rules(
    good: Tx -> bool, at: (S, int) -> S, apply: (S, Tx) -> Applied<S>, root: S -> Hash,
    nonce: (S, Address) -> int, cost: (S, Tx) -> int, balance: (S, Address, Asset) -> int)

  /**
    What the chain relies on: the time is only an input, the root ignores it, and an applied transaction uses its
    sender's next nonce.
   */
  ghost predicate Lawful<S(!new)>(r: Rules<S>) {
    && (forall s, a, b :: r.at(r.at(s, a), b) == r.at(s, b))
    && (forall s, t :: r.root(r.at(s, t)) == r.root(s))
    && (forall s, t, a :: r.nonce(r.at(s, t), a) == r.nonce(s, a))
    && (forall s, tx: Tx :: r.apply(s, tx).Next? ==> r.nonce(s, tx.from) == tx.nonce)
    && (forall s, tx: Tx, a :: r.apply(s, tx).Next? ==>
          r.nonce(r.apply(s, tx).state, a) == r.nonce(s, a) + if a == tx.from then 1 else 0)
    && (forall s, tx: Tx :: tx.nonce < r.nonce(s, tx.from) ==> r.apply(s, tx) != Refused(NonceTooHigh))
  }

  datatype Header = Header(
    chainId: string, height: int, prevHash: Hash, time: int, txRoot: Hash, stateRoot: Hash, proposer: Address)

  datatype Block = Block(header: Header, txs: seq<Tx>, sig: nat)

  /** A genesis document with the primitives a node uses; keys and signatures are numbers. */
  datatype World<!S> = World(
    rules: Rules<S>, start: S, chainId: string, time: int, hash: Hash, bft: bool, proposer: Address,
    hashing: Hashing, headerHash: Header -> Hash, signed: (Header, nat) -> bool, sign: (nat, Header) -> nat,
      addressOf: nat -> Address)

  /** A signature made with the key of a header's proposer verifies. */
  ghost predicate Signing<S(!new)>(w: World<S>) {
    forall k, h: Header :: w.addressOf(k) == h.proposer ==> w.signed(h, w.sign(k, h))
  }

  const MAX_BLOCK_TXS: int := 1000

  datatype TipInfo = TipInfo(height: int, hash: Hash, time: int)

  function Tip<S>(w: World<S>, blocks: seq<Block>): TipInfo {
    if blocks == [] then TipInfo(0, w.hash, w.time)
    else
      var h := blocks[|blocks| - 1].header;
      TipInfo(h.height, w.headerHash(h), h.time)
  }

  function Ids(txs: seq<Tx>): seq<Hash> { seq<Hash>(|txs|, j requires 0 <= j < |txs| => txs[j].id) }

  function RootOf<S>(w: World<S>, txs: seq<Tx>): Hash { TxRootOf(w.hashing, Ids(txs)) }

  /** Executing transactions in order: None at the first that is not accepted. */
  function Run<S>(r: Rules<S>, s: S, txs: seq<Tx>): Option<S> {
    if txs == [] then Some(s)
    else
      match Run(r, s, txs[..|txs| - 1])
      case None => None
      case Some(m) =>
        var tx := txs[|txs| - 1];
        if !r.good(tx) then None
        else
          match r.apply(m, tx)
          case Refused(_) => None
          case Next(t) => Some(t)
  }

  /** Everything about a block that does not need the state. */
  predicate HeaderOk<S>(w: World<S>, blocks: seq<Block>, b: Block) {
    var h, tip := b.header, Tip(w, blocks);
    && h.chainId == w.chainId && h.height == tip.height + 1 && h.prevHash == tip.hash
    && tip.time <= h.time && (!w.bft ==> tip.time < h.time)
    && (!w.bft ==> h.proposer == w.proposer)
    && |b.txs| <= MAX_BLOCK_TXS && (!w.bft ==> 0 < |b.txs|)
    && h.txRoot == RootOf(w, b.txs)
    && (!w.bft ==> w.signed(h, b.sig))
  }

  /** The state a block leads to, if it may follow these blocks on this state. */
  function Verify<S>(w: World<S>, s: S, blocks: seq<Block>, b: Block): Option<S> {
    if !HeaderOk(w, blocks, b) then None
    else
      match Run(w.rules, w.rules.at(s, b.header.time), b.txs)
      case None => None
      case Some(t) => if w.rules.root(t) == b.header.stateRoot then Some(t) else None
  }

  /** The state after a block list, every block verified from genesis on. */
  function Replay<S>(w: World<S>, blocks: seq<Block>): Option<S> {
    if blocks == [] then Some(w.start)
    else
      var before := blocks[..|blocks| - 1];
      match Replay(w, before)
      case None => None
      case Some(s) => Verify(w, s, before, blocks[|blocks| - 1])
  }

  /** Equal but for the time they are evaluated at. */
  ghost predicate Same<S>(r: Rules<S>, a: S, b: S) { r.at(a, 0) == r.at(b, 0) }

  lemma SameAt<S(!new)>(r: Rules<S>, a: S, b: S, t: int)
    requires Lawful(r) && Same(r, a, b)
    ensures r.at(a, t) == r.at(b, t) && r.root(a) == r.root(b)
    ensures forall x :: r.nonce(a, x) == r.nonce(b, x)
  {
    assert r.at(r.at(a, 0), t) == r.at(a, t) && r.at(r.at(b, 0), t) == r.at(b, t);
    assert r.root(r.at(a, 0)) == r.root(a) && r.root(r.at(b, 0)) == r.root(b);
    forall x ensures r.nonce(a, x) == r.nonce(b, x) {
      assert r.nonce(r.at(a, 0), x) == r.nonce(a, x) && r.nonce(r.at(b, 0), x) == r.nonce(b, x);
    }
  }

  lemma SameNow<S(!new)>(r: Rules<S>, s: S, t: int)
    requires Lawful(r)
    ensures Same(r, r.at(s, t), s)
  {}

  /** The time a state was last evaluated at plays no part in verifying the next block. */
  lemma VerifySame<S(!new)>(w: World<S>, a: S, b: S, blocks: seq<Block>, x: Block)
    requires Lawful(w.rules) && Same(w.rules, a, b)
    ensures Verify(w, a, blocks, x) == Verify(w, b, blocks, x)
  {
    SameAt(w.rules, a, b, x.header.time);
  }

  /** Replay of one more block, from any state equal to the replay but for its time. */
  lemma ReplayNext<S(!new)>(w: World<S>, s: S, blocks: seq<Block>, b: Block, next: S)
    requires Lawful(w.rules) && Replay(w, blocks).Some? && Same(w.rules, s, Replay(w, blocks).value)
    requires Verify(w, s, blocks, b) == Some(next)
    ensures Replay(w, blocks + [b]) == Some(next)
  {
    VerifySame(w, s, Replay(w, blocks).value, blocks, b);
    assert (blocks + [b])[..|blocks|] == blocks;
  }

  lemma ReplayLast<S>(w: World<S>, blocks: seq<Block>)
    requires Replay(w, blocks).Some? && blocks != []
    ensures Replay(w, blocks[..|blocks| - 1]).Some? && HeaderOk(w, blocks[..|blocks| - 1], blocks[|blocks| - 1])
  {
    hide Run, HeaderOk;
  }

  lemma {:induction false} ReplayHeights<S>(w: World<S>, blocks: seq<Block>)
    requires Replay(w, blocks).Some?
    ensures Tip(w, blocks).height == |blocks|
    ensures forall i :: 0 <= i < |blocks| ==> blocks[i].header.height == i + 1
  {
    hide Replay, RootOf;
    if blocks != [] {
      var before := blocks[..|blocks| - 1];
      ReplayLast(w, blocks);
      ReplayHeights(w, before);
      assert forall i :: 0 <= i < |before| ==> blocks[i] == before[i];
    }
  }

  /** Every prefix of a list that replays replays too. */
  lemma {:induction false} ReplayPrefix<S>(w: World<S>, blocks: seq<Block>, k: nat)
    requires Replay(w, blocks).Some? && k <= |blocks|
    ensures Replay(w, blocks[..k]).Some?
    ensures k < |blocks| ==>
      Verify(w, Replay(w, blocks[..k]).value, blocks[..k], blocks[k]) == Replay(w, blocks[..k + 1])
  {
    if k == |blocks| {
      assert blocks[..k] == blocks;
    } else {
      ReplayPrefix(w, blocks[..|blocks| - 1], k);
      assert blocks[..|blocks| - 1][..k] == blocks[..k];
      if k == |blocks| - 1 {
        assert blocks[..k + 1] == blocks;
      } else {
        assert blocks[..|blocks| - 1][..k + 1] == blocks[..k + 1];
      }
    }
  }

  /** Nonces only grow, and by exactly the transactions an address sent. */
  lemma {:induction false} RunNonces<S(!new)>(r: Rules<S>, s: S, txs: seq<Tx>, a: Address)
    requires Lawful(r) && Run(r, s, txs).Some?
    ensures r.nonce(Run(r, s, txs).value, a) >= r.nonce(s, a)
    ensures forall j :: 0 <= j < |txs| && txs[j].from == a ==>
      r.nonce(s, a) <= txs[j].nonce < r.nonce(Run(r, s, txs).value, a)
  {
    if txs != [] {
      RunNonces(r, s, txs[..|txs| - 1], a);
    }
  }

  lemma RunSnoc<S>(r: Rules<S>, s: S, txs: seq<Tx>, tx: Tx)
    requires Run(r, s, txs).Some? && r.good(tx) && r.apply(Run(r, s, txs).value, tx).Next?
    ensures Run(r, s, txs + [tx]) == Some(r.apply(Run(r, s, txs).value, tx).state)
  {
    assert (txs + [tx])[..|txs|] == txs;
  }

  // ---------------------------------------------------------------- blocks decided by consensus

  /** A transaction as decided: None when its bytes did not parse. */
  type Decided = Option<Tx>

  datatype Execution<S> = Execution(kept: seq<Tx>, state: S, ok: seq<bool>)

  /** Deterministic execution: what does not parse, check, apply or fit is skipped. */
  function Execute<S>(r: Rules<S>, s: S, txs: seq<Decided>): (x: Execution<S>)
    ensures |x.ok| == |txs| && |x.kept| <= MAX_BLOCK_TXS
  {
    if txs == [] then Execution([], s, [])
    else
      var before := Execute(r, s, txs[..|txs| - 1]);
      var tx := txs[|txs| - 1];
      if tx == None || |before.kept| == MAX_BLOCK_TXS || !r.good(tx.value) then before.(ok := before.ok + [false])
      else
        match r.apply(before.state, tx.value)
        case Refused(_) => before.(ok := before.ok + [false])
        case Next(t) => Execution(before.kept + [tx.value], t, before.ok + [true])
  }

  /**
    A refused transaction changes nothing, so executing with skips is the same as running only the kept transactions.
   */
  lemma {:induction false} KeptAlone<S>(r: Rules<S>, s: S, txs: seq<Decided>)
    ensures Run(r, s, Execute(r, s, txs).kept) == Some(Execute(r, s, txs).state)
  {
    if txs != [] {
      KeptAlone(r, s, txs[..|txs| - 1]);
      var before := Execute(r, s, txs[..|txs| - 1]);
      var tx := txs[|txs| - 1];
      if tx.Some? && r.good(tx.value) && r.apply(before.state, tx.value).Next? {
        RunSnoc(r, s, before.kept, tx.value);
      }
    }
  }

  /** Well-formed candidates, as execution takes them. */
  function Offered(txs: seq<Tx>): (ds: seq<Decided>)
    ensures |ds| == |txs| && forall j :: 0 <= j < |ds| ==> ds[j] == Some(txs[j])
  {
    seq(|txs|, j requires 0 <= j < |txs| => Some(txs[j]))
  }

  /** What execution has kept and reached after the first k candidates. */
  function Tried<S>(r: Rules<S>, s: S, txs: seq<Tx>, k: nat): (x: Execution<S>)
    requires k <= |txs|
    ensures |x.kept| <= MAX_BLOCK_TXS
  {
    Execute(r, s, Offered(txs[..k]))
  }

  lemma TriedNext<S>(r: Rules<S>, s: S, txs: seq<Tx>, k: nat)
    requires k < |txs| && r.good(txs[k])
    ensures var was, x := Tried(r, s, txs, k), Tried(r, s, txs, k + 1); var a := r.apply(was.state, txs[k]);
      if |was.kept| == MAX_BLOCK_TXS || a.Refused? then x.kept == was.kept && x.state == was.state
      else x.kept == was.kept + [txs[k]] && x.state == a.state
  {
    assert Offered(txs[..k + 1])[..k] == Offered(txs[..k]);
  }

  /** Once the block is full nothing more is kept. */
  lemma {:induction false} TriedFull<S>(r: Rules<S>, s: S, txs: seq<Tx>, k: nat, m: nat)
    requires k <= m <= |txs| && |Tried(r, s, txs, k).kept| == MAX_BLOCK_TXS && forall tx :: tx in txs ==> r.good(tx)
    ensures Tried(r, s, txs, m).kept == Tried(r, s, txs, k).kept && Tried(r, s, txs, m).state
      == Tried(r, s, txs, k).state
  {
    hide Tried;
    if k < m {
      TriedFull(r, s, txs, k, m - 1);
      TriedNext(r, s, txs, m - 1);
    }
  }

  /**
    The candidate at position k was tried and can no longer succeed: it was refused, and not for lack of an earlier
    nonce.
   */
  ghost predicate Hopeless<S>(r: Rules<S>, s: S, txs: seq<Tx>, k: nat)
    requires k <= |txs|
  {
    && k < |txs| && |Tried(r, s, txs, k).kept| < MAX_BLOCK_TXS
    && var a := r.apply(Tried(r, s, txs, k).state, txs[k]); a.Refused? && a.error != NonceTooHigh
  }

  /** Some candidate among the first k with this id can no longer succeed. */
  ghost predicate HopelessId<S>(r: Rules<S>, s: S, txs: seq<Tx>, k: nat, id: Hash)
    requires k <= |txs|
  {
    exists j :: 0 <= j < k && txs[j].id == id && Hopeless(r, s, txs, j)
  }

  lemma HopelessNext<S>(r: Rules<S>, s: S, txs: seq<Tx>, k: nat, id: Hash)
    requires k < |txs|
    ensures HopelessId(r, s, txs, k + 1, id) <==>
      HopelessId(r, s, txs, k, id) || (txs[k].id == id && Hopeless(r, s, txs, k))
  {
    hide Hopeless;
  }

  /** Beyond a full block no candidate is tried. */
  lemma HopelessFull<S>(r: Rules<S>, s: S, txs: seq<Tx>, k: nat, id: Hash)
    requires k <= |txs| && (k == |txs| || |Tried(r, s, txs, k).kept| == MAX_BLOCK_TXS) && forall tx :: tx in txs ==>
      r.good(tx)
    ensures HopelessId(r, s, txs, |txs|, id) <==> HopelessId(r, s, txs, k, id)
  {
    hide Tried;
    forall j: nat | k <= j < |txs| ensures !Hopeless(r, s, txs, j) {
      TriedFull(r, s, txs, k, j);
    }
  }

  /** The block consensus decided at a height and time, on this tip and state. */
  function DecidedBlock<S>(w: World<S>, s: S, blocks: seq<Block>, height: int, time: int, proposer: Address,
      txs: seq<Decided>): Block
  {
    var tip := Tip(w, blocks);
    var at := if time < tip.time then tip.time else time;
    var x := Execute(w.rules, w.rules.at(s, at), txs);
    Block(Header(w.chainId, height, tip.hash, at, RootOf(w, x.kept), w.rules.root(x.state), proposer), x.kept, 0)
  }

  function DecidedState<S>(w: World<S>, s: S, blocks: seq<Block>, time: int, txs: seq<Decided>): S {
    var tip := Tip(w, blocks);
    Execute(w.rules, w.rules.at(s, if time < tip.time then tip.time else time), txs).state
  }

  /** Which decided transactions were kept, by position. */
  function DecidedOk<S>(w: World<S>, s: S, blocks: seq<Block>, time: int, txs: seq<Decided>): (ok: seq<bool>)
    ensures |ok| == |txs|
  {
    var tip := Tip(w, blocks);
    Execute(w.rules, w.rules.at(s, if time < tip.time then tip.time else time), txs).ok
  }

  /** Every decided block for the next height passes verification on the same state, so a restart accepts it. */
  lemma DecidedVerifies<S(!new)>(w: World<S>, s: S, blocks: seq<Block>, height: int, time: int, proposer: Address,
      txs: seq<Decided>)
    requires w.bft && height == Tip(w, blocks).height + 1
    ensures Verify(w, s, blocks, DecidedBlock(w, s, blocks, height, time, proposer, txs))
      == Some(DecidedState(w, s, blocks, time, txs))
  {
    var tip := Tip(w, blocks);
    KeptAlone(w.rules, w.rules.at(s, if time < tip.time then tip.time else time), txs);
  }

  // ---------------------------------------------------------------- blocks produced by the authority

  /** A block over transactions that ran, sealed with a key. */
  function Sealed<S>(w: World<S>, blocks: seq<Block>, time: int, txs: seq<Tx>, next: S, key: nat): Block {
    var tip := Tip(w, blocks);
    var h := Header(w.chainId, tip.height + 1, tip.hash, time, RootOf(w, txs), w.rules.root(next), w.addressOf(key));
    Block(h, txs, w.sign(key, h))
  }

  /** A produced block is valid exactly when consensus does not ask for the authority, or its key was used. */
  lemma SealedVerifies<S(!new)>(w: World<S>, s: S, blocks: seq<Block>, time: int, txs: seq<Tx>, next: S, key: nat)
    requires Signing(w) && Tip(w, blocks).time < time && 0 < |txs| <= MAX_BLOCK_TXS
      && Run(w.rules, w.rules.at(s, time), txs) == Some(next)
    ensures Verify(w, s, blocks, Sealed(w, blocks, time, txs, next, key)) ==
      if w.bft || w.addressOf(key) == w.proposer then Some(next) else None
  {}
}
