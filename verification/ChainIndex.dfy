/**
  The lookup tables over committed blocks, against a plain scan of all blocks.
 */
module ChainIndex {
  import opened Core
  import opened Sequences
  import opened Circles
  import opened Ledger
  import opened ChainRules

  /** Where a committed transaction is: block height, counted from 1, and position in the block. */
  datatype Loc = Loc(height: int, index: int)

  // ---------------------------------------------------------------- what a transaction touches

  function Receivers(tx: Tx): seq<Address> {
    match tx.body
    case Transfer(to, _) => [to]
    case Mint(to, _) => [to]
    case _ => []
  }

  function Parties(tx: Tx): seq<Address> {
    if tx.body.OpenEscrow? then [tx.body.agreed.seller, tx.body.agreed.arbiter] else []
  }

  function Recovering(tx: Tx): seq<Address> {
    match tx.body
    case Guard(op) =>
      if op.SetGuards? then []
      else (if op.account != tx.from then [op.account] else []) + (if op.StartRecovery?
        || op.Approve? then [op.newOwner] else [])
    case _ => []
  }

  /** The addresses a transaction is listed under, each as often as it is listed. */
  function Touched(tx: Tx): seq<Address> { [tx.from] + Receivers(tx) + Parties(tx) + Recovering(tx) }

  function Occurrences(s: seq<Address>, a: Address): nat {
    if s == [] then 0 else Occurrences(s[..|s| - 1], a) + if s[|s| - 1] == a then 1 else 0
  }

  datatype Kind = PoolKind | EscrowKind

  /** The circle or escrow a transaction belongs to. */
  function Subject(kind: Kind, tx: Tx): Option<Hash> {
    match tx.body
    case OpenCircle(_, _) => if kind == PoolKind then Some(tx.id) else None
    case CircleStep(pool, _) => if kind == PoolKind then Some(pool) else None
    case OpenEscrow(_) => if kind == EscrowKind then Some(tx.id) else None
    case EscrowAct(id, _) => if kind == EscrowKind then Some(id) else None
    case _ => None
  }

  /**
    Whom a transaction concerns: its sender; who receives a transfer or a mint; the seller and the arbiter named when an
    escrow is opened; and the account and, while one is being agreed on, the new key of a recovery.
   */
  predicate Concerns(tx: Tx, a: Address) {
    || a == tx.from
    || (tx.body.Transfer? && a == tx.body.to)
    || (tx.body.Mint? && a == tx.body.to)
    || (tx.body.OpenEscrow? && a in {tx.body.agreed.seller, tx.body.agreed.arbiter})
    || (tx.body.Guard? && !tx.body.op.SetGuards? && a == tx.body.op.account)
    || (tx.body.Guard? && (tx.body.op.StartRecovery? || tx.body.op.Approve?) && a == tx.body.op.newOwner)
  }

  /** A transaction is listed under exactly the addresses it concerns. */
  lemma TouchedExactly(tx: Tx, a: Address)
    ensures a in Touched(tx) <==> Concerns(tx, a)
  {}

  /** It is listed once under each: the keys a well-formed transaction names beside its sender are different ones. */
  lemma ListedOnce(tx: Tx, a: Address)
    requires GoodTx(tx) && (tx.body.Mint? ==> tx.body.to != tx.from)
    requires tx.body.Guard? && (tx.body.op.StartRecovery? || tx.body.op.Approve?) ==> tx.body.op.newOwner != tx.from
    ensures Occurrences(Touched(tx), a) == if Concerns(tx, a) then 1 else 0
  {
    hide Touched, GoodTx;
    TouchedExactly(tx, a);
    TouchedDistinct(tx);
    DistinctOnce(Touched(tx), a);
  }

  lemma TouchedDistinct(tx: Tx)
    requires GoodTx(tx) && (tx.body.Mint? ==> tx.body.to != tx.from)
    requires tx.body.Guard? && (tx.body.op.StartRecovery? || tx.body.op.Approve?) ==> tx.body.op.newOwner != tx.from
    ensures Distinct(Touched(tx))
  {
    hide GoodTerms;
  }

  lemma {:induction false} DistinctOnce(s: seq<Address>, a: Address)
    requires Distinct(s)
    ensures Occurrences(s, a) == if a in s then 1 else 0
  {
    if s != [] {
      var before := s[..|s| - 1];
      DistinctOnce(before, a);
      assert s == before + [s[|s| - 1]];
    }
  }

  /** A transaction belongs to the circle or escrow it opens or acts on, and to no other. */
  lemma SubjectExactly(tx: Tx, id: Hash)
    ensures Subject(PoolKind, tx) == Some(id) <==>
      (tx.body.OpenCircle? && tx.id == id) || (tx.body.CircleStep? && tx.body.pool == id)
    ensures Subject(EscrowKind, tx) == Some(id) <==>
      (tx.body.OpenEscrow? && tx.id == id) || (tx.body.EscrowAct? && tx.body.escrow == id)
  {}

  // ---------------------------------------------------------------- the scan

  function Copies(loc: Loc, n: nat): seq<Loc> { seq(n, _ => loc) }

  /** Hits of an address among the first k transactions of a block. */
  function BlockHits(b: Block, a: Address, k: nat): seq<Loc>
    requires k <= |b.txs|
  {
    if k == 0 then []
    else BlockHits(b, a, k - 1) + Copies(Loc(b.header.height, k - 1), Occurrences(Touched(b.txs[k - 1]), a))
  }

  /** Every transaction that touches an address, in chain order, as often as it touches it. */
  function Hits(blocks: seq<Block>, a: Address): seq<Loc> {
    if blocks == [] then []
    else
      var b := blocks[|blocks| - 1];
      Hits(blocks[..|blocks| - 1], a) + BlockHits(b, a, |b.txs|)
  }

  function SubjectBlockHits(kind: Kind, b: Block, id: Hash, k: nat): seq<Loc>
    requires k <= |b.txs|
  {
    if k == 0 then []
    else SubjectBlockHits(kind, b, id, k - 1) + if Subject(kind, b.txs[k - 1]) == Some(id)
      then [Loc(b.header.height, k - 1)] else []
  }

  /** Every transaction of a circle or an escrow, in chain order. */
  function SubjectHits(kind: Kind, blocks: seq<Block>, id: Hash): seq<Loc> {
    if blocks == [] then []
    else
      var b := blocks[|blocks| - 1];
      SubjectHits(kind, blocks[..|blocks| - 1], id) + SubjectBlockHits(kind, b, id, |b.txs|)
  }

  predicate Within(blocks: seq<Block>, l: Loc) {
    1 <= l.height <= |blocks| && 0 <= l.index < |blocks[l.height - 1].txs|
  }

  function TxAt(blocks: seq<Block>, l: Loc): Tx
    requires Within(blocks, l)
  {
    blocks[l.height - 1].txs[l.index]
  }

  /** The block at position i has height i + 1. */
  predicate Numbered(blocks: seq<Block>) { forall i :: 0 <= i < |blocks| ==> blocks[i].header.height == i + 1 }

  /** The scan lists exactly the transactions that touch an address. */
  lemma {:induction false} HitsExact(blocks: seq<Block>, a: Address, l: Loc)
    requires Numbered(blocks)
    ensures l in Hits(blocks, a) <==> Within(blocks, l) && a in Touched(TxAt(blocks, l))
  {
    hide Touched, BlockHits;
    if blocks != [] {
      var before, b := blocks[..|blocks| - 1], blocks[|blocks| - 1];
      HitsExact(before, a, l);
      BlockHitsExact(b, a, |b.txs|, l);
      if Within(before, l) {
        assert TxAt(before, l) == TxAt(blocks, l);
      }
    }
  }

  lemma {:induction false} BlockHitsExact(b: Block, a: Address, k: nat, l: Loc)
    requires k <= |b.txs|
    ensures l in BlockHits(b, a, k) <==> l.height == b.header.height && 0 <= l.index < k && a in Touched(b.txs[l.index])
  {
    hide Touched, Occurrences;
    if k > 0 {
      BlockHitsExact(b, a, k - 1, l);
      OccursIn(Touched(b.txs[k - 1]), a);
      var n := Occurrences(Touched(b.txs[k - 1]), a);
      var here := Loc(b.header.height, k - 1);
      assert n > 0 ==> Copies(here, n)[0] == here;
    }
  }

  lemma {:induction false} OccursIn(s: seq<Address>, a: Address)
    ensures Occurrences(s, a) > 0 <==> a in s
  {
    if s != [] {
      OccursIn(s[..|s| - 1], a);
      assert s == s[..|s| - 1] + [s[|s| - 1]];
    }
  }

  lemma {:induction false} OccurrencesAppend(s: seq<Address>, t: seq<Address>, a: Address)
    ensures Occurrences(s + t, a) == Occurrences(s, a) + Occurrences(t, a)
  {
    if t == [] {
      assert s + t == s;
    } else {
      assert (s + t)[..|s + t| - 1] == s + t[..|t| - 1];
      OccurrencesAppend(s, t[..|t| - 1], a);
    }
  }

  // ---------------------------------------------------------------- the tables

  function Listed<K>(m: map<K, seq<Loc>>, k: K): seq<Loc> { if k in m then m[k] else [] }

  ghost predicate AddrUpTo(m: map<Address, seq<Loc>>, blocks: seq<Block>, b: Block, k: nat)
    requires k <= |b.txs|
  {
    forall a :: Listed(m, a) == Hits(blocks, a) + BlockHits(b, a, k)
  }

  ghost predicate SubjectUpTo(kind: Kind, m: map<Hash, seq<Loc>>, blocks: seq<Block>, b: Block, k: nat)
    requires k <= |b.txs|
  {
    forall id :: Listed(m, id) == SubjectHits(kind, blocks, id) + SubjectBlockHits(kind, b, id, k)
  }

  /** The tables after the first k transactions of block b, which follows these blocks. */
  ghost predicate UpTo(t: Tables, blocks: seq<Block>, b: Block, k: nat)
    requires k <= |b.txs|
    reads t
  {
    && AddrUpTo(t.byAddr, blocks, b, k)
    && SubjectUpTo(PoolKind, t.byPool, blocks, b, k) && SubjectUpTo(EscrowKind, t.byEscrow, blocks, b, k)
  }

  /** The tables list exactly what a scan of all blocks finds. */
  ghost predicate Agree(t: Tables, blocks: seq<Block>)
    reads t
  {
    && (forall a :: Listed(t.byAddr, a) == Hits(blocks, a))
    && (forall id :: Listed(t.byPool, id) == SubjectHits(PoolKind, blocks, id))
    && (forall id :: Listed(t.byEscrow, id) == SubjectHits(EscrowKind, blocks, id))
  }

  /** m lists what was listed, and loc as often as each address occurs in done. */
  ghost predicate Plus(was: map<Address, seq<Loc>>, done: seq<Address>, loc: Loc, m: map<Address, seq<Loc>>) {
    forall x :: Listed(m, x) == Listed(was, x) + Copies(loc, Occurrences(done, x))
  }

  lemma PlusOne(was: map<Address, seq<Loc>>, a: Address, loc: Loc)
    ensures Plus(was, [a], loc, was[a := Listed(was, a) + [loc]])
  {
    OccursOnce(a);
  }

  lemma OccursOnce(a: Address)
    ensures forall x :: Occurrences([a], x) == if x == a then 1 else 0
  {
    assert [a][..0] == [];
  }

  lemma PlusMore(was: map<Address, seq<Loc>>, done: seq<Address>, m: map<Address, seq<Loc>>, a: Address, loc: Loc)
    requires Plus(was, done, loc, m)
    ensures Plus(was, done + [a], loc, m[a := Listed(m, a) + [loc]])
  {
    hide Occurrences;
    OccursOnce(a);
    forall x ensures Occurrences(done + [a], x) == Occurrences(done, x) + if x == a then 1 else 0 {
      OccurrencesAppend(done, [a], x);
    }
  }

  lemma AddrStep(was: map<Address, seq<Loc>>, m: map<Address, seq<Loc>>, blocks: seq<Block>, b: Block, k: nat)
    requires k < |b.txs| && AddrUpTo(was, blocks, b, k) && Plus(was, Touched(b.txs[k]), Loc(b.header.height, k), m)
    ensures AddrUpTo(m, blocks, b, k + 1)
  {
    hide Touched, Hits;
  }

  lemma SubjectStep(kind: Kind, was: map<Hash, seq<Loc>>, m: map<Hash, seq<Loc>>, blocks: seq<Block>, b: Block, k: nat)
    requires k < |b.txs| && SubjectUpTo(kind, was, blocks, b, k)
    requires m ==
      match Subject(kind, b.txs[k])
      case None => was
      case Some(id) => was[id := Listed(was, id) + [Loc(b.header.height, k)]]
    ensures SubjectUpTo(kind, m, blocks, b, k + 1)
  {
    hide Subject, SubjectHits;
  }

  /** Every committed transaction is found by its id, and an id leads to a transaction with that id. */
  ghost predicate Found(m: map<Hash, Loc>, blocks: seq<Block>) {
    && (forall id :: id in m ==> Within(blocks, m[id]) && TxAt(blocks, m[id]).id == id)
    && (forall l: Loc :: Within(blocks, l) ==> TxAt(blocks, l).id in m)
  }

  /** The same once the first k transactions of block b are recorded too. */
  ghost predicate FoundTo(m: map<Hash, Loc>, blocks: seq<Block>, b: Block, k: nat)
    requires k <= |b.txs|
  {
    && (forall id :: id in m ==> Within(blocks + [b], m[id]) && TxAt(blocks + [b], m[id]).id == id)
    && (forall l: Loc :: Within(blocks, l) ==> TxAt(blocks, l).id in m)
    && (forall i :: 0 <= i < k ==> b.txs[i].id in m)
  }

  lemma FoundStart(m: map<Hash, Loc>, blocks: seq<Block>, b: Block)
    requires Found(m, blocks)
    ensures FoundTo(m, blocks, b, 0)
  {
    forall id | id in m ensures Within(blocks + [b], m[id]) && TxAt(blocks + [b], m[id]) == TxAt(blocks, m[id]) {}
  }

  lemma FoundStep(m: map<Hash, Loc>, blocks: seq<Block>, b: Block, k: nat)
    requires k < |b.txs| && FoundTo(m, blocks, b, k) && b.header.height == |blocks| + 1
    ensures FoundTo(m[b.txs[k].id := Loc(b.header.height, k)], blocks, b, k + 1)
  {
    assert (blocks + [b])[|blocks|] == b;
  }

  lemma FoundEnd(m: map<Hash, Loc>, blocks: seq<Block>, b: Block)
    requires FoundTo(m, blocks, b, |b.txs|)
    ensures Found(m, blocks + [b])
  {
    forall l: Loc | Within(blocks + [b], l) ensures TxAt(blocks + [b], l).id in m {
      if l.height <= |blocks| {
        assert Within(blocks, l) && TxAt(blocks + [b], l) == TxAt(blocks, l);
      } else {
        assert TxAt(blocks + [b], l) == b.txs[l.index];
      }
    }
  }

  class Tables {
    var txIndex: map<Hash, Loc>
    var byAddr: map<Address, seq<Loc>>
    var byPool: map<Hash, seq<Loc>>
    var byEscrow: map<Hash, seq<Loc>>

    constructor ()
      ensures Agree(this, []) && Found(txIndex, [])
    {
      txIndex, byAddr, byPool, byEscrow := map[], map[], map[], map[];
    }

    method Touch(a: Address, loc: Loc, ghost was: map<Address, seq<Loc>>, ghost done: seq<Address>)
        returns (ghost more: seq<Address>)
      requires if done == [] then byAddr == was else Plus(was, done, loc, byAddr)
      modifies this`byAddr
      ensures more == done + [a] && Plus(was, more, loc, byAddr)
    {
      more := done + [a];
      assert [] + [a] == [a];
      if done == [] {
        PlusOne(was, a, loc);
      } else {
        PlusMore(was, done, byAddr, a, loc);
      }
      byAddr := byAddr[a := Listed(byAddr, a) + [loc]];
    }

    /** Lists a transaction under every address it touches. */
    method TouchAll(tx: Tx, loc: Loc)
      modifies this`byAddr
      ensures Plus(old(byAddr), Touched(tx), loc, byAddr)
    {
      hide Plus;
      ghost var was := byAddr;
      ghost var done := Touch(tx.from, loc, was, []);
      match tx.body {
        case Transfer(to, _) => done := Touch(to, loc, was, done);
        case Mint(to, _) => done := Touch(to, loc, was, done);
        case OpenEscrow(agreed) =>
          done := Touch(agreed.seller, loc, was, done);
          done := Touch(agreed.arbiter, loc, was, done);
        case Guard(op) =>
          if !op.SetGuards? {
            if op.account != tx.from {
              done := Touch(op.account, loc, was, done);
            }
            if op.StartRecovery? || op.Approve? {
              done := Touch(op.newOwner, loc, was, done);
            }
          }
        case _ =>
      }
      assert done == Touched(tx);
    }

    /** Lists a transaction under its circle or escrow. */
    method ListSubject(tx: Tx, loc: Loc)
      modifies this`byPool, this`byEscrow
      ensures byPool == match Subject(PoolKind,
        tx) case None => old(byPool) case Some(id) => old(byPool)[id := Listed(old(byPool), id) + [loc]]
      ensures byEscrow == match Subject(EscrowKind,
        tx) case None => old(byEscrow) case Some(id) => old(byEscrow)[id := Listed(old(byEscrow), id) + [loc]]
    {
      if tx.body.OpenCircle? || tx.body.CircleStep? {
        var pid := if tx.body.OpenCircle? then tx.id else tx.body.pool;
        byPool := byPool[pid := Listed(byPool, pid) + [loc]];
      }
      if tx.body.OpenEscrow? || tx.body.EscrowAct? {
        var eid := if tx.body.OpenEscrow? then tx.id else tx.body.escrow;
        byEscrow := byEscrow[eid := Listed(byEscrow, eid) + [loc]];
      }
    }

    /** Everything one committed transaction is recorded under. */
    method Record(ghost blocks: seq<Block>, b: Block, k: nat)
      requires k < |b.txs|
      modifies this
      ensures old(UpTo(this, blocks, b, k)) ==> UpTo(this, blocks, b, k + 1)
      ensures txIndex == old(txIndex)[b.txs[k].id := Loc(b.header.height, k)]
    {
      hide AddrUpTo, SubjectUpTo, Plus, Subject;
      ghost var fits := UpTo(this, blocks, b, k);
      var tx, loc := b.txs[k], Loc(b.header.height, k);
      txIndex := txIndex[tx.id := loc];
      TouchAll(tx, loc);
      ListSubject(tx, loc);
      if fits {
        AddrStep(old(byAddr), byAddr, blocks, b, k);
        SubjectStep(PoolKind, old(byPool), byPool, blocks, b, k);
        SubjectStep(EscrowKind, old(byEscrow), byEscrow, blocks, b, k);
      }
    }

    /** Records a committed block; tables that fit the blocks before it fit them all if it stands at the next height. */
    method Index(b: Block, ghost blocks: seq<Block>)
      modifies this
      ensures old(Agree(this, blocks) && Found(txIndex, blocks)) && b.header.height == |blocks| + 1
        ==> Agree(this, blocks + [b]) && Found(txIndex, blocks + [b])
    {
      hide UpTo, Found, FoundTo, Agree;
      ghost var fits := Agree(this, blocks) && Found(txIndex, blocks) && b.header.height == |blocks| + 1;
      if fits {
        StartBlock(this, blocks, b);
        FoundStart(txIndex, blocks, b);
      }
      var i := 0;
      while i < |b.txs|
        invariant 0 <= i <= |b.txs| && (fits ==> UpTo(this, blocks, b, i) && FoundTo(txIndex, blocks, b, i))
      {
        if fits {
          FoundStep(txIndex, blocks, b, i);
        }
        Record(blocks, b, i);
        i := i + 1;
      }
      if fits {
        EndBlock(this, blocks, b);
        FoundEnd(txIndex, blocks, b);
      }
    }
  }

  lemma StartBlock(t: Tables, blocks: seq<Block>, b: Block)
    requires Agree(t, blocks)
    ensures UpTo(t, blocks, b, 0)
  {
    forall a ensures Listed(t.byAddr, a) == Hits(blocks, a) + BlockHits(b, a, 0) {}
  }

  lemma EndBlock(t: Tables, blocks: seq<Block>, b: Block)
    requires UpTo(t, blocks, b, |b.txs|)
    ensures Agree(t, blocks + [b])
  {
    hide BlockHits, SubjectBlockHits;
    assert (blocks + [b])[..|blocks|] == blocks;
  }
}
