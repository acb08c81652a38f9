/**
  The transaction root: bottom-up pairing with odd nodes promoted is the Merkle Tree Hash of section 2.1 of RFC 6962,
  and equal roots mean equal transaction lists.
 */
module Merkle {
  import opened Core

  /** SHA-256 of a transaction id behind a 0 byte, and of two digests behind a 1 byte. */
  datatype Hashing = Hashing(leaf: Hash -> Hash, node: (Hash, Hash) -> Hash)

  // ---------------------------------------------------------------- bottom up

  /** One pass over a level: neighbours are hashed together and an odd last node is promoted. */
  function Up(h: Hashing, level: seq<Hash>): (r: seq<Hash>)
    ensures |r| == (|level| + 1) / 2
  {
    if |level| < 2 then level else [h.node(level[0], level[1])] + Up(h, level[2..])
  }

  function Root(h: Hashing, level: seq<Hash>): Hash
    requires 0 < |level|
    decreases |level|
  {
    if |level| == 1 then level[0] else Root(h, Up(h, level))
  }

  function Leaves(h: Hashing, ids: seq<Hash>): (r: seq<Hash>)
    ensures |r| == |ids|
  {
    seq<Hash>(|ids|, j requires 0 <= j < |ids| => h.leaf(ids[j]))
  }

  // ---------------------------------------------------------------- top down, as RFC 6962 defines it

  /** The largest power of two smaller than n. */
  function Split(n: nat): (k: nat)
    requires 1 < n
    ensures 0 < k < n <= 2 * k
    ensures n > 2 ==> k % 2 == 0 && Split((n + 1) / 2) == k / 2
  {
    if n == 2 then 1 else 2 * Split((n + 1) / 2)
  }

  ghost predicate PowerOfTwo(k: nat) { k == 1 || (k % 2 == 0 && k > 0 && PowerOfTwo(k / 2)) }

  lemma {:induction false} SplitIsPower(n: nat)
    requires 1 < n
    ensures PowerOfTwo(Split(n))
  {
    if n > 2 {
      SplitIsPower((n + 1) / 2);
    }
  }

  /** The Merkle Tree Hash of a non-empty list. */
  function TreeHash(h: Hashing, ids: seq<Hash>): Hash
    requires 0 < |ids|
    decreases |ids|
  {
    if |ids| == 1 then h.leaf(ids[0])
    else
      var k := Split(|ids|);
      h.node(TreeHash(h, ids[..k]), TreeHash(h, ids[k..]))
  }

  // ---------------------------------------------------------------- they agree

  lemma {:induction false} UpAppend(h: Hashing, a: seq<Hash>, b: seq<Hash>)
    requires |a| % 2 == 0
    ensures Up(h, a + b) == Up(h, a) + Up(h, b)
    decreases |a|
  {
    if |a| == 0 {
      assert a + b == b;
    } else {
      assert (a + b)[2..] == a[2..] + b;
      UpAppend(h, a[2..], b);
    }
  }

  lemma RootUp(h: Hashing, level: seq<Hash>)
    requires 0 < |level|
    ensures Root(h, Up(h, level)) == Root(h, level)
  {}

  lemma UpParts(h: Hashing, level: seq<Hash>, k: nat)
    requires k <= |level| && k % 2 == 0
    ensures Up(h, level)[..k / 2] == Up(h, level[..k]) && Up(h, level)[k / 2..] == Up(h, level[k..])
  {
    hide Up;
    UpAppend(h, level[..k], level[k..]);
    assert level == level[..k] + level[k..];
  }

  /** The root of a level is the node over the roots of its two parts, split where RFC 6962 splits. */
  lemma {:induction false} RootSplits(h: Hashing, level: seq<Hash>)
    requires 1 < |level|
    ensures var k := Split(|level|); Root(h, level) == h.node(Root(h, level[..k]), Root(h, level[k..]))
    decreases |level|
  {
    if |level| == 2 {
      assert Up(h, level) == [h.node(level[0], level[1])];
    } else {
      hide Up, Split, Root;
      var k := Split(|level|);
      UpParts(h, level, k);
      RootSplits(h, Up(h, level));
      RootUp(h, level);
      RootUp(h, level[..k]);
      RootUp(h, level[k..]);
    }
  }

  /** For every non-empty list the bottom-up root is exactly the top-down tree hash. */
  lemma {:induction false} RootIsTreeHash(h: Hashing, ids: seq<Hash>)
    requires 0 < |ids|
    ensures Root(h, Leaves(h, ids)) == TreeHash(h, ids)
    decreases |ids|
  {
    if |ids| > 1 {
      var k := Split(|ids|);
      RootSplits(h, Leaves(h, ids));
      assert Leaves(h, ids)[..k] == Leaves(h, ids[..k]) && Leaves(h, ids)[k..] == Leaves(h, ids[k..]);
      RootIsTreeHash(h, ids[..k]);
      RootIsTreeHash(h, ids[k..]);
    }
  }

  // ---------------------------------------------------------------- equal roots

  /** No collisions: leaf and node hashing are injective and never agree with each other. */
  ghost predicate CollisionFree(h: Hashing) {
    && (forall x, y :: h.leaf(x) == h.leaf(y) ==> x == y)
    && (forall a, b, c, d :: h.node(a, b) == h.node(c, d) ==> a == c && b == d)
    && (forall x, a, b :: h.leaf(x) != h.node(a, b))
  }

  lemma {:induction false} TreeHashInjective(h: Hashing, a: seq<Hash>, b: seq<Hash>)
    requires CollisionFree(h) && 0 < |a| && 0 < |b| && TreeHash(h, a) == TreeHash(h, b)
    ensures a == b
    decreases |a|
  {
    if |a| == 1 {
      assert a == [a[0]];
      assert |b| == 1 && b == [b[0]];
    } else {
      assert |b| > 1;
      var j, k := Split(|a|), Split(|b|);
      TreeHashInjective(h, a[..j], b[..k]);
      TreeHashInjective(h, a[j..], b[k..]);
      assert a == a[..j] + a[j..] && b == b[..k] + b[k..];
    }
  }

  /** Without collisions equal transaction roots mean equal transaction lists, whatever their lengths. */
  lemma SameRootSameIds(h: Hashing, a: seq<Hash>, b: seq<Hash>)
    requires CollisionFree(h) && 0 < |a| && 0 < |b|
    ensures Root(h, Leaves(h, a)) == Root(h, Leaves(h, b)) <==> a == b
  {
    RootIsTreeHash(h, a);
    RootIsTreeHash(h, b);
    if TreeHash(h, a) == TreeHash(h, b) {
      TreeHashInjective(h, a, b);
    }
  }

  /** The zero hash for an empty list, and otherwise the tree hash. */
  function TxRootOf(h: Hashing, ids: seq<Hash>): Hash { if ids == [] then 0 else TreeHash(h, ids) }

  lemma {:induction false} UpFrom(h: Hashing, level: seq<Hash>, i: nat)
    requires i % 2 == 0 && i < |level|
    ensures Up(h, level[..i]) + (if i + 1 == |level| then [level[i]] else [h.node(level[i], level[i + 1])])
      == Up(h, if i + 2 <= |level| then level[..i + 2] else level)
  {
    var last := if i + 1 == |level| then [level[i]] else [level[i], level[i + 1]];
    UpAppend(h, level[..i], last);
    assert level[..i] + last == if i + 2 <= |level| then level[..i + 2] else level;
  }

  /** One level hashed in pairs; an odd last node is promoted. */
  method PairUp(h: Hashing, level: seq<Hash>) returns (next: seq<Hash>)
    requires 1 < |level|
    ensures next == Up(h, level)
  {
    next := [];
    var i := 0;
    while i < |level|
      invariant i % 2 == 0 && 0 <= i <= |level| + 1
      invariant next == Up(h, if i <= |level| then level[..i] else level)
    {
      UpFrom(h, level, i);
      if i + 1 == |level| {
        next := next + [level[i]];
      } else {
        next := next + [h.node(level[i], level[i + 1])];
      }
      i := i + 2;
    }
    assert (if i <= |level| then level[..i] else level) == level;
  }

  /** The transaction root, level by level. */
  method TxRoot(h: Hashing, ids: seq<Hash>) returns (root: Hash)
    ensures root == TxRootOf(h, ids)
  {
    if |ids| == 0 {
      return 0;
    }
    var level := Leaves(h, ids);
    while |level| > 1
      invariant 0 < |level| && Root(h, level) == Root(h, Leaves(h, ids))
      decreases |level|
    {
      level := PairUp(h, level);
    }
    RootIsTreeHash(h, ids);
    root := level[0];
  }
}
