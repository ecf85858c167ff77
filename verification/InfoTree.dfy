/**
  The L1 info tree (l1infotree/tree.go, l1infotree/hash.go): an incremental Merkle tree that
  keeps one sibling per level, a level-by-level builder and a Merkle proof generator.

  The pair hash is Keccak-256 over 64 bytes in the source. Here it is an arbitrary total
  function, the parameter `hash` of everything below.
*/
module InfoTree {
  import opened Wrappers

  /** A 32-byte value, as the number its bytes spell. */
  type Word256 = n: nat | n < 0x1_0000_0000_0000_0000_0000_0000_0000_0000_0000_0000_0000_0000_0000_0000_0000_0000

  datatype Digest = Digest(value: Word256)
  type Hasher = (Digest, Digest) -> Digest

  const ZERO := Digest(0)
  const TWO_32: nat := 0x1_0000_0000

  // ---------- reference definitions ----------

  function Pow2(h: nat): (r: nat)
    ensures r >= 1
  {
    if h == 0 then 1 else 2 * Pow2(h - 1)
  }

  /** The hash of a perfect subtree of height `h` whose leaves are all zero. */
  ghost function ZeroHash(hash: Hasher, h: nat): Digest {
    if h == 0 then ZERO else hash(ZeroHash(hash, h - 1), ZeroHash(hash, h - 1))
  }

  /** Leaf `i` of the infinite list `xs, ZERO, ZERO, ...`. */
  ghost function LeafAt(xs: seq<Digest>, i: nat): Digest {
    if i < |xs| then xs[i] else ZERO
  }

  /** Root of the perfect binary subtree of height `h` at position `j` from the left. */
  ghost function Subtree(hash: Hasher, xs: seq<Digest>, h: nat, j: nat): Digest {
    if h == 0 then LeafAt(xs, j)
    else hash(Subtree(hash, xs, h - 1, 2 * j), Subtree(hash, xs, h - 1, 2 * j + 1))
  }

  /** Root of the perfect binary tree of the given height; missing leaves are zero. */
  ghost function TreeRoot(hash: Hasher, xs: seq<Digest>, height: nat): Digest {
    Subtree(hash, xs, height, 0)
  }

  /** Position at level `h` of the node above leaf `i`: `i` halved `h` times. */
  function Ancestor(i: nat, h: nat): nat {
    if h == 0 then i else Ancestor(i, h - 1) / 2
  }

  /** Bit `h` of `i`. */
  predicate Bit(i: nat, h: nat) {
    Ancestor(i, h) % 2 == 1
  }

  function Sibling(j: nat): nat {
    if j % 2 == 1 then j - 1 else j + 1
  }

  /** Number of nodes at level `h` that have a leaf of an `n`-leaf list below them. */
  function LevelLen(n: nat, h: nat): nat {
    if h == 0 then n else (LevelLen(n, h - 1) + 1) / 2
  }

  /** Number of nodes the builders hold at level `h`, before and after padding to even. */
  function Held(n: nat, h: nat): nat {
    if LevelLen(n, h) == 0 then 1 else LevelLen(n, h)
  }

  function Padded(n: nat, h: nat): nat {
    Held(n, h) + Held(n, h) % 2
  }

  /** The verifier of a Merkle proof: fold `cur` with the siblings along the bits of `i`. */
  ghost function Climb(hash: Hasher, cur: Digest, i: nat, siblings: seq<Digest>): Digest
    decreases |siblings|
  {
    if |siblings| == 0 then cur
    else
      var parent := if i % 2 == 1 then hash(siblings[0], cur) else hash(cur, siblings[0]);
      Climb(hash, parent, i / 2, siblings[1..])
  }

  /**
    The sibling the proof generator emits at level `h`. It compares the index with the level
    width truncated to 32 bits, so a level of 2^32 nodes looks empty to it.
  */
  ghost function ProofNode(hash: Hasher, xs: seq<Digest>, h: nat, j: nat): Digest {
    if j >= Padded(|xs|, h) % TWO_32 then ZeroHash(hash, h)
    else Subtree(hash, xs, h, Sibling(j))
  }

  /** What the generator emits on the way from node `j` of level `h` over `n` levels. */
  ghost function ProofPath(hash: Hasher, xs: seq<Digest>, h: nat, j: nat, n: nat): (path: seq<Digest>)
    ensures |path| == n
    decreases n
  {
    if n == 0 then []
    else [ProofNode(hash, xs, h, j)] + ProofPath(hash, xs, h + 1, j / 2, n - 1)
  }

  ghost function MerkleProof(hash: Hasher, xs: seq<Digest>, height: nat, i: nat): seq<Digest> {
    ProofPath(hash, xs, 0, i, height)
  }

  ghost predicate ProofVerifies(hash: Hasher, xs: seq<Digest>, height: nat, i: nat) {
    Climb(hash, LeafAt(xs, i), i, MerkleProof(hash, xs, height, i)) == TreeRoot(hash, xs, height)
  }

  /**
    Slot k of `slots` belongs to bit k of `j`, the position of a path on level `h`. For every
    set bit it holds the complete left subtree that hangs off the path there.
  */
  ghost predicate SlotsMatch(hash: Hasher, xs: seq<Digest>, h: nat, j: nat, slots: seq<Digest>)
    decreases |slots|
  {
    |slots| > 0 ==>
      && (j % 2 == 1 ==> slots[0] == Subtree(hash, xs, h, j - 1))
      && SlotsMatch(hash, xs, h + 1, j / 2, slots[1..])
  }

  /** Adding a leaf, seen from level `h` of its path: the slots and the root it leaves behind. */
  ghost function AddPath(hash: Hasher, h: nat, j: nat, cur: Digest, filled: bool, slots: seq<Digest>)
    : (r: (seq<Digest>, Digest))
    ensures |r.0| == |slots|
    decreases |slots|
  {
    if |slots| == 0 then ([], cur)
    else if j % 2 == 1 then
      var above := AddPath(hash, h + 1, j / 2, hash(slots[0], cur), filled, slots[1..]);
      ([slots[0]] + above.0, above.1)
    else
      var above := AddPath(hash, h + 1, j / 2, hash(cur, ZeroHash(hash, h)), false, slots[1..]);
      ([if filled then cur else slots[0]] + above.0, above.1)
  }

  // ---------- index arithmetic ----------

  lemma {:induction false} LevelLenBound(n: nat, h: nat, g: nat)
    ensures LevelLen(n, h) <= Pow2(g) <==> n <= Pow2(g + h)
  {
    if h > 0 {
      LevelLenBound(n, h - 1, g + 1);
    }
  }

  lemma {:induction false} AncestorBound(i: nat, h: nat, g: nat)
    ensures Ancestor(i, h) < Pow2(g) <==> i < Pow2(g + h)
  {
    if h > 0 {
      AncestorBound(i, h - 1, g + 1);
    }
  }

  lemma {:induction false} LevelLenAfterLast(n: nat, h: nat)
    ensures LevelLen(n + 1, h) == Ancestor(n, h) + 1
  {
    if h > 0 {
      LevelLenAfterLast(n, h - 1);
    }
  }

  lemma {:induction false} LevelLenShrinks(n: nat, h: nat)
    requires h > 0
    ensures LevelLen(n, h) <= (n + 1) / 2
  {
    if h > 1 {
      LevelLenShrinks(n, h - 1);
    }
  }

  // ---------- facts about subtrees ----------

  lemma {:induction false} BeyondIsZero(hash: Hasher, xs: seq<Digest>, h: nat, j: nat)
    requires j >= LevelLen(|xs|, h)
    ensures Subtree(hash, xs, h, j) == ZeroHash(hash, h)
  {
    if h > 0 {
      BeyondIsZero(hash, xs, h - 1, 2 * j);
      BeyondIsZero(hash, xs, h - 1, 2 * j + 1);
    }
  }

  /** Appending a leaf changes only the nodes on its own path. */
  lemma {:induction false} AppendOffPath(hash: Hasher, xs: seq<Digest>, leaf: Digest, h: nat, j: nat)
    requires j != Ancestor(|xs|, h)
    ensures Subtree(hash, xs + [leaf], h, j) == Subtree(hash, xs, h, j)
  {
    if h > 0 {
      AppendOffPath(hash, xs, leaf, h - 1, 2 * j);
      AppendOffPath(hash, xs, leaf, h - 1, 2 * j + 1);
    }
  }

  /** Nothing lies to the right of the last leaf's path. */
  lemma RightOfLastIsZero(hash: Hasher, xs: seq<Digest>, leaf: Digest, h: nat)
    ensures Subtree(hash, xs + [leaf], h, Ancestor(|xs|, h) + 1) == ZeroHash(hash, h)
  {
    LevelLenAfterLast(|xs|, h);
    BeyondIsZero(hash, xs + [leaf], h, Ancestor(|xs|, h) + 1);
  }

  lemma WidthFits(n: nat, h: nat)
    requires n < TWO_32 - 1 || (h > 0 && n <= TWO_32)
    ensures Padded(n, h) < TWO_32
  {
    if h > 0 {
      LevelLenShrinks(n, h);
    }
  }

  /** Below 2^32 - 1 leaves no level width is truncated and the emitted sibling is the real one. */
  lemma ProofNodeIsSibling(hash: Hasher, xs: seq<Digest>, h: nat, j: nat)
    requires |xs| < TWO_32 - 1 || (h > 0 && |xs| <= TWO_32)
    ensures ProofNode(hash, xs, h, j) == Subtree(hash, xs, h, Sibling(j))
  {
    var width := Padded(|xs|, h);
    WidthFits(|xs|, h);
    assert width % TWO_32 == width;
    if j >= width {
      assert Sibling(j) >= LevelLen(|xs|, h);
      BeyondIsZero(hash, xs, h, Sibling(j));
    }
  }

  // ---------- the tree, by halves ----------

  function Dropped(xs: seq<Digest>, n: nat): seq<Digest> {
    if n >= |xs| then [] else xs[n..]
  }

  function Taken(xs: seq<Digest>, n: nat): seq<Digest> {
    if n >= |xs| then xs else xs[..n]
  }

  /** A subtree sees only the leaves from its own first one on. */
  lemma {:induction false} SubtreeOfRest(hash: Hasher, xs: seq<Digest>, h: nat, j: nat, a: nat, n: nat)
    requires n == a * Pow2(h)
    ensures Subtree(hash, Dropped(xs, n), h, j) == Subtree(hash, xs, h, j + a)
  {
    if h > 0 {
      assert n == (2 * a) * Pow2(h - 1);
      SubtreeOfRest(hash, xs, h - 1, 2 * j, 2 * a, n);
      SubtreeOfRest(hash, xs, h - 1, 2 * j + 1, 2 * a, n);
    }
  }

  /** And only those up to its last one. */
  lemma {:induction false} SubtreeOfFirst(hash: Hasher, xs: seq<Digest>, h: nat, j: nat, n: nat)
    requires (j + 1) * Pow2(h) <= n
    ensures Subtree(hash, Taken(xs, n), h, j) == Subtree(hash, xs, h, j)
  {
    if h > 0 {
      assert (2 * j + 2) * Pow2(h - 1) == (j + 1) * Pow2(h);
      assert (2 * j + 1) * Pow2(h - 1) <= (2 * j + 2) * Pow2(h - 1);
      SubtreeOfFirst(hash, xs, h - 1, 2 * j, n);
      SubtreeOfFirst(hash, xs, h - 1, 2 * j + 1, n);
    }
  }

  /** The root is the hash of the roots of the first half of the leaves and of the rest; leaves that are missing are zero. */
  lemma RootByHalves(hash: Hasher, xs: seq<Digest>, h: nat)
    ensures TreeRoot(hash, xs, h + 1) == hash(TreeRoot(hash, Taken(xs, Pow2(h)), h), TreeRoot(hash, Dropped(xs, Pow2(h)), h))
    ensures TreeRoot(hash, [], 0) == Digest(0) && (|xs| > 0 ==> TreeRoot(hash, xs, 0) == xs[0])
  {
    SubtreeOfFirst(hash, xs, h, 0, Pow2(h));
    SubtreeOfRest(hash, xs, h, 0, 1, Pow2(h));
  }

  // ---------- Merkle proofs ----------

  /** A node and its sibling, in the order the parity gives, hash to the parent. */
  lemma ParentOf(hash: Hasher, xs: seq<Digest>, h: nat, j: nat)
    ensures var cur, sibling := Subtree(hash, xs, h, j), Subtree(hash, xs, h, Sibling(j));
            (if j % 2 == 1 then hash(sibling, cur) else hash(cur, sibling)) == Subtree(hash, xs, h + 1, j / 2)
  {
  }

  /** Folding a node with what the generator emits for it gives the root above it. */
  lemma {:induction false} ClimbReachesRoot(hash: Hasher, xs: seq<Digest>, h: nat, j: nat, n: nat, top: nat)
    requires |xs| < TWO_32 - 1 && j < Pow2(n) && top == h + n
    ensures Climb(hash, Subtree(hash, xs, h, j), j, ProofPath(hash, xs, h, j, n)) == Subtree(hash, xs, top, 0)
    decreases n
  {
    hide Subtree, ProofNode;
    if n > 0 {
      ProofNodeIsSibling(hash, xs, h, j);
      ParentOf(hash, xs, h, j);
      var siblings := ProofPath(hash, xs, h, j, n);
      assert siblings[1..] == ProofPath(hash, xs, h + 1, j / 2, n - 1);
      ClimbReachesRoot(hash, xs, h + 1, j / 2, n - 1, top);
    }
  }

  /** Merkle proofs are complete: every proof the generator emits leads to the root. */
  lemma ProofsAreComplete(hash: Hasher, xs: seq<Digest>, height: nat, i: nat)
    requires |xs| < TWO_32 - 1 && i < Pow2(height)
    ensures |MerkleProof(hash, xs, height, i)| == height
    ensures ProofVerifies(hash, xs, height, i)
  {
    ClimbReachesRoot(hash, xs, 0, i, height, height);
  }

  // ---------- binding ----------

  /** No two different pairs met at the same place of the two trees hash to the same value. */
  ghost predicate NoCollision(hash: Hasher, xs: seq<Digest>, ys: seq<Digest>, height: nat) {
    forall h: nat, j: nat | h < height ::
      Subtree(hash, xs, h + 1, j) == Subtree(hash, ys, h + 1, j) ==>
        && Subtree(hash, xs, h, 2 * j) == Subtree(hash, ys, h, 2 * j)
        && Subtree(hash, xs, h, 2 * j + 1) == Subtree(hash, ys, h, 2 * j + 1)
  }

  lemma {:induction false} EqualNodesEqualLeaves(
      hash: Hasher, xs: seq<Digest>, ys: seq<Digest>, height: nat, h: nat, i: nat)
    requires h <= height && NoCollision(hash, xs, ys, height)
    requires Subtree(hash, xs, h, Ancestor(i, h)) == Subtree(hash, ys, h, Ancestor(i, h))
    ensures LeafAt(xs, i) == LeafAt(ys, i)
  {
    if h > 0 {
      var j := Ancestor(i, h);
      assert Subtree(hash, xs, (h - 1) + 1, j) == Subtree(hash, ys, (h - 1) + 1, j);
      EqualNodesEqualLeaves(hash, xs, ys, height, h - 1, i);
    }
  }

  /** Binding: short of a collision, one root commits to one list of each length. */
  lemma RootBindsLeaves(hash: Hasher, xs: seq<Digest>, ys: seq<Digest>, height: nat)
    requires |xs| == |ys| <= Pow2(height)
    requires NoCollision(hash, xs, ys, height)
    requires TreeRoot(hash, xs, height) == TreeRoot(hash, ys, height)
    ensures xs == ys
  {
    forall i: nat | i < |xs|
      ensures xs[i] == ys[i]
    {
      AncestorBound(i, height, 0);
      EqualNodesEqualLeaves(hash, xs, ys, height, height, i);
      assert LeafAt(xs, i) == LeafAt(ys, i);
    }
  }

  // ---------- too many leaves ----------

  /** The list with a zero in place of the sibling of leaf i. */
  ghost function Cleared(xs: seq<Digest>, i: nat): (ys: seq<Digest>)
    ensures |ys| == |xs|
    ensures forall k: nat :: LeafAt(ys, k) == if k == Sibling(i) then ZERO else LeafAt(xs, k)
  {
    if Sibling(i) < |xs| then xs[Sibling(i) := ZERO] else xs
  }

  /** Clearing a leaf changes only the nodes on its own path. */
  lemma {:induction false} ClearedOffPath(hash: Hasher, xs: seq<Digest>, i: nat, h: nat, j: nat)
    requires j != Ancestor(Sibling(i), h)
    ensures Subtree(hash, Cleared(xs, i), h, j) == Subtree(hash, xs, h, j)
  {
    hide Cleared;
    if h > 0 {
      ClearedOffPath(hash, xs, i, h - 1, 2 * j);
      ClearedOffPath(hash, xs, i, h - 1, 2 * j + 1);
    }
  }

  /** Above the leaves, the siblings the generator emits for xs lead to the root of the cleared list. */
  lemma {:induction false} ClearedClimb(hash: Hasher, xs: seq<Digest>, i: nat, h: nat, j: nat, n: nat, top: nat)
    requires |xs| <= TWO_32 && h > 0 && j == Ancestor(Sibling(i), h) && j < Pow2(n) && top == h + n
    ensures Climb(hash, Subtree(hash, Cleared(xs, i), h, j), j, ProofPath(hash, xs, h, j, n))
         == Subtree(hash, Cleared(xs, i), top, 0)
    decreases n
  {
    hide Subtree, ProofNode, Cleared;
    if n > 0 {
      ProofNodeIsSibling(hash, xs, h, j);
      ClearedOffPath(hash, xs, i, h, Sibling(j));
      ParentOf(hash, Cleared(xs, i), h, j);
      var siblings := ProofPath(hash, xs, h, j, n);
      assert siblings[1..] == ProofPath(hash, xs, h + 1, j / 2, n - 1);
      ClearedClimb(hash, xs, i, h + 1, j / 2, n - 1, top);
    }
  }

  /**
    From 2^32 - 1 leaves on the first level looks empty to the generator, so every proof claims a
    zero sibling: it leads to the root the tree would have if that leaf were zero.
  */
  lemma ProofClearsSibling(hash: Hasher, xs: seq<Digest>, height: nat, i: nat)
    requires height >= 1 && TWO_32 - 1 <= |xs| <= TWO_32 && i < Pow2(height)
    ensures Climb(hash, LeafAt(xs, i), i, MerkleProof(hash, xs, height, i)) == TreeRoot(hash, Cleared(xs, i), height)
  {
    hide Cleared;
    var siblings := MerkleProof(hash, xs, height, i);
    assert Padded(|xs|, 0) == TWO_32;
    assert siblings[0] == ProofNode(hash, xs, 0, i) == ZERO;
    ParentOf(hash, Cleared(xs, i), 0, i);
    assert siblings[1..] == ProofPath(hash, xs, 1, i / 2, height - 1);
    assert Ancestor(Sibling(i), 0) == Sibling(i) && Ancestor(Sibling(i), 1) == i / 2;
    ClearedClimb(hash, xs, i, 1, i / 2, height - 1, height);
  }

  /**
    Exactly when a proof is right, for every hash: short of a collision between the tree and the
    one with the sibling cleared, when there are fewer than 2^32 - 1 leaves or the sibling is zero.
  */
  lemma ProofVerifiesIff(hash: Hasher, xs: seq<Digest>, height: nat, i: nat)
    requires height >= 1 && |xs| <= TWO_32 && i < Pow2(height)
    requires NoCollision(hash, xs, Cleared(xs, i), height)
    ensures ProofVerifies(hash, xs, height, i) <==> |xs| < 0xffff_ffff || LeafAt(xs, Sibling(i)) == Digest(0)
  {
    hide Cleared;
    if |xs| < TWO_32 - 1 {
      ProofsAreComplete(hash, xs, height, i);
    } else {
      ProofClearsSibling(hash, xs, height, i);
      var ys := Cleared(xs, i);
      if LeafAt(xs, Sibling(i)) == ZERO {
        assert forall k: nat | k < |xs| :: LeafAt(ys, k) == ys[k] && LeafAt(xs, k) == xs[k];
        assert ys == xs;
      } else if TreeRoot(hash, ys, height) == TreeRoot(hash, xs, height) {
        SiblingBound(i, height);
        AncestorBound(Sibling(i), height, 0);
        EqualNodesEqualLeaves(hash, xs, ys, height, height, Sibling(i));
      }
    }
  }

  lemma SiblingBound(i: nat, height: nat)
    requires height >= 1 && i < Pow2(height)
    ensures Sibling(i) < Pow2(height) && Sibling(Sibling(i)) == i
  {
    assert Pow2(height) == 2 * Pow2(height - 1);
  }

  /** With 2^32 - 1 leaves and a first one that is not zero, the proof of the second is wrong. */
  lemma TruncatedWidthBreaksProof(hash: Hasher, xs: seq<Digest>, height: nat)
    requires height >= 1 && TWO_32 - 1 <= |xs| <= TWO_32 && xs[0] != ZERO
    requires NoCollision(hash, xs, Cleared(xs, 1), height)
    ensures !ProofVerifies(hash, xs, height, 1)
  {
    assert 1 < Pow2(height);
    ProofVerifiesIff(hash, xs, height, 1);
  }

  /**
    Exactly when all proofs are right: with fewer than 2^32 - 1 leaves, or when all leaves are zero.
  */
  lemma ProofsCompleteIff(hash: Hasher, xs: seq<Digest>, height: nat)
    requires height >= 1 && |xs| <= TWO_32 && |xs| <= Pow2(height)
    requires forall i: nat | i < Pow2(height) :: NoCollision(hash, xs, Cleared(xs, i), height)
    ensures (forall i: nat | i < Pow2(height) :: ProofVerifies(hash, xs, height, i))
       <==> |xs| < TWO_32 - 1 || forall k: nat | k < |xs| :: xs[k] == ZERO
  {
    hide NoCollision, Cleared, ProofVerifies;
    forall i: nat | i < Pow2(height)
      ensures ProofVerifies(hash, xs, height, i) <==> |xs| < TWO_32 - 1 || LeafAt(xs, Sibling(i)) == ZERO
    {
      ProofVerifiesIff(hash, xs, height, i);
    }
    forall k: nat | k < |xs| && !(|xs| < TWO_32 - 1)
      ensures xs[k] == ZERO <==> ProofVerifies(hash, xs, height, Sibling(k))
    {
      SiblingBound(k, height);
    }
    forall k: nat | k < |xs|
      ensures Sibling(k) < Pow2(height)
    {
      SiblingBound(k, height);
    }
  }

  // ---------- the source's operations ----------

  datatype TreeError = MismatchedLeafCount | MoreThanOneRoot | CountMismatch

  datatype Node = Node(hash: Digest, left: Digest, right: Digest)

  method GenerateZeroHashes(hash: Hasher, height: nat) returns (zeroHashes: seq<Digest>)
    ensures |zeroHashes| == height + 1
    ensures forall h: nat | h <= height :: zeroHashes[h] == ZeroHash(hash, h)
  {
    zeroHashes := [ZERO];
    for i := 1 to height + 1
      invariant |zeroHashes| == i
      invariant forall h: nat | h < i :: zeroHashes[h] == ZeroHash(hash, h)
    {
      zeroHashes := zeroHashes + [hash(zeroHashes[i - 1], zeroHashes[i - 1])];
    }
  }

  method BuildIntermediate(hash: Hasher, leaves: seq<Digest>) returns (nodes: seq<Node>, hashes: seq<Digest>)
    requires |leaves| % 2 == 0
    ensures |nodes| == |hashes| == |leaves| / 2
    ensures forall k: nat | k < |hashes| :: hashes[k] == hash(leaves[2 * k], leaves[2 * k + 1])
    ensures forall k: nat | k < |hashes| :: nodes[k] == Node(hashes[k], leaves[2 * k], leaves[2 * k + 1])
  {
    nodes, hashes := [], [];
    var i := 0;
    while i < |leaves|
      invariant i % 2 == 0 && 0 <= i <= |leaves|
      invariant |nodes| == |hashes| == i / 2
      invariant forall k: nat | k < |hashes| :: hashes[k] == hash(leaves[2 * k], leaves[2 * k + 1])
      invariant forall k: nat | k < |hashes| :: nodes[k] == Node(hashes[k], leaves[2 * k], leaves[2 * k + 1])
    {
      var left, right := i, i + 1;
      var h := hash(leaves[left], leaves[right]);
      nodes := nodes + [Node(h, leaves[left], leaves[right])];
      hashes := hashes + [h];
      i := i + 2;
    }
  }

  /** What the builders hold at level `h`: the nodes of that level, from the left. */
  ghost predicate IsLevel(hash: Hasher, xs: seq<Digest>, h: nat, level: seq<Digest>) {
    forall j: nat | j < |level| :: level[j] == Subtree(hash, xs, h, j)
  }

  /** Pairing up a padded level gives the level above it. */
  lemma PairedLevel(hash: Hasher, xs: seq<Digest>, h: nat, leaves: seq<Digest>, hashes: seq<Digest>)
    requires |leaves| == Padded(|xs|, h) && IsLevel(hash, xs, h, leaves)
    requires |hashes| == |leaves| / 2
    requires forall k: nat | k < |hashes| :: hashes[k] == hash(leaves[2 * k], leaves[2 * k + 1])
    ensures |hashes| == Held(|xs|, h + 1) && IsLevel(hash, xs, h + 1, hashes)
  {
  }

  method RaiseLevel(hash: Hasher, ghost xs: seq<Digest>, ghost h: nat, leaves: seq<Digest>)
    returns (nodes: seq<Node>, hashes: seq<Digest>)
    requires |leaves| == Padded(|xs|, h) && IsLevel(hash, xs, h, leaves)
    ensures |nodes| == |hashes| == Held(|xs|, h + 1) && IsLevel(hash, xs, h + 1, hashes)
    ensures |nodes| > 0 && nodes[0].hash == hashes[0]
  {
    nodes, hashes := BuildIntermediate(hash, leaves);
    PairedLevel(hash, xs, h, leaves, hashes);
  }

  /** Pads an odd level with the zero hash of its height. */
  method PadLevel(ghost hash: Hasher, ghost xs: seq<Digest>, ghost h: nat, leaves: seq<Digest>, zeroHash: Digest)
    returns (padded: seq<Digest>)
    requires |leaves| == Held(|xs|, h) && IsLevel(hash, xs, h, leaves) && zeroHash == ZeroHash(hash, h)
    ensures |padded| == Padded(|xs|, h) && IsLevel(hash, xs, h, padded)
  {
    padded := leaves;
    if |leaves| % 2 == 1 {
      BeyondIsZero(hash, xs, h, |leaves|);
      padded := padded + [zeroHash];
    }
  }

  /** The sibling emitted for position `index` of a padded level. */
  method EmitSibling(ghost hash: Hasher, ghost xs: seq<Digest>, ghost h: nat,
                     leaves: seq<Digest>, zeroHash: Digest, index: nat) returns (sibling: Digest)
    requires |leaves| == Padded(|xs|, h) && IsLevel(hash, xs, h, leaves) && zeroHash == ZeroHash(hash, h)
    ensures sibling == ProofNode(hash, xs, h, index)
  {
    if index >= |leaves| % TWO_32 {
      sibling := zeroHash;
    } else if index % 2 == 1 {
      sibling := leaves[index - 1];
    } else {
      sibling := leaves[index + 1];
    }
  }

  lemma HeldFits(n: nat, height: nat)
    ensures Held(n, height) == 1 <==> n <= Pow2(height)
  {
    LevelLenBound(n, height, 0);
  }

  class L1InfoTree {
    const hash: Hasher
    const height: nat
    const zeroHashes: seq<Digest>
    var count: nat
    var siblings: seq<Digest>
    var currentRoot: Digest

    constructor (hash: Hasher, height: nat, zeroHashes: seq<Digest>, count: nat)
      requires |zeroHashes| == height + 1
      requires forall h: nat | h <= height :: zeroHashes[h] == ZeroHash(hash, h)
      ensures this.hash == hash && this.height == height && this.count == count
      ensures HasZeroHashes()
    {
      this.hash, this.height, this.zeroHashes, this.count := hash, height, zeroHashes, count;
      this.siblings, this.currentRoot := [], ZERO;
    }

    ghost predicate HasZeroHashes() {
      && |zeroHashes| == height + 1
      && forall h: nat | h <= height :: zeroHashes[h] == ZeroHash(hash, h)
    }

    /** The tree is what growing over the leaves `xs` must leave behind. */
    ghost predicate Represents(xs: seq<Digest>)
      reads this
    {
      && HasZeroHashes()
      && |xs| <= Pow2(height)
      && |xs| <= TWO_32
      && count == |xs| % TWO_32
      && currentRoot == TreeRoot(hash, xs, height)
      && |siblings| == height && SlotsMatch(hash, xs, 0, |xs|, siblings)
    }

    method BuildL1InfoRoot(initial: seq<Digest>) returns (r: Result<Digest, TreeError>)
      requires HasZeroHashes()
      ensures r.Ok? <==> 1 <= height && |initial| <= Pow2(height)
      ensures r.Ok? ==> r.value == TreeRoot(hash, initial, height)
      ensures r.Err? ==> r.error == MoreThanOneRoot
    {
      var leaves := initial;
      var ns: seq<Node> := [];
      if |leaves| == 0 {
        leaves := leaves + [zeroHashes[0]];
      }
      for h := 0 to height
        invariant |leaves| == Held(|initial|, h) && IsLevel(hash, initial, h, leaves)
        invariant if h == 0 then ns == [] else |ns| == |leaves| && ns[0].hash == leaves[0]
      {
        leaves := PadLevel(hash, initial, h, leaves, zeroHashes[h]);
        ns, leaves := RaiseLevel(hash, initial, h, leaves);
      }
      HeldFits(|initial|, height);
      if |ns| != 1 {
        return Err(MoreThanOneRoot);
      }
      return Ok(ns[0].hash);
    }

    method ComputeMerkleProof(gerIndex: nat, initial: seq<Digest>)
      returns (r: Result<(seq<Digest>, Digest), TreeError>)
      requires HasZeroHashes() && gerIndex < TWO_32
      ensures r.Ok? <==> 1 <= height && |initial| <= Pow2(height)
      ensures r.Ok? ==> r.value == (MerkleProof(hash, initial, height, gerIndex), TreeRoot(hash, initial, height))
      ensures r.Err? ==> r.error == MoreThanOneRoot
    {
      hide ProofNode, Pow2;
      var leaves := initial;
      var ns: seq<Node> := [];
      if |leaves| == 0 {
        leaves := leaves + [zeroHashes[0]];
      }
      var proof: seq<Digest> := [];
      var index := gerIndex;
      for h := 0 to height
        invariant |leaves| == Held(|initial|, h) && IsLevel(hash, initial, h, leaves)
        invariant if h == 0 then ns == [] else |ns| == |leaves| && ns[0].hash == leaves[0]
        invariant proof + ProofPath(hash, initial, h, index, height - h) == MerkleProof(hash, initial, height, gerIndex)
      {
        leaves := PadLevel(hash, initial, h, leaves, zeroHashes[h]);
        var sibling := EmitSibling(hash, initial, h, leaves, zeroHashes[h], index);
        proof := proof + [sibling];
        ns, leaves := RaiseLevel(hash, initial, h, leaves);
        index := index / 2;
      }
      HeldFits(|initial|, height);
      if |ns| != 1 {
        return Err(MoreThanOneRoot);
      }
      assert proof + [] == proof;
      return Ok((proof, ns[0].hash));
    }

    method InitSiblings(initial: seq<Digest>) returns (r: Result<(seq<Digest>, Digest), TreeError>)
      requires HasZeroHashes()
      ensures count != |initial| % TWO_32 ==> r == Err(CountMismatch)
      ensures count == |initial| % TWO_32 ==> (r.Ok? <==> 1 <= height && |initial| <= Pow2(height))
      ensures count == |initial| % TWO_32 && r.Err? ==> r.error == MoreThanOneRoot
      ensures r.Ok? ==> r.value.1 == TreeRoot(hash, initial, height)
      ensures r.Ok? && count != 0 ==> r.value.0 == MerkleProof(hash, initial, height, count)
      ensures r.Ok? && count == 0 ==> r.value.0 == zeroHashes[..height]
    {
      if count != |initial| % TWO_32 {
        return Err(CountMismatch);
      }
      if count == 0 {
        var left: seq<Digest> := [];
        for h := 0 to height
          invariant left == zeroHashes[..h]
        {
          left := left + [zeroHashes[h]];
        }
        var root := BuildL1InfoRoot(initial);
        match root {
          case Err(e) => return Err(e);
          case Ok(v) => return Ok((left, v));
        }
      }
      r := ComputeMerkleProof(count, initial);
    }

    /** The list a new leaf joins: the source has no capacity check, so a full tree forgets its leaves. */
    ghost function Base(xs: seq<Digest>): seq<Digest> {
      if |xs| == Pow2(height) || |xs| == TWO_32 then [] else xs
    }

    /** The loop of AddLeaf: stores the completed left subtree and folds the leaf up to the root. */
    method FoldLeaf(index: nat, leaf: Digest, ghost xs: seq<Digest>) returns (cur: Digest)
      requires HasZeroHashes() && |siblings| == height
      requires |xs| <= Pow2(height) && |xs| <= TWO_32 && index == |xs| % TWO_32
      modifies this`siblings
      ensures (siblings, cur) == AddPath(hash, 0, |Base(xs)|, leaf, true, old(siblings))
    {
      hide Subtree, Pow2, LevelLen, SlotsMatch, AddPath, PathDone;
      ghost var j := |Base(xs)|;
      ghost var done := AddPath(hash, 0, j, leaf, true, siblings);
      var isFilledSubTree := true;
      cur := leaf;
      PathStarts(hash, j, leaf, siblings);
      for h := 0 to height
        invariant |siblings| == height && j == Ancestor(|Base(xs)|, h)
        invariant PathDone(hash, done, h, j, cur, isFilledSubTree, siblings)
      {
        SameBitAsBase(xs, height, index, Base(xs), h);
        PathAdvances(hash, done, h, j, cur, isFilledSubTree, siblings);
        if Bit(index, h) {
          cur := hash(siblings[h], cur);
        } else {
          var parent := hash(cur, zeroHashes[h]);
          if isFilledSubTree {
            siblings := siblings[h := cur];
            isFilledSubTree := false;
          }
          cur := parent;
        }
        j := j / 2;
      }
      PathEnds(hash, done, height, j, cur, isFilledSubTree, siblings);
    }

    /** Builds a new tree over the initial leaves, of height 32 whatever the height of this one is. */
    method ResetL1InfoTree(initial: seq<Digest>) returns (r: Result<L1InfoTree, TreeError>)
      ensures r.Ok? <==> |initial| <= Pow2(32)
      ensures r.Ok? ==> fresh(r.value) && r.value.hash == hash && r.value.height == 32
      ensures r.Ok? ==> r.value.currentRoot == TreeRoot(hash, initial, 32)
      ensures r.Ok? && |initial| < TWO_32 - 1 ==> r.value.Represents(initial)
    {
      r := NewL1InfoTree(hash, 32, initial);
    }

    /** Adds one leaf. Below capacity the tree then represents one more leaf. */
    method AddLeaf(index: nat, leaf: Digest, ghost xs: seq<Digest>) returns (r: Result<Digest, TreeError>)
      requires Represents(xs)
      modifies this`count, this`siblings, this`currentRoot
      ensures index != old(count) ==> r == Err(MismatchedLeafCount) && unchanged(this)
      ensures index == old(count) ==> r == Ok(currentRoot) && count == (old(count) + 1) % 0x1_0000_0000
      ensures index == old(count) && |xs| < Pow2(height) && |xs| < TWO_32 ==> Represents(xs + [leaf])
      ensures index == old(count) && |xs| == Pow2(height) ==> currentRoot == TreeRoot(hash, [leaf], height)
    {
      if index != count {
        return Err(MismatchedLeafCount);
      }
      hide Subtree, AddPath, ZeroHash, Ancestor, SlotsMatch, Pow2;
      AddPathIsRight(hash, xs, Base(xs), leaf, siblings);
      assert Base(xs) == [] ==> Base(xs) + [leaf] == [leaf];
      var cur := FoldLeaf(index, leaf, xs);
      currentRoot := cur;
      count := (count + 1) % TWO_32;
      return Ok(cur);
    }
  }

  /** Adding a leaf, from level `h` of its path on, ends at the root of the grown list. */
  lemma {:induction false} AddPathRoot(hash: Hasher, base: seq<Digest>, leaf: Digest, h: nat, j: nat,
                                       cur: Digest, filled: bool, slots: seq<Digest>, top: nat)
    requires j == Ancestor(|base|, h) && j < Pow2(|slots|) && top == h + |slots|
    requires SlotsMatch(hash, base, h, j, slots)
    requires cur == Subtree(hash, base + [leaf], h, j)
    ensures AddPath(hash, h, j, cur, filled, slots).1 == Subtree(hash, base + [leaf], top, 0)
    decreases |slots|
  {
    if |slots| > 0 {
      if j % 2 == 1 {
        LeafPathRight(hash, base, leaf, h, j);
        AddPathRoot(hash, base, leaf, h + 1, j / 2, hash(slots[0], cur), filled, slots[1..], top);
      } else {
        LeafPathLeft(hash, base, leaf, h, j);
        AddPathRoot(hash, base, leaf, h + 1, j / 2, hash(cur, ZeroHash(hash, h)), false, slots[1..], top);
      }
    }
  }

  /** ... and leaves slots that match the grown list, the levels below having been dealt with. */
  lemma {:induction false} AddPathSlots(hash: Hasher, base: seq<Digest>, leaf: Digest, h: nat, j: nat,
                                        cur: Digest, filled: bool, slots: seq<Digest>)
    requires j == Ancestor(|base|, h)
    requires SlotsMatch(hash, base, h, j, slots)
    requires cur == Subtree(hash, base + [leaf], h, j)
    ensures SlotsMatch(hash, base + [leaf], h, if filled then j + 1 else j,
                       AddPath(hash, h, j, cur, filled, slots).0)
    decreases |slots|
  {
    hide Subtree, AddPath, SlotsMatch, ZeroHash, Ancestor;
    if |slots| > 0 {
      var right := j % 2 == 1;
      var parent := if right then hash(slots[0], cur) else hash(cur, ZeroHash(hash, h));
      SlotsUncons(hash, base, h, j, slots);
      if right {
        LeafPathRight(hash, base, leaf, h, j);
      } else {
        LeafPathLeft(hash, base, leaf, h, j);
      }
      AncestorAbove(|base|, h);
      AddPathSlots(hash, base, leaf, h + 1, j / 2, parent, right && filled, slots[1..]);
      var above := AddPathCons(hash, h, j, cur, filled, slots, parent);
      if right {
        SlotsRight(hash, base, leaf, h, j, filled, slots[0], above);
      } else {
        SlotsCons(hash, base + [leaf], h, if filled then j + 1 else j, if filled then cur else slots[0], above);
      }
    } else {
      NoSlots(hash, base + [leaf], h, if filled then j + 1 else j, AddPath(hash, h, j, cur, filled, slots).0);
    }
  }

  lemma SlotsUncons(hash: Hasher, xs: seq<Digest>, h: nat, j: nat, slots: seq<Digest>)
    requires |slots| > 0 && SlotsMatch(hash, xs, h, j, slots)
    ensures j % 2 == 1 ==> slots[0] == Subtree(hash, xs, h, j - 1)
    ensures SlotsMatch(hash, xs, h + 1, j / 2, slots[1..])
  {
  }

  lemma NoSlots(hash: Hasher, xs: seq<Digest>, h: nat, j: nat, slots: seq<Digest>)
    requires |slots| == 0
    ensures SlotsMatch(hash, xs, h, j, slots)
  {
  }

  lemma AncestorAbove(i: nat, h: nat)
    ensures Ancestor(i, h + 1) == Ancestor(i, h) / 2
  {
  }

  lemma AddPathCons(hash: Hasher, h: nat, j: nat, cur: Digest, filled: bool, slots: seq<Digest>, parent: Digest)
    returns (above: seq<Digest>)
    requires |slots| > 0 && parent == if j % 2 == 1 then hash(slots[0], cur) else hash(cur, ZeroHash(hash, h))
    ensures above == AddPath(hash, h + 1, j / 2, parent, j % 2 == 1 && filled, slots[1..]).0
    ensures AddPath(hash, h, j, cur, filled, slots).0
         == [if j % 2 == 0 && filled then cur else slots[0]] + above
  {
    hide ZeroHash;
    above := AddPath(hash, h + 1, j / 2, parent, j % 2 == 1 && filled, slots[1..]).0;
  }

  /** A level where the path goes right keeps its slot: the left subtree has not changed. */
  lemma SlotsRight(hash: Hasher, base: seq<Digest>, leaf: Digest, h: nat, j: nat,
                   filled: bool, slot: Digest, above: seq<Digest>)
    requires j == Ancestor(|base|, h) && j % 2 == 1
    requires slot == Subtree(hash, base, h, j - 1)
    requires SlotsMatch(hash, base + [leaf], h + 1, if filled then j / 2 + 1 else j / 2, above)
    ensures SlotsMatch(hash, base + [leaf], h, if filled then j + 1 else j, [slot] + above)
  {
    AppendOffPath(hash, base, leaf, h, j - 1);
    SlotsCons(hash, base + [leaf], h, if filled then j + 1 else j, slot, above);
  }

  lemma SlotsCons(hash: Hasher, xs: seq<Digest>, h: nat, j: nat, slot: Digest, rest: seq<Digest>)
    requires j % 2 == 1 ==> slot == Subtree(hash, xs, h, j - 1)
    requires SlotsMatch(hash, xs, h + 1, j / 2, rest)
    ensures SlotsMatch(hash, xs, h, j, [slot] + rest)
  {
  }

  /** `done` is what remains of AddPath from level `h` on, with the slots already dealt with in front. */
  ghost predicate PathDone(hash: Hasher, done: (seq<Digest>, Digest), h: nat, j: nat, cur: Digest,
                           filled: bool, slots: seq<Digest>) {
    && h <= |slots|
    && done.0 == slots[..h] + AddPath(hash, h, j, cur, filled, slots[h..]).0
    && done.1 == AddPath(hash, h, j, cur, filled, slots[h..]).1
  }

  lemma PathStarts(hash: Hasher, j: nat, leaf: Digest, slots: seq<Digest>)
    ensures PathDone(hash, AddPath(hash, 0, j, leaf, true, slots), 0, j, leaf, true, slots)
  {
  }

  lemma PathAdvances(hash: Hasher, done: (seq<Digest>, Digest), h: nat, j: nat, cur: Digest,
                     filled: bool, slots: seq<Digest>)
    requires h < |slots| && PathDone(hash, done, h, j, cur, filled, slots)
    ensures j % 2 == 1 ==> PathDone(hash, done, h + 1, j / 2, hash(slots[h], cur), filled, slots)
    ensures j % 2 == 0 ==> PathDone(hash, done, h + 1, j / 2, hash(cur, ZeroHash(hash, h)), false,
                                    if filled then slots[h := cur] else slots)
  {
    hide ZeroHash;
    var here := slots[h..];
    assert here[0] == slots[h] && here[1..] == slots[h + 1..];
    var next := if j % 2 == 0 && filled then slots[h := cur] else slots;
    assert next[h + 1..] == here[1..];
    assert next[..h + 1] == slots[..h] + [next[h]];
  }

  lemma PathEnds(hash: Hasher, done: (seq<Digest>, Digest), h: nat, j: nat, cur: Digest,
                 filled: bool, slots: seq<Digest>)
    requires h == |slots| && PathDone(hash, done, h, j, cur, filled, slots)
    ensures done == (slots, cur)
  {
    assert slots[h..] == [] && slots[..h] + [] == slots;
    assert done == (done.0, done.1);
  }

  /** The new leaf's path goes right: the parent joins the stored left sibling. */
  lemma LeafPathRight(hash: Hasher, base: seq<Digest>, leaf: Digest, h: nat, j: nat)
    requires j == Ancestor(|base|, h) && j % 2 == 1
    ensures hash(Subtree(hash, base, h, j - 1), Subtree(hash, base + [leaf], h, j))
            == Subtree(hash, base + [leaf], h + 1, j / 2)
  {
    AppendOffPath(hash, base, leaf, h, j - 1);
    ParentOf(hash, base + [leaf], h, j);
  }

  /** The new leaf's path goes left: everything to its right is still zero. */
  lemma LeafPathLeft(hash: Hasher, base: seq<Digest>, leaf: Digest, h: nat, j: nat)
    requires j == Ancestor(|base|, h) && j % 2 == 0
    ensures hash(Subtree(hash, base + [leaf], h, j), ZeroHash(hash, h))
            == Subtree(hash, base + [leaf], h + 1, j / 2)
  {
    RightOfLastIsZero(hash, base, leaf, h);
    ParentOf(hash, base + [leaf], h, j);
  }

  lemma {:induction false} AncestorOfPow2(a: nat, k: nat)
    requires k <= a
    ensures Ancestor(Pow2(a), k) == Pow2(a - k)
  {
    if k > 0 {
      AncestorOfPow2(a, k - 1);
    }
  }

  lemma {:induction false} AncestorOfZero(k: nat)
    ensures Ancestor(0, k) == 0
  {
    if k > 0 {
      AncestorOfZero(k - 1);
    }
  }

  lemma {:induction false} NoSlotsForZero(hash: Hasher, xs: seq<Digest>, h: nat, slots: seq<Digest>)
    ensures SlotsMatch(hash, xs, h, 0, slots)
    decreases |slots|
  {
    if |slots| > 0 {
      NoSlotsForZero(hash, xs, h + 1, slots[1..]);
    }
  }

  /** Below `height`, the index passed to AddLeaf has the bits of the list the leaf joins. */
  lemma SameBitAsBase(xs: seq<Digest>, height: nat, index: nat, base: seq<Digest>, h: nat)
    requires |xs| <= Pow2(height) && |xs| <= TWO_32 && index == |xs| % TWO_32
    requires base == if |xs| == Pow2(height) || |xs| == TWO_32 then [] else xs
    requires h < height
    ensures Bit(index, h) == Bit(|base|, h)
  {
    AncestorOfZero(h);
    AncestorOfPow2(height, h);
  }

  lemma AddPathIsRight(hash: Hasher, xs: seq<Digest>, base: seq<Digest>, leaf: Digest, slots: seq<Digest>)
    requires SlotsMatch(hash, xs, 0, |xs|, slots)
    requires base == xs || base == []
    requires |base| < Pow2(|slots|)
    ensures AddPath(hash, 0, |base|, leaf, true, slots).1 == TreeRoot(hash, base + [leaf], |slots|)
    ensures base == xs ==>
              SlotsMatch(hash, xs + [leaf], 0, |xs| + 1, AddPath(hash, 0, |base|, leaf, true, slots).0)
  {
    hide AddPath, SlotsMatch, Pow2;
    if |base| == 0 {
      NoSlotsForZero(hash, base, 0, slots);
    }
    assert Subtree(hash, base + [leaf], 0, |base|) == leaf;
    AddPathRoot(hash, base, leaf, 0, |base|, leaf, true, slots, |slots|);
    AddPathSlots(hash, base, leaf, 0, |base|, leaf, true, slots);
  }

  /** The siblings a fresh tree stores are right for every set bit of the count, truncation aside. */
  lemma {:induction false} FreshSlotsAbove(hash: Hasher, xs: seq<Digest>, h: nat, j: nat, n: nat)
    requires |xs| < TWO_32 - 1 || (h > 0 && |xs| <= TWO_32)
    ensures SlotsMatch(hash, xs, h, j, ProofPath(hash, xs, h, j, n))
    decreases n
  {
    if n > 0 {
      ProofNodeIsSibling(hash, xs, h, j);
      FreshSlotsAbove(hash, xs, h + 1, j / 2, n - 1);
      assert ProofPath(hash, xs, h, j, n)[1..] == ProofPath(hash, xs, h + 1, j / 2, n - 1);
    }
  }

  /**
    The siblings a fresh tree starts with are right for every set bit of the count, with one
    exception: at 2^32 - 1 leaves slot 0 is the zero leaf whatever the last leaf is.
  */
  lemma FreshSlots(hash: Hasher, xs: seq<Digest>, height: nat)
    requires 0 < |xs| < TWO_32 && 1 <= height
    ensures SlotsMatch(hash, xs, 0, |xs|, MerkleProof(hash, xs, height, |xs|))
       <==> (|xs| < TWO_32 - 1 || xs[TWO_32 - 2] == ZERO)
  {
    if |xs| < TWO_32 - 1 {
      FreshSlotsAbove(hash, xs, 0, |xs|, height);
    } else {
      var slots := MerkleProof(hash, xs, height, |xs|);
      FreshSlotsAbove(hash, xs, 1, |xs| / 2, height - 1);
      assert slots[1..] == ProofPath(hash, xs, 1, |xs| / 2, height - 1);
      assert slots[0] == ProofNode(hash, xs, 0, |xs|) == ZERO;
      assert Subtree(hash, xs, 0, |xs| - 1) == xs[TWO_32 - 2];
    }
  }

  /** SlotsMatch, read slot by slot: bit k of n set means slot k is the left subtree at level k. */
  lemma {:induction false} SlotAt(hash: Hasher, xs: seq<Digest>, h: nat, j: nat, slots: seq<Digest>, k: nat, a: nat)
    requires SlotsMatch(hash, xs, h, j, slots)
    requires k < |slots| && a == Ancestor(j, k) && a % 2 == 1
    ensures slots[k] == Subtree(hash, xs, h + k, a - 1)
    decreases k
  {
    if k > 0 {
      AncestorOfHalf(j, k - 1);
      SlotAt(hash, xs, h + 1, j / 2, slots[1..], k - 1, a);
    }
  }

  lemma {:induction false} AncestorOfHalf(j: nat, k: nat)
    ensures Ancestor(j / 2, k) == Ancestor(j, k + 1)
  {
    if k > 0 {
      AncestorOfHalf(j, k - 1);
    }
  }

  /** Creates a tree over the initial leaves. */
  method NewL1InfoTree(hash: Hasher, height: nat, initial: seq<Digest>)
    returns (r: Result<L1InfoTree, TreeError>)
    ensures r.Ok? <==> 1 <= height && |initial| <= Pow2(height)
    ensures r.Ok? ==> fresh(r.value) && r.value.hash == hash && r.value.height == height
    ensures r.Ok? ==> r.value.HasZeroHashes() && r.value.count == |initial| % TWO_32
    ensures r.Ok? ==> r.value.currentRoot == TreeRoot(hash, initial, height)
    ensures r.Ok? && |initial| < TWO_32 ==>
              (r.value.Represents(initial) <==> (|initial| < TWO_32 - 1 || initial[TWO_32 - 2] == ZERO))
    ensures r.Err? ==> r.error == MoreThanOneRoot
  {
    var zeroHashes := GenerateZeroHashes(hash, height);
    var mt := new L1InfoTree(hash, height, zeroHashes, |initial| % TWO_32);
    var init := mt.InitSiblings(initial);
    match init {
      case Err(e) => return Err(e);
      case Ok(v) =>
        mt.siblings, mt.currentRoot := v.0, v.1;
        if |initial| == 0 {
          NoSlotsForZero(hash, initial, 0, mt.siblings);
        } else if |initial| < TWO_32 {
          FreshSlots(hash, initial, height);
        }
        return Ok(mt);
    }
  }

  lemma SlotsAtSetBits(hash: Hasher, xs: seq<Digest>, slots: seq<Digest>)
    requires SlotsMatch(hash, xs, 0, |xs|, slots)
    ensures forall k: nat | k < |slots| && Ancestor(|xs|, k) % 2 == 1 :: slots[k] == Subtree(hash, xs, k, Ancestor(|xs|, k) - 1)
  {
    forall k: nat | k < |slots| && Ancestor(|xs|, k) % 2 == 1
      ensures slots[k] == Subtree(hash, xs, k, Ancestor(|xs|, k) - 1)
    {
      SlotAt(hash, xs, 0, |xs|, slots, k, Ancestor(|xs|, k));
    }
  }

  /** Growing refines rebuilding: the tree on xs grown by ys, and the builder on xs + ys, agree. */
  method GrowAndRebuild(hash: Hasher, height: nat, xs: seq<Digest>, ys: seq<Digest>)
    returns (grown: Digest, rebuilt: Digest, siblings: seq<Digest>)
    requires 1 <= height && |xs| + |ys| <= Pow2(height)
    requires |xs| + |ys| < TWO_32 && |xs| < TWO_32 - 1
    ensures grown == rebuilt == TreeRoot(hash, xs + ys, height)
    ensures |siblings| == height
    ensures SlotsMatch(hash, xs + ys, 0, |xs| + |ys|, siblings)
    // at every set bit k of the number of leaves, the root of the complete subtree to the left
    ensures forall k: nat | k < height && Ancestor(|xs| + |ys|, k) % 2 == 1 ::
              siblings[k] == Subtree(hash, xs + ys, k, Ancestor(|xs| + |ys|, k) - 1)
  {
    var created := NewL1InfoTree(hash, height, xs);
    var mt := created.value;
    assert xs + ys[..0] == xs;
    for i := 0 to |ys|
      invariant mt.hash == hash && mt.height == height && mt.Represents(xs + ys[..i])
      invariant fresh(mt)
    {
      var added := mt.AddLeaf(mt.count, ys[i], xs + ys[..i]);
      assert xs + ys[..i] + [ys[i]] == xs + ys[..i + 1];
    }
    assert ys[..|ys|] == ys;
    var built := mt.BuildL1InfoRoot(xs + ys);
    SlotsAtSetBits(hash, xs + ys, mt.siblings);
    return mt.currentRoot, built.value, mt.siblings;
  }
}
