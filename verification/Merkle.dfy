/** Merkle roots and proofs over lists of leaves; an odd node is carried up, not duplicated
    (src/primitives/block.cpp:79-124). */
module Merkle {
  import opened Types
  import opened Arith

  type NodeHash = (Hash, Hash) -> Hash

  ghost predicate Injective(node: NodeHash) {
    forall a, b, c, d :: node(a, b) == node(c, d) ==> a == c && b == d
  }

  /** One level up: pairs are hashed, an odd last node is carried. */
  function Level(node: NodeHash, l: seq<Hash>): (up: seq<Hash>)
    ensures |up| == (|l| + 1) / 2
  {
    if |l| < 2 then l else [node(l[0], l[1])] + Level(node, l[2..])
  }

  function Root(node: NodeHash, l: seq<Hash>): Hash
    requires l != []
    decreases |l|
  {
    if |l| == 1 then l[0] else Root(node, Level(node, l))
  }

  /** The `k`-th node of the level above. */
  lemma {:induction false} LevelAt(node: NodeHash, l: seq<Hash>, k: nat)
    requires k < (|l| + 1) / 2
    ensures Level(node, l)[k] == if 2 * k + 1 < |l| then node(l[2 * k], l[2 * k + 1]) else l[2 * k]
  {
    if k > 0 { LevelAt(node, l[2..], k - 1); }
  }

  /** `index ^ 1`. */
  function Sibling(index: nat): nat { if index % 2 == 0 then index + 1 else index - 1 }

  lemma SiblingBits(i: bv64)
    ensures i & 1 == 0 ==> i ^ 1 == i + 1
    ensures i & 1 == 1 ==> i ^ 1 == i - 1
  {}

  function Proof(node: NodeHash, l: seq<Hash>, index: nat): seq<Hash>
    decreases |l|
  {
    if |l| <= 1 then []
    else
      var sib := Sibling(index);
      [if sib < |l| then l[sib] else 0] + Proof(node, Level(node, l), index / 2)
  }

  /** A node and its sibling in their order. */
  function Join(node: NodeHash, index: nat, h: Hash, sib: Hash): Hash
  {
    if index % 2 == 1 then node(sib, h) else node(h, sib)
  }

  /** Climbing from `h` at `index` of a level of `n` nodes with the given siblings ends at `root`. */
  predicate Climbs(node: NodeHash, h: Hash, index: nat, n: nat, proof: seq<Hash>, root: Hash)
    decreases n
  {
    if n <= 1 then proof == [] && h == root
    else if proof == [] then false
    else if Sibling(index) < n then
      Climbs(node, Join(node, index, h, proof[0]), index / 2, (n + 1) / 2, proof[1..], root)
    else
      proof[0] == 0 && Climbs(node, h, index / 2, (n + 1) / 2, proof[1..], root)
  }

  // ---------------------------------------------------------------- the loops

  /** The inner loop: one level. */
  method NextLevel(node: NodeHash, l: seq<Hash>) returns (next: seq<Hash>)
    ensures next == Level(node, l)
  {
    next := [];
    var i := 0;
    while i < |l|
      invariant 0 <= i <= |l| + 1 && (i > |l| ==> next == Level(node, l))
      invariant i <= |l| ==> next + Level(node, l[i..]) == Level(node, l)
      decreases |l| - i
    {
      var rest := l[i..];
      if i + 1 < |l| {
        assert rest[2..] == l[i + 2..];
        next := next + [node(l[i], l[i + 1])];
      } else {
        assert rest == [l[i]];
        next := next + [l[i]];
      }
      i := i + 2;
    }
  }

  /** `merkle_root`. */
  method MerkleRoot(node: NodeHash, leaves: seq<Hash>) returns (root: Hash)
    ensures root == if leaves == [] then 0 else Root(node, leaves)
  {
    if leaves == [] { return 0; }
    var l := leaves;
    while |l| > 1
      invariant l != [] && Root(node, l) == Root(node, leaves)
      decreases |l|
    {
      l := NextLevel(node, l);
    }
    root := l[0];
  }

  /** `merkle_proof`. */
  method MerkleProof(node: NodeHash, leaves: seq<Hash>, index: nat) returns (proof: seq<Hash>)
    ensures proof == Proof(node, leaves, index)
  {
    proof := [];
    var l, at := leaves, index;
    while |l| > 1
      invariant proof + Proof(node, l, at) == Proof(node, leaves, index)
      decreases |l|
    {
      var sib := Sibling(at);
      proof := proof + [if sib < |l| then l[sib] else 0];
      l := NextLevel(node, l);
      at := at / 2;
    }
  }

  /** `merkle_verify`. */
  method MerkleVerify(node: NodeHash, leaf: Hash, index: nat, count: nat, proof: seq<Hash>,
                      root: Hash) returns (ok: bool)
    ensures ok <==> index < count && Climbs(node, leaf, index, count, proof, root)
  {
    if index >= count { return false; }
    var h: Hash := leaf;
    var at, level, n := index, 0, count;
    while n > 1
      invariant level <= |proof| && at < n
      invariant Climbs(node, h, at, n, proof[level..], root) == Climbs(node, leaf, index, count, proof, root)
      decreases n
    {
      if level >= |proof| { return false; }
      assert proof[level..][1..] == proof[level + 1..];
      if Sibling(at) < n {
        h := Join(node, at, h, proof[level]);
      } else if proof[level] != 0 {
        return false;
      }
      at, n, level := at / 2, (n + 1) / 2, level + 1;
    }
    ok := level == |proof| && h == root;
  }

  // ---------------------------------------------------------------- proofs

  /** Completeness and soundness in one: for a list of leaves, a leaf at an index is accepted exactly when it
      is the leaf at that index and the proof is the generated one. */
  lemma {:induction false} ProofIff(node: NodeHash, l: seq<Hash>, index: nat, leaf: Hash, proof: seq<Hash>)
    requires Injective(node) && index < |l|
    ensures Climbs(node, leaf, index, |l|, proof, Root(node, l)) <==> leaf == l[index] && proof == Proof(node, l, index)
    decreases |l|
  {
    hide Level, Root, Join;
    ProofSteps(node, l, index);
    if |l| > 1 && proof != [] {
      var up, k, sib := Level(node, l), index / 2, Sibling(index);
      assert proof == [proof[0]] + proof[1..];
      var first := if sib < |l| then l[sib] else 0;
      var h := if sib < |l| then Join(node, index, leaf, proof[0]) else leaf;
      ProofIff(node, up, k, h, proof[1..]);
      assert proof == [first] + Proof(node, up, k) <==> proof[0] == first && proof[1..] == Proof(node, up, k);
      JoinInjective(node, index, leaf, proof[0], l[index], first);
    }
  }

  lemma JoinInjective(node: NodeHash, index: nat, a: Hash, b: Hash, c: Hash, d: Hash)
    requires Injective(node)
    ensures Join(node, index, a, b) == Join(node, index, c, d) <==> a == c && b == d
  {}

  /** How root, proof and the node above unfold. */
  lemma ProofSteps(node: NodeHash, l: seq<Hash>, index: nat)
    requires index < |l|
    ensures if |l| == 1 then Root(node, l) == l[0] && Proof(node, l, index) == []
            else
              var up, k, sib := Level(node, l), index / 2, Sibling(index);
              && Root(node, l) == Root(node, up)
              && Proof(node, l, index) == [if sib < |l| then l[sib] else 0] + Proof(node, up, k)
              && up[k] == if sib < |l| then Join(node, index, l[index], l[sib]) else l[index]
  {
    hide Level;
    if |l| > 1 { NodeAbove(node, l, index); }
  }

  lemma NodeAbove(node: NodeHash, l: seq<Hash>, index: nat)
    requires index < |l| && |l| > 1
    ensures var sib := Sibling(index);
            Level(node, l)[index / 2] == if sib < |l| then Join(node, index, l[index], l[sib]) else l[index]
  {
    hide Level;
    var k := index / 2;
    LevelAt(node, l, k);
    if index % 2 == 0 { assert index == 2 * k; } else { assert index == 2 * k + 1; }
  }

  /** Completeness needs no assumption on the hash. */
  lemma {:induction false} ProofVerifies(node: NodeHash, l: seq<Hash>, index: nat)
    requires index < |l|
    ensures Climbs(node, l[index], index, |l|, Proof(node, l, index), Root(node, l))
    decreases |l|
  {
    hide Level, Root, Join, Proof;
    ProofSteps(node, l, index);
    if |l| > 1 {
      var up, k, p := Level(node, l), index / 2, Proof(node, l, index);
      assert p[1..] == Proof(node, up, k);
      ProofVerifies(node, up, k);
    }
  }

  // ---------------------------------------------------------------- injectivity of the root

  /** The tree a root was computed over. */
  datatype Shape = Leaf(h: Hash) | Node(left: Shape, right: Shape)

  function HashOf(node: NodeHash, t: Shape): Hash {
    match t
    case Leaf(h) => h
    case Node(a, b) => node(HashOf(node, a), HashOf(node, b))
  }

  function LeavesOf(t: Shape): seq<Hash> {
    match t
    case Leaf(h) => [h]
    case Node(a, b) => LeavesOf(a) + LeavesOf(b)
  }

  /** No leaf is the hash of an inner node. */
  ghost predicate NoInner(node: NodeHash, l: seq<Hash>) {
    forall i, a, b :: 0 <= i < |l| ==> node(a, b) != l[i]
  }

  lemma {:induction false} ShapeUnique(node: NodeHash, s: Shape, t: Shape)
    requires Injective(node) && NoInner(node, LeavesOf(s)) && NoInner(node, LeavesOf(t))
               && HashOf(node, s) == HashOf(node, t)
    ensures s == t
    decreases s
  {
    LeafIsNoNode(node, s, t);
    LeafIsNoNode(node, t, s);
    if s.Node? && t.Node? {
      NoInnerParts(node, LeavesOf(s.left), LeavesOf(s.right));
      NoInnerParts(node, LeavesOf(t.left), LeavesOf(t.right));
      ShapeUnique(node, s.left, t.left);
      ShapeUnique(node, s.right, t.right);
    }
  }

  lemma LeafIsNoNode(node: NodeHash, s: Shape, t: Shape)
    requires NoInner(node, LeavesOf(s))
    ensures s.Leaf? && t.Node? ==> HashOf(node, s) != HashOf(node, t)
  {
    if s.Leaf? { assert LeavesOf(s)[0] == s.h; }
  }

  lemma NoInnerParts(node: NodeHash, a: seq<Hash>, b: seq<Hash>)
    requires NoInner(node, a + b)
    ensures NoInner(node, a) && NoInner(node, b)
  {
    forall i, x, y | 0 <= i < |a| ensures node(x, y) != a[i] { assert (a + b)[i] == a[i]; }
    forall i, x, y | 0 <= i < |b| ensures node(x, y) != b[i] { assert (a + b)[|a| + i] == b[i]; }
  }

  function Pairs(ts: seq<Shape>): (up: seq<Shape>)
    ensures |up| == (|ts| + 1) / 2
  {
    if |ts| < 2 then ts else [Node(ts[0], ts[1])] + Pairs(ts[2..])
  }

  function Build(ts: seq<Shape>): Shape
    requires ts != []
    decreases |ts|
  {
    if |ts| == 1 then ts[0] else Build(Pairs(ts))
  }

  function Hashes(node: NodeHash, ts: seq<Shape>): seq<Hash>
  {
    seq(|ts|, i requires 0 <= i < |ts| => HashOf(node, ts[i]))
  }

  function AllLeaves(ts: seq<Shape>): seq<Hash> { if ts == [] then [] else LeavesOf(ts[0]) + AllLeaves(ts[1..]) }

  lemma {:induction false} PairsLevel(node: NodeHash, ts: seq<Shape>)
    ensures Hashes(node, Pairs(ts)) == Level(node, Hashes(node, ts))
  {
    if |ts| >= 2 {
      var top, rest := Node(ts[0], ts[1]), Pairs(ts[2..]);
      PairsLevel(node, ts[2..]);
      assert Hashes(node, ts)[2..] == Hashes(node, ts[2..]);
      assert Hashes(node, [top] + rest) == [HashOf(node, top)] + Hashes(node, rest);
    }
  }

  lemma {:induction false} PairsLeaves(ts: seq<Shape>)
    ensures AllLeaves(Pairs(ts)) == AllLeaves(ts)
  {
    if |ts| >= 2 {
      var top, rest := Node(ts[0], ts[1]), Pairs(ts[2..]);
      PairsLeaves(ts[2..]);
      assert ([top] + rest)[1..] == rest;
      assert ts[1..][1..] == ts[2..];
      assert AllLeaves(ts) == LeavesOf(ts[0]) + (LeavesOf(ts[1]) + AllLeaves(ts[2..]));
    }
  }

  lemma {:induction false} BuildRoot(node: NodeHash, ts: seq<Shape>)
    requires ts != []
    ensures HashOf(node, Build(ts)) == Root(node, Hashes(node, ts))
    ensures LeavesOf(Build(ts)) == AllLeaves(ts)
    decreases |ts|
  {
    if |ts| == 1 {
      assert AllLeaves(ts[1..]) == [];
    } else {
      PairsLevel(node, ts);
      PairsLeaves(ts);
      BuildRoot(node, Pairs(ts));
    }
  }

  function Leaves(l: seq<Hash>): seq<Shape> { seq(|l|, i requires 0 <= i < |l| => Leaf(l[i])) }

  lemma {:induction false} LeavesBack(node: NodeHash, l: seq<Hash>)
    ensures AllLeaves(Leaves(l)) == l && Hashes(node, Leaves(l)) == l
  {
    if l != [] {
      LeavesBack(node, l[1..]);
      assert Leaves(l)[1..] == Leaves(l[1..]);
    }
  }

  /** Lists of any lengths with the same root are the same list, when no leaf is an inner hash. */
  lemma RootInjective(node: NodeHash, a: seq<Hash>, b: seq<Hash>)
    requires Injective(node) && a != [] && b != [] && NoInner(node, a) && NoInner(node, b)
    requires Root(node, a) == Root(node, b)
    ensures a == b
  {
    LeavesBack(node, a);
    LeavesBack(node, b);
    BuildRoot(node, Leaves(a));
    BuildRoot(node, Leaves(b));
    ShapeUnique(node, Build(Leaves(a)), Build(Leaves(b)));
  }

  /** The assumption on leaves is needed: a leaf equal to an inner hash stands for the pair below it. */
  lemma InnerLeafCollides(node: NodeHash, a: Hash, b: Hash)
    ensures Root(node, [a, b]) == Root(node, [node(a, b)]) && [a, b] != [node(a, b)]
  {
    assert Level(node, [a, b]) == [node(a, b)] + Level(node, [a, b][2..]);
    assert [a, b][2..] == [];
    assert |[a, b]| == 2 && |[node(a, b)]| == 1;
  }

  // ---------------------------------------------------------------- from the top

  /** One level up, left part and right part on their own. */
  lemma LevelSplits(node: NodeHash, l: seq<Hash>, h: nat)
    requires 2 * h <= |l|
    ensures Level(node, l) == Level(node, l[..2 * h]) + Level(node, l[2 * h..])
    ensures |Level(node, l[..2 * h])| == h
  {
    hide Level;
    var up, left, right := Level(node, l), Level(node, l[..2 * h]), Level(node, l[2 * h..]);
    assert |left| == h && |up| == h + |right|;
    forall j | 0 <= j < |up| ensures up[j] == (left + right)[j] { LevelSplitsAt(node, l, h, j); }
  }

  lemma LevelSplitsAt(node: NodeHash, l: seq<Hash>, h: nat, j: nat)
    requires 2 * h <= |l| && j < (|l| + 1) / 2
    ensures if j < h then |Level(node, l[..2 * h])| == h && Level(node, l)[j] == Level(node, l[..2 * h])[j]
            else j - h < |Level(node, l[2 * h..])| && Level(node, l)[j] == Level(node, l[2 * h..])[j - h]
  {
    hide Level;
    LevelAt(node, l, j);
    if j < h {
      LevelAt(node, l[..2 * h], j);
    } else {
      assert |l[2 * h..]| == |l| - 2 * h;
      LevelAt(node, l[2 * h..], j - h);
      assert l[2 * h..][2 * (j - h)] == l[2 * j];
      if 2 * j + 1 < |l| { assert l[2 * h..][2 * (j - h) + 1] == l[2 * j + 1]; }
    }
  }

  lemma RootOfLevel(node: NodeHash, l: seq<Hash>)
    requires l != []
    ensures Root(node, Level(node, l)) == Root(node, l)
  {}

  /** The root of more than one leaf, from the top: the left subtree is full, with the largest power of two below the
      number of leaves, and the rest is on the right. */
  lemma {:induction false} RootSplits(node: NodeHash, l: seq<Hash>, d: nat)
    requires Pow2(d) < |l| <= 2 * Pow2(d)
    ensures Root(node, l) == node(Root(node, l[..Pow2(d)]), Root(node, l[Pow2(d)..]))
    decreases d
  {
    var k := Pow2(d);
    if d == 0 {
      assert l[2..] == [] && Level(node, l) == [node(l[0], l[1])];
    } else {
      var left, right := l[..k], l[k..];
      LevelSplits(node, l, Pow2(d - 1));
      RootSplits(node, Level(node, l), d - 1);
      var up := Level(node, l);
      assert |Level(node, left)| == Pow2(d - 1);
      assert up[..Pow2(d - 1)] == Level(node, left) && up[Pow2(d - 1)..] == Level(node, right);
      RootOfLevel(node, left);
      RootOfLevel(node, right);
    }
  }

  lemma {:induction false} ProofLength(node: NodeHash, l: seq<Hash>, index: nat, d: nat)
    requires |l| <= Pow2(d)
    ensures |Proof(node, l, index)| <= d
    decreases d
  {
    if |l| > 1 { ProofLength(node, Level(node, l), index / 2, d - 1); }
  }

  function Zeros(n: nat): seq<Hash> { seq(n, _ => 0) }

  /** The proof from the top: within its own subtree first, zeros where that is not as high as the other, and then the
      root of the other subtree. */
  lemma {:induction false} ProofSplits(node: NodeHash, l: seq<Hash>, index: nat, d: nat)
    requires Pow2(d) < |l| <= 2 * Pow2(d) && index < |l|
    ensures var k := Pow2(d); var left, right := l[..k], l[k..];
            if index < k then Proof(node, l, index) == Proof(node, left, index) + [Root(node, right)]
            else
              && |Proof(node, right, index - k)| <= d
              && Proof(node, l, index) ==
                 Proof(node, right, index - k) + Zeros(d - |Proof(node, right, index - k)|) + [Root(node, left)]
    decreases d
  {
    var k := Pow2(d);
    var left, right := l[..k], l[k..];
    if index >= k { ProofLength(node, right, index - k, d); }
    if d == 0 {
      assert Proof(node, l, index) == [l[1 - index]] + Proof(node, Level(node, l), 0);
    } else {
      ProofDescends(node, l, index, d);
    }
  }

  lemma ProofDescends(node: NodeHash, l: seq<Hash>, index: nat, d: nat)
    requires d > 0 && Pow2(d) < |l| <= 2 * Pow2(d) && index < |l|
    ensures var k := Pow2(d); var left, right := l[..k], l[k..];
            if index < k then Proof(node, l, index) == Proof(node, left, index) + [Root(node, right)]
            else
              && |Proof(node, right, index - k)| <= d
              && Proof(node, l, index) ==
                 Proof(node, right, index - k) + Zeros(d - |Proof(node, right, index - k)|) + [Root(node, left)]
    decreases d, 0
  {
    hide Level, Root, Proof, Zeros;
    var k, h := Pow2(d), Pow2(d - 1);
    var left, right, up := l[..k], l[k..], Level(node, l);
    LevelSplits(node, l, h);
    assert up[..h] == Level(node, left) && up[h..] == Level(node, right);
    RootOfLevel(node, left);
    RootOfLevel(node, right);
    ProofSplits(node, up, index / 2, d - 1);
    FirstStep(node, l, index);
    if index < k {
      ProofLeft(node, l, index, k);
    } else {
      ProofLength(node, right, index - k, d);
      ProofRight(node, l, index, d);
    }
  }

  lemma FirstStep(node: NodeHash, l: seq<Hash>, index: nat)
    requires |l| > 1 && index < |l|
    ensures Proof(node, l, index) ==
            [if Sibling(index) < |l| then l[Sibling(index)] else 0] + Proof(node, Level(node, l), index / 2)
  {}

  lemma ProofLeft(node: NodeHash, l: seq<Hash>, index: nat, k: nat)
    requires 1 < k < |l| && k % 2 == 0 && index < k
    ensures [if Sibling(index) < |l| then l[Sibling(index)] else 0] + Proof(node, Level(node, l[..k]), index / 2)
            == Proof(node, l[..k], index)
  {
    hide Proof, Level;
    FirstStep(node, l[..k], index);
    assert Sibling(index) < k;
  }

  lemma PowEven(d: nat)
    requires d > 0
    ensures Pow2(d) % 2 == 0
  {}

  lemma LevelOfOne(node: NodeHash, l: seq<Hash>)
    requires |l| == 1
    ensures Level(node, l) == l && forall i :: Proof(node, l, i) == []
  {}

  lemma ProofRight(node: NodeHash, l: seq<Hash>, index: nat, d: nat)
    requires d > 0 && Pow2(d) < |l| <= 2 * Pow2(d) && Pow2(d) <= index < |l|
    requires var right, i := l[Pow2(d)..], index - Pow2(d);
             && |Proof(node, right, i)| <= d && |Proof(node, Level(node, right), i / 2)| <= d - 1
    ensures var right, i := l[Pow2(d)..], index - Pow2(d);
            [if Sibling(index) < |l| then l[Sibling(index)] else 0]
              + (Proof(node, Level(node, right), i / 2) + Zeros(d - 1 - |Proof(node, Level(node, right), i / 2)|))
            == Proof(node, right, i) + Zeros(d - |Proof(node, right, i)|)
  {
    hide Level, Pow2, Proof;
    PowEven(d);
    var k := Pow2(d);
    var right, i := l[k..], index - k;
    assert Sibling(index) == k + Sibling(i);
    if |right| == 1 {
      LevelOfOne(node, right);
      assert i == 0 && Level(node, right) == right;
      assert [0] + Zeros(d - 1) == Zeros(d);
    } else {
      var first := if Sibling(i) < |right| then right[Sibling(i)] else 0;
      FirstStep(node, right, i);
    }
  }
}
