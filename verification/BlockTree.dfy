/** The header tree: ancestors by `prev`, the skip list, descendants, and the candidate order
    (src/chain/chainstate.cpp:87-105, 126-141; src/chain/chainstate.h:29-45, 167-174). */
module BlockTree {
  import opened Types

  /** The part of a `BlockIndex` that never changes once the header is added. */
  datatype Node = Node(prev: Option<Hash>, height: nat, work: nat, skip: Option<Hash>, seqNo: nat)

  type Tree = map<Hash, Node>

  ghost predicate TreeOk(t: Tree, root: Hash) {
    && root in t && t[root].prev == None && t[root].height == 0
    && (forall x {:trigger t[x].prev} :: x in t && x != root ==>
          t[x].prev.Some? && t[x].prev.value in t && t[x].height == t[t[x].prev.value].height + 1)
  }

  /** The ancestor of `x` at height `h`, walking `prev`. */
  ghost function Up(t: Tree, root: Hash, x: Hash, h: nat): (a: Hash)
    requires TreeOk(t, root) && x in t && h <= t[x].height
    ensures a in t && t[a].height == h
    decreases t[x].height
  {
    if t[x].height == h then x else Up(t, root, t[x].prev.value, h)
  }

  lemma {:induction false} UpUp(t: Tree, root: Hash, x: Hash, g: nat, h: nat)
    requires TreeOk(t, root) && x in t && h <= g <= t[x].height
    ensures Up(t, root, Up(t, root, x, g), h) == Up(t, root, x, h)
    decreases t[x].height
  {
    if t[x].height != g { UpUp(t, root, t[x].prev.value, g, h); }
  }

  /** Adding nodes does not move old ancestors. */
  lemma {:induction false} UpStable(t: Tree, t': Tree, root: Hash, x: Hash, h: nat)
    requires TreeOk(t, root) && TreeOk(t', root) && x in t && h <= t[x].height
    requires forall y :: y in t ==> y in t' && t'[y] == t[y]
    ensures Up(t', root, x, h) == Up(t, root, x, h)
    decreases t[x].height
  {
    if t[x].height != h { UpStable(t, t', root, t[x].prev.value, h); }
  }

  ghost predicate IsAncestor(t: Tree, root: Hash, a: Hash, x: Hash)
    requires TreeOk(t, root)
  {
    a in t && x in t && t[a].height <= t[x].height && Up(t, root, x, t[a].height) == a
  }

  lemma AncestorOfParent(t: Tree, root: Hash, a: Hash, x: Hash)
    requires TreeOk(t, root) && IsAncestor(t, root, a, x) && a != x
    ensures x != root && IsAncestor(t, root, a, t[x].prev.value)
  {}

  // ---------------------------------------------------------------- the active chain

  ghost predicate ChainOk(t: Tree, root: Hash, chain: seq<Hash>) {
    && chain != [] && chain[0] == root
    && (forall i :: 0 <= i < |chain| ==> chain[i] in t && t[chain[i]].height == i)
    && (forall i :: 0 < i < |chain| ==> t[chain[i]].prev == Some(chain[i - 1]))
  }

  predicate InChain(t: Tree, chain: seq<Hash>, x: Hash) {
    x in t && t[x].height < |chain| && chain[t[x].height] == x
  }

  /** The shortcut of `ancestor`: on the active chain, ancestors are read off by height. */
  lemma {:induction false} ChainUp(t: Tree, root: Hash, chain: seq<Hash>, j: nat, i: nat)
    requires TreeOk(t, root) && ChainOk(t, root, chain) && i <= j < |chain|
    ensures Up(t, root, chain[j], i) == chain[i]
    decreases j
  {
    if i < j { ChainUp(t, root, chain, j - 1, i); }
  }

  // ---------------------------------------------------------------- the skip list

  /** `n & (n - 1)`: the lowest set bit cleared. */
  function InvertLowestOne(n: nat): (m: nat)
    ensures n == 0 ==> m == 0
    ensures n > 0 ==> m < n
  {
    if n == 0 then 0
    else if n % 2 == 1 then n - 1
    else 2 * InvertLowestOne(n / 2)
  }

  /** The same recurrence holds of the machine operation. */
  lemma InvertLowestOneBits(x: bv64)
    ensures x & 1 == 1 ==> x & (x - 1) == x - 1
    ensures x & 1 == 0 && x != 0 ==> x & (x - 1) == ((x >> 1) & ((x >> 1) - 1)) << 1
  {}

  function SkipHeight(h: nat): (s: nat)
    ensures h > 0 ==> s < h
  {
    if h < 2 then 0
    else if h % 2 == 1 then InvertLowestOne(InvertLowestOne(h - 1)) + 1
    else InvertLowestOne(h)
  }

  ghost predicate SkipsOk(t: Tree, root: Hash)
    requires TreeOk(t, root)
  {
    forall x :: x in t && x != root ==> t[x].skip == Some(Up(t, root, x, SkipHeight(t[x].height)))
  }

  /** Walking skip pointers and parents as the code chooses between them gives the same ancestor as
      walking parents alone. */
  method WalkUp(t: Tree, root: Hash, b: Hash, height: nat) returns (walk: Hash)
    requires TreeOk(t, root) && SkipsOk(t, root) && b in t && height <= t[b].height
    ensures walk == Up(t, root, b, height)
  {
    walk := b;
    var hw := t[b].height;
    while hw > height
      invariant height <= hw <= t[b].height
      invariant walk in t && t[walk].height == hw && walk == Up(t, root, b, hw)
    {
      UpUp(t, root, b, hw, hw - 1);
      var hs, hsp := SkipHeight(hw), SkipHeight(hw - 1);
      var sk := t[walk].skip;
      if sk.Some? && (hs == height || (hs > height && !(hsp < hs - 2 && hsp >= height))) {
        UpUp(t, root, b, hw, hs);
        walk, hw := sk.value, hs;
      } else {
        walk, hw := t[walk].prev.value, hw - 1;
      }
    }
  }

  /** `ancestor`: nothing above `b` or below genesis, the chain shortcut, else the skip walk. */
  method Ancestor(t: Tree, root: Hash, chain: seq<Hash>, b: Hash, height: int) returns (r: Option<Hash>)
    requires TreeOk(t, root) && SkipsOk(t, root) && ChainOk(t, root, chain) && b in t
    ensures r == if height > t[b].height || height < 0 then None else Some(Up(t, root, b, height))
  {
    if height > t[b].height || height < 0 { return None; }
    if InChain(t, chain, b) {
      ChainUp(t, root, chain, t[b].height, height);
      return Some(chain[height]);
    }
    var walk := WalkUp(t, root, b, height);
    r := Some(walk);
  }

  /** The last common block of the active chain and the one below `cand`. */
  method FindFork(t: Tree, root: Hash, chain: seq<Hash>, cand: Hash) returns (fork: Hash)
    requires TreeOk(t, root) && SkipsOk(t, root) && ChainOk(t, root, chain) && cand in t
    ensures IsAncestor(t, root, fork, cand) && InChain(t, chain, fork)
    ensures forall y :: IsAncestor(t, root, y, cand) && InChain(t, chain, y) ==> t[y].height <= t[fork].height
  {
    var h := if t[cand].height < |chain| then t[cand].height else |chain| - 1;
    var a := Ancestor(t, root, chain, cand, h);
    fork := a.value;
    while !InChain(t, chain, fork)
      invariant IsAncestor(t, root, fork, cand) && t[fork].height < |chain|
      invariant forall y :: IsAncestor(t, root, y, cand) && InChain(t, chain, y) ==> t[y].height <= t[fork].height
      decreases t[fork].height
    {
      UpUp(t, root, cand, t[fork].height, t[fork].height - 1);
      fork := t[fork].prev.value;
    }
  }

  /** The blocks above height `h`, up to `cand`. */
  method PathTo(t: Tree, root: Hash, cand: Hash, h: nat) returns (path: seq<Hash>)
    requires TreeOk(t, root) && cand in t && h <= t[cand].height
    ensures |path| == t[cand].height - h
    ensures forall i :: 0 <= i < |path| ==> path[i] == Up(t, root, cand, h + 1 + i)
  {
    path := [];
    var w := cand;
    while t[w].height != h
      invariant h <= t[cand].height && IsAncestor(t, root, w, cand) && h <= t[w].height
      invariant |path| == t[cand].height - t[w].height
      invariant forall i :: 0 <= i < |path| ==> path[i] == Up(t, root, cand, t[w].height + 1 + i)
      decreases t[w].height
    {
      UpUp(t, root, cand, t[w].height, t[w].height - 1);
      path := [w] + path;
      w := t[w].prev.value;
    }
  }

  // ---------------------------------------------------------------- growing the tree

  ghost predicate ChildrenOk(t: Tree, children: map<Hash, seq<Hash>>) {
    && children.Keys == t.Keys
    && (forall p :: p in t ==> KidsOk(t, p, children[p]))
  }

  /** `kids` lists the children of `p`, each once. */
  ghost predicate KidsOk(t: Tree, p: Hash, kids: seq<Hash>) {
    && (forall c {:trigger c in kids} :: c in kids <==> c in t && t[c].prev == Some(p))
    && NoRepeats(kids)
  }

  ghost predicate NoRepeats(s: seq<Hash>) { forall i, j :: 0 <= i < j < |s| ==> s[i] != s[j] }

  function AddChild(children: map<Hash, seq<Hash>>, p: Hash, x: Hash): map<Hash, seq<Hash>>
    requires p in children
  {
    children[p := children[p] + [x]][x := []]
  }

  lemma AddNodeTree(t: Tree, root: Hash, p: Hash, x: Hash, n: Node)
    requires TreeOk(t, root) && p in t && x !in t && n.prev == Some(p) && n.height == t[p].height + 1
    ensures TreeOk(t[x := n], root)
  {}

  /** `add_index` sets the skip pointer right. */
  lemma AddNodeSkips(t: Tree, root: Hash, p: Hash, x: Hash, n: Node)
    requires TreeOk(t, root) && SkipsOk(t, root) && TreeOk(t[x := n], root)
    requires p in t && x !in t && n.prev == Some(p) && n.height == t[p].height + 1
    requires n.skip == Some(Up(t, root, p, SkipHeight(n.height)))
    ensures SkipsOk(t[x := n], root)
  {
    var t' := t[x := n];
    forall y | y in t' && y != root
      ensures t'[y].skip == Some(Up(t', root, y, SkipHeight(t'[y].height)))
    {
      if y == x {
        UpStable(t, t', root, p, SkipHeight(n.height));
      } else {
        UpStable(t, t', root, y, SkipHeight(t[y].height));
      }
    }
  }

  lemma AddNodeChildren(t: Tree, root: Hash, children: map<Hash, seq<Hash>>, p: Hash, x: Hash, n: Node)
    requires TreeOk(t, root) && ChildrenOk(t, children) && p in t && x !in t && n.prev == Some(p)
    ensures ChildrenOk(t[x := n], AddChild(children, p, x))
  {
    forall y | y in t ensures t[y].prev != Some(x) {}
    GrowChildren(t, children, p, x, n);
  }

  lemma GrowChildren(t: Tree, children: map<Hash, seq<Hash>>, p: Hash, x: Hash, n: Node)
    requires ChildrenOk(t, children) && p in t && x !in t && n.prev == Some(p)
    requires forall y :: y in t ==> t[y].prev != Some(x)
    ensures ChildrenOk(t[x := n], AddChild(children, p, x))
  {
    var t', children' := t[x := n], AddChild(children, p, x);
    forall q | q in t'
      ensures KidsOk(t', q, children'[q])
    {
      if q == x {
        assert children'[q] == [];
      } else if q == p {
        assert KidsOk(t, p, children[p]);
        assert children'[q] == children[p] + [x];
        assert forall c :: c in children'[q] <==> c in children[p] || c == x;
        assert x !in children[p];
      } else {
        assert KidsOk(t, q, children[q]);
        assert children'[q] == children[q];
      }
    }
  }

  // ---------------------------------------------------------------- descendants

  /** All blocks at or above `b`. */
  ghost function Descendants(t: Tree, root: Hash, b: Hash): set<Hash>
    requires TreeOk(t, root)
  {
    set y | y in t && IsAncestor(t, root, b, y)
  }

  ghost predicate ClosedUnderChildren(t: Tree, s: set<Hash>) {
    forall x :: x in t && t[x].prev.Some? && t[x].prev.value in s ==> x in s
  }

  lemma {:induction false} ClosedCovers(t: Tree, root: Hash, s: set<Hash>, a: Hash, x: Hash)
    requires TreeOk(t, root) && ClosedUnderChildren(t, s) && a in s && IsAncestor(t, root, a, x)
    ensures x in s
    decreases if x in t then t[x].height else 0
  {
    if a != x {
      AncestorOfParent(t, root, a, x);
      ClosedCovers(t, root, s, a, t[x].prev.value);
    }
  }

  lemma DescendantsClosed(t: Tree, root: Hash, b: Hash)
    requires TreeOk(t, root) && b in t
    ensures b in Descendants(t, root, b) && ClosedUnderChildren(t, Descendants(t, root, b))
  {
    forall x | x in t && t[x].prev.Some? && t[x].prev.value in Descendants(t, root, b)
      ensures x in Descendants(t, root, b)
    {
      assert x != root;
    }
  }

  /** Pairwise unrelated blocks: none is an ancestor of another. */
  ghost predicate Unrelated(t: Tree, root: Hash, todo: seq<Hash>)
    requires TreeOk(t, root)
  {
    && (forall i :: 0 <= i < |todo| ==> todo[i] in t)
    && (forall i, j :: 0 <= i < |todo| && 0 <= j < |todo| && i != j ==> !IsAncestor(t, root, todo[i], todo[j]))
  }

  /** Everything still to be visited. */
  ghost function Pending(t: Tree, root: Hash, todo: seq<Hash>): set<Hash>
    requires TreeOk(t, root)
  {
    set y | y in t && exists i :: 0 <= i < |todo| && IsAncestor(t, root, todo[i], y)
  }

  /** One step down the tree. */
  lemma {:induction false} AncestorOfChild(t: Tree, root: Hash, a: Hash, c: Hash)
    requires TreeOk(t, root) && c in t && c != root
    ensures IsAncestor(t, root, a, c) <==> a == c || IsAncestor(t, root, a, t[c].prev.value)
  {}

  /** What is above a child is above the parent. */
  lemma ParentOfAncestor(t: Tree, root: Hash, c: Hash, y: Hash)
    requires TreeOk(t, root) && c in t && c != root
    ensures IsAncestor(t, root, c, y) ==> IsAncestor(t, root, t[c].prev.value, y) && t[c].prev.value != y
  {
    if IsAncestor(t, root, c, y) { UpUp(t, root, y, t[c].height, t[c].height - 1); }
  }

  /** Above `x`, on the way to a strict descendant `y`, there is a child of `x`. */
  lemma ChildTowards(t: Tree, root: Hash, x: Hash, y: Hash)
    requires TreeOk(t, root) && IsAncestor(t, root, x, y) && x != y
    ensures t[x].height < t[y].height
    ensures var c := Up(t, root, y, t[x].height + 1); t[c].prev == Some(x) && IsAncestor(t, root, c, y)
  {
    UpUp(t, root, y, t[x].height + 1, t[x].height);
  }

  lemma KidsUnrelated(t: Tree, root: Hash, todo: seq<Hash>, kids: seq<Hash>, i: nat, j: nat)
    requires TreeOk(t, root) && todo != [] && Unrelated(t, root, todo) && KidsOk(t, todo[|todo| - 1], kids)
    requires i < |todo| - 1 + |kids| && j < |todo| - 1 + |kids| && i != j
    ensures var next := todo[..|todo| - 1] + kids; !IsAncestor(t, root, next[i], next[j])
  {
    var n := |todo| - 1;
    var x, next := todo[n], todo[..n] + kids;
    assert i < n ==> next[i] == todo[i] && !IsAncestor(t, root, todo[i], x) && !IsAncestor(t, root, x, todo[i]);
    assert j < n ==> next[j] == todo[j] && !IsAncestor(t, root, x, todo[j]);
    if i >= n {
      assert next[i] in kids;
      ParentOfAncestor(t, root, next[i], next[j]);
    }
    if j >= n {
      assert next[j] in kids;
      AncestorOfChild(t, root, next[i], next[j]);
      AncestorOfChild(t, root, x, next[j]);
    }
  }

  /** Replacing the last block of a worklist by its children visits exactly that block. */
  lemma VisitOne(t: Tree, root: Hash, todo: seq<Hash>, kids: seq<Hash>)
    requires TreeOk(t, root) && todo != [] && Unrelated(t, root, todo) && KidsOk(t, todo[|todo| - 1], kids)
    ensures Unrelated(t, root, todo[..|todo| - 1] + kids)
    ensures todo[|todo| - 1] in Pending(t, root, todo)
    ensures Pending(t, root, todo[..|todo| - 1] + kids) == Pending(t, root, todo) - {todo[|todo| - 1]}
  {
    var n := |todo| - 1;
    var x, next := todo[n], todo[..n] + kids;
    forall i | 0 <= i < |next| ensures next[i] in t {
      assert i >= n ==> next[i] in kids;
    }
    forall i, j | 0 <= i < |next| && 0 <= j < |next| && i != j
      ensures !IsAncestor(t, root, next[i], next[j])
    {
      KidsUnrelated(t, root, todo, kids, i, j);
    }
    forall y | y in t
      ensures y in Pending(t, root, next) <==> y in Pending(t, root, todo) && y != x
    {
      StillPending(t, root, todo, kids, y);
      WasPending(t, root, todo, kids, y);
    }
    assert x in Pending(t, root, todo) by { assert IsAncestor(t, root, todo[n], x); }
  }

  lemma StillPending(t: Tree, root: Hash, todo: seq<Hash>, kids: seq<Hash>, y: Hash)
    requires TreeOk(t, root) && todo != [] && todo[|todo| - 1] in t && y in t
    requires KidsOk(t, todo[|todo| - 1], kids)
    ensures y in Pending(t, root, todo) && y != todo[|todo| - 1] ==> y in Pending(t, root, todo[..|todo| - 1] + kids)
  {
    var n := |todo| - 1;
    var x, next := todo[n], todo[..n] + kids;
    if y in Pending(t, root, todo) && y != x {
      var i :| 0 <= i < |todo| && IsAncestor(t, root, todo[i], y);
      if i < n {
        assert IsAncestor(t, root, next[i], y);
      } else {
        ChildTowards(t, root, x, y);
        var c := Up(t, root, y, t[x].height + 1);
        assert c in kids;
        var k :| 0 <= k < |kids| && kids[k] == c;
        assert IsAncestor(t, root, next[n + k], y);
      }
    }
  }

  lemma WasPending(t: Tree, root: Hash, todo: seq<Hash>, kids: seq<Hash>, y: Hash)
    requires TreeOk(t, root) && todo != [] && todo[|todo| - 1] in t && y in t
    requires forall i :: 0 <= i < |todo| - 1 ==> !IsAncestor(t, root, todo[i], todo[|todo| - 1])
    requires KidsOk(t, todo[|todo| - 1], kids)
    ensures y in Pending(t, root, todo[..|todo| - 1] + kids) ==> y in Pending(t, root, todo) && y != todo[|todo| - 1]
  {
    var n := |todo| - 1;
    var next := todo[..n] + kids;
    if y in Pending(t, root, next) {
      var i :| 0 <= i < |next| && IsAncestor(t, root, next[i], y);
      if i < n {
        assert todo[i] == next[i];
        assert !IsAncestor(t, root, todo[i], todo[n]);
      } else {
        assert next[i] in kids;
        ParentOfAncestor(t, root, next[i], y);
        assert IsAncestor(t, root, todo[n], y);
      }
    }
  }

  lemma PendingOne(t: Tree, root: Hash, b: Hash)
    requires TreeOk(t, root) && b in t
    ensures Unrelated(t, root, [b]) && Pending(t, root, [b]) == Descendants(t, root, b)
  {
    forall y | y in t
      ensures y in Pending(t, root, [b]) <==> y in Descendants(t, root, b)
    {
      if IsAncestor(t, root, b, y) { assert IsAncestor(t, root, [b][0], y); }
    }
  }

  lemma PendingNone(t: Tree, root: Hash, visited: set<Hash>)
    requires TreeOk(t, root)
    ensures Pending(t, root, []) + visited == visited
  {}

  lemma GenesisHasNoAncestors(t: Tree, root: Hash, b: Hash)
    requires TreeOk(t, root) && b in t && b != root
    ensures root !in Descendants(t, root, b)
  {}

  /** What is visited and what is still to come make up `all`. */
  ghost predicate Worklist(t: Tree, root: Hash, todo: seq<Hash>, all: set<Hash>, above: set<Hash>)
    requires TreeOk(t, root)
  {
    Unrelated(t, root, todo) && all == Pending(t, root, todo) + above
  }

  lemma WorklistStep(t: Tree, root: Hash, todo: seq<Hash>, kids: seq<Hash>, all: set<Hash>, above: set<Hash>)
    requires TreeOk(t, root) && todo != [] && KidsOk(t, todo[|todo| - 1], kids) && Worklist(t, root, todo, all, above)
    ensures Worklist(t, root, todo[..|todo| - 1] + kids, all, above + {todo[|todo| - 1]})
    ensures |Pending(t, root, todo[..|todo| - 1] + kids)| < |Pending(t, root, todo)|
  {
    VisitOne(t, root, todo, kids);
  }

  /** The worklist of `mark_failed`: it ends, and visits exactly the blocks at or above `b`. */
  method CollectAbove(t: Tree, root: Hash, children: map<Hash, seq<Hash>>, b: Hash) returns (above: set<Hash>)
    requires TreeOk(t, root) && ChildrenOk(t, children) && b in t && b != root
    ensures above == Descendants(t, root, b) && root !in above
  {
    above := {};
    var todo := [b];
    PendingOne(t, root, b);
    ghost var all, left := Descendants(t, root, b), |Pending(t, root, todo)|;
    while todo != []
      invariant Worklist(t, root, todo, all, above) && left == |Pending(t, root, todo)|
      decreases left
    {
      var x := todo[|todo| - 1];
      var kids := children[x];
      WorklistStep(t, root, todo, kids, all, above);
      above := above + {x};
      todo := todo[..|todo| - 1] + kids;
      left := |Pending(t, root, todo)|;
    }
    PendingNone(t, root, above);
    GenesisHasNoAncestors(t, root, b);
  }

  predicate ParentIn(nodes: Tree, x: Hash, s: set<Hash>) {
    x in nodes && nodes[x].prev.Some? && nodes[x].prev.value in s
  }

  /** Blocks with data whose parent is complete are complete. */
  ghost predicate CompleteSet(t: Tree, root: Hash, have: set<Hash>, s: set<Hash>) {
    forall x :: x in have ==> (x in s <==> x == root || ParentIn(t, x, s))
  }

  /** `s` is complete up to the blocks still in `todo`. */
  ghost predicate Frontier(t: Tree, root: Hash, have: set<Hash>, s: set<Hash>, todo: seq<Hash>) {
    && (forall x :: x in todo ==> ParentIn(t, x, s))
    && (forall x :: x in s ==> x == root || ParentIn(t, x, s))
    && (forall x :: x in have && (x == root || ParentIn(t, x, s)) ==> x in s || x in todo)
  }

  lemma FrontierSkip(t: Tree, root: Hash, have: set<Hash>, s: set<Hash>, rest: seq<Hash>, x: Hash)
    requires Frontier(t, root, have, s, rest + [x]) && (x !in have || x in s)
    ensures Frontier(t, root, have, s, rest)
  {
    assert forall y :: y in rest ==> y in rest + [x];
    assert forall y :: y in rest + [x] ==> y in rest || y == x;
  }

  lemma FrontierVisit(t: Tree, root: Hash, have: set<Hash>, s: set<Hash>, rest: seq<Hash>, x: Hash, kids: seq<Hash>)
    requires Frontier(t, root, have, s, rest + [x]) && x in t
    requires KidsOk(t, x, kids)
    ensures Frontier(t, root, have, s + {x}, rest + kids)
  {
    assert x in rest + [x];
    assert forall y :: y in rest ==> y in rest + [x];
    assert forall y :: y in rest + [x] ==> y in rest || y == x;
    assert forall y :: y in rest + kids <==> y in rest || y in kids;
    forall y | ParentIn(t, y, s + {x})
      ensures ParentIn(t, y, s) || y in kids
    {}
    forall y | ParentIn(t, y, s) ensures ParentIn(t, y, s + {x}) {}
  }

  /** The worklist of `update_chain_data`, after `b` got its data. */
  method Complete(t: Tree, root: Hash, children: map<Hash, seq<Hash>>, have: set<Hash>, s0: set<Hash>,
                  b: Hash) returns (s: set<Hash>)
    requires ChildrenOk(t, children) && have <= t.Keys && s0 <= have && b in have && b !in s0 && b != root
    requires CompleteSet(t, root, have - {b}, s0) && ParentIn(t, b, s0)
    ensures s0 <= s <= have && CompleteSet(t, root, have, s)
  {
    s := s0;
    var todo := [b];
    while todo != []
      invariant s0 <= s <= have && Frontier(t, root, have, s, todo)
      decreases have - s, |todo|
    {
      var x, rest := todo[|todo| - 1], todo[..|todo| - 1];
      assert todo == rest + [x];
      if x !in have || x in s {
        FrontierSkip(t, root, have, s, rest, x);
        todo := rest;
      } else {
        FrontierVisit(t, root, have, s, rest, x, children[x]);
        s := s + {x};
        todo := rest + children[x];
      }
    }
  }

  // ---------------------------------------------------------------- candidate order

  /** `WorkCmp`: more work sorts higher; among equals the earlier arrival. */
  predicate Better(a: Node, b: Node) {
    a.work > b.work || (a.work == b.work && a.seqNo < b.seqNo)
  }

  /** Arrival numbers are distinct, so no two blocks tie in the candidate order and a set ordered by it
      loses none. */
  ghost predicate SeqsOk(t: Tree, next: nat) {
    && (forall x :: x in t ==> t[x].seqNo < next)
    && (forall x, y :: x in t && y in t && x != y ==> t[x].seqNo != t[y].seqNo)
  }

  lemma BetterIsTotal(t: Tree, next: nat, x: Hash, y: Hash)
    requires SeqsOk(t, next) && x in t && y in t
    ensures x != y <==> Better(t[x], t[y]) || Better(t[y], t[x])
    ensures !(Better(t[x], t[y]) && Better(t[y], t[x]))
  {}
}
