/** What the steps of `Chainstate` keep, as predicates and lemmas on values: the tree with its flags and candidates,
    how a search for the best chain proceeds and ends, and the files beside the chain
    (src/chain/chainstate.cpp:578-703, 747-861). */
module ChainSteps {
  import opened Types
  import opened Ledger
  import opened LedgerLaws
  import opened LedgerViews
  import opened Emission
  import opened Replay
  import opened Supply
  import opened Undos
  import opened BlockTree
  import opened ChainLedger
  import opened Commitments
  import opened Rejoins
  import Sorting

  datatype Outcome = Connected | Stalled | Invalid

  datatype HeaderResult = NewHeader | KnownHeader | OrphanHeader | InvalidHeader

  const MAX_REORG_DEPTH: nat := PRUNE_DEPTH

  /** What lies outside this model: header hashes and work, what headers say, and the checks of a block's Merkle root
      and size. */
  datatype Env = Env(
    headerHash: Header -> Hash,
    workOf: nat -> nat,
    merkleOk: Block -> bool,
    sizeOk: (Block, bool) -> bool,
    net: Network)

  datatype Activation = Settled | Halted | GaveUp

  ghost predicate TreeInv(nodes: Tree, genesis: Hash, children: map<Hash, seq<Hash>>) {
    TreeOk(nodes, genesis) && SkipsOk(nodes, genesis) && ChildrenOk(nodes, children)
  }

  /** Block data: `chainData` are the blocks that, with all their ancestors, have data. */
  ghost predicate DataOk(nodes: Tree, genesis: Hash, store: Store, chainData: set<Hash>) {
    && store.Keys <= nodes.Keys && chainData <= store.Keys && genesis in store
    && (forall x :: x in store ==> ShapeOk(store[x], nodes[x].height))
    && CompleteSet(nodes, genesis, store.Keys, chainData)
  }

  /** Failure spreads to descendants and never touches the active chain, whose blocks have data. */
  ghost predicate FlagsOk(nodes: Tree, chain: seq<Hash>, chainData: set<Hash>, failed: set<Hash>) {
    && failed <= nodes.Keys && ClosedUnderChildren(nodes, failed)
    && (forall i :: 0 <= i < |chain| ==> chain[i] in chainData && chain[i] !in failed)
  }

  /** No block that could still win was dropped: every usable block with at least the work of `high`,
      the heaviest tip so far, is a candidate. */
  ghost predicate CandidatesOk(nodes: Tree, chainData: set<Hash>, failed: set<Hash>, candidates: set<Hash>,
      high: Hash) {
    && candidates <= chainData && chainData <= nodes.Keys && candidates !! failed && high in chainData
    && (forall x :: x in chainData && x !in failed && nodes[x].work >= nodes[high].work ==> x in candidates)
  }

  ghost predicate BestHeaderOk(nodes: Tree, failed: set<Hash>, best: Hash) {
    && best in nodes && best !in failed
    && (forall x :: x in nodes && x !in failed ==> nodes[x].work <= nodes[best].work)
  }

  /** Genesis is stored and has no outputs. */
  ghost predicate GenesisOk(store: Store, genesis: Hash) {
    genesis in store && |store[genesis].txs| == 1 && store[genesis].txs[0].core.outs == []
  }

  /** The whole ledger side: everything belongs to the replay of the active chain, whose blocks would connect again, and
      deep blocks of a pruned node stay. */
  ghost predicate LedgerValues(r: Rules, s: Network, prune: bool, store: Store, chain: seq<Hash>, st: State,
                               byAddr: map<Hash, set<OutPoint>>, supply: Amount, txindex: map<Hash, Hash>,
                               undo: map<Hash, Undo>, snaps: Snaps, files: Files) {
    && LedgerCore(r, s, prune, store, chain, st, byAddr, supply, txindex, undo, snaps, files)
    && Anchored(prune, chain, undo.Keys, snaps)
  }

  ghost predicate LedgerCore(r: Rules, s: Network, prune: bool, store: Store, chain: seq<Hash>, st: State,
                             byAddr: map<Hash, set<OutPoint>>, supply: Amount, txindex: map<Hash, Hash>,
                             undo: map<Hash, Undo>, snaps: Snaps, files: Files) {
    && LedgerOk(r, store, chain, st, byAddr, supply, txindex, undo) && UndoKept(prune, chain, undo)
    && SnapsOk(r, s, store, chain, snaps) && Verified(r, s, store, chain, files) && FilesOk(s, store, files)
  }

  /** The whole tree side: the tree, the active chain in it, block data, and the blocks that failed. */
  ghost predicate TreeValues(r: Rules, s: Network, t: Tree, root: Hash, children: map<Hash, seq<Hash>>,
                             chain: seq<Hash>, store: Store, chainData: set<Hash>, failed: set<Hash>) {
    && TreeInv(t, root, children) && ChainOk(t, root, chain)
    && DataOk(t, root, store, chainData) && FlagsOk(t, chain, chainData, failed)
    && FailedOk(r, s, t, root, store, failed)
  }

  /** A block that cannot be read, or has no witness although it is recent. */
  predicate Blocked(t: Tree, store: Store, files: Files, best: Hash, x: Hash)
    requires x in t && best in t
  {
    || ReadAs(store, files, x) == None
    || (x !in files && t[x].height + PRUNE_DEPTH > t[best].height && t[x].height > 0)
  }

  /** A block that does not connect on top of the chain. */
  predicate Rejects(r: Rules, s: Network, st: State, chain: seq<Hash>, hashes: Hashes, store: Store, files: Files,
                    x: Hash)
    requires s.Ok()
  {
    !Commits(s, chain, hashes, x) || !Connectable(r, st, store, files, x, |chain|)
  }

  /** The files pruning at `h` removes. */
  function PrunedAt(prune: bool, chain: seq<Hash>, h: int): (gone: set<Hash>)
    ensures !prune ==> gone == {}
  {
    if prune && 0 < h < |chain| then {chain[h]} else {}
  }

  function KeysLeft(keys: set<Hash>, x: Hash, gone: set<Hash>): set<Hash> { keys + {x} - gone }

  lemma KeysLeftIs(undo: map<Hash, Undo>, x: Hash, u: Undo, gone: set<Hash>)
    ensures (undo[x := u] - gone).Keys == KeysLeft(undo.Keys, x, gone)
  {}

  /** The tip cannot be taken back, or a usable child of it is blocked. */
  ghost predicate StuckOn(t: Tree, prune: bool, chain: seq<Hash>, undo: map<Hash, Undo>, store: Store, files: Files,
                          best: Hash, chainData: set<Hash>, failed: set<Hash>) {
    && chain != [] && best in t
    && (|| (prune && chain[|chain| - 1] !in undo)
        || exists x :: x in t && x in chainData && x !in failed && t[x].prev == Some(chain[|chain| - 1])
            && Blocked(t, store, files, best, x))
  }

  /** A block that is blocked makes the node stuck; one that is not can be read. */
  lemma StuckIf(t: Tree, prune: bool, chain: seq<Hash>, undo: map<Hash, Undo>, store: Store, files: Files, best: Hash,
                chainData: set<Hash>, failed: set<Hash>, x: Hash)
    requires chain != [] && best in t && x in t && x in chainData && x !in failed
               && t[x].prev == Some(chain[|chain| - 1])
    ensures Blocked(t, store, files, best, x) ==> StuckOn(t, prune, chain, undo, store, files, best, chainData, failed)
    ensures !Blocked(t, store, files, best, x) ==> ReadAs(store, files, x).Some?
  {}

  lemma BlockedIff(t: Tree, store: Store, files: Files, best: Hash, x: Hash)
    requires x in t && best in t
    ensures Blocked(t, store, files, best, x) <==>
            ReadAs(store, files, x) == None
                   || (x !in files && t[x].height + PRUNE_DEPTH > t[best].height && t[x].height > 0)
  {}

  lemma DepthIs()
    ensures PRUNE_DEPTH == 5040
  {}

  /** The two checks of `connect_block`, as it makes them. */
  lemma RejectsIff(r: Rules, s: Network, st: State, chain: seq<Hash>, hashes: Hashes, store: Store, files: Files,
                   x: Hash, base: Option<Hash>)
    requires s.Ok() && base == CommitBase(s, chain) && x in store && ShapeOk(store[x], |chain|)
    ensures Rejects(r, s, st, chain, hashes, store, files, x) <==>
              !Commits(s, chain, hashes, x) || !Connectable(r, st, store, files, x, |chain|)
    ensures Commits(s, chain, hashes, x) <==>
              !(base.Some? && base.value in hashes && hashes[base.value] != s.commitOf(x))
    ensures var b := ReadAs(store, files, x);
            b.Some? ==> b.value.txs != [] && (Connectable(r, st, store, files, x, |chain|) <==>
                                              ConnectState(r, st, b.value, |chain|, x in files && |chain| > 0).Ok?)
  {
    hide ConnectState, ReadAs;
  }

  /** Without pruning, every block above genesis can be taken back. */
  ghost predicate UndoKept(prune: bool, chain: seq<Hash>, undo: map<Hash, Undo>) {
    !prune ==> forall i :: 0 < i < |chain| ==> chain[i] in undo
  }

  lemma LedgerMeans(r: Rules, store: Store, chain: seq<Hash>, st: State, byAddr: map<Hash, set<OutPoint>>,
                    supply: Amount, txindex: map<Hash, Hash>, undo: map<Hash, Undo>, genesis: Hash)
    requires LedgerOk(r, store, chain, st, byAddr, supply, txindex, undo)
    requires chain != [] && chain[0] == genesis && GenesisOk(store, genesis)
    ensures Stored(store, chain) && Replayed(r, BlocksOf(store, chain)) == Some(st)
    ensures Sound(r, st, AllCores(BlocksOf(store, chain)))
    ensures r.AssetsIdeal() && r.maturity > 0 && CoinbasesFit(BlocksOf(store, chain)) && Issued(|chain| - 1) < TWO64 ==>
              supply == SupplyOf(st.coins, st.pools) && supply <= Issued(|chain| - 1)
  {
    hide SupplyOf, Issued, CoinbasesFit, Sound, UndosOk, IndexOk, TxIndex;
    var bs := BlocksOf(store, chain);
    ReplaysIff(r, bs, st);
    ReplaySound(r, bs);
    CounterIsSupply(r, bs, st, supply);
  }

  /** `t'` is `t` with one new block on top of `p`. */
  ghost predicate Grown(t: Tree, t': Tree, p: Hash, x: Hash, n: Node) {
    p in t && x !in t && t' == t[x := n] && n.prev == Some(p) && n.height == t[p].height + 1
  }

  lemma IndexReady(t: Tree, root: Hash, children: map<Hash, seq<Hash>>, p: Hash)
    requires TreeInv(t, root, children) && p in t
    ensures p in children && SkipHeight(t[p].height + 1) <= t[p].height
  {}

  lemma GrowTree(t: Tree, root: Hash, children: map<Hash, seq<Hash>>, p: Hash, x: Hash, n: Node)
    requires TreeInv(t, root, children) && Grown(t, t[x := n], p, x, n)
    requires n.skip == Some(Up(t, root, p, SkipHeight(n.height)))
    ensures TreeInv(t[x := n], root, AddChild(children, p, x))
  {
    AddNodeTree(t, root, p, x, n);
    AddNodeSkips(t, root, p, x, n);
    AddNodeChildren(t, root, children, p, x, n);
  }

  /** A header that is known and not failed, or new and acceptable. */
  ghost predicate Taken(t: Tree, root: Hash, chain: seq<Hash>, failed: set<Hash>, x: Hash, prev: Hash, policy: bool) {
    if x in t then x !in failed else policy && TreeOk(t, root) && Extends(t, root, chain, failed, prev)
  }

  /** What `accept_block` decides, exactly: `t'` is the tree once the header is in. */
  ghost predicate Decided(r: Rules, env: Env, t: Tree, t': Tree, root: Hash, chain: seq<Hash>, failed: set<Hash>,
                          store: Store, witnesses: Files, best: Hash, b: Block, x: Hash, hasWitness: bool, policy: bool,
                          ok: bool, isNew: bool, activated: bool) {
    var taken := Taken(t, root, chain, failed, x, b.header.prev, policy);
    && (ok <==> taken && (x in store || isNew))
    && (isNew <==> taken && x !in store &&
                   BodyOk(r, env, b, HeightIn(t', x), hasWitness, HeightIn(t', BestAfter(t, best, t', x))))
    && (activated <==> isNew || (taken && x in store && hasWitness && x !in witnesses && !InChain(t, chain, x) &&
                          env.net.witnessOk(x, Witnesses(b))))
  }

  ghost function HeightIn(t: Tree, x: Hash): nat { if x in t then t[x].height else 0 }

  /** The best header once `x` is in the tree. */
  ghost function BestAfter(t: Tree, best: Hash, t': Tree, x: Hash): Hash {
    if x !in t && x in t' && best in t' && t'[x].work > t'[best].work then x else best
  }

  /** `t'` is `t` with the header `x` on top of `p`, of this work and arrival number. */
  ghost predicate Appended(t: Tree, t': Tree, p: Hash, x: Hash, work: nat, seqNo: nat)
    requires x in t'
  {
    Grown(t, t', p, x, t'[x]) && t'[x].work == t[p].work + work && t'[x].seqNo == seqNo
  }

  lemma GrowsSelf(t: Tree)
    ensures TreeGrows(t, t)
  {}

  lemma GrowsOn(a: Tree, b: Tree, c: Tree)
    requires TreeGrows(a, b) && TreeGrows(b, c)
    ensures TreeGrows(a, c) && |b| <= |c|
  {
    assert b.Keys <= c.Keys;
    FewerElements(b.Keys, c.Keys);
  }

  lemma TakenIff(t: Tree, root: Hash, chain: seq<Hash>, failed: set<Hash>, x: Hash, prev: Hash, policy: bool)
    requires TreeOk(t, root)
    ensures Taken(t, root, chain, failed, x, prev, policy) <==>
            if x in t then x !in failed else policy && Extends(t, root, chain, failed, prev)
    ensures Extends(t, root, chain, failed, prev) ==> prev in t && prev !in failed
  {}

  /** A new header leaves everything that was known as it was. */
  lemma GrowValid(r: Rules, s: Network, t: Tree, t': Tree, root: Hash, children: map<Hash, seq<Hash>>,
                  children': map<Hash, seq<Hash>>, p: Hash, x: Hash, work: nat, chain: seq<Hash>, store: Store,
                  chainData: set<Hash>, failed: set<Hash>, candidates: set<Hash>, high: Hash, best: Hash, best': Hash,
                  next: nat)
    requires x in t' && Appended(t, t', p, x, work, next) && p !in failed && failed <= t.Keys && best in t
               && chain != [] && chainData <= t.Keys
    requires TreeInv(t', root, children') && TreeValues(r, s, t, root, children, chain, store, chainData, failed)
    requires CandidatesOk(t, chainData, failed, candidates, high) && BestHeaderOk(t, failed, best) && SeqsOk(t, next)
    requires best' == if t'[x].work > t'[best].work then x else best
    ensures TreeValues(r, s, t', root, children', chain, store, chainData, failed)
    ensures CandidatesOk(t', chainData, failed, candidates, high) && BestHeaderOk(t', failed, best')
              && SeqsOk(t', next + 1)
    ensures best' == BestAfter(t, best, t', x) && TreeGrows(t, t') && t.Keys <= t'.Keys && x !in failed
    ensures NoneLost(t, chainData - failed, candidates, chain[|chain| - 1]) ==>
              NoneLost(t', chainData - failed, candidates, chain[|chain| - 1])
    ensures Unbeaten(t, chainData - failed, chain[|chain| - 1]) ==> Unbeaten(t', chainData - failed, chain[|chain| - 1])
  {
    hide TreeOk, TreeInv, ChainOk, DataOk, FlagsOk, FailedOk, CandidatesOk, BestHeaderOk, SeqsOk;
    var n := t'[x];
    GrowChain(t, t', root, p, x, n, chain);
    GrowData(t, t', root, p, x, n, store, chainData);
    GrowFlags(t, t', p, x, n, chain, chainData, failed);
    GrowCandidates(t, t', p, x, n, chainData, failed, candidates, high, best, best', next + 1);
    GrowFailed(r, s, t, t', root, children', p, x, store, failed);
  }

  lemma GrowFailed(r: Rules, s: Network, t: Tree, t': Tree, root: Hash, children': map<Hash, seq<Hash>>, p: Hash,
                   x: Hash, store: Store, failed: set<Hash>)
    requires FailedOk(r, s, t, root, store, failed) && TreeInv(t', root, children') && x in t'
               && Grown(t, t', p, x, t'[x])
    ensures FailedOk(r, s, t', root, store, failed)
  {
    hide FailedOk, SkipsOk, ChildrenOk, TreeOk;
    FailedStable(r, s, t, t', root, store, store, failed);
  }

  lemma GrowChain(t: Tree, t': Tree, root: Hash, p: Hash, x: Hash, n: Node, chain: seq<Hash>)
    requires Grown(t, t', p, x, n) && ChainOk(t, root, chain)
    ensures ChainOk(t', root, chain)
  {}

  lemma GrowData(t: Tree, t': Tree, root: Hash, p: Hash, x: Hash, n: Node, store: Store, chainData: set<Hash>)
    requires Grown(t, t', p, x, n) && DataOk(t, root, store, chainData)
    ensures DataOk(t', root, store, chainData)
  {
    hide ShapeOk;
    assert forall y :: y in t ==> t'[y] == t[y];
    assert forall y :: y in t ==> ParentIn(t', y, chainData) == ParentIn(t, y, chainData);
  }

  lemma GrowFlags(t: Tree, t': Tree, p: Hash, x: Hash, n: Node, chain: seq<Hash>, chainData: set<Hash>,
                  failed: set<Hash>)
    requires Grown(t, t', p, x, n) && FlagsOk(t, chain, chainData, failed) && p !in failed
    ensures FlagsOk(t', chain, chainData, failed)
  {}

  lemma GrowCandidates(t: Tree, t': Tree, p: Hash, x: Hash, n: Node, chainData: set<Hash>, failed: set<Hash>,
                       candidates: set<Hash>, high: Hash, best: Hash, best': Hash, next: nat)
    requires Grown(t, t', p, x, n) && failed <= t.Keys
    requires CandidatesOk(t, chainData, failed, candidates, high) && BestHeaderOk(t, failed, best)
    requires next > 0 && SeqsOk(t, next - 1) && n.seqNo == next - 1
    requires best' == if n.work > t'[best].work then x else best
    ensures CandidatesOk(t', chainData, failed, candidates, high) && BestHeaderOk(t', failed, best') && SeqsOk(t', next)
  {}

  lemma AppendedMeans(t: Tree, t': Tree, p: Hash, x: Hash, work: nat, seqNo: nat)
    requires x in t' && Appended(t, t', p, x, work, seqNo)
    ensures p in t && t'[x].prev == Some(p) && t'[x].height == t[p].height + 1 && t'[x].work == t[p].work + work
  {}

  /** A parent a new header may have: usable, and its branch leaves the active chain within reach of the
      undo files. */
  ghost predicate Extends(t: Tree, root: Hash, chain: seq<Hash>, failed: set<Hash>, p: Hash)
    requires TreeOk(t, root)
  {
    p in t && p !in failed &&
    exists y :: IsAncestor(t, root, y, p) && InChain(t, chain, y) && t[y].height + MAX_REORG_DEPTH >= |chain| - 1
  }

  lemma ForkHeight(t: Tree, root: Hash, chain: seq<Hash>, failed: set<Hash>, p: Hash, fork: Hash)
    requires TreeOk(t, root) && p in t && p !in failed
    requires IsAncestor(t, root, fork, p) && InChain(t, chain, fork)
    requires forall y :: IsAncestor(t, root, y, p) && InChain(t, chain, y) ==> t[y].height <= t[fork].height
    ensures fork in t
    ensures Extends(t, root, chain, failed, p) <==> |chain| - 1 - t[fork].height <= MAX_REORG_DEPTH
  {
    if Extends(t, root, chain, failed, p) {
      var y :| IsAncestor(t, root, y, p) && InChain(t, chain, y) && t[y].height + MAX_REORG_DEPTH >= |chain| - 1;
      assert t[y].height <= t[fork].height;
    }
  }

  /** Everything `accept_block` asks of a new body at `height`. */
  ghost predicate BodyOk(r: Rules, env: Env, b: Block, height: nat, hasWitness: bool, bestHeight: nat) {
    && b.txs != [] && (forall i :: 0 <= i < |b.txs| ==> IsCoinbase(b.txs[i].core) == (i == 0))
    && env.merkleOk(b) && env.sizeOk(b, hasWitness)
    && (if hasWitness then env.net.witnessOk(env.headerHash(b.header), Witnesses(b))
        else height + PRUNE_DEPTH <= bestHeight)
    && b.txs[0].core.lockHeight == height
    && (forall i :: 0 <= i < |b.txs| ==> CheckBasic(b.txs[i], hasWitness) == None)
    && (forall i, j :: 0 <= i < j < |b.txs| ==> r.txid(b.txs[i].core) != r.txid(b.txs[j].core))
  }

  lemma BodyShape(r: Rules, env: Env, b: Block, height: nat, hasWitness: bool, bestHeight: nat)
    requires BodyOk(r, env, b, height, hasWitness, bestHeight)
    ensures ShapeOk(b, height) && (hasWitness ==> env.net.witnessOk(env.headerHash(b.header), Witnesses(b)))
  {
    forall i | 0 <= i < |b.txs| ensures BasicOk(b.txs[i]) {
      assert CheckBasic(b.txs[i], hasWitness) == None;
    }
  }

  function Witnesses(b: Block): seq<seq<Witness>> { seq(|b.txs|, i requires 0 <= i < |b.txs| => b.txs[i].wits) }

  lemma StoreReady(r: Rules, s: Network, prune: bool, t: Tree, root: Hash, store: Store, chain: seq<Hash>, st: State,
                   byAddr: map<Hash, set<OutPoint>>, supply: Amount, txindex: map<Hash, Hash>, undo: map<Hash, Undo>,
                   snaps: Snaps, files: Files, chainData: set<Hash>, x: Hash, b: Block, ws: seq<seq<Witness>>)
    requires LedgerValues(r, s, prune, store, chain, st, byAddr, supply, txindex, undo, snaps, files)
               && DataOk(t, root, store, chainData)
    requires x in t && x !in store && ShapeOk(b, t[x].height) && GenesisOk(store, root)
    ensures LedgerValues(r, s, prune, store[x := b], chain, st, byAddr, supply, txindex, undo, snaps, files)
    ensures s.witnessOk(x, ws) ==> LedgerValues(r, s, prune, store[x := b], chain, st, byAddr, supply, txindex, undo,
              snaps, files[x := ws])
    ensures Unfinished(t, root, store[x := b], chainData, x)
  {
    hide ReplayOk, BookOk, UndoKept, SnapsOk, Anchored, Verified, ShapeOk;
    ReplayStable(r, store, store[x := b], chain, st, txindex, undo);
    SnapsStable(r, s, store, store[x := b], chain, snaps);
    StoreVerified(r, s, store, chain, files, x, b, ws);
    assert store[x := b].Keys - {x} == store.Keys;
  }

  /** Witnesses for a block off the chain leave the ledger side as it was. */
  lemma FillReady(r: Rules, s: Network, prune: bool, t: Tree, root: Hash, children: map<Hash, seq<Hash>>, store: Store,
                  chain: seq<Hash>, st: State, byAddr: map<Hash, set<OutPoint>>, supply: Amount,
                  txindex: map<Hash, Hash>, undo: map<Hash, Undo>, snaps: Snaps, files: Files, chainData: set<Hash>,
                  failed: set<Hash>, x: Hash, ws: seq<seq<Witness>>)
    requires LedgerValues(r, s, prune, store, chain, st, byAddr, supply, txindex, undo, snaps, files)
    requires TreeValues(r, s, t, root, children, chain, store, chainData, failed) && !InChain(t, chain, x)
    requires x in store && s.witnessOk(x, ws)
    ensures LedgerValues(r, s, prune, store, chain, st, byAddr, supply, txindex, undo, snaps, files[x := ws])
  {
    hide LedgerOk, UndoKept, SnapsOk, Anchored, Verified, TreeInv, DataOk, FlagsOk, FailedOk, ChainOk, InChain;
    FillVerified(r, s, t, root, store, chain, files, x, ws);
  }

  /** Block data as `DataOk` has it, except that `x` may have become complete. */
  ghost predicate Unfinished(t: Tree, root: Hash, store: Store, chainData: set<Hash>, x: Hash) {
    && chainData <= store.Keys <= t.Keys && x in store && x !in chainData && x != root && GenesisOk(store, root)
    && CompleteSet(t, root, store.Keys - {x}, chainData)
    && (forall y :: y in store ==> ShapeOk(store[y], t[y].height))
  }

  lemma UnfinishedReady(t: Tree, root: Hash, children: map<Hash, seq<Hash>>, store: Store, chainData: set<Hash>,
                        x: Hash)
    requires Unfinished(t, root, store, chainData, x) && TreeInv(t, root, children)
    ensures ChildrenOk(t, children) && chainData <= store.Keys <= t.Keys && x in store && x !in chainData && x != root
    ensures CompleteSet(t, root, store.Keys - {x}, chainData)
  {}

  lemma StoreDone(r: Rules, s: Network, t: Tree, root: Hash, children: map<Hash, seq<Hash>>, store: Store,
                  store': Store, chain: seq<Hash>, before: set<Hash>, chainData: set<Hash>, failed: set<Hash>, x: Hash,
                  b: Block)
    requires TreeValues(r, s, t, root, children, chain, store, before, failed) && x !in store && store' == store[x := b]
    requires Unfinished(t, root, store', before, x) && before <= chainData <= store'.Keys
               && CompleteSet(t, root, store'.Keys, chainData)
    ensures TreeValues(r, s, t, root, children, chain, store', chainData, failed) && GenesisOk(store', root)
  {
    hide FailedOk, SkipsOk, ChildrenOk, TreeOk, ShapeOk, CompleteSet;
    StoreFailed(r, s, t, root, children, store, store', failed, x);
  }

  lemma RightStable(r: Rules, s: Network, store: Store, store': Store, chain: seq<Hash>, x: Hash)
    requires x !in store && x in store' && store' == store[x := store'[x]]
    ensures AllRight(r, s, store, chain) ==> AllRight(r, s, store', chain)
  {
    hide CommitRight;
    if AllRight(r, s, store, chain) {
      forall i | 0 <= i < |chain| ensures CommitRight(r, s, store', chain, i) {
        CommitRightSame(r, s, store, store', chain, chain, i);
      }
    }
  }

  /** Less asked of a settled search. */
  lemma SettlesLess(t: Tree, chainData: set<Hash>, failed0: set<Hash>, failed: set<Hash>, cands0: set<Hash>,
                    chain0: seq<Hash>, chain: seq<Hash>, high: Hash, right: bool, less: bool)
    requires Settles(t, chainData, failed0, failed, cands0, chain0, chain, high, right) && (less ==> right)
    ensures Settles(t, chainData, failed0, failed, cands0, chain0, chain, high, less)
  {
    hide First, BelowFailed, NoneLost, Unbeaten;
  }

  /** Nothing is pruned, and every stored block above genesis has its witness file. */
  ghost predicate AllWitnessed(prune: bool, root: Hash, store: Store, files: Files) {
    !prune && forall x :: x in store && x != root ==> x in files && |files[x]| >= |store[x].txs|
  }

  lemma WitnessedMeans(r: Rules, s: Network, prune: bool, t: Tree, root: Hash, children: map<Hash, seq<Hash>>,
                       chain: seq<Hash>, store: Store, files: Files, chainData: set<Hash>, failed: set<Hash>, x: Hash)
    requires TreeValues(r, s, t, root, children, chain, store, chainData, failed)
    ensures AllWitnessed(prune, root, store, files) ==> !prune && (x in store && x !in files ==> InChain(t, chain, x))
  {
    hide SkipsOk, ChildrenOk, DataOk, FlagsOk, FailedOk;
  }

  /** The candidates, and the usable blocks among those whose data has become complete. */
  function WithNew(cands: set<Hash>, before: set<Hash>, after: set<Hash>, failed: set<Hash>): set<Hash>
  {
    cands + ((after - before) - failed)
  }

  lemma NoneLostMore(t: Tree, before: set<Hash>, chainData: set<Hash>, failed: set<Hash>, cands: set<Hash>, tip: Hash)
    requires NoneLost(t, before - failed, cands, tip)
    ensures NoneLost(t, chainData - failed, WithNew(cands, before, chainData, failed), tip)
  {}

  lemma NothingNew(cands: set<Hash>, chainData: set<Hash>, failed: set<Hash>)
    ensures WithNew(cands, chainData, chainData, failed) == cands
  {}

  lemma BestSame(t: Tree, best: Hash, x: Hash)
    ensures BestAfter(t, best, t, x) == best
  {}

  lemma WitnessedMore(prune: bool, root: Hash, store: Store, store': Store, files: Files, files': Files, x: Hash,
                      b: Block)
    requires store' == store[x := b]
    ensures AllWitnessed(prune, root, store, files) && files' == files[x := Witnesses(b)] ==>
              AllWitnessed(prune, root, store', files')
    ensures AllWitnessed(prune, root, store, files) ==> !prune
  {}

  /** Then nothing stalls. */
  lemma NeverStuck(r: Rules, s: Network, prune: bool, t: Tree, root: Hash, children: map<Hash, seq<Hash>>,
                   chain: seq<Hash>, undo: map<Hash, Undo>, store: Store, files: Files, best: Hash,
                   chainData: set<Hash>, failed: set<Hash>)
    requires TreeValues(r, s, t, root, children, chain, store, chainData, failed)
    ensures AllWitnessed(prune, root, store, files) ==>
              !prune && !StuckOn(t, prune, chain, undo, store, files, best, chainData, failed)
  {
    hide SkipsOk, ChildrenOk, FlagsOk, FailedOk, ShapeOk;
  }

  /** The decision of `accept_block`, put together from its branches. */
  lemma DecidedNow(r: Rules, env: Env, t: Tree, t': Tree, root: Hash, chain: seq<Hash>, failed: set<Hash>, store: Store,
                   witnesses: Files, best: Hash, b: Block, x: Hash, hasWitness: bool, policy: bool, hr: HeaderResult,
                   ok: bool, isNew: bool, activated: bool)
    requires hr == NewHeader || hr == KnownHeader <==> Taken(t, root, chain, failed, x, b.header.prev, policy)
    requires x in store ==> x in t
    requires hr != NewHeader ==> t' == t
    requires hr == NewHeader ==> x !in t && x in t'
    requires hr == InvalidHeader || hr == OrphanHeader ==> !ok && !isNew && !activated
    requires hr == NewHeader || hr == KnownHeader ==> x in t'
    requires (hr == NewHeader || hr == KnownHeader) && x in store ==>
               ok && !isNew && (activated <==>
                   hasWitness && x !in witnesses && !InChain(t', chain, x) && env.net.witnessOk(x, Witnesses(b)))
    requires (hr == NewHeader || hr == KnownHeader) && x !in store ==>
               ok == isNew == activated && BestAfter(t, best, t', x) in t' &&
               (isNew <==> BodyOk(r, env, b, t'[x].height, hasWitness, t'[BestAfter(t, best, t', x)].height))
    ensures Decided(r, env, t, t', root, chain, failed, store, witnesses, best, b, x, hasWitness, policy, ok, isNew,
              activated)
  {
    hide BodyOk, Taken, BestAfter;
  }


  lemma GenesisSnaps(r: Rules, s: Network, x: Hash, g: Block)
    requires s.Ok()
    ensures SnapsOk(r, s, map[x := g], [x], Snaps(map[], [0], 0, {}))
  {}

  lemma GenesisRejoins(r: Rules, s: Network, x: Hash, g: Block, n: Node)
    requires s.Ok() && n.prev == None && n.height == 0
    ensures Verified(r, s, map[x := g], [x], map[]) && FailedOk(r, s, map[x := n], x, map[x := g], {})
  {}

  lemma GenesisTree(x: Hash, g: Block, n: Node)
    requires ShapeOk(g, 0) && n.prev == None && n.height == 0 && n.seqNo == 0
    ensures var t := map[x := n];
            && TreeInv(t, x, map[x := []]) && ChainOk(t, x, [x]) && DataOk(t, x, map[x := g], {x})
            && FlagsOk(t, [x], {x}, {}) && CandidatesOk(t, {x}, {}, {x}, x) && BestHeaderOk(t, {}, x) && SeqsOk(t, 1)
  {}

  lemma EmptyIs()
    ensures EMPTY_STATE == State(map[], map[], map[])
  {}

  lemma GenesisLedger(r: Rules, x: Hash, g: Block)
    requires r.TxidsIdeal() && ShapeOk(g, 0) && |g.txs| == 1 && g.txs[0].core.outs == []
    ensures LedgerOk(r, map[x := g], [x], EMPTY_STATE, map[], 0, IdMap(r, g.txs, x), map[])
  {
    var store := map[x := g];
    assert BlocksOf(store, [x]) == [g];
    assert ApplyCoinbase(r, EMPTY_STATE, g.txs[0], 0) == EMPTY_STATE;
    assert g.txs[1..] == [];
    assert Replayed(r, [g][..0]) == Some(EMPTY_STATE);
    assert Replayed(r, [g]) == Some(EMPTY_STATE);
    ReplaysIff(r, [g], EMPTY_STATE);
    assert TxIndex(r, store, [x][..0]) == map[];
    assert map[] + IdMap(r, g.txs, x) == IdMap(r, g.txs, x);
    assert SupplyOf(map[], map[]) == 0;
  }

  /** No block of the set has more work than `tip`. */
  ghost predicate Unbeaten(t: Tree, candidates: set<Hash>, tip: Hash) {
    tip in t && forall x :: x in candidates ==> x in t && t[x].work <= t[tip].work
  }

  /** How a switch to `cand` ended: on it, nowhere, or on the parent of a block that failed with all above it. */
  ghost predicate Ended(t: Tree, root: Hash, failed: set<Hash>, failed': set<Hash>, cands: set<Hash>, cands': set<Hash>,
                        tip: Hash, cand: Hash, out: Outcome) {
    && (out == Connected ==> tip == cand)
    && (out != Invalid ==> failed' == failed && cands' == cands)
    && (out == Invalid ==>
        failed < failed' && cands' == cands - failed' && TreeOk(t, root) && FailedOn(t, root, failed, failed', tip))
  }

  ghost predicate FailedOn(t: Tree, root: Hash, failed: set<Hash>, failed': set<Hash>, tip: Hash)
    requires TreeOk(t, root)
  {
    exists b :: b in t && t[b].prev == Some(tip) && b !in failed && b in failed'
        && failed' == failed + Descendants(t, root, b)
  }

  /** The first of a set in the order of candidates. */
  ghost predicate First(t: Tree, s: set<Hash>, x: Hash)
  {
    x in t && forall y :: y in s ==> y in t && !Better(t[y], t[x])
  }

  /** Some block that failed since is a child of `tip`. */
  ghost predicate BelowFailed(t: Tree, failed0: set<Hash>, failed: set<Hash>, tip: Hash) {
    exists b :: b in t && b in failed && b !in failed0 && t[b].prev == Some(tip)
  }

  /** After `guard` rounds: each but a last, successful one has failed some block. */
  ghost predicate Progress(t: Tree, failed0: set<Hash>, failed: set<Hash>, cands0: set<Hash>, cands: set<Hash>,
                           chain0: seq<Hash>, chain: seq<Hash>, guard: nat) {
    && failed0 <= failed && cands0 !! failed0 && cands == cands0 - failed && chain0 != [] && chain != []
    && (guard == 0 ==> chain == chain0 && failed == failed0)
    && (guard > 0 ==> !Unbeaten(t, cands0, chain0[|chain0| - 1]))
    && (guard > 0 ==> First(t, cands, chain[|chain| - 1]) || BelowFailed(t, failed0, failed, chain[|chain| - 1]))
    && guard <= |failed| - |failed0| + (if Unbeaten(t, cands, chain[|chain| - 1]) then 1 else 0)
  }

  lemma ProgressStart(t: Tree, failed: set<Hash>, cands: set<Hash>, chain: seq<Hash>)
    requires chain != [] && cands !! failed
    ensures Progress(t, failed, failed, cands, cands, chain, chain, 0)
  {}

  /** One round that ended on the best candidate, or failed some block. */
  ghost predicate Switched(t: Tree, failed: set<Hash>, failed': set<Hash>, cands: set<Hash>, cands': set<Hash>,
                           chain: seq<Hash>, chain': seq<Hash>, done: bool) {
    && chain != [] && chain' != []
    && !Unbeaten(t, cands, chain[|chain| - 1])
    && (done ==>
        failed' == failed && cands' == cands && Unbeaten(t, cands', chain'[|chain'| - 1])
        && First(t, cands', chain'[|chain'| - 1]))
    && (!done ==>
        failed < failed' && cands' == cands - failed' && BelowFailed(t, failed, failed', chain'[|chain'| - 1]))
  }

  lemma SwitchedNow(t: Tree, root: Hash, failed: set<Hash>, failed': set<Hash>, cands: set<Hash>, cands': set<Hash>,
                    chain: seq<Hash>, chain': seq<Hash>, cand: Hash, out: Outcome)
    requires chain != [] && chain' != [] && chain[|chain| - 1] in t && cands <= t.Keys && cands !! failed
    requires cand in cands && t[cand].work > t[chain[|chain| - 1]].work
    requires forall x :: x in cands && x !in failed ==> !Better(t[x], t[cand])
    requires out != Stalled && Ended(t, root, failed, failed', cands, cands', chain'[|chain'| - 1], cand, out)
    ensures Switched(t, failed, failed', cands, cands', chain, chain', out == Connected)
  {}

  /** What a switch to the best candidate comes to. */
  lemma RoundDone(t: Tree, root: Hash, chainData: set<Hash>, failed0: set<Hash>, failed: set<Hash>, failed': set<Hash>,
                  cands0: set<Hash>, cands: set<Hash>, cands': set<Hash>, chain0: seq<Hash>, chain: seq<Hash>,
                  chain': seq<Hash>, cand: Hash, out: Outcome, guard: nat, high: Hash)
    requires Progress(t, failed0, failed, cands0, cands, chain0, chain, guard)
               && CandidatesOk(t, chainData, failed, cands, high)
    requires chain != [] && chain' != [] && chain[|chain| - 1] in t && cands <= t.Keys && cands !! failed
    requires cand in cands && t[cand].work > t[chain[|chain| - 1]].work
    requires forall x :: x in cands && x !in failed ==> !Better(t[x], t[cand])
    requires Ended(t, root, failed, failed', cands, cands', chain'[|chain'| - 1], cand, out)
    ensures CandidatesOk(t, chainData, failed', cands', high) && failed0 <= failed'
              && (out != Invalid ==> failed' == failed)
    ensures out != Stalled ==> Progress(t, failed0, failed', cands0, cands', chain0, chain', guard + 1)
  {
    hide Unbeaten, First, BelowFailed, Progress, Switched, Better;
    ProgressGrows(t, failed0, failed, cands0, cands, chain0, chain, guard);
    assert failed <= failed' && cands' == cands - failed';
    CandidatesShrink(t, chainData, failed, failed', cands, cands', high);
    if out != Stalled {
      SwitchedNow(t, root, failed, failed', cands, cands', chain, chain', cand, out);
      ProgressStep(t, failed0, failed, failed', cands0, cands, cands', chain0, chain, chain', out == Connected, guard);
    }
  }

  lemma UnbeatenNow(t: Tree, cands: set<Hash>, failed: set<Hash>, tip: Hash)
    requires tip in t && cands <= t.Keys && cands !! failed
    requires forall x :: x in cands && x !in failed ==> t[x].work <= t[tip].work
    ensures Unbeaten(t, cands, tip)
  {}

  lemma ProgressStep(t: Tree, failed0: set<Hash>, failed: set<Hash>, failed': set<Hash>,
                     cands0: set<Hash>, cands: set<Hash>, cands': set<Hash>,
                     chain0: seq<Hash>, chain: seq<Hash>, chain': seq<Hash>, done: bool, guard: nat)
    requires Progress(t, failed0, failed, cands0, cands, chain0, chain, guard)
    requires Switched(t, failed, failed', cands, cands', chain, chain', done)
    ensures Progress(t, failed0, failed', cands0, cands', chain0, chain', guard + 1)
  {
    if !done { MoreElements(failed, failed'); }
  }

  lemma ProgressGrows(t: Tree, failed0: set<Hash>, failed: set<Hash>, cands0: set<Hash>, cands: set<Hash>,
                      chain0: seq<Hash>, chain: seq<Hash>, guard: nat)
    requires Progress(t, failed0, failed, cands0, cands, chain0, chain, guard)
    ensures failed0 <= failed
  {}

  lemma MoreElements(a: set<Hash>, b: set<Hash>)
    requires a < b
    ensures |a| < |b|
  {
    assert b == a + (b - a);
    assert b - a != {};
  }

  lemma FewerElements(a: set<Hash>, b: set<Hash>)
    requires a <= b
    ensures |a| <= |b|
  {
    assert b == a + (b - a);
  }

  /** Facts every round of `activate_best_chain` starts from. */
  lemma Ready(r: Rules, s: Network, t: Tree, root: Hash, children: map<Hash, seq<Hash>>, chain: seq<Hash>, store: Store,
              chainData: set<Hash>, failed: set<Hash>, candidates: set<Hash>, high: Hash, best: Hash)
    requires TreeValues(r, s, t, root, children, chain, store, chainData, failed)
    requires CandidatesOk(t, chainData, failed, candidates, high) && BestHeaderOk(t, failed, best)
    ensures chain != [] && chain[|chain| - 1] in t && chain[|chain| - 1] in chainData
    ensures candidates <= chainData <= t.Keys && candidates !! failed && failed <= t.Keys && best in t
              && high in chainData
  {}

  lemma CandidatesShrink(t: Tree, chainData: set<Hash>, failed: set<Hash>, failed': set<Hash>,
                         cands: set<Hash>, cands': set<Hash>, high: Hash)
    requires CandidatesOk(t, chainData, failed, cands, high) && failed <= failed' && cands' == cands - failed'
    ensures CandidatesOk(t, chainData, failed', cands', high)
  {}

  /** Where `activate_best_chain` ends without a stall, from `chain0`. If the commitments of `chain0` are right, none of
      its blocks has failed, and the tip has maximal work among the usable blocks if every usable block as heavy as the
      old tip was a candidate; it has in any case if the heaviest tip so far is still usable. Nothing happens exactly
      when no candidate beats the old tip; otherwise the new tip is the first of the surviving candidates, or the last
      switch failed right on top of it. */
  ghost predicate Settles(t: Tree, chainData: set<Hash>, failed0: set<Hash>, failed: set<Hash>, cands0: set<Hash>,
                          chain0: seq<Hash>, chain: seq<Hash>, high: Hash, right: bool) {
    && chain0 != [] && chain != []
    && (forall i :: 0 <= i < |chain0| ==> chain0[i] in chainData && (right ==> chain0[i] !in failed))
    && (high !in failed || (right && NoneLost(t, chainData - failed0, cands0, chain0[|chain0| - 1])) ==>
          Unbeaten(t, chainData - failed, chain[|chain| - 1]))
    && (chain == chain0 && failed == failed0 <==> Unbeaten(t, cands0, chain0[|chain0| - 1]))
    && (|| (chain == chain0 && failed == failed0)
        || First(t, cands0 - failed, chain[|chain| - 1])
        || BelowFailed(t, failed0, failed, chain[|chain| - 1]))
  }

  /** Every usable block at least as heavy as `x` is a candidate. */
  ghost predicate NoneLost(t: Tree, usable: set<Hash>, cands: set<Hash>, x: Hash) {
    x in t && forall y :: y in usable && y in t && t[y].work >= t[x].work ==> y in cands
  }

  lemma SettledMeans(r: Rules, s: Network, t: Tree, root: Hash, store: Store, files: Files, chainData: set<Hash>,
                     failed0: set<Hash>, failed: set<Hash>, cands0: set<Hash>, cands: set<Hash>,
                     chain0: seq<Hash>, chain: seq<Hash>, guard: nat, high: Hash)
    requires CandidatesOk(t, chainData, failed, cands, high) && HomeOk(r, s, t, root, store, chain0, files, failed)
    requires forall i :: 0 <= i < |chain0| ==> chain0[i] in chainData
    requires Progress(t, failed0, failed, cands0, cands, chain0, chain, guard) && chain[|chain| - 1] in t
    requires forall x :: x in cands && x !in failed ==> t[x].work <= t[chain[|chain| - 1]].work
    ensures Settles(t, chainData, failed0, failed, cands0, chain0, chain, high, AllRight(r, s, store, chain0))
              && cands == cands0 - failed
  {
    hide Verified, First, BelowFailed, Better, AllRight;
    UnbeatenNow(t, cands, failed, chain[|chain| - 1]);
    if chain == chain0 && failed == failed0 { assert cands == cands0; }
    var tip0 := chain0[|chain0| - 1];
    if AllRight(r, s, store, chain0) && NoneLost(t, chainData - failed0, cands0, tip0) { assert tip0 in cands; }
  }

  /** The chain a call starts from is at home, and nothing has happened yet. */
  lemma AtHome(r: Rules, s: Network, prune: bool, t: Tree, root: Hash, children: map<Hash, seq<Hash>>, store: Store,
               chain: seq<Hash>, st: State, byAddr: map<Hash, set<OutPoint>>, supply: Amount, txindex: map<Hash, Hash>,
               undo: map<Hash, Undo>, snaps: Snaps, files: Files, chainData: set<Hash>, failed: set<Hash>,
               cands: set<Hash>, high: Hash, best: Hash)
    requires LedgerValues(r, s, prune, store, chain, st, byAddr, supply, txindex, undo, snaps, files)
    requires TreeValues(r, s, t, root, children, chain, store, chainData, failed)
    requires CandidatesOk(t, chainData, failed, cands, high) && BestHeaderOk(t, failed, best)
    ensures HomeOk(r, s, t, root, store, chain, files, failed)
    ensures forall i :: 0 <= i < |chain| ==> chain[i] in chainData
    ensures Progress(t, failed, failed, cands, cands, chain, chain, 0)
  {
    hide LedgerOk, UndoKept, SnapsOk, Anchored, Verified, TreeInv, DataOk, FailedOk, Progress, AllRight;
    ProgressStart(t, failed, cands, chain);
  }

  lemma SettlesBest(t: Tree, chainData: set<Hash>, failed0: set<Hash>, failed: set<Hash>, cands0: set<Hash>,
                    cands: set<Hash>, chain0: seq<Hash>, chain: seq<Hash>, high: Hash, right: bool)
    requires Settles(t, chainData, failed0, failed, cands0, chain0, chain, high, right) && failed0 <= failed
    requires CandidatesOk(t, chainData, failed, cands, high) && cands == cands0 - failed
    ensures chain0 != [] && chain != []
    ensures high !in failed || (right && NoneLost(t, chainData - failed0, cands0, chain0[|chain0| - 1])) ==>
              Unbeaten(t, chainData - failed, chain[|chain| - 1])
                       && NoneLost(t, chainData - failed, cands, chain[|chain| - 1])
  {
    hide First, BelowFailed;
    var tip0 := chain0[|chain0| - 1];
    if right { assert tip0 in chainData - failed; }
    if high !in failed { assert high in chainData - failed; }
  }

  /** When no candidate beats the tip, the tip is best exactly if every usable block heavier than it is a candidate. */
  lemma RestsBestIff(t: Tree, chainData: set<Hash>, failed0: set<Hash>, failed: set<Hash>, cands0: set<Hash>,
                     chain0: seq<Hash>, chain: seq<Hash>, high: Hash, right: bool)
    requires Settles(t, chainData, failed0, failed, cands0, chain0, chain, high, right)
               && Unbeaten(t, cands0, chain0[|chain0| - 1]) && chainData <= t.Keys
    ensures Unbeaten(t, chainData - failed, chain[|chain| - 1]) <==>
            forall x :: x in chainData && x !in failed0 && t[x].work > t[chain0[|chain0| - 1]].work ==> x in cands0
  {
    hide First, BelowFailed;
  }

  /** A failed switch ends where it began: if nothing usable is heavier than the old tip and nothing else is as heavy,
      the chain is the old one. */
  lemma ReturnsHome(t: Tree, root: Hash, chainData: set<Hash>, failed0: set<Hash>, failed: set<Hash>, cands0: set<Hash>,
                    chain0: seq<Hash>, chain: seq<Hash>, high: Hash, right: bool)
    requires TreeOk(t, root) && ChainOk(t, root, chain0) && ChainOk(t, root, chain)
               && FlagsOk(t, chain, chainData, failed)
    requires Settles(t, chainData, failed0, failed, cands0, chain0, chain, high, right)
    requires right && (high !in failed || NoneLost(t, chainData - failed0, cands0, chain0[|chain0| - 1]))
    requires forall x :: x in chainData && x in t && x !in failed && x != chain0[|chain0| - 1] ==>
               t[x].work < t[chain0[|chain0| - 1]].work
    ensures chain == chain0
  {
    var tip0, tip := chain0[|chain0| - 1], chain[|chain| - 1];
    assert tip0 in chainData - failed && tip in chainData - failed;
    assert tip == tip0;
    SameTip(t, root, chain0, chain);
  }

  /** A block whose branch does not replay up to it. */
  ghost predicate Hopeless(r: Rules, t: Tree, root: Hash, store: Store, b: Hash) {
    exists c :: ChainOk(t, root, c + [b]) && Stored(store, c + [b]) && Replayed(r, BlocksOf(store, c + [b])).None?
  }

  /** The same, told beforehand: the node comes back to its chain if every other usable block as heavy as its tip is on
      or above a block that cannot connect. */
  lemma ComesBack(r: Rules, t: Tree, root: Hash, store: Store, chainData: set<Hash>, failed0: set<Hash>,
                  failed: set<Hash>, cands0: set<Hash>, chain0: seq<Hash>, chain: seq<Hash>, high: Hash, st: State)
    requires TreeOk(t, root) && ChainOk(t, root, chain0) && ChainOk(t, root, chain)
               && FlagsOk(t, chain, chainData, failed)
    requires Settles(t, chainData, failed0, failed, cands0, chain0, chain, high, true) && failed0 <= failed
    requires Stored(store, chain) && Replayed(r, BlocksOf(store, chain)) == Some(st)
    requires NoneLost(t, chainData - failed0, cands0, chain0[|chain0| - 1])
    requires var home := chain0[|chain0| - 1];
             forall x :: x in chainData && x in t && x !in failed0 && x != home && t[x].work >= t[home].work ==>
               OnHopeless(r, t, root, store, x)
    ensures chain == chain0
  {
    hide First, BelowFailed, TreeOk, OnHopeless, ClosedUnderChildren;
    var tip0, tip := chain0[|chain0| - 1], chain[|chain| - 1];
    assert tip0 in chainData - failed && tip in chainData - failed;
    if tip != tip0 { OffHopeless(r, t, root, store, chain, st, tip); }
    SameTip(t, root, chain0, chain);
  }

  ghost predicate OnHopeless(r: Rules, t: Tree, root: Hash, store: Store, x: Hash)
    requires TreeOk(t, root)
  {
    exists b :: IsAncestor(t, root, b, x) && Hopeless(r, t, root, store, b)
  }

  /** The tip of a chain that replays is on no such block. */
  lemma OffHopeless(r: Rules, t: Tree, root: Hash, store: Store, chain: seq<Hash>, st: State, tip: Hash)
    requires TreeOk(t, root) && ChainOk(t, root, chain) && chain[|chain| - 1] == tip
    requires Stored(store, chain) && Replayed(r, BlocksOf(store, chain)) == Some(st)
    ensures !OnHopeless(r, t, root, store, tip)
  {
    hide TreeOk, Replayed;
    if OnHopeless(r, t, root, store, tip) {
      var b :| IsAncestor(t, root, b, tip) && Hopeless(r, t, root, store, b);
      var c :| ChainOk(t, root, c + [b]) && Stored(store, c + [b]) && Replayed(r, BlocksOf(store, c + [b])).None?;
      OnBranch(t, root, chain, |chain| - 1, b);
      SharedPrefix(t, root, chain, c, b);
      var n := |c| + 1;
      assert c + [b] == chain[..n];
      assert BlocksOf(store, c + [b]) == BlocksOf(store, chain)[..n];
      ReplayPrefix(r, BlocksOf(store, chain), n);
    }
  }

  lemma SameTip(t: Tree, root: Hash, a: seq<Hash>, b: seq<Hash>)
    requires TreeOk(t, root) && ChainOk(t, root, a) && ChainOk(t, root, b) && a[|a| - 1] == b[|b| - 1]
    ensures a == b
  {
    assert |a| == |b|;
    forall i | 0 <= i < |a| ensures a[i] == b[i] {
      ChainUp(t, root, a, |a| - 1, i);
      ChainUp(t, root, b, |b| - 1, i);
    }
  }

  lemma GaveUpMeans(t: Tree, failed0: set<Hash>, failed: set<Hash>, cands0: set<Hash>, cands: set<Hash>,
                    chain0: seq<Hash>, chain: seq<Hash>)
    requires Progress(t, failed0, failed, cands0, cands, chain0, chain, 1_000_000) && failed <= t.Keys
    ensures |t| >= 999_999
  {
    FewerElements(failed, t.Keys);
  }

  /** The chain below a fork is still a chain of usable blocks. */
  lemma PrefixReady(t: Tree, root: Hash, chain: seq<Hash>, front: seq<Hash>, chainData: set<Hash>, failed: set<Hash>)
    requires ChainOk(t, root, chain) && FlagsOk(t, chain, chainData, failed) && PrefixOf(front, chain) && front != []
    ensures ChainOk(t, root, front) && FlagsOk(t, front, chainData, failed)
  {}

  lemma ShapeHasCoinbase(b: Block, height: nat)
    requires ShapeOk(b, height)
    ensures b.txs != []
  {}

  lemma LedgerParts(r: Rules, store: Store, chain: seq<Hash>, st: State, byAddr: map<Hash, set<OutPoint>>,
                    supply: Amount, txindex: map<Hash, Hash>, undo: map<Hash, Undo>)
    requires LedgerOk(r, store, chain, st, byAddr, supply, txindex, undo)
    ensures ReplayOk(r, store, chain, st, txindex, undo) && BookOk(st.coins, byAddr, st.pools, supply)
    ensures chain != [] ==> chain[|chain| - 1] in store
  {}

  lemma NetworkOk(r: Rules, s: Network, prune: bool, store: Store, chain: seq<Hash>, st: State,
                  byAddr: map<Hash, set<OutPoint>>, supply: Amount, txindex: map<Hash, Hash>, undo: map<Hash, Undo>,
                  snaps: Snaps, files: Files)
    requires LedgerValues(r, s, prune, store, chain, st, byAddr, supply, txindex, undo, snaps, files)
    ensures s.Ok()
  {}

  lemma ChainShrinks(r: Rules, s: Network, store: Store, chain: seq<Hash>, files: Files, n: nat)
    requires Verified(r, s, store, chain, files) && n <= |chain|
    ensures Verified(r, s, store, chain[..n], files)
  {
    hide VerifiedAt;
    VerifiedLess(r, s, store, store, chain, chain[..n], files, files);
  }

  /** A body for a block that had none, with or without witnesses. */
  lemma StoreVerified(r: Rules, s: Network, store: Store, chain: seq<Hash>, files: Files, x: Hash, b: Block,
                      ws: seq<seq<Witness>>)
    requires Verified(r, s, store, chain, files) && x !in store
    ensures Verified(r, s, store[x := b], chain, files) && Verified(r, s, store[x := b], chain, files[x := ws])
  {
    hide VerifiedAt;
    VerifiedLess(r, s, store, store[x := b], chain, chain, files, files);
    VerifiedLess(r, s, store, store[x := b], chain, chain, files, files[x := ws]);
  }

  /** Witnesses for a block off the chain. */
  lemma FillVerified(r: Rules, s: Network, t: Tree, root: Hash, store: Store, chain: seq<Hash>, files: Files, x: Hash,
                     ws: seq<seq<Witness>>)
    requires Verified(r, s, store, chain, files) && ChainOk(t, root, chain) && !InChain(t, chain, x)
    ensures Verified(r, s, store, chain, files[x := ws])
  {
    hide VerifiedAt;
    assert forall i :: 0 <= i < |chain| ==> chain[i] != x;
    VerifiedLess(r, s, store, store, chain, chain, files, files[x := ws]);
  }

  lemma StoreFailed(r: Rules, s: Network, t: Tree, root: Hash, children: map<Hash, seq<Hash>>, store: Store,
                    store': Store, failed: set<Hash>, x: Hash)
    requires FailedOk(r, s, t, root, store, failed) && TreeInv(t, root, children)
    requires x !in store && x in store' && store' == store[x := store'[x]]
    ensures FailedOk(r, s, t, root, store', failed)
  {
    hide FailedOk, SkipsOk, ChildrenOk, TreeOk;
    FailedStable(r, s, t, t, root, store, store', failed);
  }

  /** What follows from a refusal: the block is bad where it stands, and `home` is spared. */
  lemma Refused(r: Rules, s: Network, t: Tree, root: Hash, store: Store, home: seq<Hash>, chain: seq<Hash>,
                files: Files, snaps: Snaps, st: State, byAddr: map<Hash, set<OutPoint>>, supply: Amount,
                txindex: map<Hash, Hash>, undo: map<Hash, Undo>, failed: set<Hash>, b: Hash)
    requires LedgerOk(r, store, chain, st, byAddr, supply, txindex, undo) && SnapsOk(r, s, store, chain, snaps)
               && FilesOk(s, store, files)
    requires TreeOk(t, root) && chain != [] && ChainOk(t, root, chain + [b])
               && HomeOk(r, s, t, root, store, home, files, failed)
    requires b in store && ShapeOk(store[b], |chain|) && ReadAs(store, files, b).Some? && s.Ok()
    requires Rejects(r, s, st, chain, snaps.hashes, store, files, b)
    ensures BadOn(r, s, store, chain, b)
    ensures HomeOk(r, s, t, root, store, home, files, failed + Descendants(t, root, b))
  {
    hide SnapsOk, Commits, Connectable, HomeOk, BadOn, TreeOk, ChainOk, UndosOk, ReadAs, FilesOk;
    ShapeHasCoinbase(store[b], |chain|);
    RefusedIsBad(r, s, store, chain, files, snaps, st, b);
    HomeSpared(r, s, t, root, store, home, chain, files, snaps, st, failed, b);
  }

  /** All that failing a refused block makes true. */
  lemma FailReady(r: Rules, s: Network, prune: bool, t: Tree, root: Hash, children: map<Hash, seq<Hash>>, store: Store,
                  home: seq<Hash>, chain: seq<Hash>, files: Files, snaps: Snaps, st: State,
                  byAddr: map<Hash, set<OutPoint>>, supply: Amount, txindex: map<Hash, Hash>, undo: map<Hash, Undo>,
                  chainData: set<Hash>, failed: set<Hash>, cands: set<Hash>, b: Hash)
    requires LedgerValues(r, s, prune, store, chain, st, byAddr, supply, txindex, undo, snaps, files)
    requires TreeValues(r, s, t, root, children, chain, store, chainData, failed) && cands !! failed
    requires b !in chain && ChainOk(t, root, chain + [b]) && b in chainData && b !in failed
    requires HomeOk(r, s, t, root, store, home, files, failed)
    requires s.Ok() && ReadAs(store, files, b).Some? && Rejects(r, s, st, chain, snaps.hashes, store, files, b)
    ensures TreeOk(t, root) && ChildrenOk(t, children) && b in t && b != root && root !in failed && chain != []
    ensures var failed' := failed + Descendants(t, root, b);
            && failed < failed' && cands - Descendants(t, root, b) == cands - failed'
            && TreeValues(r, s, t, root, children, chain, store, chainData, failed')
            && HomeOk(r, s, t, root, store, home, files, failed')
            && FailedOn(t, root, failed, failed', chain[|chain| - 1])
  {
    hide LedgerOk, UndoKept, SnapsOk, Anchored, FilesOk, Verified, SkipsOk, ChildrenOk, TreeOk, ChainOk, DataOk,
         FlagsOk, FailedOk, HomeOk, BadOn, ReadAs, Rejects, Descendants, ShapeOk;
    StepReady(t, root, chain, store, chainData, failed, cands, b);
    Refused(r, s, t, root, store, home, chain, files, snaps, st, byAddr, supply, txindex, undo, failed, b);
    FailedMore(r, s, t, root, store, failed, chain, b);
  }

  lemma UndoKeptNext(prune: bool, chain: seq<Hash>, undo: map<Hash, Undo>, x: Hash, u: Undo)
    requires UndoKept(prune, chain, undo)
    ensures UndoKept(prune, chain + [x], undo[x := u])
  {}

  lemma UndoKeptMeans(prune: bool, chain: seq<Hash>, undo: map<Hash, Undo>)
    requires UndoKept(prune, chain, undo)
    ensures |chain| > 1 && chain[|chain| - 1] !in undo ==> prune
  {}

  /** The snapshot block of a commitment on top of the chain. */
  function CommitBase(s: Network, chain: seq<Hash>): Option<Hash>
    requires s.Ok()
  {
    if s.CommitHeight(|chain|) then Some(chain[|chain| - s.delay]) else None
  }

  /** All that connecting a block makes true, before any of it is written. */
  lemma AttachReady(r: Rules, s: Network, prune: bool, store: Store, chain: seq<Hash>, st: State,
                    byAddr: map<Hash, set<OutPoint>>, supply: Amount, txindex: map<Hash, Hash>, undo: map<Hash, Undo>,
                    snaps: Snaps, files: Files, x: Hash, ov: Overlay, st': State)
    requires LedgerValues(r, s, prune, store, chain, st, byAddr, supply, txindex, undo, snaps, files) && chain != []
    requires x in store && x !in chain && ShapeOk(store[x], |chain|) && OverlayOk(st, ov)
    requires st' == View(Chain(st), ov).State() && ConnectState(r, st, store[x], |chain|, false) == Ok(st')
    requires s.Ok() && Commits(s, chain, snaps.hashes, x) && Connectable(r, st, store, files, x, |chain|)
    ensures BookOk(st.coins, byAddr, st.pools, supply) && UndoKept(prune, chain, undo) && FilesOk(s, store, files)
    ensures ReplayOk(r, store, chain + [x], st', txindex + IdMap(r, store[x].txs, x), undo[x := UndoFrom(ov)])
    ensures SnapsOk(r, s, store, chain + [x], SnapsWith(s, snaps, chain, x, st'))
              && Verified(r, s, store, chain + [x], files)
    ensures Anchored(prune, chain + [x], KeysLeft(undo.Keys, x, PrunedAt(prune, chain + [x], |chain| - PRUNE_DEPTH)),
              SnapsWith(s, snaps, chain, x, st'))
  {
    hide SnapsOk, Verified, Connectable, ConnectState, OverlayOk, IdMap, UndoFrom, ShapeOk, Commits, SnapsWith, UndosOk,
         Anchored, FilesOk, UndoKept;
    ReplayConnect(r, store, chain, st, txindex, undo, x, false, ov);
    SnapsNext(r, s, store, chain, snaps, x, st');
    VerifiedNext(r, s, store, chain, files, st, x);
    AttachAnchored(r, s, prune, store, chain, undo, snaps, x, st');
  }

  /** Once the deep files are gone. */
  lemma AttachAnchored(r: Rules, s: Network, prune: bool, store: Store, chain: seq<Hash>, undo: map<Hash, Undo>,
                       snaps: Snaps, x: Hash, st: State)
    requires SnapsOk(r, s, store, chain, snaps) && Anchored(prune, chain, undo.Keys, snaps) && x !in chain
               && chain != []
    ensures Anchored(prune, chain + [x], KeysLeft(undo.Keys, x, PrunedAt(prune, chain + [x], |chain| - PRUNE_DEPTH)),
              SnapsWith(s, snaps, chain, x, st))
  {
    hide HashAt, CommitRight, HeldIff, Unchecked, Anchored, SnapsWith, PeaksOk, NoRepeats;
    AnchoredNext(s, prune, chain, undo.Keys, snaps, x, st,
                 KeysLeft(undo.Keys, x, PrunedAt(prune, chain + [x], |chain| - PRUNE_DEPTH)));
  }

  lemma CoreJoin(r: Rules, s: Network, prune: bool, store: Store, chain: seq<Hash>, st: State,
                 byAddr: map<Hash, set<OutPoint>>, supply: Amount, txindex: map<Hash, Hash>, undo: map<Hash, Undo>,
                 snaps: Snaps, files: Files)
    requires ReplayOk(r, store, chain, st, txindex, undo) && BookOk(st.coins, byAddr, st.pools, supply)
               && UndoKept(prune, chain, undo)
    requires SnapsOk(r, s, store, chain, snaps) && Verified(r, s, store, chain, files) && FilesOk(s, store, files)
    ensures LedgerCore(r, s, prune, store, chain, st, byAddr, supply, txindex, undo, snaps, files)
  {
    hide ReplayOk, BookOk, UndoKept, SnapsOk, Verified, FilesOk;
  }

  lemma BackJoin(r: Rules, s: Network, prune: bool, store: Store, longer: seq<Hash>, chain: seq<Hash>, st: State,
                 byAddr: map<Hash, set<OutPoint>>, supply: Amount, txindex: map<Hash, Hash>, undo: map<Hash, Undo>,
                 snaps: Snaps, files: Files)
    requires ReplayOk(r, store, chain, st, txindex, undo) && BookOk(st.coins, byAddr, st.pools, supply)
    requires UndoKept(prune, longer, undo) && chain <= longer && Anchored(prune, chain, undo.Keys, snaps)
    requires SnapsOk(r, s, store, chain, snaps) && Verified(r, s, store, chain, files) && FilesOk(s, store, files)
    ensures LedgerValues(r, s, prune, store, chain, st, byAddr, supply, txindex, undo, snaps, files)
  {
    hide ReplayOk, BookOk, SnapsOk, Verified, FilesOk, Anchored;
  }

  lemma SnapsWithIs(s: Network, snaps: Snaps, chain: seq<Hash>, x: Hash, st: State)
    requires s.Ok()
    ensures var after := SnapsWith(s, snaps, chain, x, st);
            && after == Snaps(HashesWith(s, snaps.hashes, chain + [x], st), after.peaks, snaps.deepest, after.skipped)
            && snaps.skipped <= after.skipped
  {}

  lemma HashesWithIs(s: Network, hashes: Hashes, chain: seq<Hash>, st: State)
    requires s.Ok() && chain != []
    ensures var n := |chain| - 1;
            HashesWith(s, hashes, chain, st) ==
            if s.SnapshotHeight(n) then Newest(chain, hashes[chain[n] := s.stateHash(chain[n], n, st)]) else hashes
  {}

  lemma NoneGone(all: Hashes, held: seq<Hash>, from: nat)
    requires from <= |held|
    ensures all - Sorting.Elements(held[from..from]) == all
  {}

  lemma LedgerJoin(r: Rules, s: Network, prune: bool, store: Store, chain: seq<Hash>, st: State,
                   byAddr: map<Hash, set<OutPoint>>, supply: Amount, txindex: map<Hash, Hash>, undo: map<Hash, Undo>,
                   snaps: Snaps, files: Files)
    requires LedgerCore(r, s, prune, store, chain, st, byAddr, supply, txindex, undo, snaps, files)
               && Anchored(prune, chain, undo.Keys, snaps)
    ensures LedgerValues(r, s, prune, store, chain, st, byAddr, supply, txindex, undo, snaps, files)
  {}

  /** All that taking the tip back makes true of the snapshots. */
  lemma BackReady(r: Rules, s: Network, prune: bool, store: Store, chain: seq<Hash>, undo: map<Hash, Undo>,
                  snaps: Snaps)
    requires SnapsOk(r, s, store, chain, snaps) && Anchored(prune, chain, undo.Keys, snaps) && |chain| > 1
               && chain[|chain| - 1] in undo
    ensures SnapsOk(r, s, store, chain[..|chain| - 1], SnapsWithout(snaps))
              && SnapsWithout(snaps).deepest >= snaps.deepest
    ensures Anchored(prune, chain[..|chain| - 1], undo.Keys, SnapsWithout(snaps))
  {
    hide HashAt, CommitRight, HeldIff, Unchecked, Anchored, SnapsWithout, PeaksOk;
    SnapsBack(r, s, store, chain, snaps);
    PeaksBack(chain, snaps);
    AnchoredBack(prune, chain, undo.Keys, snaps);
  }

  lemma BackHashes(snaps: Snaps)
    ensures var after := SnapsWithout(snaps); after == Snaps(snaps.hashes, after.peaks, after.deepest, snaps.skipped)
  {}

  /** The part of the ledger side that is about snapshots. */
  lemma SnapsParts(r: Rules, s: Network, prune: bool, store: Store, chain: seq<Hash>, st: State,
                   byAddr: map<Hash, set<OutPoint>>, supply: Amount, txindex: map<Hash, Hash>, undo: map<Hash, Undo>,
                   snaps: Snaps, files: Files)
    requires LedgerValues(r, s, prune, store, chain, st, byAddr, supply, txindex, undo, snaps, files)
    ensures s.Ok() && Stored(store, chain) && SnapsOk(r, s, store, chain, snaps) && |snaps.peaks| == |chain|
    ensures prune ==> snaps.deepest <= PRUNE_DEPTH
  {
    hide LedgerOk, UndoKept, Verified, FilesOk, HeldIff, HashAt, CommitRight, Unchecked;
  }

  lemma UndoParts(r: Rules, s: Network, prune: bool, store: Store, chain: seq<Hash>, st: State,
                  byAddr: map<Hash, set<OutPoint>>, supply: Amount, txindex: map<Hash, Hash>, undo: map<Hash, Undo>,
                  snaps: Snaps, files: Files)
    requires LedgerValues(r, s, prune, store, chain, st, byAddr, supply, txindex, undo, snaps, files)
    ensures |snaps.peaks| == |chain| && PeaksOk(chain, snaps)
    ensures forall i :: 0 < i < |chain| ==> (chain[i] in undo <==> !prune || snaps.peaks[i] < i + 5040)
  {
    hide LedgerOk, Verified, FilesOk, HeldIff, HashAt, CommitRight, Unchecked, PeaksOk;
    PeaksLength(chain, snaps);
  }

  lemma PeaksFall(chain: seq<Hash>, snaps: Snaps, i: nat)
    requires PeaksOk(chain, snaps) && i < |chain|
    ensures |snaps.peaks| == |chain| && |chain| - 1 <= snaps.peaks[i] <= snaps.peaks[0]
  {}

  lemma PeaksLength(chain: seq<Hash>, snaps: Snaps)
    requires PeaksOk(chain, snaps)
    ensures |snaps.peaks| == |chain|
  {}

  /** A snapshot that has just been taken is held. */
  lemma FreshHeld(r: Rules, s: Network, store: Store, chain: seq<Hash>, snaps: Snaps, x: Hash, st: State)
    requires s.Ok() && SnapsOk(r, s, store, chain + [x], SnapsWith(s, snaps, chain, x, st))
    ensures s.SnapshotHeight(|chain|) ==> x in SnapsWith(s, snaps, chain, x, st).hashes
  {
    hide HashAt, CommitRight, Unchecked, HashesWith, Skips;
    assert (chain + [x])[|chain|] == x;
  }

  lemma SkipsIs(s: Network, chain: seq<Hash>, hashes: Hashes)
    requires s.Ok()
    ensures Skips(s, chain, hashes) <==> s.CommitHeight(|chain|) && chain[|chain| - s.delay] !in hashes
  {}

  /** A child of the tip can be connected. */
  lemma ChildFits(r: Rules, s: Network, t: Tree, root: Hash, children: map<Hash, seq<Hash>>, chain: seq<Hash>,
                  store: Store, chainData: set<Hash>, failed: set<Hash>, x: Hash)
    requires TreeValues(r, s, t, root, children, chain, store, chainData, failed) && chain != []
    requires x in t && t[x].prev == Some(chain[|chain| - 1])
    ensures x !in chain && ChainOk(t, root, chain + [x])
  {
    hide FailedOk, DataOk, FlagsOk, SkipsOk, ChildrenOk;
    assert x != root;
    assert t[x].height == |chain|;
  }

  lemma AheadOrdered(chain: seq<Hash>)
    ensures Sorting.Ordering((a: Hash, b: Hash) => Ahead(chain, a, b))
  {
    hide Place;
  }

  /** What sorting and cutting off after the third leaves. */
  lemma RanksAre(chain: seq<Hash>, all: Hashes, held: seq<Hash>, i: nat)
    requires Sorting.Ordering((a: Hash, b: Hash) => Ahead(chain, a, b))
               && Sorting.Sorted((a: Hash, b: Hash) => Ahead(chain, a, b), held)
    requires Sorting.Elements(held) == all.Keys && i < |held|
    ensures held[i] in all && |AheadOf(chain, all, held[i])| == i
  {
    hide Ahead;
    var less := (a: Hash, b: Hash) => Ahead(chain, a, b);
    Sorting.SortedRank(less, held, i);
    assert held[i] in Sorting.Elements(held);
    forall y ensures y in AheadOf(chain, all, held[i]) <==> y in Sorting.Elements(held[..i]) {
      assert y in all <==> y in held by { assert y in held <==> y in Sorting.Elements(held); }
      assert less(y, held[i]) == Ahead(chain, y, held[i]);
      assert y in Sorting.Elements(held[..i]) <==> y in (set z | z in held && less(z, held[i]));
    }
    assert AheadOf(chain, all, held[i]) == Sorting.Elements(held[..i]);
  }

  lemma NewestIs(chain: seq<Hash>, all: Hashes, held: seq<Hash>, from: nat)
    requires Sorting.Ordering((a: Hash, b: Hash) => Ahead(chain, a, b))
               && Sorting.Sorted((a: Hash, b: Hash) => Ahead(chain, a, b), held)
    requires Sorting.Elements(held) == all.Keys && from == if |held| < 3 then |held| else 3
    ensures Newest(chain, all) == all - Sorting.Elements(held[from..])
  {
    hide Ahead, AheadOf;
    forall i | 0 <= i < |held| ensures held[i] in Newest(chain, all) <==> i < from { RanksAre(chain, all, held, i); }
    hide Newest, Sorting.Ordering, Sorting.Sorted;
    forall x | x in all ensures x in Newest(chain, all) <==> x !in Sorting.Elements(held[from..]) {
      assert x in Sorting.Elements(held);
      CutAt(held, from, x);
    }
    NewestPart(chain, all);
  }

  lemma NewestPart(chain: seq<Hash>, all: Hashes)
    ensures Newest(chain, all).Keys <= all.Keys && forall x :: x in Newest(chain, all) ==>
              Newest(chain, all)[x] == all[x]
  {}

  /** Where an element of a list is, and so on which side of a cut. */
  lemma CutAt(held: seq<Hash>, from: nat, x: Hash)
    requires from <= |held| && x in held
    ensures exists i :: 0 <= i < |held| && held[i] == x
    ensures x in held[from..] <==> exists i :: from <= i < |held| && held[i] == x
  {
    if x in held[from..] {
      var j :| 0 <= j < |held| - from && held[from..][j] == x;
      assert held[from + j] == x;
    }
    if i :| from <= i < |held| && held[i] == x { assert held[from..][i - from] == x; }
  }

  lemma OneMoreGone(all: Hashes, held: seq<Hash>, from: nat, i: nat)
    requires from <= i < |held|
    ensures (all - Sorting.Elements(held[from..i])) - {held[i]} == all - Sorting.Elements(held[from..i + 1])
  {
    assert held[from..i + 1] == held[from..i] + [held[i]];
  }

  lemma AddOne(utxo: map<OutPoint, Coin>, m: map<OutPoint, Coin>, todo: set<OutPoint>, o: OutPoint)
    requires o in todo && todo <= m.Keys
    ensures utxo + (m - (todo - {o})) == (utxo + (m - todo))[o := m[o]]
  {}

  lemma RestoreOne(pools: map<Hash, Pool>, m: map<Hash, Option<Pool>>, todo: set<Hash>, t: Hash)
    requires t in todo && todo <= m.Keys
    ensures var before := RestorePools(pools, m - todo);
            RestorePools(pools, m - (todo - {t})) == if m[t].Some? then before[t := m[t].value] else before - {t}
  {}

  lemma ApplyAllNext(r: Rules, st: State, txs: seq<Transaction>, i: nat, height: nat, verify: bool)
    requires i < |txs| && ApplyAll(r, st, txs[..i], height, verify).Ok?
    ensures var front := ApplyAll(r, st, txs[..i], height, verify).value;
            var last := ApplyTx(r, front.state, txs[i], height, verify);
            && ApplyAll(r, st, txs[..i + 1], height, verify) ==
               (if last.Err? then Err(last.reason) else Ok(Applied(last.value.state, Add64(front.fee, last.value.fee))))
            && (last.Err? ==> ApplyAll(r, st, txs, height, verify).Err?)
  {
    hide ApplyTx;
    assert txs[..i + 1][..i] == txs[..i] && txs[..i + 1] != [];
    if ApplyAll(r, st, txs[..i + 1], height, verify).Err? { ApplyAllStops(r, st, txs, i + 1, height, verify); }
  }

  lemma {:induction false} ApplyAllStops(r: Rules, st: State, txs: seq<Transaction>, n: nat, height: nat, verify: bool)
    requires n <= |txs| && ApplyAll(r, st, txs[..n], height, verify).Err?
    ensures ApplyAll(r, st, txs, height, verify).Err?
  {
    if n == |txs| {
      assert txs[..n] == txs;
    } else {
      assert txs[..|txs| - 1][..n] == txs[..n];
      ApplyAllStops(r, st, txs[..|txs| - 1], n, height, verify);
    }
  }

  lemma SomePools(pools: map<Hash, Pool>, over: map<Hash, Pool>)
    ensures RestorePools(pools, map t | t in over :: Some(over[t])) == pools + over
  {}

  lemma OutsNext(r: Rules, coins: map<OutPoint, Coin>, txs: seq<Transaction>, i: nat)
    requires i < |txs|
    ensures coins - OutsOf(r, txs[..i + 1]) ==
            (coins - OutsOf(r, txs[..i])) - OutPoints(r.txid(txs[i].core), |txs[i].core.outs|)
  {
    assert txs[..i + 1][..i] == txs[..i];
  }

  lemma PrefixSelf(a: seq<Hash>)
    ensures PrefixOf(a, a)
  {}

  ghost predicate PrefixOf(a: seq<Hash>, b: seq<Hash>) { |a| <= |b| && a == b[..|a|] }

  lemma PrefixShrinks(a: seq<Hash>, b: seq<Hash>, n: nat)
    requires PrefixOf(a, b) && n < |a|
    ensures PrefixOf(a[..|a| - 1], b) && a[n] == b[n]
  {}

  /** Below a usable block everything is usable. */
  lemma {:induction false} PathUsable(t: Tree, root: Hash, store: Store, chainData: set<Hash>, failed: set<Hash>,
                                      cand: Hash, h: nat)
    requires TreeOk(t, root) && DataOk(t, root, store, chainData) && ClosedUnderChildren(t, failed)
    requires cand in chainData && cand !in failed && h <= t[cand].height
    ensures forall k {:trigger Up(t, root, cand, k)} :: h <= k <= t[cand].height ==>
              Up(t, root, cand, k) in chainData && Up(t, root, cand, k) !in failed
    decreases t[cand].height
  {
    if h < t[cand].height {
      var p := t[cand].prev.value;
      assert ParentIn(t, cand, chainData);
      PathUsable(t, root, store, chainData, failed, p, h);
      forall k | h <= k < t[cand].height
        ensures Up(t, root, cand, k) == Up(t, root, p, k)
      {}
    }
  }

  lemma PathReady(r: Rules, s: Network, t: Tree, root: Hash, children: map<Hash, seq<Hash>>, store: Store,
                  chain: seq<Hash>, chainData: set<Hash>, failed: set<Hash>, cand: Hash)
    requires TreeValues(r, s, t, root, children, chain, store, chainData, failed) && TreeOk(t, root) && chain != []
    requires cand in chainData && cand !in failed && IsAncestor(t, root, chain[|chain| - 1], cand)
    ensures cand in t && |chain| - 1 <= t[cand].height && Climbed(t, root, cand, chain)
  {}

  lemma ForkOnChain(t: Tree, root: Hash, chain: seq<Hash>, fork: Hash, cand: Hash)
    requires TreeOk(t, root) && InChain(t, chain, fork) && IsAncestor(t, root, fork, cand)
    ensures fork in t && t[fork].height < |chain| && chain[t[fork].height] == fork
  {}

  /** The chain is the lower part of the branch of `cand`. */
  ghost predicate Climbed(t: Tree, root: Hash, cand: Hash, chain: seq<Hash>)
    requires TreeOk(t, root)
  {
    chain != [] && cand in t && |chain| - 1 <= t[cand].height && chain[|chain| - 1] == Up(t, root, cand, |chain| - 1)
  }

  /** The next block on the way up. */
  lemma ClimbNext(r: Rules, s: Network, t: Tree, root: Hash, children: map<Hash, seq<Hash>>, chain: seq<Hash>,
                  store: Store, chainData: set<Hash>, failed: set<Hash>, cand: Hash, b: Hash)
    requires TreeValues(r, s, t, root, children, chain, store, chainData, failed) && TreeOk(t, root)
    requires Climbed(t, root, cand, chain) && |chain| <= t[cand].height && b == Up(t, root, cand, |chain|)
    requires cand in chainData && cand !in failed
    ensures b !in chain && ChainOk(t, root, chain + [b]) && b in chainData && b !in failed
    ensures Climbed(t, root, cand, chain + [b])
  {
    PathUsable(t, root, store, chainData, failed, cand, |chain|);
    NextOnPath(t, root, chain, cand, b);
  }

  lemma EndedEarly(t: Tree, root: Hash, failed: set<Hash>, failed': set<Hash>, cands: set<Hash>, cands': set<Hash>,
                   chain: seq<Hash>, cand: Hash, out: Outcome)
    requires chain != []
    requires out != Invalid ==> failed' == failed && cands' == cands
    requires out == Invalid ==>
               failed < failed' && cands' == cands - failed' && TreeOk(t, root)
               && FailedOn(t, root, failed, failed', chain[|chain| - 1])
    ensures out != Connected ==> Ended(t, root, failed, failed', cands, cands', chain[|chain| - 1], cand, out)
  {}

  lemma EndedOn(t: Tree, root: Hash, failed: set<Hash>, cands: set<Hash>, chain: seq<Hash>, cand: Hash)
    requires TreeOk(t, root) && Climbed(t, root, cand, chain) && |chain| == t[cand].height + 1
    ensures Ended(t, root, failed, failed, cands, cands, chain[|chain| - 1], cand, Connected)
  {}

  lemma StuckOnTip(t: Tree, root: Hash, prune: bool, chain: seq<Hash>, undo: map<Hash, Undo>, store: Store,
                   files: Files, best: Hash, chainData: set<Hash>, failed: set<Hash>, cands: set<Hash>, cand: Hash)
    requires chain != [] && best in t && prune && chain[|chain| - 1] !in undo
    ensures StuckOn(t, prune, chain, undo, store, files, best, chainData, failed)
    ensures Ended(t, root, failed, failed, cands, cands, chain[|chain| - 1], cand, Stalled)
  {}

  lemma TreeParts(r: Rules, s: Network, t: Tree, root: Hash, children: map<Hash, seq<Hash>>, chain: seq<Hash>,
                  store: Store, chainData: set<Hash>, failed: set<Hash>)
    requires TreeValues(r, s, t, root, children, chain, store, chainData, failed)
    ensures TreeInv(t, root, children) && TreeOk(t, root) && SkipsOk(t, root) && ChainOk(t, root, chain) && chain != []
    ensures DataOk(t, root, store, chainData) && chainData <= t.Keys && store.Keys <= t.Keys
  {}

  /** Back to a prefix. */
  lemma TreePrefix(r: Rules, s: Network, t: Tree, root: Hash, children: map<Hash, seq<Hash>>, chain: seq<Hash>,
                   front: seq<Hash>, store: Store, chainData: set<Hash>, failed: set<Hash>)
    requires TreeValues(r, s, t, root, children, chain, store, chainData, failed) && PrefixOf(front, chain)
               && front != []
    ensures TreeValues(r, s, t, root, children, front, store, chainData, failed)
  {
    PrefixReady(t, root, chain, front, chainData, failed);
  }

  lemma NextReady(r: Rules, s: Network, t: Tree, root: Hash, children: map<Hash, seq<Hash>>, chain: seq<Hash>,
                  store: Store, chainData: set<Hash>, failed: set<Hash>, candidates: set<Hash>, b: Hash)
    requires TreeValues(r, s, t, root, children, chain, store, chainData, failed)
    requires b !in chain && ChainOk(t, root, chain + [b]) && b in chainData && b !in failed && candidates !! failed
    ensures b in t && t[b].height == |chain| && b in store && ShapeOk(store[b], |chain|)
    ensures chain != [] && t[b].prev == Some(chain[|chain| - 1])
    ensures TreeValues(r, s, t, root, children, chain + [b], store, chainData, failed)
  {
    hide FailedOk, SkipsOk, ChildrenOk, ShapeOk;
    StepReady(t, root, chain, store, chainData, failed, candidates, b);
  }

  /** What connecting or failing the next block does to the flags. */
  lemma StepReady(t: Tree, root: Hash, chain: seq<Hash>, store: Store, chainData: set<Hash>, failed: set<Hash>,
                  candidates: set<Hash>, b: Hash)
    requires TreeOk(t, root) && ChainOk(t, root, chain) && DataOk(t, root, store, chainData)
               && FlagsOk(t, chain, chainData, failed)
    requires b !in chain && ChainOk(t, root, chain + [b]) && b in chainData && b !in failed && candidates !! failed
    ensures b in t && t[b].height == |chain| && b in store && ShapeOk(store[b], |chain|)
    ensures chain != [] && t[b].prev == Some(chain[|chain| - 1])
    ensures b != root && root !in failed
    ensures FlagsOk(t, chain + [b], chainData, failed)
    ensures FlagsOk(t, chain, chainData, failed + Descendants(t, root, b))
    ensures failed < failed + Descendants(t, root, b) && b in Descendants(t, root, b)
    ensures candidates - Descendants(t, root, b) == candidates - (failed + Descendants(t, root, b))
  {
    assert (chain + [b])[|chain|] == b && (chain + [b])[|chain| - 1] == chain[|chain| - 1];
    assert chain[0] == root;
    FlagsNext(t, chain, chainData, failed, b);
    FailMore(t, root, chain, chainData, failed, b);
    FailCandidates(t, root, candidates, failed, b);
  }

  /** The next block on the way up is a child of the tip, not on the chain yet. */
  lemma NextOnPath(t: Tree, root: Hash, chain: seq<Hash>, cand: Hash, b: Hash)
    requires TreeOk(t, root) && ChainOk(t, root, chain) && cand in t && |chain| <= t[cand].height
    requires chain[|chain| - 1] == Up(t, root, cand, |chain| - 1) && b == Up(t, root, cand, |chain|)
    ensures b !in chain && ChainOk(t, root, chain + [b])
  {
    UpUp(t, root, cand, |chain|, |chain| - 1);
    assert t[b].prev == Some(chain[|chain| - 1]);
  }

  lemma FlagsNext(t: Tree, chain: seq<Hash>, chainData: set<Hash>, failed: set<Hash>, b: Hash)
    requires FlagsOk(t, chain, chainData, failed) && b in chainData && b !in failed
    ensures FlagsOk(t, chain + [b], chainData, failed)
  {}

  /** Failing a block off the active chain, with its descendants, spares the active chain. */
  lemma FailMore(t: Tree, root: Hash, chain: seq<Hash>, chainData: set<Hash>, failed: set<Hash>, b: Hash)
    requires TreeOk(t, root) && ChainOk(t, root, chain) && FlagsOk(t, chain, chainData, failed)
    requires b in t && b !in chain
    ensures FlagsOk(t, chain, chainData, failed + Descendants(t, root, b))
  {
    DescendantsClosed(t, root, b);
    forall i | 0 <= i < |chain|
      ensures chain[i] !in Descendants(t, root, b)
    {
      if t[b].height <= i { ChainUp(t, root, chain, i, t[b].height); }
    }
  }

  lemma FailCandidates(t: Tree, root: Hash, candidates: set<Hash>, failed: set<Hash>, b: Hash)
    requires TreeOk(t, root) && b in t && b !in failed && candidates !! failed
    ensures failed < failed + Descendants(t, root, b) && b in Descendants(t, root, b)
    ensures candidates - Descendants(t, root, b) == candidates - (failed + Descendants(t, root, b))
  {
    DescendantsClosed(t, root, b);
  }
}
