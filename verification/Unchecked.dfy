/** A run in which a wrong commitment gets onto the active chain, and one block later costs the node the best chain
    (src/chain/chainstate.cpp:333-350, 757-764, 821-855). Snapshots come every second block, and are committed to one
    block later. Every block is of the same work. */
module UncheckedRun {
  import opened Types
  import opened Ledger
  import opened Emission
  import opened Replay
  import opened Undos
  import opened BlockTree
  import opened ChainLedger
  import opened Commitments
  import opened Rejoins
  import opened ChainSteps
  import opened Chainstates
  import Selections

  // ---------------------------------------------------------------- the blocks

  /** Blocks 0 to 8 are one branch; 9 to 15 are on top of 2, up to height 9; 16 to 24 on top of 1, up to height 10. The
      header of 9 commits to a hash that no state has; 16 pays itself too much. */
  function HeightOf(x: nat): nat
    requires x <= 24
  {
    if x <= 8 then x else if x <= 15 then x - 6 else x - 14
  }

  function PrevOf(x: nat): nat
    requires 0 < x
  {
    if x == 9 then 2 else if x == 16 then 1 else x - 1
  }

  function OutsOf(x: nat): seq<TxOut> { if x == 16 then [TxOut(MAX_MONEY, QNT, 1)] else [] }

  function BlockOf(x: nat): Block
    requires x <= 24
  {
    Block(Header(2, if x == 0 then 0 else PrevOf(x), 0, 0, 0, 0, 0, x),
          [Transaction(Core(2, [], OutsOf(x), [], HeightOf(x), []), [])])
  }

  const ENV: Env := Env((h: Header) => h.nonce as Hash, bits => 1, b => true, (b, w) => true,
                        Network(2, 1, (x, h, st) => 0, x => if x == 9 then 1
                                else 0, (x: Hash, ws: seq<seq<Witness>>) => |ws| == 1))

  lemma BlocksFine(x: nat)
    requires x <= 24
    ensures ShapeOk(BlockOf(x), HeightOf(x)) && |BlockOf(x).txs| == 1 && |Witnesses(BlockOf(x))| == 1
    ensures ENV.net.witnessOk(x, Witnesses(BlockOf(x))) && ENV.headerHash(BlockOf(x).header) == x
              && ENV.workOf(BlockOf(x).header.bits) == 1
    ensures x > 0 ==> BlockOf(x).header.prev == PrevOf(x) && PrevOf(x) < x && HeightOf(x) == HeightOf(PrevOf(x)) + 1
  {
    Selections.CoinbaseBasic(BlockOf(x).txs[0], if x == 16 then MAX_MONEY else 0, 1);
  }

  /** Only block 16 ever fails to connect, and it always does. */
  lemma CoinbaseOnly(r: Rules, st: State, x: nat, blk: Block, verify: bool)
    requires x <= 24 && SameCores(BlockOf(x), blk)
    ensures blk.txs != [] && (ConnectState(r, st, blk, HeightOf(x), verify).Ok? <==> x != 16)
  {
    assert blk.txs[1..] == [];
    var outs := blk.txs[0].core.outs;
    assert outs == OutsOf(x);
    if x == 16 {
      assert outs[..0] == [] && TotalOut64(outs[..0]) == 0;
      assert TotalOut64(outs) == MAX_MONEY;
      SecondSubsidy();
    }
  }

  lemma SecondSubsidy()
    ensures Subsidy64(2) < MAX_MONEY
  {}

  // ---------------------------------------------------------------- the tree

  /** The tree once the headers up to `n` have arrived, in order. */
  ghost predicate TreeIs(t: Tree, n: nat) {
    && n <= 24 && (forall x: nat :: x in t <==> x <= n)
    && forall x :: x in t ==>
         t[x].height == HeightOf(x) && t[x].work == HeightOf(x) + 1 && t[x].prev == if x == 0 then None
             else Some(PrevOf(x))
  }

  ghost predicate StoreIs(store: Store, s: set<Hash>)
  {
    store.Keys == s && forall x :: x in s ==> x <= 24 && store[x] == BlockOf(x)
  }

  lemma TreeNext(t: Tree, t': Tree, n: nat, seqNo: nat)
    requires TreeIs(t, n) && n < 24 && n + 1 in t' && Appended(t, t', PrevOf(n + 1), n + 1, 1, seqNo)
    ensures TreeIs(t', n + 1)
  {
    BlocksFine(n + 1);
  }

  /** Every header is acceptable while the chain is at genesis. */
  lemma CanExtend(t: Tree, n: nat, p: Hash)
    requires TreeOk(t, 0) && TreeIs(t, n) && p in t
    ensures Extends(t, 0, [0], {}, p)
  {
    assert IsAncestor(t, 0, 0, p) && InChain(t, [0], 0);
  }

  // ---------------------------------------------------------------- a stage of the run

  /** The node has the headers up to `n` and the bodies in `s`; this is its chain, and these have failed. */
  ghost function Stage(cs: Chainstate, n: nat, s: set<Hash>, chain: seq<Hash>, failed: set<Hash>): (ok: bool)
    reads cs
    ensures ok <==>
              && cs.Valid() && cs.env == ENV && cs.genesis == 0 && !cs.prune && TreeIs(cs.nodes, n)
                  && StoreIs(cs.store, s)
              && cs.Witnessed() && cs.chain == chain && cs.failed == failed
  {
    && cs.Valid() && cs.env == ENV && cs.genesis == 0 && !cs.prune && TreeIs(cs.nodes, n) && StoreIs(cs.store, s)
    && cs.Witnessed() && cs.chain == chain && cs.failed == failed
  }

  lemma Facts(cs: Chainstate, n: nat, s: set<Hash>, chain: seq<Hash>, failed: set<Hash>)
    requires Stage(cs, n, s, chain, failed)
    ensures TreeOk(cs.nodes, 0) && ChainOk(cs.nodes, 0, chain) && chain != [] && chain[|chain| - 1] in cs.nodes
    ensures cs.candidates <= cs.chainData <= cs.nodes.Keys && cs.candidates !! failed && cs.bestHeader in cs.nodes
              && chain[|chain| - 1] in cs.chainData
    ensures CompleteSet(cs.nodes, 0, s, cs.chainData) && cs.chainData <= s
  {
    hide *;
    TreeParts(cs.rules, cs.env.net, cs.nodes, cs.genesis, cs.children, cs.chain, cs.store, cs.chainData, cs.failed);
    Ready(cs.rules, cs.env.net, cs.nodes, cs.genesis, cs.children, cs.chain, cs.store, cs.chainData, cs.failed,
          cs.candidates, cs.high, cs.bestHeader);
    DataParts(cs.nodes, cs.store, s, cs.chainData);
  }

  lemma DataParts(t: Tree, store: Store, s: set<Hash>, chainData: set<Hash>)
    requires StoreIs(store, s)
    ensures DataOk(t, 0, store, chainData) ==> CompleteSet(t, 0, s, chainData) && chainData <= s
  {}

  /** One more header, the next in order, while the chain is at genesis. */
  method AddHeader(cs: Chainstate, n: nat)
    requires Stage(cs, n, {0}, [0], {}) && n < 24
    modifies cs`nodes, cs`children, cs`nextSeq, cs`bestHeader
    ensures Stage(cs, n + 1, {0}, [0], {})
  {
    hide *;
    BlocksFine(n + 1);
    Facts(cs, n, {0}, [0], {});
    HeaderIsNew(cs.nodes, n);
    CanExtend(cs.nodes, n, PrevOf(n + 1));
    var r, x := cs.AcceptHeader(BlockOf(n + 1).header, true);
    TreeNext(old(cs.nodes), cs.nodes, n, old(cs.nextSeq));
  }

  lemma HeaderIsNew(t: Tree, n: nat)
    requires TreeIs(t, n) && n < 24
    ensures n + 1 !in t && PrevOf(n + 1) in t
  {}

  /** A body goes into the store, and completes what it can. */
  method AddBody(cs: Chainstate, x: nat, ghost s: set<Hash>, ghost chain: seq<Hash>, ghost failed: set<Hash>)
    requires Stage(cs, 24, s, chain, failed) && 0 < x <= 24 && x !in s
    modifies cs`store, cs`witnessFiles, cs`chainData, cs`candidates
    ensures Stage(cs, 24, s + {x}, chain, failed)
              && cs.candidates == WithNew(old(cs.candidates), old(cs.chainData), cs.chainData, failed)
  {
    hide *;
    BlocksFine(x);
    InTree(cs.nodes, cs.store, s, x);
    cs.AddData(x, BlockOf(x), true);
    WitnessedMore(cs.prune, 0, old(cs.store), cs.store, old(cs.witnessFiles), cs.witnessFiles, x, BlockOf(x));
    StoreNext(old(cs.store), s, x);
  }

  lemma InTree(t: Tree, store: Store, s: set<Hash>, x: nat)
    requires TreeIs(t, 24) && StoreIs(store, s) && x <= 24
    ensures x in t && t[x].height == HeightOf(x) && (x in store <==> x in s)
  {}

  lemma StoreNext(store: Store, s: set<Hash>, x: nat)
    requires StoreIs(store, s) && x <= 24
    ensures StoreIs(store[x := BlockOf(x)], s + {x})
  {}

  // ---------------------------------------------------------------- connecting and failing one block

  /** No block but 9 ever breaks its commitment. */
  lemma CommitsHold(r: Rules, store: Store, chain: seq<Hash>, snaps: Snaps, x: nat)
    requires SnapsOk(r, ENV.net, store, chain, snaps)
    ensures (x == 9 ==> |chain| == 3 && chain[2] !in snaps.hashes) ==> Commits(ENV.net, chain, snaps.hashes, x)
  {
    hide Replays, PeaksOk, HeldIff, CommitRight, Unchecked;
    var n := |chain|;
    if ENV.net.CommitHeight(n) && chain[n - 1] in snaps.hashes {
      assert HashAt(r, ENV.net, store, chain, n - 1, snaps.hashes[chain[n - 1]]);
    }
  }

  /** And 9 does, where the snapshot of 2 is held. */
  lemma NineBreaks(r: Rules, store: Store, chain: seq<Hash>, snaps: Snaps)
    requires SnapsOk(r, ENV.net, store, chain, snaps) && |chain| == 3 && chain[2] in snaps.hashes
    ensures !Commits(ENV.net, chain, snaps.hashes, 9)
  {
    hide Replays, PeaksOk, HeldIff, CommitRight, Unchecked;
    assert HashAt(r, ENV.net, store, chain, 2, snaps.hashes[chain[2]]);
  }

  lemma OnlySixteen(r: Rules, st: State, store: Store, files: Files, s: set<Hash>, x: nat)
    requires StoreIs(store, s) && x in s && x != 0 && AllWitnessed(false, 0, store, files)
    ensures Connectable(r, st, store, files, x, HeightOf(x)) <==> x != 16
  {
    hide ConnectState;
    CoinbaseOnly(r, st, x, ReadAs(store, files, x).value, true);
  }

  lemma TipHeight(t: Tree, chain: seq<Hash>, x: nat)
    requires TreeIs(t, 24) && ChainOk(t, 0, chain) && 0 < x <= 24 && chain[|chain| - 1] == PrevOf(x)
    ensures |chain| == HeightOf(x) && x in t && t[x].prev == Some(chain[|chain| - 1])
  {}

  /** `connect_block` for a child of the tip; nothing here stalls. */
  method Attempt(cs: Chainstate, x: nat, ghost s: set<Hash>, ghost chain: seq<Hash>,
                 ghost failed: set<Hash>) returns (out: Outcome)
    requires Stage(cs, 24, s, chain, failed) && 0 < x <= 24 && x in cs.chainData && x !in failed && chain != []
               && chain[|chain| - 1] == PrevOf(x)
    modifies cs`utxo, cs`byAddr, cs`supply, cs`tokens, cs`pools, cs`txindex, cs`chain, cs`undoFiles, cs`witnessFiles
    modifies cs`snapshots, cs`peaks, cs`deepest, cs`skipped
    ensures |chain| == HeightOf(x) && x in s && out != Stalled
    ensures Stage(cs, 24, s, if out == Connected then chain + [x] else chain, failed)
    ensures out == Connected ==> Commits(ENV.net, chain, old(cs.snapshots), x)
    ensures out == Connected && ENV.net.SnapshotHeight(HeightOf(x)) ==> x in cs.snapshots
    ensures out == Invalid ==> cs.Held() == old(cs.Held()) && ReadAs(cs.store, cs.witnessFiles, x).Some?
    ensures out == Invalid ==> Rejects(cs.rules, cs.env.net, cs.State(), chain, cs.snapshots, cs.store, cs.witnessFiles,
              x)
  {
    hide *;
    Facts(cs, 24, s, chain, failed);
    TipHeight(cs.nodes, chain, x);
    ChildFits(cs.rules, cs.env.net, cs.nodes, cs.genesis, cs.children, cs.chain, cs.store, cs.chainData, cs.failed, x);
    ghost var gone;
    out, gone := cs.ConnectNext(x);
    NeverStuck(cs.rules, cs.env.net, cs.prune, cs.nodes, 0, cs.children, cs.chain, cs.undoFiles, cs.store,
               cs.witnessFiles, cs.bestHeader, cs.chainData, cs.failed);
  }

  /** A block other than 16 connects, 9 only where it goes unchecked. */
  method Join(cs: Chainstate, x: nat, ghost s: set<Hash>, ghost chain: seq<Hash>, ghost failed: set<Hash>)
    requires Stage(cs, 24, s, chain, failed) && 0 < x <= 24 && x in cs.chainData && x !in failed && chain != []
               && chain[|chain| - 1] == PrevOf(x)
    requires x != 16 && (x == 9 ==> |chain| == 3 && chain[2] !in cs.snapshots)
    modifies cs`utxo, cs`byAddr, cs`supply, cs`tokens, cs`pools, cs`txindex, cs`chain, cs`undoFiles, cs`witnessFiles
    modifies cs`snapshots, cs`peaks, cs`deepest, cs`skipped
    ensures Stage(cs, 24, s, chain + [x], failed) && (ENV.net.SnapshotHeight(HeightOf(x)) ==> x in cs.snapshots)
  {
    hide *;
    var out := Attempt(cs, x, s, chain, failed);
    Sides(cs);
    CommitsHold(cs.rules, cs.store, cs.chain, cs.Held(), x);
    OnlySixteen(cs.rules, cs.State(), cs.store, cs.witnessFiles, s, x);
    RejectsIs(cs.rules, cs.State(), cs.chain, cs.snapshots, cs.store, cs.witnessFiles, x);
  }

  /** The snapshots and the ledger of a valid node. */
  lemma Sides(cs: Chainstate)
    requires cs.Valid()
    ensures SnapsOk(cs.rules, cs.env.net, cs.store, cs.chain, cs.Held()) && Stored(cs.store, cs.chain)
    ensures Replayed(cs.rules, BlocksOf(cs.store, cs.chain)) == Some(cs.State())
  {
    hide *;
    SnapsParts(cs.rules, cs.env.net, cs.prune, cs.store, cs.chain, cs.State(), cs.byAddr, cs.supply, cs.txindex,
               cs.undoFiles, cs.Held(), cs.witnessFiles);
    cs.ValidMeans();
  }

  lemma RejectsIs(r: Rules, st: State, chain: seq<Hash>, hashes: Hashes, store: Store, files: Files, x: Hash)
    ensures Rejects(r, ENV.net, st, chain, hashes, store, files, x) <==>
            !Commits(ENV.net, chain, hashes, x) || !Connectable(r, st, store, files, x, |chain|)
  {}

  /** A chain with 16 on top does not replay. */
  lemma SixteenNeverJoins(r: Rules, store: Store, s: set<Hash>, chain: seq<Hash>)
    requires StoreIs(store, s) && Stored(store, chain + [16]) && |chain| == 2 && 16 in s
    ensures Replayed(r, BlocksOf(store, chain + [16])).None?
  {
    hide ConnectState;
    var bs := BlocksOf(store, chain + [16]);
    assert bs[2] == BlockOf(16);
    if Replayed(r, bs[..2]).Some? { CoinbaseOnly(r, Replayed(r, bs[..2]).value, 16, BlockOf(16), false); }
  }

  /** 16 fails, and so does 9 where the snapshot of 2 is held; with them all that is above. */
  method Refuse(cs: Chainstate, x: nat, ghost s: set<Hash>, ghost chain: seq<Hash>,
                ghost failed: set<Hash>) returns (ghost gone: set<Hash>)
    requires Stage(cs, 24, s, chain, failed) && 0 < x <= 24 && x in cs.chainData && x !in failed && chain != []
               && chain[|chain| - 1] == PrevOf(x)
    requires x == 16 || (x == 9 && |chain| == 3 && chain[2] in cs.snapshots)
    modifies cs`utxo, cs`byAddr, cs`supply, cs`tokens, cs`pools, cs`txindex, cs`chain, cs`undoFiles, cs`witnessFiles
    modifies cs`snapshots, cs`peaks, cs`deepest, cs`skipped, cs`failed, cs`candidates, cs`bestHeader
    ensures Stage(cs, 24, s, chain, failed + gone) && cs.candidates == old(cs.candidates) - (failed + gone)
    ensures TreeOk(cs.nodes, 0) && gone == Descendants(cs.nodes, 0, x)
  {
    hide *;
    Sides(cs);
    NineHere(cs, x, chain);
    Heights();
    NetIsOk();
    var out := Attempt(cs, x, s, chain, failed);
    Sides(cs);
    SixteenHere(cs, x, s, chain, out);
    gone := Drop(cs, x, s, chain, failed);
  }

  /** `mark_failed` for a child of the tip that was rejected. */
  method Drop(cs: Chainstate, x: nat, ghost s: set<Hash>, ghost chain: seq<Hash>,
              ghost failed: set<Hash>) returns (ghost gone: set<Hash>)
    requires Stage(cs, 24, s, chain, failed) && 0 < x <= 24 && x in cs.chainData && x !in failed && chain != []
               && chain[|chain| - 1] == PrevOf(x)
    requires ReadAs(cs.store, cs.witnessFiles, x).Some? && cs.env.net.Ok()
    requires Rejects(cs.rules, cs.env.net, cs.State(), chain, cs.snapshots, cs.store, cs.witnessFiles, x)
    modifies cs`failed, cs`candidates, cs`bestHeader
    ensures Stage(cs, 24, s, chain, failed + gone) && cs.candidates == old(cs.candidates) - (failed + gone)
    ensures TreeOk(cs.nodes, 0) && gone == Descendants(cs.nodes, 0, x)
  {
    hide *;
    Facts(cs, 24, s, chain, failed);
    TipHeight(cs.nodes, chain, x);
    ChildFits(cs.rules, cs.env.net, cs.nodes, cs.genesis, cs.children, cs.chain, cs.store, cs.chainData, cs.failed, x);
    AtHome(cs.rules, cs.env.net, cs.prune, cs.nodes, cs.genesis, cs.children, cs.store, cs.chain, cs.State(), cs.byAddr,
           cs.supply, cs.txindex,
           cs.undoFiles, cs.Held(), cs.witnessFiles, cs.chainData, cs.failed, cs.candidates, cs.high, cs.bestHeader);
    gone := Descendants(cs.nodes, 0, x);
    cs.FailBlock(x, cs.chain);
    CandidatesShrink(cs.nodes, cs.chainData, failed, cs.failed, old(cs.candidates), cs.candidates, cs.high);
  }

  lemma Heights()
    ensures HeightOf(9) == 3 && HeightOf(16) == 2 && HeightOf(2) == 2
  {}

  lemma NetIsOk()
    ensures ENV.net.Ok()
  {}

  lemma NineHere(cs: Chainstate, x: nat, chain: seq<Hash>)
    requires SnapsOk(cs.rules, ENV.net, cs.store, chain, cs.Held())
               && (x == 9 ==> |chain| == 3 && chain[2] in cs.snapshots)
    ensures x == 9 ==> !Commits(ENV.net, chain, cs.snapshots, 9)
  {
    hide *;
    if x == 9 { NineBreaks(cs.rules, cs.store, chain, cs.Held()); }
  }

  lemma SixteenHere(cs: Chainstate, x: nat, s: set<Hash>, chain: seq<Hash>, out: Outcome)
    requires Stored(cs.store, cs.chain) && Replayed(cs.rules, BlocksOf(cs.store, cs.chain)).Some?
               && StoreIs(cs.store, s) && x in s
    requires x == 16 ==> |chain| == 2
    ensures x == 16 ==> cs.chain != chain + [16]
  {
    hide *;
    if x == 16 && cs.chain == chain + [16] { SixteenNeverJoins(cs.rules, cs.store, s, chain); }
  }

  // ---------------------------------------------------------------- choosing, going back, finishing

  /** What `best_candidate` promises. */
  ghost predicate Picks(t: Tree, cands: set<Hash>, failed: set<Hash>, tip: Hash, c: Hash) {
    && tip in t && cands <= t.Keys
    && (c == tip || (c in cands && c !in failed && t[c].work > t[tip].work))
    && (forall x :: x in cands && x !in failed ==>
        x in t && (t[x].work <= t[tip].work || (c in t && t[x].work <= t[c].work)))
  }

  /** `want` is the only heaviest candidate. */
  ghost predicate Heaviest(cands: set<Hash>, failed: set<Hash>, tip: Hash, want: nat) {
    && want <= 24 && tip <= 24 && want in cands && want !in failed && HeightOf(want) > HeightOf(tip)
    && forall y :: y in cands && y !in failed && y != want ==> y <= 24 && HeightOf(y) < HeightOf(want)
  }

  ghost predicate NoneHeavier(cands: set<Hash>, failed: set<Hash>, tip: Hash) {
    tip <= 24 && forall y :: y in cands && y !in failed ==> y <= 24 && HeightOf(y) <= HeightOf(tip)
  }

  lemma Chosen(t: Tree, cands: set<Hash>, failed: set<Hash>, tip: Hash, c: Hash, want: nat)
    requires TreeIs(t, 24) && Picks(t, cands, failed, tip, c)
    ensures Heaviest(cands, failed, tip, want) ==> c == want
    ensures NoneHeavier(cands, failed, tip) ==> c == tip
  {}

  /** `best_candidate`, where the outcome is clear: `want`, or the tip. */
  method Choose(cs: Chainstate, ghost s: set<Hash>, ghost chain: seq<Hash>, ghost failed: set<Hash>,
                ghost want: nat) returns (c: Hash)
    requires Stage(cs, 24, s, chain, failed)
    ensures chain != []
    ensures Heaviest(cs.candidates, failed, chain[|chain| - 1], want) ==> c == want
    ensures NoneHeavier(cs.candidates, failed, chain[|chain| - 1]) ==> c == chain[|chain| - 1]
  {
    hide *;
    Facts(cs, 24, s, chain, failed);
    c := cs.BestCandidate();
    PicksNow(cs.nodes, cs.candidates, failed, chain[|chain| - 1], c);
    Chosen(cs.nodes, cs.candidates, failed, chain[|chain| - 1], c, want);
  }

  lemma PicksNow(t: Tree, cands: set<Hash>, failed: set<Hash>, tip: Hash, c: Hash)
    requires tip in t && cands <= t.Keys
    requires c == tip || (c in cands && c !in failed && t[c].work > t[tip].work)
    requires forall x :: x in cands && x !in failed ==> t[x].work <= t[c].work || t[x].work <= t[tip].work
    ensures Picks(t, cands, failed, tip, c)
  {}

  /** Back to block `n` of the chain. */
  method Back(cs: Chainstate, ghost s: set<Hash>, ghost chain: seq<Hash>, ghost failed: set<Hash>, n: nat)
    requires Stage(cs, 24, s, chain, failed) && n < |chain|
    modifies cs`utxo, cs`byAddr, cs`supply, cs`tokens, cs`pools, cs`txindex, cs`chain, cs`peaks, cs`deepest
    ensures Stage(cs, 24, s, chain[..n + 1], failed)
  {
    hide *;
    Facts(cs, 24, s, chain, failed);
    var ok := cs.Rewind(cs.chain[n], n);
    PrefixIs(cs.nodes, chain, cs.chain, n);
    TreePrefix(cs.rules, cs.env.net, cs.nodes, cs.genesis, cs.children, chain, cs.chain, cs.store, cs.chainData,
               cs.failed);
  }

  lemma PrefixIs(t: Tree, chain: seq<Hash>, front: seq<Hash>, n: nat)
    requires ChainOk(t, 0, chain) && PrefixOf(front, chain) && front != [] && n < |chain|
               && front[|front| - 1] == chain[n]
    ensures front == chain[..n + 1]
  {
    assert t[chain[n]].height == n && t[chain[|front| - 1]].height == |front| - 1;
  }

  /** The end of a search: light candidates are dropped. */
  method Finish(cs: Chainstate, ghost s: set<Hash>, ghost chain: seq<Hash>, ghost failed: set<Hash>)
    requires Stage(cs, 24, s, chain, failed)
    modifies cs`candidates, cs`high
    ensures Stage(cs, 24, s, chain, failed) && cs.candidates <= old(cs.candidates) && chain != []
    ensures forall x :: x in cs.candidates <==>
              x in old(cs.candidates) && x <= 24 && chain[|chain| - 1] <= 24
                  && HeightOf(x) >= HeightOf(chain[|chain| - 1])
  {
    hide *;
    Facts(cs, 24, s, chain, failed);
    cs.FinishCandidates();
    Kept(cs.nodes, old(cs.candidates), cs.candidates, chain[|chain| - 1]);
  }

  lemma Kept(t: Tree, cands: set<Hash>, cands': set<Hash>, tip: Hash)
    requires TreeIs(t, 24) && tip in t && cands <= t.Keys && cands' == set x | x in cands && t[x].work >= t[tip].work
    ensures cands' <= cands && forall x :: x in cands' <==>
              x in cands && x <= 24 && tip <= 24 && HeightOf(x) >= HeightOf(tip)
  {}

  // ---------------------------------------------------------------- what is complete, what is above what

  function UpTo(k: nat): (s: set<Hash>)
    ensures forall x: nat :: x in s <==> x <= k
  {
    if k == 0 then {0} else UpTo(k - 1) + {k}
  }

  /** The branch of 16 without 16. */
  function Late(k: nat): (s: set<Hash>)
    requires k >= 16
    ensures forall x: nat :: x in s <==> x <= 15 || 17 <= x <= k
  {
    if k == 16 then UpTo(15) else Late(k - 1) + {k}
  }

  lemma {:induction false} CompleteBelow(t: Tree, s: set<Hash>, done: set<Hash>, k: nat, x: nat)
    requires TreeIs(t, 24) && CompleteSet(t, 0, s, done) && UpTo(k) <= s && x <= k <= 24
    ensures x in done
  {
    if x > 0 { CompleteBelow(t, s, done, k, PrevOf(x)); }
  }

  lemma AllComplete(t: Tree, done: set<Hash>, k: nat)
    requires TreeIs(t, 24) && CompleteSet(t, 0, UpTo(k), done) && done <= UpTo(k) && k <= 24
    ensures done == UpTo(k)
  {
    forall x | x in UpTo(k) ensures x in done { CompleteBelow(t, UpTo(k), done, k, x); }
  }

  lemma LateWaits(t: Tree, done: set<Hash>, k: nat)
    requires 17 <= k <= 24 && TreeIs(t, 24) && CompleteSet(t, 0, Late(k), done) && done <= Late(k)
    ensures done == UpTo(15)
  {
    forall x | x in UpTo(15) ensures x in done { CompleteBelow(t, Late(k), done, 15, x); }
    forall x | x in done ensures x in UpTo(15) { NotLate(t, done, k, x); }
  }

  lemma {:induction false} NotLate(t: Tree, done: set<Hash>, k: nat, x: nat)
    requires 17 <= k <= 24 && TreeIs(t, 24) && CompleteSet(t, 0, Late(k), done) && done <= Late(k) && x in done
    ensures x <= 15
  {
    if x > 15 {
      assert ParentIn(t, x, done);
      NotLate(t, done, k, x - 1);
    }
  }

  /** The block at height `h` on the way to `x`. */
  function BranchAt(x: nat, h: nat): nat
  {
    if x <= 8 then h else if x <= 15 then if h >= 3 then h + 6 else h else if h >= 2 then h + 14 else h
  }

  lemma {:induction false} UpIs(t: Tree, x: nat, h: nat)
    requires TreeOk(t, 0) && TreeIs(t, 24) && x <= 24 && h <= HeightOf(x)
    ensures x in t && t[x].height == HeightOf(x) && Up(t, 0, x, h) == BranchAt(x, h)
  {
    if h < HeightOf(x) { UpIs(t, PrevOf(x), h); }
  }

  lemma AboveIs(t: Tree, b: nat, x: nat)
    requires TreeOk(t, 0) && TreeIs(t, 24) && x <= 24 && b <= 24
    ensures x in Descendants(t, 0, b) <==> HeightOf(b) <= HeightOf(x) && BranchAt(x, HeightOf(b)) == b
  {
    if HeightOf(b) <= HeightOf(x) { UpIs(t, x, HeightOf(b)); }
  }

  /** Above 16 are 16 to 24; above 9 are 9 to 15. */
  lemma WhatFails(t: Tree)
    requires TreeOk(t, 0) && TreeIs(t, 24)
    ensures forall x: nat :: x <= 24 ==>
              (x in Descendants(t, 0, 16) <==> x >= 16) && (x in Descendants(t, 0, 9) <==> 9 <= x <= 15)
  {
    forall x: nat | x <= 24
      ensures (x in Descendants(t, 0, 16) <==> x >= 16) && (x in Descendants(t, 0, 9) <==> 9 <= x <= 15)
    {
      AboveIs(t, 16, x);
      AboveIs(t, 9, x);
    }
  }

  // ---------------------------------------------------------------- the run

  function Main(k: nat): (c: seq<Hash>)
    ensures |c| == k + 1 && forall i :: 0 <= i <= k ==> c[i] == i
  {
    seq(k + 1, i requires 0 <= i <= k => i)
  }

  /** Blocks 0 to 2, and then 9 to `k`. */
  function Side(k: nat): (c: seq<Hash>)
    requires k >= 8
    ensures |c| == k - 5 && c[..3] == Main(2) && forall i :: 3 <= i < |c| ==> c[i] == i + 6
  {
    Main(2) + seq(k - 8, i requires 0 <= i < k - 8 => i + 9)
  }

  lemma MainNext(k: nat)
    requires k > 0
    ensures Main(k - 1) + [k] == Main(k) && UpTo(k - 1) + {k} == UpTo(k) && k !in UpTo(k - 1)
              && Main(k)[|Main(k)| - 1] == k
    ensures Main(k - 1)[|Main(k - 1)| - 1] == k - 1
  {}

  lemma SideNext(k: nat)
    requires k > 8
    ensures Side(k - 1) + [k] == Side(k) && Side(k)[|Side(k)| - 1] == k && Side(8) == Main(2)
    ensures k > 9 ==> Side(k - 1)[|Side(k - 1)| - 1] == k - 1
  {}

  /** Candidates after a body on top of the blocks up to `k - 1`. */
  lemma CandsUpTo(cands: set<Hash>, k: nat)
    requires 0 < k <= 15 && cands <= UpTo(k - 1)
    ensures var more := WithNew(cands, UpTo(k - 1), UpTo(k), {});
            && more <= UpTo(k)
            && (k <= 8 ==> Heaviest(more, {}, k - 1, k))
            && (8 < k < 15 ==> NoneHeavier(more, {}, 8))
            && (k == 15 ==> Heaviest(more, {}, 8, 15))
  {}

  /** A block of the first branch comes, and becomes the tip. */
  method Extend(cs: Chainstate, k: nat)
    requires 0 < k <= 8 && Stage(cs, 24, UpTo(k - 1), Main(k - 1), {})
    modifies cs
    ensures Stage(cs, 24, UpTo(k), Main(k), {})
  {
    hide *;
    MainNext(k);
    PrevIs(k);
    CompleteNow(cs, k - 1, Main(k - 1));
    CandsUpTo(cs.candidates, k);
    AddBody(cs, k, UpTo(k - 1), Main(k - 1), {});
    CompleteNow(cs, k, Main(k - 1));
    var c := Choose(cs, UpTo(k), Main(k - 1), {}, k);
    Join(cs, c, UpTo(k), Main(k - 1), {});
    Finish(cs, UpTo(k), Main(k), {});
  }

  lemma PrevIs(k: nat)
    requires 0 < k <= 24
    ensures (k <= 8 || 9 < k <= 15 ==> PrevOf(k) == k - 1) && PrevOf(9) == 2 && PrevOf(16) == 1 && k in UpTo(k)
  {}

  lemma CompleteNow(cs: Chainstate, k: nat, chain: seq<Hash>)
    requires Stage(cs, 24, UpTo(k), chain, {}) && k <= 24
    ensures cs.chainData == UpTo(k) && cs.candidates <= UpTo(k)
  {
    hide *;
    Facts(cs, 24, UpTo(k), chain, {});
    AllComplete(cs.nodes, cs.chainData, k);
  }

  /** By now the snapshot of block 2 has been dropped. */
  lemma TwoDropped(cs: Chainstate)
    requires Stage(cs, 24, UpTo(15), Main(8), {})
    ensures 2 !in cs.snapshots
  {
    hide *;
    Sides(cs);
    DroppedAt(cs.rules, cs.store, cs.Held());
  }

  lemma DroppedAt(r: Rules, store: Store, snaps: Snaps)
    requires SnapsOk(r, ENV.net, store, Main(8), snaps)
    ensures 2 !in snaps.hashes
  {
    hide HashAt, CommitRight, Unchecked;
    assert Main(8)[2] == 2;
  }

  /** No state has the hash that block 9 commits to. */
  lemma WrongThere(r: Rules, store: Store, chain: seq<Hash>)
    requires Stored(store, chain) && |chain| > 3 && chain[3] == 9
    ensures ENV.net.CommitHeight(3) && !CommitRight(r, ENV.net, store, chain, 3)
  {
    hide Replays;
  }

  /** A block of the second branch comes, no heavier than the tip. */
  method Wait(cs: Chainstate, k: nat)
    requires 8 < k < 15 && Stage(cs, 24, UpTo(k - 1), Main(8), {})
    modifies cs
    ensures Stage(cs, 24, UpTo(k), Main(8), {})
  {
    hide *;
    MainNext(k);
    MainNext(8);
    PrevIs(k);
    CompleteNow(cs, k - 1, Main(8));
    CandsUpTo(cs.candidates, k);
    AddBody(cs, k, UpTo(k - 1), Main(8), {});
    CompleteNow(cs, k, Main(8));
    var c := Choose(cs, UpTo(k), Main(8), {}, k);
    Finish(cs, UpTo(k), Main(8), {});
  }

  /** The second branch outweighs the first: back to 2, and up to 15, past the wrong commitment of 9. */
  method Switch(cs: Chainstate)
    requires Stage(cs, 24, UpTo(14), Main(8), {})
    modifies cs
    ensures Stage(cs, 24, UpTo(15), Side(15), {}) && cs.candidates == {15}
  {
    hide *;
    MainNext(15);
    MainNext(8);
    PrevIs(15);
    CompleteNow(cs, 14, Main(8));
    CandsUpTo(cs.candidates, 15);
    AddBody(cs, 15, UpTo(14), Main(8), {});
    CompleteNow(cs, 15, Main(8));
    var c := Choose(cs, UpTo(15), Main(8), {}, 15);
    SwitchOver(cs);
    OnlyFifteen(old(cs.candidates), cs.candidates);
  }

  method SwitchOver(cs: Chainstate)
    requires Stage(cs, 24, UpTo(15), Main(8), {}) && cs.chainData == UpTo(15)
    modifies cs
    ensures Stage(cs, 24, UpTo(15), Side(15), {})
    ensures forall x :: x in cs.candidates <==> x in old(cs.candidates) && x <= 24 && HeightOf(x) >= HeightOf(15)
  {
    hide *;
    TwoDropped(cs);
    MainPart();
    Back(cs, UpTo(15), Main(8), {}, 2);
    ClimbSide(cs);
    SideNext(15);
    Finish(cs, UpTo(15), Side(15), {});
  }

  method ClimbSide(cs: Chainstate)
    requires Stage(cs, 24, UpTo(15), Side(8), {}) && cs.chainData == UpTo(15) && 2 !in cs.snapshots
    modifies cs`utxo, cs`byAddr, cs`supply, cs`tokens, cs`pools, cs`txindex, cs`chain, cs`undoFiles, cs`witnessFiles
    modifies cs`snapshots, cs`peaks, cs`deepest, cs`skipped
    ensures Stage(cs, 24, UpTo(15), Side(15), {})
  {
    hide *;
    for k := 9 to 16
      invariant Stage(cs, 24, UpTo(15), Side(k - 1), {})
      invariant k == 9 ==> 2 !in cs.snapshots
    {
      ClimbOne(cs, k);
    }
  }

  method ClimbOne(cs: Chainstate, k: nat)
    requires 9 <= k <= 15 && Stage(cs, 24, UpTo(15), Side(k - 1), {}) && cs.chainData == UpTo(15)
               && (k == 9 ==> 2 !in cs.snapshots)
    modifies cs`utxo, cs`byAddr, cs`supply, cs`tokens, cs`pools, cs`txindex, cs`chain, cs`undoFiles, cs`witnessFiles
    modifies cs`snapshots, cs`peaks, cs`deepest, cs`skipped
    ensures Stage(cs, 24, UpTo(15), Side(k), {})
  {
    hide *;
    SideNext(k);
    NineFirst(k);
    Join(cs, k, UpTo(15), Side(k - 1), {});
  }

  lemma MainPart()
    ensures Main(8)[..3] == Side(8) && Main(8)[2] == 2 && |Main(8)| == 9
  {
    assert Side(8) == Main(2);
  }

  lemma NineFirst(k: nat)
    requires 9 <= k <= 15
    ensures Side(k - 1) != [] && Side(k - 1)[|Side(k - 1)| - 1] == PrevOf(k) && k in UpTo(15)
              && (k == 9 ==> |Side(k - 1)| == 3 && Side(k - 1)[2] == 2)
  {
    if k == 9 { assert Side(8) == Main(2); }
  }

  lemma OnlyFifteen(before: set<Hash>, cands: set<Hash>)
    requires forall x :: x in cands <==>
               x in WithNew(before, UpTo(14), UpTo(15), {}) && x <= 24 && HeightOf(x) >= HeightOf(15)
    requires before <= UpTo(14)
    ensures cands == {15}
  {}

  /** A run that ends with a wrong commitment on the active chain: after 24 headers the first branch comes, block by
      block, and then the second, which forks three intervals below. The node is valid, nothing was pruned or came
      without its witnesses, and no search stopped short. The steps are those that `accept_block` takes. */
  method WrongCommitment(r: Rules) returns (cs: Chainstate)
    requires r.TxidsIdeal()
    ensures fresh(cs) && Stage(cs, 24, UpTo(15), Side(15), {}) && cs.candidates == {15} && cs.rules == r
    ensures Stored(cs.store, cs.chain) && |cs.chain| > 3 && cs.chain[3] == 9 && ENV.net.CommitHeight(3)
    ensures !CommitRight(r, ENV.net, cs.store, cs.chain, 3)
  {
    hide *;
    BlocksFine(0);
    NetIsOk();
    GenesisIs();
    cs := new Chainstate(r, ENV, BlockOf(0), false);
    FirstStage(cs.nodes, cs.store);
    for n := 0 to 24
      invariant fresh(cs) && Stage(cs, n, {0}, [0], {}) && cs.rules == r
    {
      AddHeader(cs, n);
    }
    FirstMain();
    for k := 1 to 9
      invariant fresh(cs) && Stage(cs, 24, UpTo(k - 1), Main(k - 1), {}) && cs.rules == r
    {
      Extend(cs, k);
    }
    for k := 9 to 15
      invariant fresh(cs) && Stage(cs, 24, UpTo(k - 1), Main(8), {}) && cs.rules == r
    {
      Wait(cs, k);
    }
    Switch(cs);
    Sides(cs);
    SideHas();
    WrongThere(r, cs.store, cs.chain);
  }

  lemma GenesisIs()
    ensures HeightOf(0) == 0 && BlockOf(0).txs[0].core.outs == []
  {}

  lemma FirstStage(t: Tree, store: Store)
    requires t == map[0 := Node(None, 0, 1, None, 0)] && store == map[0 := BlockOf(0)]
    ensures TreeIs(t, 0) && StoreIs(store, {0})
  {}

  lemma FirstMain()
    ensures UpTo(0) == {0} && Main(0) == [0]
  {}

  lemma SideHas()
    ensures |Side(15)| == 10 && Side(15)[3] == 9 && Side(15)[1] == 1 && Side(15)[..2] == Main(1) && Side(15)[9] == 15
  {
    assert Side(15)[..3][1] == 1;
  }

  // ---------------------------------------------------------------- one block later

  /** A block of the third branch comes, before its first. */
  method WaitLate(cs: Chainstate, k: nat)
    requires 17 <= k <= 24 && Stage(cs, 24, Late(k - 1), Side(15), {}) && cs.candidates == {15}
               && cs.chainData == UpTo(15)
    modifies cs
    ensures Stage(cs, 24, Late(k), Side(15), {}) && cs.candidates == {15} && cs.chainData == UpTo(15)
  {
    hide *;
    LateNext(k);
    SideNext(15);
    AddBody(cs, k, Late(k - 1), Side(15), {});
    Facts(cs, 24, Late(k), Side(15), {});
    LateWaits(cs.nodes, cs.chainData, k);
    NothingNew(old(cs.candidates), UpTo(15), {});
    RestOnFifteen(cs.candidates);
    var c := Choose(cs, Late(k), Side(15), {}, k);
    Finish(cs, Late(k), Side(15), {});
    StillFifteen(cs.candidates);
  }

  lemma StillFifteen(cands: set<Hash>)
    requires forall x :: x in cands <==> x in {15} && x <= 24 && 15 <= 24 && HeightOf(x) >= HeightOf(15)
    ensures cands == {15}
  {}

  lemma LateNext(k: nat)
    requires 17 <= k <= 24
    ensures Late(k - 1) + {k} == Late(k) && k !in Late(k - 1)
  {}

  lemma RestOnFifteen(cands: set<Hash>)
    requires cands == {15}
    ensures NoneHeavier(cands, {}, 15)
  {}

  /** The first block of the third branch comes, and the whole branch is heaviest: back to 1, where 16 fails. */
  method SixteenFails(cs: Chainstate) returns (ghost gone: set<Hash>)
    requires Stage(cs, 24, Late(24), Side(15), {}) && cs.candidates == {15} && cs.chainData == UpTo(15)
    modifies cs
    ensures Stage(cs, 24, UpTo(24), Main(1), gone) && cs.chainData == UpTo(24)
              && cs.candidates == WithNew({15}, UpTo(15), UpTo(24), {}) - gone
    ensures TreeOk(cs.nodes, 0) && gone == Descendants(cs.nodes, 0, 16)
  {
    hide *;
    LateDone();
    SideHas();
    PrevIs(16);
    SideNext(15);
    AddBody(cs, 16, Late(24), Side(15), {});
    CompleteNow(cs, 24, Side(15));
    LastIsHeaviest();
    var c := Choose(cs, UpTo(24), Side(15), {}, 24);
    Back(cs, UpTo(24), Side(15), {}, 1);
    MainTips();
    gone := Refuse(cs, 16, UpTo(24), Main(1), {});
    assert {} + gone == gone;
  }

  lemma LateDone()
    ensures Late(24) + {16} == UpTo(24) && 16 !in Late(24) && 16 in UpTo(24) && 2 in UpTo(24) && 9 in UpTo(24)
              && 8 in UpTo(24)
  {}

  lemma LastIsHeaviest()
    ensures Heaviest(WithNew({15}, UpTo(15), UpTo(24), {}), {}, 15, 24)
  {}

  lemma MainTips()
    ensures Main(1) != [] && Main(1)[|Main(1)| - 1] == 1 && Main(2) == Main(1) + [2] && Main(2)[|Main(2)| - 1] == 2
              && |Main(2)| == 3 && Main(2)[2] == 2
    ensures PrevOf(2) == 1 && PrevOf(9) == 2 && PrevOf(16) == 1 && HeightOf(2) == 2 && ENV.net.Ok()
              && ENV.net.SnapshotHeight(2)
  {}

  /** The next best is the old tip; but now block 2 is connected again, its snapshot is there, and 9 is checked. */
  method NineFails(cs: Chainstate, ghost gone: set<Hash>) returns (ghost lost: set<Hash>)
    requires Stage(cs, 24, UpTo(24), Main(1), gone) && cs.chainData == UpTo(24)
    requires cs.candidates == WithNew({15}, UpTo(15), UpTo(24), {}) - gone
    requires TreeOk(cs.nodes, 0) && gone == Descendants(cs.nodes, 0, 16)
    modifies cs
    ensures Stage(cs, 24, UpTo(24), Main(2), lost) && cs.chainData == UpTo(24) && 8 !in lost && cs.candidates == {}
  {
    hide *;
    MainTips();
    LateDone();
    GoneIs(cs, gone);
    FifteenIsNext(cs.candidates, gone);
    var c := Choose(cs, UpTo(24), Main(1), gone, 15);
    Join(cs, 2, UpTo(24), Main(1), gone);
    lost := NineDrops(cs, gone);
  }

  method NineDrops(cs: Chainstate, ghost gone: set<Hash>) returns (ghost lost: set<Hash>)
    requires Stage(cs, 24, UpTo(24), Main(2), gone) && cs.chainData == UpTo(24) && cs.candidates == {15}
               && 2 in cs.snapshots
    requires TreeOk(cs.nodes, 0) && gone == Descendants(cs.nodes, 0, 16)
    modifies cs
    ensures Stage(cs, 24, UpTo(24), Main(2), lost) && cs.chainData == UpTo(24) && 8 !in lost && cs.candidates == {}
  {
    hide *;
    MainTips();
    LateDone();
    GoneIs(cs, gone);
    lost := Refuse(cs, 9, UpTo(24), Main(2), gone);
    GoneIs(cs, gone);
    lost := gone + lost;
    NothingLeft({15}, gone, lost);
    NoneBeats(lost);
    var c := Choose(cs, UpTo(24), Main(2), lost, 0);
    Finish(cs, UpTo(24), Main(2), lost);
  }

  lemma GoneIs(cs: Chainstate, gone: set<Hash>)
    requires TreeOk(cs.nodes, 0) && TreeIs(cs.nodes, 24) && gone == Descendants(cs.nodes, 0, 16)
    ensures forall x: nat :: x <= 24 ==>
              (x in gone <==> x >= 16) && (x in Descendants(cs.nodes, 0, 9) <==> 9 <= x <= 15)
  {
    hide *;
    WhatFails(cs.nodes);
  }

  lemma FifteenIsNext(cands: set<Hash>, gone: set<Hash>)
    requires cands == WithNew({15}, UpTo(15), UpTo(24), {}) - gone && forall x: nat :: x <= 24 ==>
               (x in gone <==> x >= 16)
    ensures Heaviest(cands, gone, 1, 15) && cands == {15} && 2 !in gone && 9 !in gone && 8 !in gone
  {}

  lemma NothingLeft(cands: set<Hash>, gone: set<Hash>, lost: set<Hash>)
    requires cands == {15} && 15 in lost
    ensures cands - lost == {}
  {}

  lemma NoneBeats(lost: set<Hash>)
    ensures NoneHeavier({}, lost, 2)
  {}

  /** The run goes on with a third branch, heavier still, whose first block is invalid. Coming back from it the node
      finds block 9 invalid that it had on its chain, and settles on block 2; the first branch is valid, complete and
      heavier, and forgotten. No search stopped short. */
  method BestChainForgotten(r: Rules) returns (cs: Chainstate)
    requires r.TxidsIdeal()
    ensures cs.Valid() && !cs.prune && cs.Witnessed() && cs.chain == Main(2) && !cs.BestTip()
    ensures 8 in cs.chainData && 8 !in cs.failed
  {
    hide *;
    cs := WrongCommitment(r);
    LateStart();
    CompleteNow(cs, 15, Side(15));
    for k := 17 to 25
      invariant fresh(cs) && Stage(cs, 24, Late(k - 1), Side(15), {}) && cs.candidates == {15}
                  && cs.chainData == UpTo(15)
    {
      WaitLate(cs, k);
    }
    ghost var gone := SixteenFails(cs);
    ghost var lost := NineFails(cs, gone);
    EightIsBetter(cs.nodes, cs.chainData, lost);
  }

  lemma LateStart()
    ensures Late(16) == UpTo(15) && 8 in UpTo(24)
  {}

  lemma EightIsBetter(t: Tree, chainData: set<Hash>, lost: set<Hash>)
    requires TreeIs(t, 24) && chainData == UpTo(24) && 8 !in lost
    ensures 8 in chainData && !Unbeaten(t, chainData - lost, 2) && Main(2) != [] && Main(2)[|Main(2)| - 1] == 2
  {
    assert 8 in chainData - lost && 8 in t && 2 in t;
  }
}
