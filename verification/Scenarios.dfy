/** Concrete runs that show where the rules for choosing a chain end (src/chain/chainstate.cpp:685-689, 821-855). */
module Scenarios {
  import opened Types
  import opened Ledger
  import opened Emission
  import opened Replay
  import opened BlockTree
  import opened ChainLedger
  import opened Commitments
  import opened Rejoins
  import opened ChainSteps
  import opened Chainstates
  import Selections
  import opened Undos

  // ---------------------------------------------------------------- five small blocks

  /** Genesis 0; blocks 1, 2 and 3 on top of it, 3 paying itself too much; block 4 on top of 3. Header hashes are the
      nonces, every block is of the same work, and no height of interest has a commitment. */
  const TIE_ENV: Env := Env((h: Header) => h.nonce as Hash, bits => 1, b => true, (b, w) => true,
                            Network(1_000_000, 1, (x, h, st) => 0, x => 0, (x, ws) => true))

  function PrevOf(x: nat): nat { if x == 4 then 3 else 0 }

  function HeightOf(x: nat): nat { if x == 0 then 0 else if x == 4 then 2 else 1 }

  function OutsOf(x: nat): seq<TxOut> { if x == 3 then [TxOut(MAX_MONEY, QNT, 1)] else [] }

  function BlockOf(x: nat): Block
    requires x <= 4
  {
    Block(Header(2, PrevOf(x), 0, 0, 0, 0, 0, x), [Transaction(Core(2, [], OutsOf(x), [], HeightOf(x), []), [])])
  }

  lemma BodiesFine(r: Rules, x: nat, best: nat)
    requires x <= 4
    ensures BodyOk(r, TIE_ENV, BlockOf(x), HeightOf(x), true, best) && ShapeOk(BlockOf(x), HeightOf(x))
  {
    var b, cb := BlockOf(x), BlockOf(x).txs[0];
    Selections.CoinbaseBasic(cb, if x == 3 then MAX_MONEY else 0, 1);
    assert CheckBasic(cb, true) == CheckBasic(cb, false);
  }

  /** Only block 3 ever fails to connect, and it always does. */
  lemma CoinbaseOnly(r: Rules, st: State, x: nat, blk: Block, verify: bool)
    requires x <= 4 && SameCores(BlockOf(x), blk)
    ensures ConnectState(r, st, blk, HeightOf(x), verify).Ok? <==> x != 3
  {
    assert blk.txs[1..] == [];
    var outs := blk.txs[0].core.outs;
    assert outs == OutsOf(x);
    if x == 3 {
      assert outs[..0] == [] && TotalOut64(outs[..0]) == 0;
      assert TotalOut64(outs) == MAX_MONEY;
      FirstSubsidy();
    }
  }

  lemma FirstSubsidy()
    ensures Subsidy64(1) < MAX_MONEY
  {}

  // ---------------------------------------------------------------- what the node knows of them

  /** The tree once the headers up to `n` have arrived, in order. */
  ghost predicate TreeIs(t: Tree, n: nat) {
    && n <= 4 && (forall x: nat :: x in t <==> x <= n)
    && forall x :: x in t ==>
         t[x].height == HeightOf(x) && t[x].work == HeightOf(x) + 1 && t[x].seqNo == x && t[x].prev == if x == 0
             then None else Some(PrevOf(x))
  }

  ghost predicate StoreIs(store: Store, s: set<Hash>)
  {
    store.Keys == s && forall x :: x in s ==> x <= 4 && store[x] == BlockOf(x)
  }

  lemma TreeNext(t: Tree, t': Tree, n: nat)
    requires TreeIs(t, n) && n < 4 && n + 1 in t' && Appended(t, t', PrevOf(n + 1), n + 1, 1, n + 1)
    ensures TreeIs(t', n + 1)
  {}

  /** Block data is complete for all blocks stored. */
  lemma DataIs(t: Tree, n: nat, store: Store, s: set<Hash>, chainData: set<Hash>)
    requires TreeIs(t, n) && StoreIs(store, s) && DataOk(t, 0, store, chainData) && 0 in s && (4 in s ==> 3 in s)
    ensures chainData == s
  {
    hide ShapeOk;
    assert 0 in chainData;
    forall x | x in s ensures x in chainData {
      assert x != 0 && x != 4 ==> ParentIn(t, x, chainData);
      if x == 4 { assert ParentIn(t, 3, chainData); assert ParentIn(t, 4, chainData); }
    }
  }

  /** A header on top of 0 or 3 is acceptable. */
  lemma CanExtend(t: Tree, n: nat, chain: seq<Hash>, p: Hash)
    requires TreeOk(t, 0) && TreeIs(t, n) && ChainOk(t, 0, chain) && |chain| <= 5 && p in t && (p == 0 || p == 3)
    ensures Extends(t, 0, chain, {}, p)
  {
    assert IsAncestor(t, 0, 0, p) && InChain(t, chain, 0);
  }

  /** No block but 3 and 4 can have failed. */
  lemma OnlyThreeFails(r: Rules, t: Tree, n: nat, store: Store, s: set<Hash>, failed: set<Hash>)
    requires TreeIs(t, n) && StoreIs(store, s) && FailedOk(r, TIE_ENV.net, t, 0, store, failed)
    ensures forall x :: x in failed ==> x == 3 || x == 4
  {
    forall x | x in failed ensures x == 3 || x == 4 {
      assert Blamed(r, TIE_ENV.net, t, 0, store, x);
      var b :| IsAncestor(t, 0, b, x) && Unsound(r, TIE_ENV.net, t, 0, store, b);
      OnlyThreeUnsound(r, t, n, store, s, b);
    }
  }

  lemma OnlyThreeUnsound(r: Rules, t: Tree, n: nat, store: Store, s: set<Hash>, b: Hash)
    requires TreeIs(t, n) && StoreIs(store, s) && Unsound(r, TIE_ENV.net, t, 0, store, b)
    ensures b == 3
  {
    hide ConnectState, Replays, HashAt;
    var c :| ChainOk(t, 0, c + [b]) && BadOn(r, TIE_ENV.net, store, c, b);
    assert (c + [b])[|c|] == b;
    var st :| Replays(r, BlocksOf(store, c), st)
        && (CommitWrong(r, TIE_ENV.net, store, c, b) || NoConnect(r, TIE_ENV.net, st, store[b], b, |c|));
    NoWrongCommit(r, store, c, b);
    CoinbaseOnly(r, st, b, store[b], false);
    if ws :| BadlySigned(r, TIE_ENV.net, st, store[b], b, |c|, ws) {
      CoinbaseOnly(r, st, b, WithWitnesses(store[b], ws), true);
    }
  }

  /** So low there are no commitments. */
  lemma NoCommitments(r: Rules, store: Store, chain: seq<Hash>)
    requires Stored(store, chain) && |chain| <= 5
    ensures AllRight(r, TIE_ENV.net, store, chain)
  {}

  lemma NoWrongCommit(r: Rules, store: Store, c: seq<Hash>, b: Hash)
    requires Stored(store, c)
    ensures !CommitWrong(r, TIE_ENV.net, store, c, b)
  {
    hide Replays;
  }

  /** And 3 is never on the chain. */
  lemma ThreeNotOnChain(r: Rules, t: Tree, n: nat, store: Store, s: set<Hash>, chain: seq<Hash>, st: State)
    requires TreeIs(t, n) && StoreIs(store, s) && ChainOk(t, 0, chain) && Stored(store, chain)
               && Replays(r, BlocksOf(store, chain), st)
    ensures 3 !in chain && 4 !in chain
  {
    hide ConnectState;
    var bs := BlocksOf(store, chain);
    var run :| IsRun(r, bs, run) && run[|bs|] == st;
    if |chain| > 1 {
      var i := 1;
      assert Connects(r, run[i], bs[i], i, run[i + 1]);
      assert SameCores(store[chain[1]], store[chain[1]]);
      CoinbaseOnly(r, run[1], chain[1], bs[1], false);
    }
    forall i | 0 <= i < |chain| ensures chain[i] != 3 && chain[i] != 4 {
      assert t[chain[i]].height == i;
    }
  }

  /** A chain whose tip is block `x` of height 1. */
  lemma ShortChain(t: Tree, n: nat, chain: seq<Hash>, x: Hash)
    requires TreeIs(t, n) && ChainOk(t, 0, chain) && chain[|chain| - 1] == x && 1 <= x <= 3
    ensures chain == [0, x]
  {}

  // ---------------------------------------------------------------- a tie displaces the tip

  /** The node has the headers up to `n` and the bodies in `s`, and sits on a best tip. */
  ghost function Scene(cs: Chainstate, n: nat, s: set<Hash>): (ok: bool)
    reads cs
    ensures ok <==>
              && cs.Valid() && cs.env == TIE_ENV && cs.genesis == 0 && !cs.prune && cs.nextSeq == n + 1
              && TreeIs(cs.nodes, n) && StoreIs(cs.store, s) && cs.OnTop() && cs.BestTip() && cs.Witnessed()
  {
    && cs.Valid() && cs.env == TIE_ENV && cs.genesis == 0 && !cs.prune && cs.nextSeq == n + 1
    && TreeIs(cs.nodes, n) && StoreIs(cs.store, s) && cs.OnTop() && cs.BestTip() && cs.Witnessed()
  }

  lemma HeaderIs(x: nat)
    requires x <= 4
    ensures BlockOf(x).header.prev == PrevOf(x) && TIE_ENV.headerHash(BlockOf(x).header) == x
              && TIE_ENV.workOf(BlockOf(x).header.bits) == 1
  {}

  lemma Facts(cs: Chainstate, n: nat, s: set<Hash>)
    requires Scene(cs, n, s) && 0 in s && (4 in s ==> 3 in s)
    ensures TreeOk(cs.nodes, 0) && ChainOk(cs.nodes, 0, cs.chain) && cs.chain != []
    ensures forall i :: 0 <= i < |cs.chain| ==> cs.chain[i] in s && cs.chain[i] !in cs.failed
    ensures cs.chainData == s && cs.candidates <= s && cs.candidates !! cs.failed && cs.failed <= cs.nodes.Keys
    ensures forall x :: x in s && x !in cs.failed && x in cs.nodes && cs.nodes[x].work >= cs.nodes[cs.Tip()].work ==>
              x in cs.candidates
    ensures forall x :: x in cs.failed ==> x == 3 || x == 4
    ensures 3 !in cs.chain && 4 !in cs.chain
  {
    hide LedgerOk, UndoKept, SnapsOk, Anchored, FilesOk, Verified, SkipsOk, ChildrenOk, TreeIs, StoreIs, FailedOk,
         Unbeaten, SeqsOk, GenesisOk, AllWitnessed;
    DataIs(cs.nodes, n, cs.store, s, cs.chainData);
    OnlyThreeFails(cs.rules, cs.nodes, n, cs.store, s, cs.failed);
    LedgerFacts(cs.rules, cs.store, cs.chain, cs.State(), cs.byAddr, cs.supply, cs.txindex, cs.undoFiles);
    ThreeNotOnChain(cs.rules, cs.nodes, n, cs.store, s, cs.chain, cs.State());
  }

  lemma CommittedHere(cs: Chainstate, n: nat, s: set<Hash>)
    requires Scene(cs, n, s) && |cs.chain| <= 5
    ensures cs.Committed()
  {
    hide *;
    cs.ValidMeans();
    NoCommitments(cs.rules, cs.store, cs.chain);
  }

  lemma LedgerFacts(r: Rules, store: Store, chain: seq<Hash>, st: State, byAddr: map<Hash, set<OutPoint>>,
                    supply: Amount, txindex: map<Hash, Hash>, undo: map<Hash, Undo>)
    requires LedgerOk(r, store, chain, st, byAddr, supply, txindex, undo)
    ensures Stored(store, chain) && Replays(r, BlocksOf(store, chain), st)
  {}

  /** One more header, the next in order. */
  method AddHeader(cs: Chainstate, n: nat, s: set<Hash>)
    requires Scene(cs, n, s) && cs.failed == {} && n < 4 && |cs.chain| <= 5 && 0 in s && (4 in s ==> 3 in s)
    modifies cs
    ensures Scene(cs, n + 1, s) && cs.failed == {} && cs.chain == old(cs.chain)
  {
    hide *;
    HeaderIs(n + 1);
    HeaderFits(cs.nodes, n, n + 1);
    Facts(cs, n, s);
    CanExtend(cs.nodes, n, cs.chain, PrevOf(n + 1));
    var r, x := cs.AcceptHeader(BlockOf(n + 1).header, true);
    TreeNext(old(cs.nodes), cs.nodes, n);
  }

  lemma HeaderFits(t: Tree, n: nat, x: nat)
    requires TreeIs(t, n) && x <= 4
    ensures x in t <==> x <= n
    ensures x <= n + 1 && x > 0 ==> PrevOf(x) in t && (PrevOf(x) == 0 || PrevOf(x) == 3)
  {}

  /** Any of these blocks is accepted, stored and acted upon. */
  lemma Accepted(r: Rules, t: Tree, t': Tree, n: nat, chain: seq<Hash>, store: Store, s: set<Hash>, files: Files,
                 best: Hash, x: nat, ok: bool, isNew: bool, activated: bool)
    requires TreeIs(t, n) && StoreIs(store, s) && 0 < x <= 4 && x !in s && x <= n + 1
    requires Taken(t, 0, chain, {}, x, PrevOf(x), true) && x in t'
    requires Decided(r, TIE_ENV, t, t', 0, chain, {}, store, files, best, BlockOf(x), x, true, true, ok, isNew,
               activated)
    requires t' == t || Appended(t, t', PrevOf(x), x, 1, n + 1)
    requires x in t ==> t' == t
    ensures isNew && activated && TreeIs(t', if x <= n then n else x) && StoreIs(store[x := BlockOf(x)], s + {x})
  {
    hide Taken, BodyOk, InChain, BestAfter;
    BodiesFine(r, x, HeightIn(t', BestAfter(t, best, t', x)));
    if x <= n { assert t' == t; } else { AppendedIs(t, t', n); }
  }

  lemma AppendedIs(t: Tree, t': Tree, n: nat)
    requires TreeIs(t, n) && n < 4 && n + 1 in t' && (t' == t || Appended(t, t', PrevOf(n + 1), n + 1, 1, n + 1))
    ensures TreeIs(t', n + 1) && HeightIn(t', n + 1) == HeightOf(n + 1)
  {}

  lemma FewNodes(t: Tree, n: nat)
    requires TreeIs(t, n)
    ensures |t| < 999_999
  {
    assert t.Keys <= {0, 1, 2, 3, 4};
    FewerElements(t.Keys, {0, 1, 2, 3, 4});
  }

  lemma DataHere(cs: Chainstate, n: nat, s: set<Hash>)
    requires cs.Valid() && cs.genesis == 0 && TreeIs(cs.nodes, n) && StoreIs(cs.store, s) && 0 in s
               && (4 in s ==> 3 in s)
    ensures cs.chainData == s
  {
    hide *;
    TreeParts(cs.rules, cs.env.net, cs.nodes, cs.genesis, cs.children, cs.chain, cs.store, cs.chainData, cs.failed);
    DataIs(cs.nodes, n, cs.store, s, cs.chainData);
  }

  lemma OneMore(cands: set<Hash>, s: set<Hash>, x: Hash)
    requires x !in s
    ensures WithNew(cands, s, s + {x}, {}) == cands + {x}
  {
    assert (s + {x}) - s == {x};
  }

  /** The body of a block whose header is known, or is the next in order. */
  method AddBlock(cs: Chainstate, x: nat, n: nat, s: set<Hash>)
    requires Scene(cs, n, s) && cs.failed == {} && |cs.chain| <= 5 && 0 in s && (4 in s ==> 3 in s)
    requires 0 < x <= 4 && x !in s && x <= n + 1 && (x == 4 ==> 3 in s)
    modifies cs
    ensures Scene(cs, if x <= n then n else x, s + {x})
    ensures Settles(cs.nodes, s + {x}, {}, cs.failed, old(cs.candidates) + {x}, old(cs.chain), cs.chain, old(cs.high),
              true)
  {
    hide *;
    HeaderIs(x);
    HeaderFits(cs.nodes, n, x);
    Facts(cs, n, s);
    CanExtend(cs.nodes, n, cs.chain, PrevOf(x));
    CommittedHere(cs, n, s);
    TakenIff(cs.nodes, 0, cs.chain, {}, x, PrevOf(x), true);
    var ok, isNew, end := cs.AcceptBlock(BlockOf(x), true, true);
    Accepted(cs.rules, old(cs.nodes), cs.nodes, n, old(cs.chain), old(cs.store), s, old(cs.witnessFiles),
             old(cs.bestHeader), x, ok, isNew, end.Some?);
    FewNodes(cs.nodes, if x <= n then n else x);
    match end.value { case Settled => case Halted => case GaveUp => }
    DataHere(cs, if x <= n then n else x, s + {x});
    OneMore(old(cs.candidates), s, x);
  }

  /** With 2 stored, and nothing heavier, 2 is the tip. */
  lemma SitsOnTwo(t: Tree, s: set<Hash>, chain: seq<Hash>)
    requires TreeIs(t, 2) && s == {0, 2} && ChainOk(t, 0, chain) && chain[|chain| - 1] in s
               && Unbeaten(t, s, chain[|chain| - 1])
    ensures chain == [0, 2]
  {
    assert 2 in s;
  }

  /** A block no heavier than the tip moves nothing. */
  lemma StaysOnTwo(t: Tree, n: nat, s: set<Hash>, failed: set<Hash>, cands: set<Hash>, chain: seq<Hash>, high: Hash)
    requires TreeIs(t, n) && n <= 3 && cands <= t.Keys && Settles(t, s, {}, failed, cands, [0, 2], chain, high, true)
               && 2 in t
    ensures chain == [0, 2] && failed == {}
  {
    assert forall x :: x in cands ==> t[x].work <= t[2].work;
    assert [0, 2][|[0, 2]| - 1] == 2;
  }

  lemma HeavierIsOut(t: Tree, s: set<Hash>, tip: Hash, x: Hash)
    requires Unbeaten(t, s, tip) && x in t && t[x].work > t[tip].work
    ensures x !in s
  {}

  /** With 4 found invalid, 1 is first among the survivors. */
  lemma EndsOnOne(t: Tree, s: set<Hash>, failed: set<Hash>, cands: set<Hash>, chain: seq<Hash>, high: Hash)
    requires TreeIs(t, 4) && s == {0, 1, 2, 3, 4} && ChainOk(t, 0, chain) && 3 !in chain && 4 !in chain
    requires Settles(t, s, {}, failed, cands, [0, 2], chain, high, true) && Unbeaten(t, s - failed, chain[|chain| - 1])
    requires 1 in cands && (forall x :: x in failed ==> x == 3 || x == 4)
    ensures chain == [0, 1] && 4 in failed
  {
    var tip := chain[|chain| - 1];
    assert tip in chain;
    assert 1 in s - failed && 2 in s - failed && t[tip].work >= 2;
    assert tip in t && tip != 3 && tip != 4 && t[tip].work <= 2;
    HeavierIsOut(t, s - failed, tip, 4);
    assert 1 in cands - failed && Better(t[1], t[2]);
    assert !BelowFailed(t, {}, failed, 2);
    ShortChain(t, 4, chain, tip);
  }

  /** Block 2 becomes the tip. */
  method AddTwo(cs: Chainstate)
    requires Scene(cs, 1, {0}) && cs.failed == {} && |cs.chain| <= 5
    modifies cs
    ensures Scene(cs, 2, {0, 2}) && cs.failed == {} && cs.chain == [0, 2]
  {
    hide *;
    AddBlock(cs, 2, 1, {0});
    assert {0} + {2} == {0, 2};
    Facts(cs, 2, {0, 2});
    NoneFailed(cs.nodes, 2, cs.failed);
    assert {0, 2} - {} == {0, 2};
    SitsOnTwo(cs.nodes, {0, 2}, cs.chain);
  }

  lemma NoneFailed(t: Tree, n: nat, failed: set<Hash>)
    requires TreeIs(t, n) && n <= 2 && failed <= t.Keys && forall x :: x in failed ==> x == 3 || x == 4
    ensures failed == {}
  {}

  /** Block 1 or 3, no heavier than 2, moves nothing. */
  method AddTie(cs: Chainstate, x: nat, n: nat, s: set<Hash>)
    requires Scene(cs, n, s) && cs.failed == {} && cs.chain == [0, 2] && 0 in s && 4 !in s && 2 in s
    requires (x == 1 || x == 3) && x !in s && x <= n + 1 && n <= 3
    modifies cs
    ensures Scene(cs, if x <= n then n else x, s + {x}) && cs.failed == {} && cs.chain == [0, 2]
  {
    hide *;
    Facts(cs, n, s);
    AddBlock(cs, x, n, s);
    KnownHere(cs, if x <= n then n else x, s + {x}, 2);
    KnownHere(cs, if x <= n then n else x, s + {x}, x);
    CandidatesKnown(old(cs.candidates), s, x, cs.nodes, cs.store);
    StaysOnTwo(cs.nodes, if x <= n then n else x, s + {x}, cs.failed, old(cs.candidates) + {x}, cs.chain, old(cs.high));
  }

  lemma KnownHere(cs: Chainstate, n: nat, s: set<Hash>, x: Hash)
    requires Scene(cs, n, s) && x in s
    ensures x in cs.nodes && cs.store.Keys <= cs.nodes.Keys && cs.store.Keys == s
  {
    hide *;
    TreeParts(cs.rules, cs.env.net, cs.nodes, cs.genesis, cs.children, cs.chain, cs.store, cs.chainData, cs.failed);
    StoreKeys(cs.store, s);
  }

  lemma StoreKeys(store: Store, s: set<Hash>)
    requires StoreIs(store, s)
    ensures store.Keys == s
  {}

  lemma CandidatesKnown(cands: set<Hash>, s: set<Hash>, x: Hash, t: Tree, store: Store)
    requires cands <= s && store.Keys == s + {x} && store.Keys <= t.Keys
    ensures cands + {x} <= t.Keys
  {}

  /** Block 4 sets off a switch that fails on 3, and the node ends on 1. */
  method AddFour(cs: Chainstate)
    requires Scene(cs, 3, {0, 1, 2, 3}) && cs.failed == {} && cs.chain == [0, 2]
    modifies cs
    ensures Scene(cs, 4, {0, 1, 2, 3, 4}) && cs.chain == [0, 1] && 4 in cs.failed && 2 !in cs.failed
  {
    hide *;
    Facts(cs, 3, {0, 1, 2, 3});
    OneWaits(cs.nodes, cs.candidates, cs.chain);
    AddBlock(cs, 4, 3, {0, 1, 2, 3});
    assert {0, 1, 2, 3} + {4} == {0, 1, 2, 3, 4};
    Facts(cs, 4, {0, 1, 2, 3, 4});
    EndsOnOne(cs.nodes, {0, 1, 2, 3, 4}, cs.failed, old(cs.candidates) + {4}, cs.chain, old(cs.high));
  }

  lemma OneWaits(t: Tree, cands: set<Hash>, chain: seq<Hash>)
    requires TreeIs(t, 3) && chain == [0, 2]
    requires forall x :: x in {0, 1, 2, 3} && x !in {} && x in t && t[x].work >= t[chain[|chain| - 1]].work ==>
               x in cands
    ensures 1 in cands
  {
    assert 1 in {0, 1, 2, 3} && 1 in t;
  }

  /** A tie can displace the tip, after a switch that failed. The run: the header of 1; block 2, which becomes the tip;
      the body of 1, and block 3, which are no heavier and move nothing; then block 4 on top of 3, heavier, but 3 pays
      itself too much. Going back, the node chooses again, and 1 arrived before 2: it ends on 1, of the same work as 2.
      */
  method TieDisplacesTip(r: Rules) returns (cs: Chainstate, ghost before: seq<Hash>)
    requires r.TxidsIdeal()
    ensures cs.Valid() && before == [0, 2] && cs.chain == [0, 1] && 2 !in cs.failed
    ensures 1 in cs.nodes && 2 in cs.nodes && cs.nodes[1].work == cs.nodes[2].work
  {
    hide *;
    BodiesFine(r, 0, 0);
    GenesisIs();
    cs := new Chainstate(r, TIE_ENV, BlockOf(0), false);
    FirstScene(cs.nodes, cs.store);
    AddHeader(cs, 0, {0});
    AddTwo(cs);
    AddTie(cs, 1, 2, {0, 2});
    assert {0, 2} + {1} == {0, 1, 2};
    AddTie(cs, 3, 2, {0, 1, 2});
    assert {0, 1, 2} + {3} == {0, 1, 2, 3};
    before := cs.chain;
    AddFour(cs);
    SameWork(cs.nodes);
  }

  lemma GenesisIs()
    ensures TIE_ENV.net.Ok() && TIE_ENV.headerHash(BlockOf(0).header) == 0 && |BlockOf(0).txs| == 1
              && BlockOf(0).txs[0].core.outs == []
    ensures HeightOf(0) == 0 && TIE_ENV.workOf(BlockOf(0).header.bits) == 1
  {}

  lemma FirstScene(t: Tree, store: Store)
    requires t == map[0 := Node(None, 0, 1, None, 0)] && store == map[0 := BlockOf(0)]
    ensures TreeIs(t, 0) && StoreIs(store, {0})
  {}

  lemma SameWork(t: Tree)
    requires TreeIs(t, 4)
    ensures 1 in t && 2 in t && t[1].work == t[2].work
  {}
}
