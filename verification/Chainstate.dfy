/** `Chainstate`: the block tree, the active chain and the ledger state at its tip
    (src/chain/chainstate.cpp:555-575, 578-703, 742-861). The flags of a `BlockIndex` are kept as
    sets of block ids, and files as maps that may lack an entry. */
module Chainstates {
  import opened Types
  import opened Ledger
  import opened LedgerLaws
  import opened LedgerViews
  import opened Emission
  import opened Replay
  import opened Supply
  import opened Undos
  import opened BlockTree
  import opened Chronicles
  import opened ChainLedger
  import opened Commitments
  import opened Rejoins
  import opened ChainSteps
  import Sorting

  datatype Event = GotHeader(h: Header, policy: bool) | GotBlock(b: Block, hasWitness: bool, policy: bool)

  class Chainstate {
    const rules: Rules
    const genesis: Hash
    const prune: bool
    const env: Env

    // the ledger at the tip
    var utxo: map<OutPoint, Coin>
    var byAddr: map<Hash, set<OutPoint>>
    var tokens: map<Hash, TokenInfo>
    var pools: map<Hash, Pool>
    var supply: Amount
    var txindex: map<Hash, Hash>

    // the tree
    var nodes: Tree
    var children: map<Hash, seq<Hash>>
    var nextSeq: nat
    var chain: seq<Hash>
    var chainData: set<Hash>
    var failed: set<Hash>
    var candidates: set<Hash>
    var bestHeader: Hash
    ghost var high: Hash

    // files
    var store: Store
    var witnessFiles: Files
    var undoFiles: map<Hash, Undo>
    var snapshots: Hashes

    // how the snapshots came about
    ghost var peaks: seq<nat>
    ghost var deepest: nat
    ghost var skipped: set<Hash>

    function State(): (st: State)
      reads this
      ensures st == EMPTY_STATE.(coins := utxo, tokens := tokens, pools := pools)
    {
      Types.State(utxo, tokens, pools)
    }

    /** The held snapshots with their history. */
    ghost function Held(): (snaps: Snaps)
      reads this
      ensures snaps == Snaps(snapshots, peaks, deepest, skipped)
    {
      Snaps(snapshots, peaks, deepest, skipped)
    }

    function Tip(): (x: Hash)
      requires chain != []
      reads this
      ensures x == chain[|chain| - 1]
    {
      chain[|chain| - 1]
    }

    /** Coins, tokens, pools, address index, supply, transaction index, undo files and snapshot hashes: all
        belong to the replay of the active chain from genesis; and every block of it would connect again. */
    ghost function LedgerValid(): (ok: bool)
      reads this
      ensures ok <==> LedgerValues(rules, env.net, prune, store, chain, State(), byAddr, supply, txindex, undoFiles,
                Held(), witnessFiles)
    {
      LedgerValues(rules, env.net, prune, store, chain, State(), byAddr, supply, txindex, undoFiles, Held(),
                   witnessFiles)
    }

    /** The same, except that deep files may still have to go. */
    ghost function LedgerLoose(): (ok: bool)
      reads this
      ensures ok <==> LedgerCore(rules, env.net, prune, store, chain, State(), byAddr, supply, txindex, undoFiles,
                Held(), witnessFiles)
    {
      LedgerCore(rules, env.net, prune, store, chain, State(), byAddr, supply, txindex, undoFiles, Held(), witnessFiles)
    }

    ghost function TreeValid(): (ok: bool)
      reads this
      ensures ok <==> TreeValues(rules, env.net, nodes, genesis, children, chain, store, chainData, failed)
    {
      TreeValues(rules, env.net, nodes, genesis, children, chain, store, chainData, failed)
    }

    ghost function Valid(): (ok: bool)
      reads this
      ensures ok <==>
                && LedgerValid() && TreeValid()
                && CandidatesOk(nodes, chainData, failed, candidates, high)
                && BestHeaderOk(nodes, failed, bestHeader)
                && SeqsOk(nodes, nextSeq) && GenesisOk(store, genesis)
    {
      && LedgerValid() && TreeValid()
      && CandidatesOk(nodes, chainData, failed, candidates, high)
      && BestHeaderOk(nodes, failed, bestHeader)
      && SeqsOk(nodes, nextSeq) && GenesisOk(store, genesis)
    }

    /** A fresh node knows the genesis block, which pays nobody. */
    constructor (rules: Rules, env: Env, g: Block, prune: bool)
      requires rules.TxidsIdeal() && env.net.Ok() && ShapeOk(g, 0) && |g.txs| == 1 && g.txs[0].core.outs == []
      ensures Valid() && this.rules == rules && this.env == env && genesis == env.headerHash(g.header)
      ensures chain == [genesis] && State() == EMPTY_STATE && store == map[genesis := g] && this.prune == prune
      ensures OnTop() && BestTip() && (!prune ==> Witnessed())
      ensures nodes == map[genesis := Node(None, 0, env.workOf(g.header.bits), None, 0)] && nextSeq == 1
      ensures chainData == {genesis} && failed == {} && candidates == {genesis} && high == genesis
                && bestHeader == genesis
    {
      hide LedgerOk, TreeInv, ChainOk, DataOk, FlagsOk, BestHeaderOk, CandidatesOk, SeqsOk, IdMap, SnapsOk, Verified,
           FailedOk;
      var x := env.headerHash(g.header);
      this.rules, this.env, this.genesis, this.prune := rules, env, x, prune;
      utxo, byAddr, tokens, pools, supply := map[], map[], map[], map[], 0;
      txindex := IdMap(rules, g.txs, x);
      nodes := map[x := Node(None, 0, env.workOf(g.header.bits), None, 0)];
      children, nextSeq, chain := map[x := []], 1, [x];
      chainData, failed, candidates, bestHeader, high := {x}, {}, {x}, x, x;
      store, witnessFiles, undoFiles, snapshots := map[x := g], map[], map[], map[];
      peaks, deepest, skipped := [0], 0, {};
      GenesisLedger(rules, x, g);
      GenesisSnaps(rules, env.net, x, g);
      GenesisRejoins(rules, env.net, x, g, Node(None, 0, env.workOf(g.header.bits), None, 0));
      GenesisTree(x, g, Node(None, 0, env.workOf(g.header.bits), None, 0));
    }

    /** A node that holds just its genesis ledger, at any point of its search for the best chain; its chain was once up
        to `top`. */
    constructor At(rules: Rules, env: Env, genesis: Hash, txindex: map<Hash, Hash>, nodes: Tree,
                   children: map<Hash, seq<Hash>>, nextSeq: nat, chainData: set<Hash>, failed: set<Hash>,
                   candidates: set<Hash>, bestHeader: Hash, ghost high: Hash, ghost top: nat, store: Store,
                   files: Files)
      requires LedgerValues(rules, env.net, false, store, [genesis], EMPTY_STATE, map[], 0, txindex, map[],
                 Snaps(map[], [top], top, {}), files)
      requires TreeValues(rules, env.net, nodes, genesis, children, [genesis], store, chainData, failed)
      requires CandidatesOk(nodes, chainData, failed, candidates, high) && BestHeaderOk(nodes, failed, bestHeader)
      requires SeqsOk(nodes, nextSeq) && GenesisOk(store, genesis)
      ensures Valid() && this.rules == rules && this.env == env && this.genesis == genesis && !prune
                && chain == [genesis]
      ensures this.nodes == nodes && this.chainData == chainData && this.failed == failed
                && this.candidates == candidates
      ensures this.high == high && this.store == store && witnessFiles == files
    {
      hide *;
      this.rules, this.env, this.genesis, this.prune := rules, env, genesis, false;
      utxo, byAddr, tokens, pools, supply, this.txindex := map[], map[], map[], map[], 0, txindex;
      this.nodes, this.children, this.nextSeq, chain := nodes, children, nextSeq, [genesis];
      this.chainData, this.failed, this.candidates, this.bestHeader, this.high := chainData, failed, candidates,
          bestHeader, high;
      this.store, witnessFiles, undoFiles, snapshots := store, files, map[], map[];
      peaks, deepest, skipped := [top], top, {};
      EmptyIs();
    }

    // ---------------------------------------------------------------- coins and pools

    method AddCoin(o: OutPoint, c: Coin)
      modifies this`utxo, this`byAddr, this`supply
      ensures utxo == old(utxo)[o := c]
      ensures o !in old(utxo) && old(BookOk(utxo, byAddr, pools, supply)) ==> BookOk(utxo, byAddr, pools, supply)
    {
      if o !in utxo && BookOk(utxo, byAddr, pools, supply) {
        IndexAddOk(utxo, byAddr, o, c);
        SupplyAdd(utxo, pools, o, c);
        if c.out.asset == QNT { WrapAdd(SupplyOf(utxo, pools), c.out.value, SupplyOf(utxo[o := c], pools)); }
      }
      byAddr := IndexAdd(byAddr, c.out.addr, o);
      if c.out.asset == QNT { supply := Add64(supply, c.out.value); }
      utxo := utxo[o := c];
    }

    method SpendCoin(o: OutPoint)
      requires BookOk(utxo, byAddr, pools, supply)
      modifies this`utxo, this`byAddr, this`supply
      ensures BookOk(utxo, byAddr, pools, supply) && utxo == old(utxo) - {o}
    {
      if o !in utxo {
        assert utxo == utxo - {o};
        return;
      }
      var c := utxo[o];
      IndexDropOk(utxo, byAddr, o);
      SupplyDrop(utxo, pools, o);
      byAddr := IndexDrop(byAddr, c.out.addr, o);
      if c.out.asset == QNT {
        WrapSub(SupplyOf(utxo, pools), c.out.value, SupplyOf(utxo - {o}, pools));
        supply := Sub64(supply, c.out.value);
      }
      utxo := utxo - {o};
    }

    method SetPool(t: Hash, p: Option<Pool>)
      requires BookOk(utxo, byAddr, pools, supply)
      modifies this`pools, this`supply
      ensures BookOk(utxo, byAddr, pools, supply)
      ensures pools == if p.Some? then old(pools)[t := p.value] else old(pools) - {t}
    {
      ghost var before := pools;
      if t in pools {
        SupplyPoolDrop(utxo, pools, t);
        WrapSub(SupplyOf(utxo, pools), pools[t].qnt, SupplyOf(utxo, pools - {t}));
        supply := Sub64(supply, pools[t].qnt);
        pools := pools - {t};
      }
      assert pools == before - {t};
      if p.Some? {
        SupplyPoolAdd(utxo, pools, t, p.value);
        WrapAdd(SupplyOf(utxo, pools), p.value.qnt, SupplyOf(utxo, pools[t := p.value]));
        supply := Add64(supply, p.value.qnt);
        pools := pools[t := p.value];
        assert pools == before[t := p.value];
      }
    }

    /** Spend a set of coins, in whatever order the hash map yields them. */
    method SpendCoins(os: set<OutPoint>)
      requires BookOk(utxo, byAddr, pools, supply)
      modifies this`utxo, this`byAddr, this`supply
      ensures BookOk(utxo, byAddr, pools, supply) && utxo == old(utxo) - os
    {
      var todo := os;
      assert utxo == old(utxo) - (os - todo);
      while todo != {}
        invariant BookOk(utxo, byAddr, pools, supply) && todo <= os && utxo == old(utxo) - (os - todo)
        decreases todo
      {
        var o :| o in todo;
        SpendCoin(o);
        assert os - (todo - {o}) == (os - todo) + {o};
        todo := todo - {o};
      }
      assert os - todo == os;
    }

    method AddCoins(m: map<OutPoint, Coin>)
      requires BookOk(utxo, byAddr, pools, supply) && m.Keys !! utxo.Keys
      modifies this`utxo, this`byAddr, this`supply
      ensures BookOk(utxo, byAddr, pools, supply) && utxo == old(utxo) + m
    {
      var todo := m.Keys;
      assert m - todo == map[] && old(utxo) + map[] == old(utxo);
      while todo != {}
        invariant BookOk(utxo, byAddr, pools, supply) && todo <= m.Keys && utxo == old(utxo) + (m - todo)
        decreases todo
      {
        var o :| o in todo;
        AddCoin(o, m[o]);
        AddOne(old(utxo), m, todo, o);
        todo := todo - {o};
      }
      assert m - todo == m;
    }

    method SetPools(m: map<Hash, Option<Pool>>)
      requires BookOk(utxo, byAddr, pools, supply)
      modifies this`pools, this`supply
      ensures BookOk(utxo, byAddr, pools, supply) && pools == RestorePools(old(pools), m)
    {
      var todo := m.Keys;
      assert RestorePools(pools, m - todo) == pools by { assert m - todo == map[]; }
      while todo != {}
        invariant BookOk(utxo, byAddr, pools, supply) && todo <= m.Keys
        invariant pools == RestorePools(old(pools), m - todo)
        decreases todo
      {
        var t :| t in todo;
        SetPool(t, m[t]);
        RestoreOne(old(pools), m, todo, t);
        todo := todo - {t};
      }
      assert m - todo == m;
    }

    // ---------------------------------------------------------------- connecting

    /** The block's overlay: coinbase first, then every transaction; nothing is written yet. */
    method BuildView(b: Block, height: nat, verify: bool) returns (ov: Option<Overlay>)
      requires LedgerValid() && height == |chain| && ShapeOk(b, height)
      ensures ov.None? ==> ConnectState(rules, State(), b, height, verify).Err?
      ensures ov.Some? ==>
                && OverlayOk(State(), ov.value)
                && ConnectState(rules, State(), b, height, verify) == Ok(View(Chain(State()), ov.value).State())
    {
      ReplaysIff(rules, BlocksOf(store, chain), State());
      ReplaySound(rules, BlocksOf(store, chain));
      ov := ViewOn(Chain(State()), b, height, verify, Seen(AllCores(BlocksOf(store, chain))));
    }

    method ViewOn(base: Reader, b: Block, height: nat, verify: bool,
                  ghost seen: set<Core>) returns (ov: Option<Overlay>)
      requires rules.TxidsIdeal() && base.Valid() && Hist(rules, base.State(), seen) && CoinbasesBelow(seen, height)
      requires ShapeOk(b, height)
      ensures ov.None? ==> ConnectState(rules, base.State(), b, height, verify).Err?
      ensures ov.Some? ==>
                && OverlayOk(base.State(), ov.value)
                && ConnectState(rules, base.State(), b, height, verify) == Ok(View(base, ov.value).State())
    {
      hide ApplyAll, BasicOk, Remembered;
      var view := new LedgerView(rules, base, seen);
      view.AddCoinbase(b.txs[0], height);
      var ok, fees := ApplyRest(view, b.txs[1..], height, verify);
      if !ok { return None; }
      var out := TotalQntOut(b.txs[0].core.outs);
      if height > 0 && out > Add64(Subsidy64(height), fees) { return None; }
      ov := Some(view.ov);
    }

    /** The transactions after the coinbase. */
    static method ApplyRest(view: LedgerView, txs: seq<Transaction>, height: nat,
                            verify: bool) returns (ok: bool, fees: Amount)
      requires view.Valid() && AllBasic(txs)
      modifies view
      ensures view.Valid()
      ensures ok ==> ApplyAll(view.rules, old(view.State()), txs, height, verify) == Ok(Applied(view.State(), fees))
      ensures !ok ==> ApplyAll(view.rules, old(view.State()), txs, height, verify).Err?
    {
      fees := 0;
      ghost var st := view.State();
      for i := 0 to |txs|
        invariant view.Valid()
        invariant ApplyAll(view.rules, st, txs[..i], height, verify) == Ok(Applied(view.State(), fees))
      {
        var r := view.Apply(txs[i], height, verify);
        ApplyAllNext(view.rules, st, txs, i, height, verify);
        if r.Err? { return false, fees; }
        fees := Add64(fees, r.value);
      }
      assert txs[..|txs|] == txs;
      ok := true;
    }

    /** Write a block's overlay back. */
    method WriteBack(ov: Overlay)
      requires BookOk(utxo, byAddr, pools, supply) && OverlayOk(State(), ov)
      modifies this`utxo, this`byAddr, this`supply, this`tokens, this`pools
      ensures BookOk(utxo, byAddr, pools, supply) && State() == View(Chain(old(State())), ov).State()
    {
      SpendCoins(ov.spentBase.Keys);
      AddCoins(ov.created);
      tokens := tokens + ov.tokens;
      SomePools(pools, ov.pools);
      SetPools(map t | t in ov.pools :: Some(ov.pools[t]));
    }

    /** Put a block on top of the chain, remembering how to undo it. */
    method Advance(x: Hash, ov: Overlay, ghost st: State)
      requires chain != [] && x in store && OverlayOk(State(), ov) && BookOk(utxo, byAddr, pools, supply)
      requires st == View(Chain(State()), ov).State()
      requires ReplayOk(rules, store, chain + [x], st, txindex + IdMap(rules, store[x].txs, x),
                 undoFiles[x := UndoFrom(ov)])
      requires UndoKept(prune, chain, undoFiles) && env.net.Ok() && FilesOk(env.net, store, witnessFiles)
      requires SnapsOk(rules, env.net, store, chain + [x], SnapsWith(env.net, Held(), chain, x, st))
      requires Verified(rules, env.net, store, chain + [x], witnessFiles)
      modifies this`utxo, this`byAddr, this`supply, this`tokens, this`pools, this`txindex, this`chain, this`undoFiles
      modifies this`snapshots, this`peaks, this`deepest, this`skipped
      ensures old(skipped) <= skipped && old(deepest) <= deepest
      ensures LedgerLoose() && chain == old(chain) + [x] && undoFiles == old(undoFiles)[x := UndoFrom(ov)]
      ensures State() == st && Held() == SnapsWith(env.net, old(Held()), old(chain), x, st)
    {
      hide SnapsOk, Verified, FilesOk, ReplayOk, BookOk, OverlayOk, UndoKept, UndoFrom, IdMap, SnapsWith;
      WriteBack(ov);
      assert State() == st;
      Push(x, UndoFrom(ov));
    }

    /** The bookkeeping of a connected block. */
    method Push(x: Hash, u: Undo)
      requires chain != [] && x in store && BookOk(utxo, byAddr, pools, supply) && UndoKept(prune, chain, undoFiles)
                 && env.net.Ok()
      requires ReplayOk(rules, store, chain + [x], State(), txindex + IdMap(rules, store[x].txs, x), undoFiles[x := u])
      requires SnapsOk(rules, env.net, store, chain + [x], SnapsWith(env.net, Held(), chain, x, State()))
      requires Verified(rules, env.net, store, chain + [x], witnessFiles) && FilesOk(env.net, store, witnessFiles)
      modifies this`txindex, this`chain, this`undoFiles, this`snapshots, this`peaks, this`deepest, this`skipped
      ensures old(skipped) <= skipped && old(deepest) <= deepest
      ensures LedgerLoose() && chain == old(chain) + [x] && undoFiles == old(undoFiles)[x := u]
      ensures Held() == SnapsWith(env.net, old(Held()), old(chain), x, State())
    {
      hide *;
      UndoKeptNext(prune, chain, undoFiles, x, u);
      ghost var after := SnapsWith(env.net, Held(), chain, x, State());
      SnapsWithIs(env.net, Held(), chain, x, State());
      var hashes := WriteSnapshot(chain + [x]);
      undoFiles, txindex := undoFiles[x := u], txindex + IdMap(rules, store[x].txs, x);
      peaks, skipped := after.peaks, after.skipped;
      chain, snapshots := chain + [x], hashes;
      CoreJoin(rules, env.net, prune, store, chain, State(), byAddr, supply, txindex, undoFiles, Held(), witnessFiles);
    }

    /** `write_commit_snapshot`, if the chain `c` has just reached a snapshot height: the hash of the state is kept, and
        then the newest three. */
    method WriteSnapshot(c: seq<Hash>) returns (hashes: Hashes)
      requires c != [] && env.net.Ok()
      ensures hashes == HashesWith(env.net, snapshots, c, State())
    {
      hide *;
      var n := |c| - 1;
      HashesWithIs(env.net, snapshots, c, State());
      hashes := snapshots;
      if env.net.SnapshotHeight(n) { hashes := KeepNewest(c, snapshots[c[n] := env.net.stateHash(c[n], n, State())]); }
    }

    /** Sort the held snapshots, and drop all from the third on. */
    static method KeepNewest(c: seq<Hash>, all: Hashes) returns (hashes: Hashes)
      ensures hashes == Newest(c, all)
    {
      hide *;
      AheadOrdered(c);
      var held := Sorting.SortKeys((a: Hash, b: Hash) => Ahead(c, a, b), all.Keys);
      var from := if |held| < 3 then |held| else 3;
      NewestIs(c, all, held, from);
      NoneGone(all, held, from);
      hashes := all;
      for i := from to |held|
        invariant hashes == all - Sorting.Elements(held[from..i])
      {
        OneMoreGone(all, held, from, i);
        hashes := hashes - {held[i]};
      }
      assert held[from..|held|] == held[from..];
    }

    /** `connect_block` for a child of the tip. A missing file stalls; anything else wrong is invalid; either way
        nothing has changed. */
    method ConnectBlock(x: Hash, base: Option<Hash>) returns (out: Outcome)
      requires LedgerValid() && chain != [] && env.net.Ok() && base == CommitBase(env.net, chain)
      requires x in nodes && nodes[x].height == |chain| && x !in chain && bestHeader in nodes
      requires x in store && ShapeOk(store[x], |chain|)
      modifies this`utxo, this`byAddr, this`supply, this`tokens, this`pools, this`txindex, this`chain, this`undoFiles
      modifies this`witnessFiles, this`snapshots, this`peaks, this`deepest, this`skipped
      ensures old(skipped) <= skipped && old(deepest) <= deepest
      ensures LedgerValid()
      ensures out == if old(Blocked(nodes, store, witnessFiles, bestHeader, x)) then Stalled
                     else if old(Rejects(rules, env.net, State(), chain, snapshots, store, witnessFiles, x))
                         then Invalid
                     else Connected
      ensures out == Stalled <==>
              old(|| ReadAs(store, witnessFiles, x) == None
                  || (x !in witnessFiles && |chain| + 5040 > nodes[bestHeader].height))
      ensures out != Connected ==>
                && chain == old(chain) && State() == old(State()) && undoFiles == old(undoFiles)
                && witnessFiles == old(witnessFiles) && Held() == old(Held()) && txindex == old(txindex)
      ensures out == Connected ==> Commits(env.net, old(chain), old(snapshots), x)
      ensures out == Connected && env.net.SnapshotHeight(|old(chain)|) ==> x in snapshots
      ensures out == Connected ==>
                && chain == old(chain) + [x] && Held() == SnapsWith(env.net, old(Held()), old(chain), x, State())
                && undoFiles.Keys == KeysLeft(old(undoFiles.Keys), x, PrunedAt(prune, chain, |chain| - 1 - PRUNE_DEPTH))
                && witnessFiles == old(witnessFiles) - PrunedAt(prune, chain, |chain| - 1 - PRUNE_DEPTH)
    {
      hide *;
      BlockedIff(nodes, store, witnessFiles, bestHeader, x);
      DepthIs();
      RejectsIff(rules, env.net, State(), chain, snapshots, store, witnessFiles, x, base);
      var b := ReadAs(store, witnessFiles, x);
      if b.None? { return Stalled; }
      var got, height := x in witnessFiles, nodes[x].height;
      var deep := height + PRUNE_DEPTH <= nodes[bestHeader].height;
      if !got && !deep && height > 0 { return Stalled; }
      var verify := got && height > 0;
      if base.Some? && base.value in snapshots && snapshots[base.value] != env.net.commitOf(x) { return Invalid; }
      SameCoresShape(store[x], b.value, height);
      var ov := BuildView(b.value, height, verify);
      if ov.None? { return Invalid; }
      ShapeHasCoinbase(b.value, height);
      SameCoresConnect(rules, State(), store[x], b.value, height, verify);
      ghost var before := chain;
      Attach(x, ov.value);
      SnapsParts(rules, env.net, prune, store, chain, State(), byAddr, supply, txindex, undoFiles, Held(),
                 witnessFiles);
      FreshHeld(rules, env.net, store, before, old(Held()), x, State());
      out := Connected;
    }

    /** Write a connected block back, and prune. */
    method Attach(x: Hash, ov: Overlay)
      requires LedgerValid() && chain != [] && x in store && x !in chain && ShapeOk(store[x], |chain|)
                 && OverlayOk(State(), ov)
      requires ConnectState(rules, State(), store[x], |chain|, false) == Ok(View(Chain(State()), ov).State())
      requires env.net.Ok() && Commits(env.net, chain, snapshots, x)
      requires Connectable(rules, State(), store, witnessFiles, x, |chain|)
      modifies this`utxo, this`byAddr, this`supply, this`tokens, this`pools, this`txindex, this`chain, this`undoFiles
      modifies this`witnessFiles
      modifies this`snapshots, this`peaks, this`deepest, this`skipped
      ensures old(skipped) <= skipped && old(deepest) <= deepest
      ensures LedgerValid() && chain == old(chain) + [x]
      ensures undoFiles.Keys == KeysLeft(old(undoFiles.Keys), x, PrunedAt(prune, chain, |chain| - 1 - PRUNE_DEPTH))
      ensures witnessFiles == old(witnessFiles) - PrunedAt(prune, chain, |chain| - 1 - PRUNE_DEPTH)
      ensures Held() == SnapsWith(env.net, old(Held()), old(chain), x, State())
    {
      hide *;
      ghost var st := View(Chain(State()), ov).State();
      AttachReady(rules, env.net, prune, store, chain, State(), byAddr, supply, txindex, undoFiles, Held(),
                  witnessFiles, x, ov, st);
      Advance(x, ov, st);
      ghost var undo0 := old(undoFiles);
      PruneAt(|chain| - 1 - PRUNE_DEPTH);
      KeysLeftIs(undo0, x, UndoFrom(ov), PrunedAt(prune, chain, |chain| - 1 - PRUNE_DEPTH));
      LedgerJoin(rules, env.net, prune, store, chain, State(), byAddr, supply, txindex, undoFiles, Held(),
                 witnessFiles);
    }

    /** Deep witness and undo files go. */
    method PruneAt(h: int)
      requires LedgerLoose()
      modifies this`undoFiles, this`witnessFiles
      ensures LedgerLoose()
      ensures undoFiles == old(undoFiles) - PrunedAt(prune, chain, h)
                && witnessFiles == old(witnessFiles) - PrunedAt(prune, chain, h)
    {
      hide SnapsOk, Verified, ReplayOk, BookOk;
      if prune && 0 < h < |chain| {
        ReplayPruned(rules, store, chain, State(), txindex, undoFiles, chain[h]);
        FilesShrink(rules, env.net, store, chain, witnessFiles, {chain[h]});
        witnessFiles := witnessFiles - {chain[h]};
        undoFiles := undoFiles - {chain[h]};
      }
    }

    // ---------------------------------------------------------------- disconnecting

    /** Spend every output of a block that is still unspent. */
    method DropOutputs(txs: seq<Transaction>)
      requires BookOk(utxo, byAddr, pools, supply)
      modifies this`utxo, this`byAddr, this`supply
      ensures BookOk(utxo, byAddr, pools, supply) && utxo == old(utxo) - OutsOf(rules, txs)
    {
      for i := 0 to |txs|
        invariant BookOk(utxo, byAddr, pools, supply) && utxo == old(utxo) - OutsOf(rules, txs[..i])
      {
        DropOuts(rules.txid(txs[i].core), |txs[i].core.outs|);
        OutsNext(rules, old(utxo), txs, i);
      }
      assert txs[..|txs|] == txs;
    }

    method DropOuts(id: Hash, count: nat)
      requires BookOk(utxo, byAddr, pools, supply)
      modifies this`utxo, this`byAddr, this`supply
      ensures BookOk(utxo, byAddr, pools, supply) && utxo == old(utxo) - OutPoints(id, count)
    {
      for n := 0 to count
        invariant BookOk(utxo, byAddr, pools, supply) && utxo == old(utxo) - OutPoints(id, n)
      {
        SpendCoin(OutPoint(id, n));
        assert OutPoints(id, n + 1) == OutPoints(id, n) + {OutPoint(id, n)};
      }
    }

    /** Take a block's effect on coins, pools and tokens back. */
    method TakeBack(b: Block, u: Undo)
      requires BookOk(utxo, byAddr, pools, supply) && u.spent.Keys !! (utxo - OutsOf(rules, b.txs)).Keys
      modifies this`utxo, this`byAddr, this`supply, this`tokens, this`pools
      ensures BookOk(utxo, byAddr, pools, supply) && State() == Disconnected(rules, old(State()), b, u)
    {
      DropOutputs(b.txs);
      AddCoins(u.spent);
      SetPools(u.poolsBefore);
      tokens := tokens - u.tokensCreated;
    }

    /** Take the last block off. */
    method Retreat(b: Block, u: Undo, ghost st: State, ghost front: seq<Hash>)
      requires chain != [] && BookOk(utxo, byAddr, pools, supply) && u.spent.Keys !! (utxo - OutsOf(rules, b.txs)).Keys
      requires st == Disconnected(rules, State(), b, u) && front == chain[..|chain| - 1]
      requires ReplayOk(rules, store, front, st, txindex - IdSet(rules, b.txs), undoFiles)
                 && UndoKept(prune, chain, undoFiles)
      requires SnapsOk(rules, env.net, store, front, SnapsWithout(Held()))
                 && Verified(rules, env.net, store, front, witnessFiles)
      requires Anchored(prune, front, undoFiles.Keys, SnapsWithout(Held())) && FilesOk(env.net, store, witnessFiles)
      modifies this`utxo, this`byAddr, this`supply, this`tokens, this`pools, this`txindex, this`chain, this`peaks
      modifies this`deepest
      ensures LedgerValid() && chain == front && Held() == SnapsWithout(old(Held()))
    {
      hide *;
      TakeBack(b, u);
      Pop(IdSet(rules, b.txs), front);
    }

    /** The bookkeeping of a block taken back. */
    method Pop(ids: set<Hash>, ghost front: seq<Hash>)
      requires chain != [] && BookOk(utxo, byAddr, pools, supply) && front == chain[..|chain| - 1]
      requires ReplayOk(rules, store, front, State(), txindex - ids, undoFiles) && UndoKept(prune, chain, undoFiles)
      requires SnapsOk(rules, env.net, store, front, SnapsWithout(Held()))
                 && Verified(rules, env.net, store, front, witnessFiles)
      requires Anchored(prune, front, undoFiles.Keys, SnapsWithout(Held())) && FilesOk(env.net, store, witnessFiles)
      modifies this`txindex, this`chain, this`peaks, this`deepest
      ensures LedgerValid() && chain == front && Held() == SnapsWithout(old(Held()))
    {
      hide *;
      ghost var after, longer := SnapsWithout(Held()), chain;
      BackHashes(Held());
      peaks, deepest := after.peaks, after.deepest;
      txindex, chain := txindex - ids, chain[..|chain| - 1];
      BackJoin(rules, env.net, prune, store, longer, chain, State(), byAddr, supply, txindex, undoFiles, Held(),
               witnessFiles);
    }

    /** `disconnect_tip`: an exact undo, or nothing at all. */
    method DisconnectTip() returns (ok: bool)
      requires LedgerValid() && chain != []
      modifies this`utxo, this`byAddr, this`supply, this`tokens, this`pools, this`txindex, this`chain, this`peaks
      modifies this`deepest
      ensures LedgerValid() && old(deepest) <= deepest
      ensures chain == if ok then old(chain)[..|old(chain)| - 1] else old(chain)
      ensures ok <==> |old(chain)| > 1 && old(Tip()) in undoFiles
      ensures !ok && |chain| > 1 ==> prune
      ensures !ok ==> State() == old(State()) && txindex == old(txindex)
    {
      hide LedgerOk, ReplayOk, BookOk, SnapsOk, Verified, FilesOk, Anchored, FailedOk, UndoKept, IdSet, OutsOf,
           Disconnected, SnapsWithout;
      var t := Tip();
      LedgerParts(rules, store, chain, State(), byAddr, supply, txindex, undoFiles);
      UndoKeptMeans(prune, chain, undoFiles);
      if |chain| == 1 || t !in undoFiles { return false; }
      ReplayDisconnect(rules, store, chain, State(), txindex, undoFiles);
      BackReady(rules, env.net, prune, store, chain, undoFiles, Held());
      ChainShrinks(rules, env.net, store, chain, witnessFiles, |chain| - 1);
      Retreat(store[t], undoFiles[t], Disconnected(rules, State(), store[t], undoFiles[t]), chain[..|chain| - 1]);
      ok := true;
    }

    // ---------------------------------------------------------------- failure and data flags

    /** `mark_failed`: the block and everything above it, then the best header among the rest. */
    method MarkFailed(b: Hash)
      requires TreeOk(nodes, genesis) && ChildrenOk(nodes, children) && b in nodes && b != genesis && genesis !in failed
      modifies this`failed, this`candidates, this`bestHeader
      ensures failed == old(failed) + Descendants(nodes, genesis, b)
      ensures candidates == old(candidates) - Descendants(nodes, genesis, b)
      ensures BestHeaderOk(nodes, failed, bestHeader)
    {
      var above := CollectAbove(nodes, genesis, children, b);
      failed := failed + above;
      candidates := candidates - above;
      PickBestHeader();
    }

    method PickBestHeader()
      requires genesis in nodes && genesis !in failed
      modifies this`bestHeader
      ensures BestHeaderOk(nodes, failed, bestHeader)
    {
      bestHeader := genesis;
      var todo := nodes.Keys;
      while todo != {}
        invariant todo <= nodes.Keys && bestHeader in nodes && bestHeader !in failed
        invariant forall x :: x in nodes && x !in failed ==> x in todo || nodes[x].work <= nodes[bestHeader].work
        decreases todo
      {
        var x :| x in todo;
        if x !in failed && nodes[x].work > nodes[bestHeader].work { bestHeader := x; }
        todo := todo - {x};
      }
    }

    /** `update_chain_data`: data that has become complete, from `b` upwards. */
    method UpdateChainData(b: Hash)
      requires ChildrenOk(nodes, children) && b in store && b != genesis
      requires chainData <= store.Keys <= nodes.Keys && b !in chainData
      requires CompleteSet(nodes, genesis, store.Keys - {b}, chainData)
      requires CandidatesOk(nodes, chainData, failed, candidates, high)
      modifies this`chainData, this`candidates
      ensures old(chainData) <= chainData <= store.Keys
      ensures CompleteSet(nodes, genesis, store.Keys, chainData)
      ensures candidates == WithNew(old(candidates), old(chainData), chainData, failed)
      ensures CandidatesOk(nodes, chainData, failed, candidates, high)
    {
      if !ParentIn(nodes, b, chainData) { return; }
      var complete := Complete(nodes, genesis, children, store.Keys, chainData, b);
      candidates := WithNew(candidates, chainData, complete, failed);
      chainData := complete;
    }

    // ---------------------------------------------------------------- choosing the best chain

    /** `best_candidate`: the heaviest usable candidate, the earliest among equals, if it beats the tip. */
    method BestCandidate() returns (c: Hash)
      requires chain != [] && Tip() in nodes && candidates <= nodes.Keys
      ensures c == Tip() || (c in candidates && c !in failed && nodes[c].work > nodes[Tip()].work)
      ensures forall x :: x in candidates && x !in failed ==>
                nodes[x].work <= nodes[c].work || nodes[x].work <= nodes[Tip()].work
      ensures c != Tip() ==> forall x :: x in candidates && x !in failed ==> !Better(nodes[x], nodes[c])
      ensures c != Tip() ==> forall x :: x in candidates && x !in failed ==>
                nodes[x].work < nodes[c].work || (nodes[x].work == nodes[c].work && nodes[x].seqNo >= nodes[c].seqNo)
      ensures c == Tip() ==> forall x :: x in candidates && x !in failed ==> nodes[x].work <= nodes[c].work
    {
      var best: Option<Hash> := None;
      var todo := candidates;
      while todo != {}
        invariant todo <= candidates
        invariant best.Some? ==> best.value in candidates && best.value !in failed
        invariant forall x :: x in candidates && x !in todo && x !in failed ==>
                    best.Some? && !Better(nodes[x], nodes[best.value])
        decreases todo
      {
        var x :| x in todo;
        if x !in failed && (best.None? || Better(nodes[x], nodes[best.value])) { best := Some(x); }
        todo := todo - {x};
      }
      if best.Some? && nodes[best.value].work > nodes[Tip()].work { c := best.value; } else { c := Tip(); }
    }

    /** Disconnect down to `fork`; a missing undo file stops it, on a shorter but sound chain. */
    method Rewind(fork: Hash, ghost n: nat) returns (ok: bool)
      requires LedgerValid() && n < |chain| && chain[n] == fork
      modifies this`utxo, this`byAddr, this`supply, this`tokens, this`pools, this`txindex, this`chain, this`peaks
      modifies this`deepest
      ensures LedgerValid() && old(deepest) <= deepest && n < |chain| && PrefixOf(chain, old(chain))
      ensures ok ==> Tip() == fork
      ensures !ok ==> prune && Tip() !in undoFiles
    {
      hide *;
      PrefixSelf(chain);
      while Tip() != fork
        invariant LedgerValid() && old(deepest) <= deepest && n < |chain| && PrefixOf(chain, old(chain))
        decreases |chain|
      {
        PrefixShrinks(chain, old(chain), n);
        var done := DisconnectTip();
        if !done { return false; }
      }
      ok := true;
    }

    /** The block whose snapshot a header on top of the chain must commit to, found as an ancestor. */
    method BaseBlock(b: Hash) returns (base: Option<Hash>)
      requires TreeValid() && b !in chain && ChainOk(nodes, genesis, chain + [b]) && env.net.Ok()
      ensures base == CommitBase(env.net, chain)
    {
      hide DataOk, FlagsOk, FailedOk, SkipsOk, ChildrenOk;
      var t, n := nodes, |chain|;
      assert (chain + [b])[n] == b;
      if !env.net.CommitHeight(t[b].height) { return None; }
      base := Ancestor(t, genesis, chain, b, t[b].height - env.net.delay);
      ChainUp(t, genesis, chain + [b], n, n - env.net.delay);
      assert (chain + [b])[n - env.net.delay] == chain[n - env.net.delay];
    }

    /** `home` would connect again, and has not failed. */
    ghost function Keeps(home: seq<Hash>): (ok: bool)
      reads this
      ensures ok <==> HomeOk(rules, env.net, nodes, genesis, store, home, witnessFiles, failed)
    {
      HomeOk(rules, env.net, nodes, genesis, store, home, witnessFiles, failed)
    }

    /** Why no progress is possible: the tip cannot be taken back, or a usable child of it is blocked. */
    ghost function Stuck(): (ok: bool)
      reads this
      ensures ok <==> StuckOn(nodes, prune, chain, undoFiles, store, witnessFiles, bestHeader, chainData, failed)
    {
      StuckOn(nodes, prune, chain, undoFiles, store, witnessFiles, bestHeader, chainData, failed)
    }

    /** A child of the tip that does not connect fails, with everything above it; it is not of `home`. */
    method FailBlock(b: Hash, ghost home: seq<Hash>)
      requires LedgerValid() && TreeValid() && candidates !! failed && Keeps(home) && env.net.Ok()
      requires b !in chain && ChainOk(nodes, genesis, chain + [b]) && b in chainData && b !in failed
      requires ReadAs(store, witnessFiles, b).Some?
      requires Rejects(rules, env.net, State(), chain, snapshots, store, witnessFiles, b)
      modifies this`failed, this`candidates, this`bestHeader
      ensures TreeValid() && Keeps(home)
      ensures TreeOk(nodes, genesis) && failed == old(failed) + Descendants(nodes, genesis, b)
      ensures old(failed) < failed && candidates == old(candidates) - failed && BestHeaderOk(nodes, failed, bestHeader)
      ensures chain != [] && TreeOk(nodes, genesis) && FailedOn(nodes, genesis, old(failed), failed, Tip())
    {
      hide *;
      FailReady(rules, env.net, prune, nodes, genesis, children, store, home, chain, witnessFiles, Held(), State(),
                byAddr, supply,
                txindex, undoFiles, chainData, failed, candidates, b);
      MarkFailed(b);
    }

    /** One block further up. A bad block is marked failed, with everything above it; a block of `home` is never bad. */
    method TryConnect(b: Hash, ghost home: seq<Hash>) returns (out: Outcome)
      requires LedgerValid() && TreeValid() && bestHeader in nodes && candidates !! failed && Keeps(home)
      requires b !in chain && ChainOk(nodes, genesis, chain + [b]) && b in chainData && b !in failed
      modifies this`utxo, this`byAddr, this`supply, this`tokens, this`pools, this`txindex, this`chain, this`undoFiles
      modifies this`witnessFiles, this`snapshots, this`peaks, this`deepest, this`skipped
      modifies this`failed, this`candidates, this`bestHeader
      ensures old(skipped) <= skipped && old(deepest) <= deepest
      ensures LedgerValid() && TreeValid() && Keeps(home)
      ensures chain == if out == Connected then old(chain) + [b] else old(chain)
      ensures out != Invalid ==> failed == old(failed) && candidates == old(candidates) && bestHeader == old(bestHeader)
      ensures out == Invalid ==>
                old(failed) < failed && candidates == old(candidates) - failed
                && BestHeaderOk(nodes, failed, bestHeader)
      ensures out == Invalid ==>
                chain != [] && TreeOk(nodes, genesis) && FailedOn(nodes, genesis, old(failed), failed, Tip())
      ensures out == Stalled ==> Stuck()
      ensures !prune ==> witnessFiles == old(witnessFiles)
    {
      hide *;
      ghost var files, gone := witnessFiles, {};
      out, gone := ConnectNext(b);
      HomeShrinks(rules, env.net, nodes, genesis, store, home, files, gone, failed);
      if out == Invalid { FailBlock(b, home); }
    }

    /** `connect_block` in its place: what it leaves of the tree side. */
    method ConnectNext(b: Hash) returns (out: Outcome, ghost gone: set<Hash>)
      requires LedgerValid() && TreeValid() && bestHeader in nodes && candidates !! failed
      requires b !in chain && ChainOk(nodes, genesis, chain + [b]) && b in chainData && b !in failed
      modifies this`utxo, this`byAddr, this`supply, this`tokens, this`pools, this`txindex, this`chain, this`undoFiles
      modifies this`witnessFiles, this`snapshots, this`peaks, this`deepest, this`skipped
      ensures old(skipped) <= skipped && old(deepest) <= deepest
      ensures LedgerValid() && TreeValid() && env.net.Ok()
      ensures chain == if out == Connected then old(chain) + [b] else old(chain)
      ensures out != Connected ==> State() == old(State()) && txindex == old(txindex) && Held() == old(Held())
      ensures out == Connected ==> Commits(env.net, old(chain), old(snapshots), b)
      ensures out == Connected && env.net.SnapshotHeight(|old(chain)|) ==> b in snapshots
      ensures out == Stalled ==> Stuck()
      ensures out == Invalid ==>
                ReadAs(store, witnessFiles, b).Some?
                && Rejects(rules, env.net, State(), chain, snapshots, store, witnessFiles, b)
      ensures witnessFiles == old(witnessFiles) - gone && (!prune ==> witnessFiles == old(witnessFiles))
    {
      hide *;
      NetworkOk(rules, env.net, prune, store, chain, State(), byAddr, supply, txindex, undoFiles, Held(), witnessFiles);
      NextReady(rules, env.net, nodes, genesis, children, chain, store, chainData, failed, candidates, b);
      StuckIf(nodes, prune, chain, undoFiles, store, witnessFiles, bestHeader, chainData, failed, b);
      var base := BaseBlock(b);
      ghost var longer := chain + [b];
      out := ConnectBlock(b, base);
      assert chain == longer || chain == old(chain);
      assert TreeValues(rules, env.net, nodes, genesis, children, chain, store, chainData, failed);
      gone := if out == Connected then PrunedAt(prune, chain, |chain| - 1 - PRUNE_DEPTH) else {};
    }

    /** One block further on the way to `cand`. */
    method Climb(b: Hash, ghost cand: Hash, ghost home: seq<Hash>) returns (out: Outcome)
      requires LedgerValid() && TreeValid() && bestHeader in nodes && candidates !! failed && Keeps(home)
                 && TreeOk(nodes, genesis)
      requires chain != [] && cand in chainData && cand !in failed && Climbed(nodes, genesis, cand, chain)
      requires |chain| <= nodes[cand].height && b == Up(nodes, genesis, cand, |chain|)
      modifies this`utxo, this`byAddr, this`supply, this`tokens, this`pools, this`txindex, this`chain, this`undoFiles
      modifies this`witnessFiles, this`snapshots, this`peaks, this`deepest, this`skipped
      modifies this`failed, this`candidates, this`bestHeader
      ensures old(skipped) <= skipped && old(deepest) <= deepest
      ensures LedgerValid() && TreeValid() && Keeps(home) && chain != []
      ensures out == Connected ==> chain == old(chain) + [b] && Climbed(nodes, genesis, cand, chain)
      ensures out != Connected ==> Ended(nodes, genesis, old(failed), failed, old(candidates), candidates, Tip(), cand,
                out)
      ensures out != Invalid ==> failed == old(failed) && candidates == old(candidates) && bestHeader == old(bestHeader)
      ensures out == Invalid ==> BestHeaderOk(nodes, failed, bestHeader)
      ensures out == Stalled ==> Stuck()
      ensures !prune ==> witnessFiles == old(witnessFiles)
    {
      hide *;
      ClimbNext(rules, env.net, nodes, genesis, children, chain, store, chainData, failed, cand, b);
      out := TryConnect(b, home);
      EndedEarly(nodes, genesis, old(failed), failed, old(candidates), candidates, chain, cand, out);
    }

    /** Connect upwards to `cand`. */
    method ConnectPath(cand: Hash, ghost home: seq<Hash>) returns (out: Outcome)
      requires LedgerValid() && TreeValid() && bestHeader in nodes && candidates !! failed && Keeps(home) && chain != []
      requires TreeOk(nodes, genesis) && cand in chainData && cand !in failed && IsAncestor(nodes, genesis, Tip(), cand)
      modifies this`utxo, this`byAddr, this`supply, this`tokens, this`pools, this`txindex, this`chain, this`undoFiles
      modifies this`witnessFiles, this`snapshots, this`peaks, this`deepest, this`skipped
      modifies this`failed, this`candidates, this`bestHeader
      ensures old(skipped) <= skipped && old(deepest) <= deepest
      ensures LedgerValid() && TreeValid() && Keeps(home)
      ensures chain != [] && Ended(nodes, genesis, old(failed), failed, old(candidates), candidates, Tip(), cand, out)
      ensures out != Invalid ==> bestHeader == old(bestHeader)
      ensures out == Invalid ==> BestHeaderOk(nodes, failed, bestHeader)
      ensures out == Stalled ==> Stuck()
      ensures !prune ==> witnessFiles == old(witnessFiles)
    {
      hide *;
      ghost var t, failed0, candidates0 := nodes, failed, candidates;
      PathReady(rules, env.net, nodes, genesis, children, store, chain, chainData, failed, cand);
      var n := |chain|;
      var path := PathTo(nodes, genesis, cand, n - 1);
      for i := 0 to |path|
        invariant LedgerValid() && TreeValid() && bestHeader in nodes && Keeps(home)
        invariant old(skipped) <= skipped && old(deepest) <= deepest
        invariant chain != [] && |chain| == n + i && Climbed(t, genesis, cand, chain)
        invariant failed == failed0 && candidates == candidates0 && bestHeader == old(bestHeader)
        invariant !prune ==> witnessFiles == old(witnessFiles)
      {
        out := Climb(path[i], cand, home);
        if out != Connected { return; }
      }
      EndedOn(t, genesis, failed, candidates, chain, cand);
      out := Connected;
    }

    /** One round of `activate_best_chain`: back to the fork, then up to `cand`. */
    method SwitchTo(cand: Hash, ghost home: seq<Hash>) returns (out: Outcome)
      requires LedgerValid() && TreeValid() && bestHeader in nodes && candidates !! failed && Keeps(home)
      requires cand in chainData && cand !in failed
      modifies this`utxo, this`byAddr, this`supply, this`tokens, this`pools, this`txindex, this`chain, this`undoFiles
      modifies this`witnessFiles, this`snapshots, this`peaks, this`deepest, this`skipped
      modifies this`failed, this`candidates, this`bestHeader
      ensures old(skipped) <= skipped && old(deepest) <= deepest
      ensures LedgerValid() && TreeValid() && Keeps(home)
      ensures chain != [] && Ended(nodes, genesis, old(failed), failed, old(candidates), candidates, Tip(), cand, out)
      ensures out != Invalid ==> bestHeader == old(bestHeader)
      ensures out == Invalid ==> BestHeaderOk(nodes, failed, bestHeader)
      ensures out == Stalled ==> Stuck()
      ensures !prune ==> witnessFiles == old(witnessFiles)
    {
      hide *;
      var t, before := nodes, chain;
      TreeParts(rules, env.net, t, genesis, children, before, store, chainData, failed);
      var fork := FindFork(t, genesis, before, cand);
      ForkOnChain(t, genesis, before, fork, cand);
      var ok := Rewind(fork, t[fork].height);
      TreePrefix(rules, env.net, t, genesis, children, before, chain, store, chainData, failed);
      if ok {
        out := ConnectPath(cand, home);
      } else {
        out := Stalled;
        StuckOnTip(t, genesis, prune, chain, undoFiles, store, witnessFiles, bestHeader, chainData, failed, candidates,
                   cand);
      }
    }

    /** A round: nothing to gain, and the search has settled; or a switch that ends on the best candidate or fails a
        block; or a stall. */
    method Round(ghost failed0: set<Hash>, ghost cands0: set<Hash>, ghost chain0: seq<Hash>,
                 ghost guard: nat) returns (out: Option<Outcome>)
      requires Valid() && Keeps(chain0) && Progress(nodes, failed0, failed, cands0, candidates, chain0, chain, guard)
      requires forall i :: 0 <= i < |chain0| ==> chain0[i] in chainData
      modifies this`utxo, this`byAddr, this`supply, this`tokens, this`pools, this`txindex, this`chain, this`undoFiles
      modifies this`witnessFiles, this`snapshots, this`peaks, this`deepest, this`skipped
      modifies this`failed, this`candidates, this`bestHeader
      ensures old(skipped) <= skipped && old(deepest) <= deepest
      ensures Valid() && Keeps(chain0) && failed0 <= failed
      ensures out == None ==> Settles(nodes, chainData, failed0, failed, cands0, chain0, chain, high,
                AllRight(rules, env.net, store, chain0)) &&
                                  candidates == cands0 - failed
      ensures out == Some(Stalled) ==> Stuck()
      ensures out != None && out != Some(Stalled) ==>
                Progress(nodes, failed0, failed, cands0, candidates, chain0, chain, guard + 1)
      ensures !prune ==> witnessFiles == old(witnessFiles)
    {
      hide *;
      Ready(rules, env.net, nodes, genesis, children, chain, store, chainData, failed, candidates, high, bestHeader);
      ghost var failed1, candidates1, chain1 := failed, candidates, chain;
      ProgressGrows(nodes, failed0, failed, cands0, candidates, chain0, chain, guard);
      var cand := BestCandidate();
      if cand == Tip() {
        SettledMeans(rules, env.net, nodes, genesis, store, witnessFiles, chainData, failed0, failed, cands0,
                     candidates, chain0, chain, guard, high);
        return None;
      }
      var o := SwitchTo(cand, chain0);
      RoundDone(nodes, genesis, chainData, failed0, failed1, failed, cands0, candidates1, candidates, chain0, chain1,
                chain, cand, o, guard, high);
      out := Some(o);
    }

    /** Rounds until one finds nothing to gain, or stalls. Every retry has marked another block failed, and none of
        the chain it all started from. */
    method Rounds() returns (end: Activation)
      requires Valid()
      modifies this`utxo, this`byAddr, this`supply, this`tokens, this`pools, this`txindex, this`chain, this`undoFiles
      modifies this`witnessFiles, this`snapshots, this`peaks, this`deepest, this`skipped
      modifies this`failed, this`candidates, this`bestHeader
      ensures old(skipped) <= skipped && old(deepest) <= deepest
      ensures Valid() && old(failed) <= failed
      ensures end == Halted ==> Stuck()
      ensures end == GaveUp ==> |nodes| >= 999_999
      ensures end == Settled ==>
                Settles(nodes, chainData, old(failed), failed, old(candidates), old(chain), chain, high,
                        old(Committed())) &&
                candidates == old(candidates) - failed
      ensures !prune ==> witnessFiles == old(witnessFiles)
    {
      hide *;
      ghost var failed0, candidates0, chain0 := failed, candidates, chain;
      var guard := 0;
      AtHome(rules, env.net, prune, nodes, genesis, children, store, chain, State(), byAddr, supply, txindex, undoFiles,
             Held(), witnessFiles,
             chainData, failed, candidates, high, bestHeader);
      while guard < 1_000_000
        invariant Valid() && Keeps(chain0) && failed0 <= failed && old(skipped) <= skipped && old(deepest) <= deepest
        invariant Progress(nodes, failed0, failed, candidates0, candidates, chain0, chain, guard)
        invariant !prune ==> witnessFiles == old(witnessFiles)
      {
        var out := Round(failed0, candidates0, chain0, guard);
        if out.None? { return Settled; }
        if out == Some(Stalled) { return Halted; }
        guard := guard + 1;
      }
      Ready(rules, env.net, nodes, genesis, children, chain, store, chainData, failed, candidates, high, bestHeader);
      GaveUpMeans(nodes, failed0, failed, candidates0, candidates, chain0, chain);
      end := GaveUp;
    }

    /** Every usable block as heavy as the tip is a candidate, which only a search that stopped short can change. */
    ghost function OnTop(): (ok: bool)
      reads this
      ensures ok <==> chain != [] && NoneLost(nodes, chainData - failed, candidates, Tip())
    {
      chain != [] && NoneLost(nodes, chainData - failed, candidates, Tip())
    }

    /** Every commitment on the chain is to the replayed state. */
    ghost function Committed(): (ok: bool)
      reads this
      ensures ok <==> AllRight(rules, env.net, store, chain)
    {
      AllRight(rules, env.net, store, chain)
    }

    /** The tip has maximal work among the usable blocks. */
    ghost function BestTip(): (ok: bool)
      reads this
      ensures ok <==> chain != [] && Unbeaten(nodes, chainData - failed, Tip())
    {
      chain != [] && Unbeaten(nodes, chainData - failed, Tip())
    }

    /** `activate_best_chain`. The retry limit is out of reach below a million blocks. Unless a missing file stops it,
        it settles; and then the tip is best if the call before it did not stop short, or if the heaviest earlier
        tip is still usable. The chain it started from has not failed. */
    method ActivateBestChain() returns (end: Activation)
      requires Valid()
      modifies this`utxo, this`byAddr, this`supply, this`tokens, this`pools, this`txindex, this`chain, this`undoFiles
      modifies this`witnessFiles, this`snapshots, this`peaks, this`deepest, this`skipped
      modifies this`failed, this`candidates, this`bestHeader, this`high
      ensures old(skipped) <= skipped && old(deepest) <= deepest
      ensures Valid() && old(failed) <= failed
      ensures end == Halted ==> Stuck()
      ensures end == GaveUp ==> |nodes| >= 999_999
      ensures end == Settled ==> Settles(nodes, chainData, old(failed), failed, old(candidates), old(chain), chain,
                old(high), old(Committed()))
      ensures end == Settled && ((old(OnTop()) && old(Committed())) || old(high) !in failed) ==> BestTip() && OnTop()
      ensures !prune ==> witnessFiles == old(witnessFiles)
    {
      hide *;
      end := Search();
      Ready(rules, env.net, nodes, genesis, children, chain, store, chainData, failed, candidates, high, bestHeader);
      FinishCandidates();
    }

    /** The rounds, and what they come to. */
    method Search() returns (end: Activation)
      requires Valid()
      modifies this`utxo, this`byAddr, this`supply, this`tokens, this`pools, this`txindex, this`chain, this`undoFiles
      modifies this`witnessFiles, this`snapshots, this`peaks, this`deepest, this`skipped
      modifies this`failed, this`candidates, this`bestHeader
      ensures old(skipped) <= skipped && old(deepest) <= deepest
      ensures Valid() && old(failed) <= failed
      ensures end == Halted ==> Stuck()
      ensures end == GaveUp ==> |nodes| >= 999_999
      ensures end == Settled ==> Settles(nodes, chainData, old(failed), failed, old(candidates), old(chain), chain,
                high, old(Committed()))
      ensures end == Settled && ((old(OnTop()) && old(Committed())) || high !in failed) ==> BestTip() && OnTop()
      ensures !prune ==> witnessFiles == old(witnessFiles)
    {
      hide *;
      end := Rounds();
      if end == Settled {
        SettlesBest(nodes, chainData, old(failed), failed, old(candidates), candidates, old(chain), chain, high,
                    old(Committed()));
      }
    }

    /** Drop the candidates that can no longer win. */
    method FinishCandidates()
      requires CandidatesOk(nodes, chainData, failed, candidates, high) && chain != [] && Tip() in chainData
      modifies this`candidates, this`high
      ensures CandidatesOk(nodes, chainData, failed, candidates, high)
      ensures candidates == set x | x in old(candidates) && nodes[x].work >= nodes[Tip()].work
      ensures old(OnTop()) ==> OnTop()
    {
      var t, top := nodes, Tip();
      candidates := set x | x in candidates && t[x].work >= t[top].work;
      if t[top].work > t[high].work { high := top; }
    }

    // ---------------------------------------------------------------- headers

    /** `add_index`, for a header whose parent is known. */
    method AddIndex(x: Hash, p: Hash, work: nat)
      requires TreeInv(nodes, genesis, children) && ChainOk(nodes, genesis, chain) && p in nodes && x !in nodes
                 && bestHeader in nodes
      modifies this`nodes, this`children, this`nextSeq, this`bestHeader
      ensures TreeInv(nodes, genesis, children)
      ensures x in nodes && Appended(old(nodes), nodes, p, x, work, old(nextSeq)) && nextSeq == old(nextSeq) + 1
      ensures bestHeader == if nodes[x].work > nodes[old(bestHeader)].work then x else old(bestHeader)
    {
      hide TreeOk, SkipsOk, ChildrenOk, ChainOk, Up, SkipHeight, AddChild;
      var t := nodes;
      IndexReady(t, genesis, children, p);
      var height := t[p].height + 1;
      var sk := Ancestor(t, genesis, chain, p, SkipHeight(height));
      var n := Node(Some(p), height, t[p].work + work, sk, nextSeq);
      GrowTree(t, genesis, children, p, x, n);
      nodes := t[x := n];
      children := AddChild(children, p, x);
      nextSeq := nextSeq + 1;
      if n.work > t[bestHeader].work { bestHeader := x; }
    }

    /** `accept_header`; `policy` stands for version, state commitment, proof of work, difficulty and time. */
    method AcceptHeader(h: Header, policy: bool) returns (r: HeaderResult, x: Hash)
      requires Valid()
      modifies this`nodes, this`children, this`nextSeq, this`bestHeader
      ensures Valid() && x == env.headerHash(h)
      ensures r == KnownHeader <==> x in old(nodes) && x !in failed
      ensures r == OrphanHeader <==> x !in old(nodes) && h.prev !in old(nodes)
      ensures TreeOk(old(nodes), genesis)
      ensures r == NewHeader <==> x !in old(nodes) && Extends(old(nodes), genesis, chain, failed, h.prev) && policy
      ensures r == NewHeader ==>
                && x in nodes && Appended(old(nodes), nodes, h.prev, x, env.workOf(h.bits), old(nextSeq))
                && nextSeq == old(nextSeq) + 1
                && nodes[x].prev == Some(h.prev) && nodes[x].height == old(nodes)[h.prev].height + 1
                && nodes[x].work == old(nodes)[h.prev].work + env.workOf(h.bits)
      ensures bestHeader == BestAfter(old(nodes), old(bestHeader), nodes, x)
      ensures r == NewHeader || r == KnownHeader <==> Taken(old(nodes), genesis, chain, failed, x, h.prev, policy)
      ensures r != NewHeader ==> nodes == old(nodes) && bestHeader == old(bestHeader) && nextSeq == old(nextSeq)
      ensures r == NewHeader || r == KnownHeader ==> x in nodes && x !in failed
      ensures TreeGrows(old(nodes), nodes) && old(nodes.Keys) <= nodes.Keys
      ensures old(OnTop()) ==> OnTop()
      ensures old(BestTip()) ==> BestTip()
    {
      hide *;
      x := env.headerHash(h);
      r := CheckHeader(x, h.prev, policy);
      GrowsSelf(nodes);
      BestSame(nodes, bestHeader, x);
      if r == NewHeader {
        TakeHeader(x, h.prev, env.workOf(h.bits));
      }
    }

    /** A header that passed. */
    method TakeHeader(x: Hash, p: Hash, work: nat)
      requires Valid() && x !in nodes && p in nodes && p !in failed
      modifies this`nodes, this`children, this`nextSeq, this`bestHeader
      ensures Valid() && x in nodes && x !in failed
      ensures Appended(old(nodes), nodes, p, x, work, old(nextSeq)) && nextSeq == old(nextSeq) + 1
      ensures nodes[x].prev == Some(p) && nodes[x].height == old(nodes)[p].height + 1
                && nodes[x].work == old(nodes)[p].work + work
      ensures bestHeader == BestAfter(old(nodes), old(bestHeader), nodes, x)
      ensures TreeGrows(old(nodes), nodes) && old(nodes.Keys) <= nodes.Keys
      ensures old(OnTop()) ==> OnTop()
      ensures old(BestTip()) ==> BestTip()
    {
      hide *;
      ghost var t := nodes;
      Ready(rules, env.net, nodes, genesis, children, chain, store, chainData, failed, candidates, high, bestHeader);
      TreeParts(rules, env.net, nodes, genesis, children, chain, store, chainData, failed);
      AddIndex(x, p, work);
      GrowValid(rules, env.net, t, nodes, genesis, old(children), children, p, x, work, chain, store, chainData, failed,
                candidates, high, old(bestHeader), bestHeader, old(nextSeq));
      AppendedMeans(t, nodes, p, x, work, old(nextSeq));
    }

    /** Which of the four results. */
    method CheckHeader(x: Hash, p: Hash, policy: bool) returns (r: HeaderResult)
      requires TreeValid()
      ensures TreeOk(nodes, genesis)
      ensures r == KnownHeader <==> x in nodes && x !in failed
      ensures r == OrphanHeader <==> x !in nodes && p !in nodes
      ensures r == NewHeader <==> x !in nodes && Extends(nodes, genesis, chain, failed, p) && policy
      ensures r == NewHeader || r == KnownHeader <==> Taken(nodes, genesis, chain, failed, x, p, policy)
      ensures r == NewHeader ==> p in nodes && p !in failed
    {
      hide *;
      TreeParts(rules, env.net, nodes, genesis, children, chain, store, chainData, failed);
      TakenIff(nodes, genesis, chain, failed, x, p, policy);
      if x in nodes { return if x in failed then InvalidHeader else KnownHeader; }
      if p !in nodes { return OrphanHeader; }
      if p in failed || !policy { return InvalidHeader; }
      var fork := FindFork(nodes, genesis, chain, p);
      ForkHeight(nodes, genesis, chain, failed, p, fork);
      r := if |chain| - 1 - nodes[fork].height > MAX_REORG_DEPTH then InvalidHeader else NewHeader;
    }

    // ---------------------------------------------------------------- blocks

    /** The checks of `accept_block` on a body that is not stored yet. */
    method CheckBody(b: Block, height: nat, hasWitness: bool, bestHeight: nat) returns (ok: bool)
      ensures ok <==> BodyOk(rules, env, b, height, hasWitness, bestHeight)
    {
      hide CheckBasic;
      if b.txs == [] || !IsCoinbase(b.txs[0].core) { return false; }
      for i := 1 to |b.txs|
        invariant forall k :: 1 <= k < i ==> !IsCoinbase(b.txs[k].core)
      {
        if IsCoinbase(b.txs[i].core) { return false; }
      }
      if !env.merkleOk(b) || !env.sizeOk(b, hasWitness) { return false; }
      if hasWitness && !env.net.witnessOk(env.headerHash(b.header), Witnesses(b)) { return false; }
      if !hasWitness && height + PRUNE_DEPTH > bestHeight { return false; }
      if b.txs[0].core.lockHeight != height { return false; }
      var ids := {};
      for i := 0 to |b.txs|
        invariant forall k :: 0 <= k < i ==> CheckBasic(b.txs[k], hasWitness) == None
        invariant ids == set k | 0 <= k < i :: rules.txid(b.txs[k].core)
        invariant forall j, k :: 0 <= j < k < i ==> rules.txid(b.txs[j].core) != rules.txid(b.txs[k].core)
      {
        if CheckBasic(b.txs[i], hasWitness) != None { return false; }
        var id := rules.txid(b.txs[i].core);
        if id in ids { return false; }
        ids := ids + {id};
      }
      ok := true;
    }

    /** `store_block`. */
    method StoreBlock(x: Hash, b: Block, hasWitness: bool)
      requires LedgerValid() && DataOk(nodes, genesis, store, chainData) && GenesisOk(store, genesis)
                 && bestHeader in nodes
      requires x in nodes && x !in store && ShapeOk(b, nodes[x].height)
                 && (hasWitness ==> env.net.witnessOk(x, Witnesses(b)))
      modifies this`store, this`witnessFiles
      ensures LedgerValid() && store == old(store)[x := b] && Unfinished(nodes, genesis, store, chainData, x)
      ensures witnessFiles == if hasWitness && (!prune || nodes[x].height + PRUNE_DEPTH > nodes[bestHeader].height)
                              then old(witnessFiles)[x := Witnesses(b)] else old(witnessFiles)
      ensures old(Committed()) ==> Committed()
    {
      hide *;
      RightStable(rules, env.net, store, store[x := b], chain, x);
      StoreReady(rules, env.net, prune, nodes, genesis, store, chain, State(), byAddr, supply, txindex, undoFiles,
                 Held(), witnessFiles,
                 chainData, x, b, Witnesses(b));
      store := store[x := b];
      if hasWitness && (!prune || nodes[x].height + PRUNE_DEPTH > nodes[bestHeader].height) {
        witnessFiles := witnessFiles[x := Witnesses(b)];
      }
    }

    /** `update_chain_data` leaves the ledger side alone. */
    method Completed(b: Hash)
      requires LedgerValid() && ChildrenOk(nodes, children) && b in store && b != genesis
      requires chainData <= store.Keys <= nodes.Keys && b !in chainData
      requires CompleteSet(nodes, genesis, store.Keys - {b}, chainData)
      requires CandidatesOk(nodes, chainData, failed, candidates, high)
      modifies this`chainData, this`candidates
      ensures LedgerValid() && (old(Committed()) ==> Committed())
      ensures old(chainData) <= chainData <= store.Keys && CompleteSet(nodes, genesis, store.Keys, chainData)
      ensures candidates == WithNew(old(candidates), old(chainData), chainData, failed)
      ensures CandidatesOk(nodes, chainData, failed, candidates, high)
    {
      hide *;
      UpdateChainData(b);
    }

    /** `store_block` and then `update_chain_data`. */
    method AddData(x: Hash, b: Block, hasWitness: bool)
      requires Valid() && x in nodes && x !in store && ShapeOk(b, nodes[x].height)
      requires hasWitness ==> env.net.witnessOk(x, Witnesses(b))
      modifies this`store, this`witnessFiles, this`chainData, this`candidates
      ensures Valid() && store == old(store)[x := b] && old(chainData) <= chainData
      ensures candidates == WithNew(old(candidates), old(chainData), chainData, failed)
      ensures witnessFiles == old(witnessFiles) || witnessFiles == old(witnessFiles)[x := Witnesses(b)]
      ensures hasWitness && !prune ==> witnessFiles == old(witnessFiles)[x := Witnesses(b)]
      ensures old(OnTop()) ==> OnTop()
      ensures old(Committed()) ==> Committed()
    {
      hide *;
      ghost var data, store0 := chainData, store;
      ghost var onTop, cands0 := OnTop(), candidates;
      TreeParts(rules, env.net, nodes, genesis, children, chain, store, chainData, failed);
      Ready(rules, env.net, nodes, genesis, children, chain, store, chainData, failed, candidates, high, bestHeader);
      StoreBlock(x, b, hasWitness);
      UnfinishedReady(nodes, genesis, children, store, chainData, x);
      Completed(x);
      StoreDone(rules, env.net, nodes, genesis, children, store0, store, chain, data, chainData, failed, x, b);
      if onTop { NoneLostMore(nodes, data, chainData, failed, cands0, Tip()); }
    }

    /** `accept_block`. A rejected block leaves the chain and the ledger alone. */
    method AcceptBlock(b: Block, hasWitness: bool,
                       policy: bool) returns (ok: bool, isNew: bool, end: Option<Activation>)
      requires Valid()
      modifies this
      ensures old(skipped) <= skipped && old(deepest) <= deepest
      ensures Valid()
      ensures old(nodes.Keys) <= nodes.Keys && TreeGrows(old(nodes), nodes) && old(failed) <= failed
                && old(chainData) <= chainData
      ensures Decided(rules, env, old(nodes), nodes, genesis, old(chain), old(failed), old(store), old(witnessFiles),
                old(bestHeader), b, env.headerHash(b.header), hasWitness, policy, ok, isNew, end.Some?)
      ensures store == if isNew then old(store)[env.headerHash(b.header) := b] else old(store)
      ensures end == None ==>
                chain == old(chain) && State() == old(State()) && failed == old(failed)
                && chainData == old(chainData) && candidates == old(candidates) && high == old(high)
      ensures end == Some(Halted) ==> Stuck()
      ensures end == Some(GaveUp) ==> |nodes| >= 999_999
      ensures end == Some(Settled) ==>
                Settles(nodes, chainData, old(failed), failed,
                        WithNew(old(candidates), old(chainData), chainData, old(failed)), old(chain), chain, old(high),
                        old(Committed()))
      ensures end == Some(Settled) && ((old(OnTop()) && old(Committed())) || old(high) !in failed) ==>
                BestTip() && OnTop()
      ensures end == None && old(OnTop()) ==> OnTop()
      ensures end == None && old(BestTip()) ==> BestTip()
      ensures old(Witnessed()) && hasWitness ==> Witnessed() && end != Some(Halted)
      ensures nodes == old(nodes) || (env.headerHash(b.header) in nodes
                && Appended(old(nodes), nodes, b.header.prev, env.headerHash(b.header), env.workOf(b.header.bits),
                old(nextSeq)))
      ensures env.headerHash(b.header) in old(nodes) ==> nodes == old(nodes)
      ensures Taken(old(nodes), genesis, old(chain), old(failed), env.headerHash(b.header), b.header.prev, policy) ==>
                env.headerHash(b.header) in nodes
      ensures nextSeq == if nodes == old(nodes) then old(nextSeq) else old(nextSeq) + 1
    {
      hide *;
      StoreKnown(env.headerHash(b.header));
      var hr, x := AcceptHeader(b.header, policy);
      ghost var t := nodes;
      ok, isNew, end := false, false, None;
      if hr == NewHeader || hr == KnownHeader {
        BestKnown();
        isNew, end := TakeBlock(x, b, hasWitness);
        ok := x in store;
      } else {
        NothingNew(old(candidates), chainData, failed);
      }
      DecidedNow(rules, env, old(nodes), t, genesis, old(chain), old(failed), old(store), old(witnessFiles),
                 old(bestHeader), b, x, hasWitness, policy, hr, ok, isNew, end.Some?);
    }

    /** A block whose header is in the tree: a new body, or late witnesses for a stored one. */
    method TakeBlock(x: Hash, b: Block, hasWitness: bool) returns (isNew: bool, end: Option<Activation>)
      requires Valid() && x in nodes && bestHeader in nodes && x == env.headerHash(b.header)
      modifies this`store, this`chainData
      modifies this`utxo, this`byAddr, this`supply, this`tokens, this`pools, this`txindex, this`chain, this`undoFiles
      modifies this`witnessFiles, this`snapshots, this`peaks, this`deepest, this`skipped
      modifies this`failed, this`candidates, this`bestHeader, this`high
      ensures old(skipped) <= skipped && old(deepest) <= deepest
      ensures Valid() && old(failed) <= failed && old(chainData) <= chainData
      ensures store == if isNew then old(store)[x := b] else old(store)
      ensures isNew <==> x !in old(store) && BodyOk(rules, env, b, nodes[x].height, hasWitness,
                old(nodes[bestHeader].height))
      ensures end.Some? <==>
                isNew || (x in old(store) && hasWitness && x !in old(witnessFiles)
                && !InChain(nodes, old(chain), x) && env.net.witnessOk(x, Witnesses(b)))
      ensures end == None ==>
                chain == old(chain) && State() == old(State()) && failed == old(failed)
                && chainData == old(chainData) && candidates == old(candidates) && high == old(high)
      ensures end == Some(Halted) ==> Stuck()
      ensures end == Some(GaveUp) ==> |nodes| >= 999_999
      ensures end == Some(Settled) ==>
                Settles(nodes, chainData, old(failed), failed,
                        WithNew(old(candidates), old(chainData), chainData, old(failed)), old(chain), chain, old(high),
                        old(Committed()))
      ensures end == Some(Settled) && ((old(OnTop()) && old(Committed())) || old(high) !in failed) ==>
                BestTip() && OnTop()
      ensures old(Witnessed()) && hasWitness ==> Witnessed() && end != Some(Halted)
    {
      hide *;
      isNew, end := false, None;
      WitnessedMeans(rules, env.net, prune, nodes, genesis, children, chain, store, witnessFiles, chainData, failed, x);
      if x !in store {
        isNew, end := AcceptBody(x, b, hasWitness);
      } else if hasWitness && x !in witnessFiles && !InChain(nodes, chain, x) && env.net.witnessOk(x, Witnesses(b)) {
        NothingNew(candidates, chainData, failed);
        end := FillWitness(x, Witnesses(b));
      }
    }

    /** A body that is not stored yet. */
    method AcceptBody(x: Hash, b: Block, hasWitness: bool) returns (isNew: bool, end: Option<Activation>)
      requires Valid() && x in nodes && x !in store && bestHeader in nodes && x == env.headerHash(b.header)
      modifies this`store, this`chainData
      modifies this`utxo, this`byAddr, this`supply, this`tokens, this`pools, this`txindex, this`chain, this`undoFiles
      modifies this`witnessFiles, this`snapshots, this`peaks, this`deepest, this`skipped
      modifies this`failed, this`candidates, this`bestHeader, this`high
      ensures old(skipped) <= skipped && old(deepest) <= deepest
      ensures Valid() && old(failed) <= failed && old(chainData) <= chainData
      ensures store == if isNew then old(store)[x := b] else old(store)
      ensures end.Some? == isNew
      ensures isNew <==> BodyOk(rules, env, b, nodes[x].height, hasWitness, old(nodes[bestHeader].height))
      ensures end == None ==>
                chain == old(chain) && State() == old(State()) && failed == old(failed)
                && chainData == old(chainData) && candidates == old(candidates) && high == old(high)
                && witnessFiles == old(witnessFiles)
      ensures end == Some(Halted) ==> Stuck()
      ensures end == Some(GaveUp) ==> |nodes| >= 999_999
      ensures end == Some(Settled) ==>
                Settles(nodes, chainData, old(failed), failed,
                        WithNew(old(candidates), old(chainData), chainData, old(failed)), old(chain), chain, old(high),
                        old(Committed()))
      ensures end == Some(Settled) && ((old(OnTop()) && old(Committed())) || old(high) !in failed) ==>
                BestTip() && OnTop()
      ensures old(Witnessed()) && hasWitness ==> Witnessed() && end != Some(Halted)
    {
      hide *;
      var good := CheckBody(b, nodes[x].height, hasWitness, nodes[bestHeader].height);
      if !good { return false, None; }
      BodyShape(rules, env, b, nodes[x].height, hasWitness, nodes[bestHeader].height);
      end := TakeBody(x, b, hasWitness);
      isNew := true;
    }

    /** A body that passed the checks. */
    method TakeBody(x: Hash, b: Block, hasWitness: bool) returns (end: Option<Activation>)
      requires Valid() && x in nodes && x !in store && ShapeOk(b, nodes[x].height)
      requires hasWitness ==> env.net.witnessOk(x, Witnesses(b))
      modifies this`store, this`chainData
      modifies this`utxo, this`byAddr, this`supply, this`tokens, this`pools, this`txindex, this`chain, this`undoFiles
      modifies this`witnessFiles
      modifies this`snapshots, this`peaks, this`deepest, this`skipped
      modifies this`failed, this`candidates, this`bestHeader, this`high
      ensures old(skipped) <= skipped && old(deepest) <= deepest
      ensures Valid() && old(failed) <= failed && old(chainData) <= chainData && store == old(store)[x := b]
                && end.Some?
      ensures end == Some(Halted) ==> Stuck()
      ensures end == Some(GaveUp) ==> |nodes| >= 999_999
      ensures end == Some(Settled) ==>
                Settles(nodes, chainData, old(failed), failed,
                        WithNew(old(candidates), old(chainData), chainData, old(failed)),
                        old(chain), chain, old(high), old(Committed()))
      ensures end == Some(Settled) && ((old(OnTop()) && old(Committed())) || old(high) !in failed) ==>
                BestTip() && OnTop()
      ensures old(Witnessed()) && hasWitness ==> Witnessed() && end != Some(Halted)
    {
      hide *;
      AddData(x, b, hasWitness);
      WitnessedMore(prune, genesis, old(store), store, old(witnessFiles), witnessFiles, x, b);
      end := Activate(old(Committed()));
    }

    lemma StoreKnown(x: Hash)
      requires Valid()
      ensures x in store ==> x in nodes
    {}

    lemma BestKnown()
      requires Valid()
      ensures bestHeader in nodes && chain != []
    {}

    /** A witness that was missing may let a stalled branch go on. */
    method FillWitness(x: Hash, ws: seq<seq<Witness>>) returns (end: Option<Activation>)
      requires Valid() && !InChain(nodes, chain, x) && x in store && env.net.witnessOk(x, ws)
      modifies this`utxo, this`byAddr, this`supply, this`tokens, this`pools, this`txindex, this`chain, this`undoFiles
      modifies this`witnessFiles, this`snapshots, this`peaks, this`deepest, this`skipped
      modifies this`failed, this`candidates, this`bestHeader, this`high
      ensures old(skipped) <= skipped && old(deepest) <= deepest
      ensures Valid() && old(failed) <= failed && end.Some?
      ensures end == Some(Halted) ==> Stuck()
      ensures end == Some(GaveUp) ==> |nodes| >= 999_999
      ensures end == Some(Settled) ==> Settles(nodes, chainData, old(failed), failed, old(candidates), old(chain),
                chain, old(high), old(Committed()))
      ensures end == Some(Settled) && ((old(OnTop()) && old(Committed())) || old(high) !in failed) ==>
                BestTip() && OnTop()
    {
      hide *;
      FillReady(rules, env.net, prune, nodes, genesis, children, store, chain, State(), byAddr, supply, txindex,
                undoFiles, Held(), witnessFiles,
                chainData, failed, x, ws);
      witnessFiles := witnessFiles[x := ws];
      end := Activate(Committed());
    }

    method Activate(ghost right: bool) returns (end: Option<Activation>)
      requires Valid() && (right ==> Committed())
      modifies this`utxo, this`byAddr, this`supply, this`tokens, this`pools, this`txindex, this`chain, this`undoFiles
      modifies this`witnessFiles, this`snapshots, this`peaks, this`deepest, this`skipped
      modifies this`failed, this`candidates, this`bestHeader, this`high
      ensures old(skipped) <= skipped && old(deepest) <= deepest
      ensures Valid() && old(failed) <= failed && end.Some?
      ensures end == Some(Halted) ==> Stuck()
      ensures end == Some(GaveUp) ==> |nodes| >= 999_999
      ensures end == Some(Settled) ==> Settles(nodes, chainData, old(failed), failed, old(candidates), old(chain),
                chain, old(high), right)
      ensures end == Some(Settled) && ((old(OnTop()) && right) || old(high) !in failed) ==> BestTip() && OnTop()
      ensures old(Witnessed()) ==> Witnessed() && end != Some(Halted)
    {
      hide *;
      WitnessedMeans(rules, env.net, prune, nodes, genesis, children, chain, store, witnessFiles, chainData, failed,
                     genesis);
      ghost var cands, chain0, high0, all := candidates, chain, high, Committed();
      var e := ActivateBestChain();
      if e == Settled { SettlesLess(nodes, chainData, old(failed), failed, cands, chain0, chain, high0, all, right); }
      NeverStuck(rules, env.net, prune, nodes, genesis, children, chain, undoFiles, store, witnessFiles, bestHeader,
                 chainData, failed);
      end := Some(e);
    }

    /** Nothing is pruned, and every block above genesis came with its witnesses. */
    ghost function Witnessed(): (ok: bool)
      reads this
      ensures ok <==> AllWitnessed(prune, genesis, store, witnessFiles)
    {
      AllWitnessed(prune, genesis, store, witnessFiles)
    }

    // ---------------------------------------------------------------- whole runs

    /** One message. `smooth` unless a search for the best chain stopped short. */
    method Handle(e: Event) returns (smooth: bool)
      requires Valid()
      modifies this
      ensures old(skipped) <= skipped && old(deepest) <= deepest
      ensures Valid() && TreeGrows(old(nodes), nodes)
      ensures smooth && skipped == {} && old(OnTop() && BestTip()) ==> OnTop() && BestTip()
      ensures old(Witnessed()) && (e.GotBlock? ==> e.hasWitness) ==> Witnessed() && (smooth || |nodes| >= 999_999)
    {
      hide *;
      NoneSkipped();
      match e
      case GotHeader(h, policy) =>
        var r, x := AcceptHeader(h, policy);
        smooth := true;
      case GotBlock(b, hasWitness, policy) =>
        var ok, isNew, end := AcceptBlock(b, hasWitness, policy);
        smooth := match end case None => true case Some(a) => a == Settled;
    }

    /** Any run of headers and blocks, reorganizations and failed reorganizations included. If no search for the best
        chain stopped short, and no block went unchecked, the tip is best; and none stops short if nothing is pruned and
        blocks come with witnesses. */
    method Run(events: seq<Event>) returns (smooth: bool)
      requires Valid()
      modifies this
      ensures old(skipped) <= skipped && old(deepest) <= deepest
      ensures Valid() && TreeGrows(old(nodes), nodes)
      ensures smooth && skipped == {} && old(OnTop() && BestTip()) ==> OnTop() && BestTip()
      ensures old(Witnessed()) && (forall i :: 0 <= i < |events| ==> events[i].GotBlock? ==> events[i].hasWitness) ==>
                Witnessed() && (smooth || |nodes| >= 999_999)
    {
      hide *;
      NoneSkipped();
      smooth := true;
      GrowsSelf(nodes);
      for i := 0 to |events|
        invariant Valid() && TreeGrows(old(nodes), nodes) && old(skipped) <= skipped && old(deepest) <= deepest
        invariant smooth && skipped == {} && old(OnTop() && BestTip()) ==> OnTop() && BestTip()
        invariant old(Witnessed()) && (forall k :: 0 <= k < i ==> events[k].GotBlock? ==> events[k].hasWitness) ==>
                    Witnessed() && (smooth || |nodes| >= 999_999)
      {
        ghost var t := nodes;
        var fine := Handle(events[i]);
        GrowsOn(old(nodes), t, nodes);
        smooth := smooth && fine;
      }
    }

    /** Block `i` commits, and the node vouches for it: it never lets one go unchecked, or has not let this one, or
        still holds the snapshot. */
    ghost function Vouched(i: nat): (ok: bool)
      reads this
      ensures ok ==> i < |chain| && env.net.delay <= i && env.net.Ok() && env.net.CommitHeight(i)
      ensures ok ==> AlwaysChecks(env.net, prune) || chain[i] !in skipped || chain[i - env.net.delay] in snapshots
    {
      && i < |chain| && env.net.delay <= i && env.net.Ok() && env.net.CommitHeight(i)
      && (AlwaysChecks(env.net, prune) || chain[i] !in skipped || chain[i - env.net.delay] in snapshots)
    }

    /** In every reachable state, a header of the active chain at a commitment height carries the hash of the state that
        replay gives at the snapshot's block, if that snapshot is still held, or if the block never went unchecked. */
    lemma HeadersCommit(i: nat)
      requires Valid() && Vouched(i)
      ensures Stored(store, chain)
      ensures HashAt(rules, env.net, store, chain, i - env.net.delay, env.net.commitOf(chain[i]))
    {
      hide *;
      SnapsParts(rules, env.net, prune, store, chain, State(), byAddr, supply, txindex, undoFiles, Held(),
                 witnessFiles);
      NoneSkipped();
      CommitmentsRight(rules, env.net, store, chain, Held(), i);
    }

    /** No block goes unchecked, and so all commitments are right, unless the chain was ever more than three intervals
        less the delay below its greatest height; a pruned node never is further below it than it prunes. */
    lemma NoneSkipped()
      requires Valid()
      ensures env.net.Ok() && (skipped == {} ==> Committed())
      ensures deepest + env.net.delay <= 3 * env.net.interval ==> skipped == {}
      ensures prune ==> deepest <= PRUNE_DEPTH
      ensures AlwaysChecks(env.net, prune) ==> skipped == {}
    {
      hide *;
      SnapsParts(rules, env.net, prune, store, chain, State(), byAddr, supply, txindex, undoFiles, Held(),
                 witnessFiles);
      AllChecked(rules, env.net, store, chain, Held());
    }

    /** Exactly which blocks of the chain can be taken back: all but genesis without pruning, and with it those that the
        chain has not been 5,040 above since they were connected. */
    lemma UndoIff(i: nat)
      requires Valid() && 0 < i < |chain|
      ensures |peaks| == |chain| && (chain[i] in undoFiles <==> !prune || peaks[i] < i + 5040)
    {
      hide *;
      UndoParts(rules, env.net, prune, store, chain, State(), byAddr, supply, txindex, undoFiles, Held(),
                witnessFiles);
    }

    /** So a chain at its greatest height can be taken back to every block within 5,040 of its tip, and so to wherever
        the branch of a header that is accepted leaves it. */
    lemma ForkInReach(f: nat)
      requires Valid() && peaks != [] && peaks[0] <= |chain| - 1 && |chain| - 1 <= f + 5040
      ensures forall i :: f < i < |chain| ==> chain[i] in undoFiles
    {
      hide *;
      UndoParts(rules, env.net, prune, store, chain, State(), byAddr, supply, txindex, undoFiles, Held(),
                witnessFiles);
      forall i | f < i < |chain| ensures chain[i] in undoFiles { PeaksFall(chain, Held(), i); }
    }

    /** Exactly when a commitment on top of the chain cannot be checked: since its snapshot block was last connected,
        the chain has been three intervals above it. */
    lemma UncheckedIff()
      requires Valid() && env.net.Ok() && env.net.CommitHeight(|chain|)
      ensures |peaks| == |chain| && |chain| >= env.net.delay
      ensures chain[|chain| - env.net.delay] !in snapshots <==>
              peaks[|chain| - env.net.delay] >= |chain| - env.net.delay + 3 * env.net.interval
    {
      hide *;
      SnapsParts(rules, env.net, prune, store, chain, State(), byAddr, supply, txindex, undoFiles, Held(),
                 witnessFiles);
      CommitsToSnapshot(env.net, |chain|);
      SkipsIff(rules, env.net, store, chain, Held());
      SkipsIs(env.net, chain, snapshots);
    }

    /** What every reachable state satisfies: the ledger is the replay of the active chain and is sound, and the running
        counter is the supply, at most what has been issued; the coins are the outputs of the chain's transactions that
        none of them spent, the tokens are those they created, and the index finds each of them. */
    lemma ValidMeans()
      requires Valid()
      ensures Stored(store, chain) && Replayed(rules, BlocksOf(store, chain)) == Some(State())
      ensures Sound(rules, State(), AllCores(BlocksOf(store, chain)))
      ensures txindex == TxIndex(rules, store, chain) && IndexOk(utxo, byAddr)
      ensures chain != [] && supply == Wrap64(SupplyOf(utxo, pools))
      ensures rules.AssetsIdeal() && rules.maturity > 0 && CoinbasesFit(BlocksOf(store, chain))
                && Issued(|chain| - 1) < TWO64 ==>
                supply == SupplyOf(utxo, pools) && supply <= Issued(|chain| - 1)
      ensures rules.TxidsIdeal() && IndexExact(rules, store, chain, txindex)
      ensures CoinsExact(rules, State(), LogOf(BlocksOf(store, chain)))
      ensures TokensExact(rules, State(), LogOf(BlocksOf(store, chain)))
                && Orderly(rules, LogOf(BlocksOf(store, chain)))
    {
      hide CoinsExact, TokensExact, Orderly, LogOf, IndexExact;
      LedgerMeans(rules, store, chain, State(), byAddr, supply, txindex, undoFiles, genesis);
      ReplayRecorded(rules, BlocksOf(store, chain));
      TxIndexExact(rules, store, chain);
    }
  }

  /** A node started on the genesis block, after any run. If no search for the best chain stopped short, and no block
      went unchecked, the tip has maximal work among the non-failed blocks with complete data. No search stops short,
      below 999,999 blocks, if nothing is pruned and every block comes with its witnesses. No block goes unchecked, and
      every commitment is right, unless the chain was ever more than three intervals less the delay below its greatest
      height, which on a pruned node the parameters alone can rule out. */
  method RunFromGenesis(rules: Rules, env: Env, g: Block, prune: bool,
                        events: seq<Event>) returns (cs: Chainstate, smooth: bool)
    requires rules.TxidsIdeal() && env.net.Ok() && ShapeOk(g, 0) && |g.txs| == 1 && g.txs[0].core.outs == []
    ensures cs.Valid() && fresh(cs) && cs.rules == rules && cs.env == env
    ensures smooth && cs.skipped == {} ==> cs.BestTip()
    ensures cs.deepest + env.net.delay <= 3 * env.net.interval ==> cs.skipped == {} && cs.Committed()
    ensures AlwaysChecks(env.net, prune) ==> cs.skipped == {} && cs.Committed()
    ensures !prune && (forall i :: 0 <= i < |events| ==> events[i].GotBlock? ==> events[i].hasWitness)
              && |cs.nodes| < 999_999 ==>
              smooth
  {
    hide *;
    cs := new Chainstate(rules, env, g, prune);
    smooth := cs.Run(events);
    cs.NoneSkipped();
  }
}
