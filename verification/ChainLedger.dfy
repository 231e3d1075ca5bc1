/** What `Chainstate` keeps beside its maps: the address index, the running supply, the
    transaction index and the undo files, all as functions of the replayed chain. */
module ChainLedger {
  import opened Types
  import opened Sums
  import opened Ledger
  import opened LedgerLaws
  import opened LedgerViews
  import opened Replay
  import opened Supply
  import opened Undos

  /** `by_addr_` lists exactly the coins of each address, and no empty entries. */
  ghost predicate IndexOk(utxo: map<OutPoint, Coin>, byAddr: map<Hash, set<OutPoint>>) {
    && (forall a :: a in byAddr ==> byAddr[a] != {})
    && (forall a, o :: a in byAddr && o in byAddr[a] ==> o in utxo && utxo[o].out.addr == a)
    && (forall o :: o in utxo ==> Listed(byAddr, utxo[o].out.addr, o))
  }

  ghost predicate Listed(byAddr: map<Hash, set<OutPoint>>, a: Hash, o: OutPoint) { a in byAddr && o in byAddr[a] }

  /** So the index is a function of the coins. */
  lemma IndexUnique(utxo: map<OutPoint, Coin>, a: map<Hash, set<OutPoint>>, b: map<Hash, set<OutPoint>>)
    requires IndexOk(utxo, a) && IndexOk(utxo, b)
    ensures a == b
  {
    IndexContained(utxo, a, b);
    IndexContained(utxo, b, a);
    assert a.Keys == b.Keys;
    forall x | x in a ensures a[x] == b[x] {}
  }

  lemma IndexContained(utxo: map<OutPoint, Coin>, a: map<Hash, set<OutPoint>>, b: map<Hash, set<OutPoint>>)
    requires IndexOk(utxo, a) && IndexOk(utxo, b)
    ensures forall x :: x in a ==> x in b && a[x] <= b[x]
  {
    forall x | x in a ensures x in b && a[x] <= b[x] {
      var o :| o in a[x];
      assert Listed(b, utxo[o].out.addr, o);
      forall p | p in a[x] ensures p in b[x] { assert Listed(b, utxo[p].out.addr, p); }
    }
  }

  ghost predicate BookOk(utxo: map<OutPoint, Coin>, byAddr: map<Hash, set<OutPoint>>, pools: map<Hash, Pool>,
                         supply: Amount) {
    IndexOk(utxo, byAddr) && supply == Wrap64(SupplyOf(utxo, pools))
  }

  function IndexAdd(byAddr: map<Hash, set<OutPoint>>, a: Hash, o: OutPoint): map<Hash, set<OutPoint>> {
    byAddr[a := (if a in byAddr then byAddr[a] else {}) + {o}]
  }

  function IndexDrop(byAddr: map<Hash, set<OutPoint>>, a: Hash, o: OutPoint): map<Hash, set<OutPoint>> {
    if a !in byAddr then byAddr
    else if byAddr[a] - {o} == {} then byAddr - {a}
    else byAddr[a := byAddr[a] - {o}]
  }

  lemma IndexAddOk(utxo: map<OutPoint, Coin>, byAddr: map<Hash, set<OutPoint>>, o: OutPoint, c: Coin)
    requires IndexOk(utxo, byAddr) && o !in utxo
    ensures IndexOk(utxo[o := c], IndexAdd(byAddr, c.out.addr, o))
  {
    var byAddr', utxo' := IndexAdd(byAddr, c.out.addr, o), utxo[o := c];
    forall p | p in utxo'
      ensures Listed(byAddr', utxo'[p].out.addr, p)
    {
      if p != o { assert Listed(byAddr, utxo[p].out.addr, p); }
    }
  }

  lemma IndexDropOk(utxo: map<OutPoint, Coin>, byAddr: map<Hash, set<OutPoint>>, o: OutPoint)
    requires IndexOk(utxo, byAddr) && o in utxo
    ensures IndexOk(utxo - {o}, IndexDrop(byAddr, utxo[o].out.addr, o))
  {
    var a := utxo[o].out.addr;
    var byAddr' := IndexDrop(byAddr, a, o);
    assert Listed(byAddr, a, o);
    forall p | p in utxo - {o}
      ensures Listed(byAddr', utxo[p].out.addr, p)
    {
      assert Listed(byAddr, utxo[p].out.addr, p);
      if utxo[p].out.addr == a { assert p in byAddr[a] - {o}; }
    }
  }

  lemma SupplyAdd(utxo: map<OutPoint, Coin>, pools: map<Hash, Pool>, o: OutPoint, c: Coin)
    requires o !in utxo
    ensures SupplyOf(utxo[o := c], pools) == SupplyOf(utxo, pools) + (if c.out.asset == QNT then c.out.value else 0)
  {
    MapSumPut(utxo, CoinValue(QNT), o, c);
  }

  lemma SupplyDrop(utxo: map<OutPoint, Coin>, pools: map<Hash, Pool>, o: OutPoint)
    requires o in utxo
    ensures SupplyOf(utxo - {o}, pools) == SupplyOf(utxo, pools) - (if utxo[o].out.asset == QNT then utxo[o].out.value
              else 0)
  {
    MapSumTake(utxo, CoinValue(QNT), o);
  }

  lemma SupplyPoolDrop(utxo: map<OutPoint, Coin>, pools: map<Hash, Pool>, t: Hash)
    requires t in pools
    ensures SupplyOf(utxo, pools - {t}) == SupplyOf(utxo, pools) - pools[t].qnt
  {
    MapSumTake(pools, QntReserve(), t);
  }

  lemma SupplyPoolAdd(utxo: map<OutPoint, Coin>, pools: map<Hash, Pool>, t: Hash, p: Pool)
    requires t !in pools
    ensures SupplyOf(utxo, pools[t := p]) == SupplyOf(utxo, pools) + p.qnt
  {
    MapSumPut(pools, QntReserve(), t, p);
  }

  lemma WrapAdd(x: int, v: Amount, y: int)
    requires y == x + v
    ensures Add64(Wrap64(x), v) == Wrap64(y)
  {
    var q := x / TWO64;
    assert x == q * TWO64 + Wrap64(x);
    assert (Wrap64(x) + v) + q * TWO64 == y;
  }

  lemma WrapSub(x: int, v: Amount, y: int)
    requires y == x - v
    ensures Sub64(Wrap64(x), v) == Wrap64(y)
  {
    var q := x / TWO64;
    assert x == q * TWO64 + Wrap64(x);
    assert (Wrap64(x) - v) + q * TWO64 == y;
  }

  // ---------------------------------------------------------------- runs

  ghost predicate Connects(r: Rules, st: State, b: Block, height: nat, st': State) {
    ShapeOk(b, height) && ConnectState(r, st, b, height, false) == Ok(st')
  }

  /** A run of a chain: the state before its first block, and after each. */
  ghost predicate IsRun(r: Rules, bs: seq<Block>, run: seq<State>) {
    && |run| == |bs| + 1 && run[0] == EMPTY_STATE
    && forall i {:trigger Connects(r, run[i], bs[i], i, run[i + 1])} :: 0 <= i < |bs| ==>
        Connects(r, run[i], bs[i], i, run[i + 1])
  }

  /** Some run of the chain, from genesis, ends in `st`. */
  ghost predicate Replays(r: Rules, bs: seq<Block>, st: State) {
    exists run :: IsRun(r, bs, run) && run[|bs|] == st
  }

  /** There is exactly one run, and `Replayed` computes where it ends. */
  lemma {:induction false} RunEnds(r: Rules, bs: seq<Block>, run: seq<State>)
    requires IsRun(r, bs, run)
    ensures Replayed(r, bs) == Some(run[|bs|])
  {
    hide ConnectState, ShapeOk;
    if bs != [] {
      var n := |bs| - 1;
      forall i | 0 <= i < n ensures Connects(r, run[..n + 1][i], bs[..n][i], i, run[..n + 1][i + 1]) {
        assert Connects(r, run[i], bs[i], i, run[i + 1]);
      }
      RunEnds(r, bs[..n], run[..n + 1]);
      assert Connects(r, run[n], bs[n], n, run[n + 1]);
    }
  }

  lemma LastConnects(r: Rules, bs: seq<Block>)
    requires Replayed(r, bs).Some? && bs != []
    ensures var n := |bs| - 1;
              Replayed(r, bs[..n]).Some? && Connects(r, Replayed(r, bs[..n]).value, bs[n], n, Replayed(r, bs).value)
  {
    hide ConnectState, ShapeOk;
  }

  lemma RunLonger(r: Rules, bs: seq<Block>, front: seq<State>, st: State)
    requires bs != [] && IsRun(r, bs[..|bs| - 1], front) && Connects(r, front[|bs| - 1], bs[|bs| - 1], |bs| - 1, st)
    ensures IsRun(r, bs, front + [st])
  {
    hide Connects;
    var n, run := |bs| - 1, front + [st];
    forall i | 0 <= i < |bs| ensures Connects(r, run[i], bs[i], i, run[i + 1]) {
      if i < n { assert Connects(r, front[i], bs[..n][i], i, front[i + 1]); }
    }
  }

  lemma {:induction false} RunExists(r: Rules, bs: seq<Block>) returns (run: seq<State>)
    requires Replayed(r, bs).Some?
    ensures IsRun(r, bs, run) && run[|bs|] == Replayed(r, bs).value
  {
    if bs == [] {
      run := [EMPTY_STATE];
    } else {
      hide Replayed, Connects;
      LastConnects(r, bs);
      var front := RunExists(r, bs[..|bs| - 1]);
      RunLonger(r, bs, front, Replayed(r, bs).value);
      run := front + [Replayed(r, bs).value];
    }
  }

  lemma ReplaysIff(r: Rules, bs: seq<Block>, st: State)
    ensures Replays(r, bs, st) <==> Replayed(r, bs) == Some(st)
  {
    if Replays(r, bs, st) {
      var run :| IsRun(r, bs, run) && run[|bs|] == st;
      RunEnds(r, bs, run);
    }
    if Replayed(r, bs) == Some(st) {
      var run := RunExists(r, bs);
    }
  }

  // ---------------------------------------------------------------- along the chain

  type Store = map<Hash, Block>

  ghost predicate Stored(store: Store, chain: seq<Hash>) { forall i :: 0 <= i < |chain| ==> chain[i] in store }

  function BlocksOf(store: Store, chain: seq<Hash>): (bs: seq<Block>)
    requires forall i :: 0 <= i < |chain| ==> chain[i] in store
    ensures |bs| == |chain| && forall i :: 0 <= i < |chain| ==> bs[i] == store[chain[i]]
  {
    seq(|chain|, i requires 0 <= i < |chain| => store[chain[i]])
  }

  /** The ids of a list of transactions. */
  function IdSet(r: Rules, txs: seq<Transaction>): set<Hash> { set i | 0 <= i < |txs| :: r.txid(txs[i].core) }

  function IdMap(r: Rules, txs: seq<Transaction>, x: Hash): map<Hash, Hash> { map id | id in IdSet(r, txs) :: x }

  /** `txindex_`: the block of every transaction of the active chain. */
  ghost function TxIndex(r: Rules, store: Store, chain: seq<Hash>): map<Hash, Hash>
    requires Stored(store, chain)
  {
    if chain == [] then map[]
    else
      var n := |chain| - 1;
      TxIndex(r, store, chain[..n]) + IdMap(r, store[chain[n]].txs, chain[n])
  }

  lemma {:induction false} TxIndexKeys(r: Rules, store: Store, chain: seq<Hash>)
    requires Stored(store, chain)
    ensures TxIndex(r, store, chain).Keys <= Ids(r, Seen(AllCores(BlocksOf(store, chain))))
  {
    if chain != [] {
      var n := |chain| - 1;
      TxIndexKeys(r, store, chain[..n]);
      var bs := BlocksOf(store, chain);
      assert bs[..n] == BlocksOf(store, chain[..n]);
      var cs := CoresOf(bs[n].txs);
      forall id | id in IdSet(r, bs[n].txs)
        ensures id in Ids(r, Seen(AllCores(bs)))
      {
        var i :| 0 <= i < |bs[n].txs| && id == r.txid(bs[n].txs[i].core);
        assert cs[i] in AllCores(bs);
      }
      forall id | id in Ids(r, Seen(AllCores(bs[..n])))
        ensures id in Ids(r, Seen(AllCores(bs)))
      {
        var c :| c in Seen(AllCores(bs[..n])) && id == r.txid(c);
        assert c in AllCores(bs);
      }
    }
  }

  lemma {:induction false} TxIndexStable(r: Rules, store: Store, store': Store, chain: seq<Hash>)
    requires Stored(store, chain) && forall x :: x in store ==> x in store' && store'[x] == store[x]
    ensures TxIndex(r, store', chain) == TxIndex(r, store, chain)
  {
    if chain != [] { TxIndexStable(r, store, store', chain[..|chain| - 1]); }
  }

  /** Every undo file that is still there takes its block back exactly. */
  ghost predicate UndosOk(r: Rules, store: Store, chain: seq<Hash>, undo: map<Hash, Undo>)
    requires Stored(store, chain)
  {
    forall i {:trigger UndoOkAt(r, BlocksOf(store, chain), i, undo[chain[i]])} ::
        0 < i < |chain| && chain[i] in undo ==>
      UndoOkAt(r, BlocksOf(store, chain), i, undo[chain[i]])
  }

  ghost predicate UndoOkAt(r: Rules, bs: seq<Block>, i: nat, u: Undo)
    requires i < |bs|
  {
    exists st, st' :: Replays(r, bs[..i], st) && Replays(r, bs[..i + 1], st') && UndoOk(r, st, bs[i], st', u)
  }

  /** The state, the transaction index and the undo files belong to the active chain. */
  ghost predicate ReplayOk(r: Rules, store: Store, chain: seq<Hash>, st: State, txindex: map<Hash, Hash>,
                           undo: map<Hash, Undo>) {
    && r.TxidsIdeal()
    && Stored(store, chain)
    && Replays(r, BlocksOf(store, chain), st)
    && txindex == TxIndex(r, store, chain)
    && UndosOk(r, store, chain, undo)
  }

  /** The whole ledger side of a `Chainstate`: everything equals the replay of the active chain. */
  ghost predicate LedgerOk(r: Rules, store: Store, chain: seq<Hash>, st: State, byAddr: map<Hash, set<OutPoint>>,
                           supply: Amount, txindex: map<Hash, Hash>, undo: map<Hash, Undo>) {
    ReplayOk(r, store, chain, st, txindex, undo) && BookOk(st.coins, byAddr, st.pools, supply)
  }

  lemma StorePrefix(store: Store, chain: seq<Hash>, n: nat)
    requires Stored(store, chain) && n <= |chain|
    ensures Stored(store, chain[..n]) && BlocksOf(store, chain)[..n] == BlocksOf(store, chain[..n])
  {}

  /** New blocks on disk change nothing about the active chain. */
  lemma ReplayStable(r: Rules, store: Store, store': Store, chain: seq<Hash>, st: State, txindex: map<Hash, Hash>,
                     undo: map<Hash, Undo>)
    requires ReplayOk(r, store, chain, st, txindex, undo)
    requires forall x :: x in store ==> x in store' && store'[x] == store[x]
    ensures ReplayOk(r, store', chain, st, txindex, undo)
  {
    assert BlocksOf(store', chain) == BlocksOf(store, chain);
    TxIndexStable(r, store, store', chain);
  }

  /** Removing undo files is harmless. */
  lemma ReplayPruned(r: Rules, store: Store, chain: seq<Hash>, st: State, txindex: map<Hash, Hash>,
                     undo: map<Hash, Undo>, x: Hash)
    requires ReplayOk(r, store, chain, st, txindex, undo)
    ensures ReplayOk(r, store, chain, st, txindex, undo - {x})
  {}

  /** Connecting: the block's view is the replay of the longer chain, and remembers how to go back. */
  lemma ReplayConnect(r: Rules, store: Store, chain: seq<Hash>, st: State, txindex: map<Hash, Hash>,
                      undo: map<Hash, Undo>, x: Hash, verify: bool, ov: Overlay)
    requires ReplayOk(r, store, chain, st, txindex, undo)
    requires x in store && x !in chain && ShapeOk(store[x], |chain|) && OverlayOk(st, ov)
    requires ConnectState(r, st, store[x], |chain|, verify) == Ok(View(Chain(st), ov).State())
    ensures ReplayOk(r, store, chain + [x], View(Chain(st), ov).State(), txindex + IdMap(r, store[x].txs, x),
              undo[x := UndoFrom(ov)])
  {
    var bs, n, b := BlocksOf(store, chain), |chain|, store[x];
    var st' := View(Chain(st), ov).State();
    assert BlocksOf(store, chain + [x]) == bs + [b];
    assert (chain + [x])[..n] == chain;
    ReplaysIff(r, bs, st);
    assert Replays(r, bs + [b], st') by {
      ConnectVerified(r, st, b, n, verify);
      ReplayNext(r, bs, b, st);
      ReplaysIff(r, bs + [b], st');
    }
    assert UndoOk(r, st, b, st', UndoFrom(ov)) by {
      ReplaySound(r, bs);
      UndoRestores(r, st, AllCores(bs), b, n, verify, ov);
    }
    UndoOkAtLast(r, bs, b, st, st', UndoFrom(ov));
    UndosNext(r, bs, b, store, chain, undo, x, UndoFrom(ov));
  }

  lemma ReplayNext(r: Rules, bs: seq<Block>, b: Block, st: State)
    requires Replayed(r, bs) == Some(st) && ShapeOk(b, |bs|) && ConnectState(r, st, b, |bs|, false).Ok?
    ensures Replayed(r, bs + [b]) == Some(ConnectState(r, st, b, |bs|, false).value)
  {
    assert (bs + [b])[..|bs|] == bs;
  }

  lemma UndosNext(r: Rules, bs: seq<Block>, b: Block, store: Store, chain: seq<Hash>, undo: map<Hash, Undo>, x: Hash,
                  u: Undo)
    requires Stored(store, chain) && bs == BlocksOf(store, chain) && x in store && store[x] == b && x !in chain
    requires UndosOk(r, store, chain, undo) && UndoOkAt(r, bs + [b], |bs|, u)
    ensures UndosOk(r, store, chain + [x], undo[x := u])
  {
    var chain' := chain + [x];
    assert BlocksOf(store, chain') == bs + [b];
    forall i | 0 < i < |chain'| && chain'[i] in undo[x := u]
      ensures UndoOkAt(r, bs + [b], i, undo[x := u][chain'[i]])
    {
      if i < |chain| {
        assert chain'[i] == chain[i] != x;
        assert UndoOkAt(r, BlocksOf(store, chain), i, undo[chain[i]]);
        UndoOkAtSame(r, bs, bs + [b], i, undo[chain[i]]);
      }
    }
  }

  lemma UndoOkAtLast(r: Rules, bs: seq<Block>, b: Block, st: State, st': State, u: Undo)
    requires Replays(r, bs, st) && Replays(r, bs + [b], st') && UndoOk(r, st, b, st', u)
    ensures UndoOkAt(r, bs + [b], |bs|, u)
  {
    var bs', n := bs + [b], |bs|;
    assert bs'[..n] == bs && bs'[..n + 1] == bs';
    assert Replays(r, bs'[..n], st) && Replays(r, bs'[..n + 1], st') && UndoOk(r, st, bs'[n], st', u);
  }

  lemma UndoOkAtSame(r: Rules, bs: seq<Block>, bs': seq<Block>, i: nat, u: Undo)
    requires i < |bs| && i < |bs'| && UndoOkAt(r, bs, i, u) && (bs <= bs' || bs' <= bs)
    ensures UndoOkAt(r, bs', i, u)
  {
    assert bs'[..i] == bs[..i] && bs'[..i + 1] == bs[..i + 1];
  }

  /** Disconnecting: undo data takes every part back to the replay of the shorter chain. */
  lemma ReplayDisconnect(r: Rules, store: Store, chain: seq<Hash>, st: State, txindex: map<Hash, Hash>,
                         undo: map<Hash, Undo>)
    requires ReplayOk(r, store, chain, st, txindex, undo)
    requires |chain| > 1 && chain[|chain| - 1] in undo
    ensures var n := |chain| - 1;
            var b, u := store[chain[n]], undo[chain[n]];
            && ReplayOk(r, store, chain[..n], Disconnected(r, st, b, u), txindex - IdSet(r, b.txs), undo)
            && u.spent.Keys !! (st.coins - OutsOf(r, b.txs)).Keys
  {
    var n := |chain| - 1;
    var bs, u := BlocksOf(store, chain), undo[chain[n]];
    StorePrefix(store, chain, n);
    UndosPrefix(r, store, chain, undo, n);
    assert UndoOkAt(r, BlocksOf(store, chain), n, undo[chain[n]]);
    UndoLast(r, bs, n, u, st);
    ReplaysIff(r, bs, st);
    IdsAreNew(r, bs, n);
    TxIndexKeys(r, store, chain[..n]);
    DropIds(TxIndex(r, store, chain[..n]), IdSet(r, bs[n].txs), chain[n]);
  }

  lemma UndoLast(r: Rules, bs: seq<Block>, n: nat, u: Undo, st: State)
    requires |bs| == n + 1 && UndoOkAt(r, bs, n, u) && Replays(r, bs, st)
    ensures Replays(r, bs[..n], Disconnected(r, st, bs[n], u))
    ensures u.spent.Keys !! (st.coins - OutsOf(r, bs[n].txs)).Keys
  {
    var st0, st1 :| Replays(r, bs[..n], st0) && Replays(r, bs[..n + 1], st1) && UndoOk(r, st0, bs[n], st1, u);
    assert bs[..n + 1] == bs;
    ReplaysIff(r, bs, st);
    ReplaysIff(r, bs, st1);
  }

  lemma UndosPrefix(r: Rules, store: Store, chain: seq<Hash>, undo: map<Hash, Undo>, n: nat)
    requires Stored(store, chain) && UndosOk(r, store, chain, undo) && n <= |chain|
    ensures Stored(store, chain[..n]) && UndosOk(r, store, chain[..n], undo)
  {
    var bs := BlocksOf(store, chain);
    StorePrefix(store, chain, n);
    forall i | 0 < i < n && chain[..n][i] in undo
      ensures UndoOkAt(r, bs[..n], i, undo[chain[..n][i]])
    {
      assert UndoOkAt(r, BlocksOf(store, chain), i, undo[chain[i]]);
      UndoOkAtSame(r, bs, bs[..n], i, undo[chain[i]]);
    }
  }

  lemma IdsAreNew(r: Rules, bs: seq<Block>, n: nat)
    requires r.TxidsIdeal() && |bs| == n + 1 && Replayed(r, bs).Some?
    ensures IdSet(r, bs[n].txs) !! Ids(r, Seen(AllCores(bs[..n])))
  {
    ReplaySound(r, bs);
    ReplayPrefix(r, bs, n);
    ReplaySound(r, bs[..n]);
    OutputsAreNew(r, Replayed(r, bs[..n]).value, AllCores(bs[..n]), bs[n]);
  }

  /** Transaction `j` of block `i` of the chain has this id. */
  ghost predicate SitsAt(r: Rules, store: Store, chain: seq<Hash>, id: Hash, i: nat, j: nat)
    requires Stored(store, chain)
  {
    i < |chain| && j < |store[chain[i]].txs| && r.txid(store[chain[i]].txs[j].core) == id
  }

  /** The transaction index has the ids of exactly the transactions of the chain, and for each the block it is in. */
  ghost predicate IndexExact(r: Rules, store: Store, chain: seq<Hash>, txindex: map<Hash, Hash>) {
    && Stored(store, chain)
    && (forall id :: id in txindex <==> exists i: nat, j: nat :: SitsAt(r, store, chain, id, i, j))
    && (forall id, i: nat, j: nat :: SitsAt(r, store, chain, id, i, j) && id in txindex ==> txindex[id] == chain[i])
  }

  /** On every replayed chain. */
  lemma {:induction false} TxIndexExact(r: Rules, store: Store, chain: seq<Hash>)
    requires r.TxidsIdeal() && Stored(store, chain) && Replayed(r, BlocksOf(store, chain)).Some?
    ensures IndexExact(r, store, chain, TxIndex(r, store, chain))
  {
    hide ConnectState;
    if chain != [] {
      var n := |chain| - 1;
      var bs := BlocksOf(store, chain);
      assert bs[..n] == BlocksOf(store, chain[..n]);
      ReplayPrefix(r, bs, n);
      TxIndexExact(r, store, chain[..n]);
      IdsAreNew(r, bs, n);
      TxIndexKeys(r, store, chain[..n]);
      IndexNext(r, store, chain, TxIndex(r, store, chain[..n]));
    }
  }

  lemma IndexNext(r: Rules, store: Store, chain: seq<Hash>, before: map<Hash, Hash>)
    requires Stored(store, chain) && chain != []
    requires var n := |chain| - 1;
             IndexExact(r, store, chain[..n], before) && before.Keys !! IdSet(r, store[chain[n]].txs)
    ensures var n := |chain| - 1; IndexExact(r, store, chain, before + IdMap(r, store[chain[n]].txs, chain[n]))
  {
    var n := |chain| - 1;
    var last := IdMap(r, store[chain[n]].txs, chain[n]);
    forall id ensures id in before + last <==> exists i: nat, j: nat :: SitsAt(r, store, chain, id, i, j) {
      if id in before {
        var i: nat, j: nat :| SitsAt(r, store, chain[..n], id, i, j);
        assert SitsAt(r, store, chain, id, i, j);
      } else if id in last {
        var j :| 0 <= j < |store[chain[n]].txs| && r.txid(store[chain[n]].txs[j].core) == id;
        assert SitsAt(r, store, chain, id, n, j);
      }
      if i: nat, j: nat :| SitsAt(r, store, chain, id, i, j) {
        if i < n { assert SitsAt(r, store, chain[..n], id, i, j); }
      }
    }
    forall id, i: nat, j: nat | SitsAt(r, store, chain, id, i, j) ensures (before + last)[id] == chain[i] {
      if i < n { assert SitsAt(r, store, chain[..n], id, i, j); } else { assert id in IdSet(r, store[chain[n]].txs); }
    }
  }

  lemma DropIds(m: map<Hash, Hash>, ids: set<Hash>, x: Hash)
    requires m.Keys !! ids
    ensures (m + map id | id in ids :: x) - ids == m
  {}
}
