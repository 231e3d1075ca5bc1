/** Every state a chain of readable transactions leaves can be written as a snapshot and read back
    (src/chain/chainstate.cpp:56-82, 230-250; src/primitives/transaction.cpp:60-96). */
module SnapshotLimits {
  import opened Types
  import opened Sorting
  import opened Ledger
  import opened Codecs
  import opened TxCodecs
  import opened Replay
  import opened Snapshots

  // ---------------------------------------------------------------- what fits

  /** A transaction core whose fields the format can hold. */
  ghost predicate CoreFits(c: Core) {
    && |c.outs| <= MAX_TX_OUTPUTS
    && (forall i :: 0 <= i < |c.outs| ==> c.outs[i].asset < Limit(32) && c.outs[i].addr < Limit(32))
    && (forall i :: 0 <= i < |c.ops| ==> OpFits(c.ops[i]))
  }

  predicate OpFits(op: TxOp) {
    && (op.CreateToken? ==> |op.ticker| <= MAX_TICKER && |op.name| <= MAX_TOKEN_NAME && |op.uri| <= MAX_TOKEN_URI)
    && (IsPoolOp(op) ==> op.token < Limit(32))
  }

  predicate CoinFits(o: OutPoint, c: Coin) {
    o.txid < Limit(32) && o.n < 0x1_0000_0000 && c.out.asset < Limit(32) && c.out.addr < Limit(32) && c.height < TWO64
  }

  predicate InfoFits(t: TokenInfo) {
    && t.id < Limit(32) && t.createTxid < Limit(32) && t.height < TWO64
    && |t.ticker| <= MAX_TICKER && |t.name| <= MAX_TOKEN_NAME && |t.uri| <= MAX_TOKEN_URI
  }

  ghost predicate CoinsFit(coins: map<OutPoint, Coin>, n: nat)
  {
    |coins| <= n && forall o :: o in coins ==> CoinFits(o, coins[o])
  }

  ghost predicate TokensFit(tokens: map<Hash, TokenInfo>, n: nat)
  {
    |tokens| <= n && forall t :: t in tokens ==> InfoFits(tokens[t])
  }

  ghost predicate PoolsFit(pools: map<Hash, Pool>, n: nat)
  {
    |pools| <= n && forall t :: t in pools ==> pools[t].token < Limit(32)
  }

  /** A state with fields in range and at most `n` entries of each kind. */
  ghost predicate StateFits(st: State, n: nat)
  {
    CoinsFit(st.coins, n) && TokensFit(st.tokens, n) && PoolsFit(st.pools, n)
  }

  /** Everything the transaction reader accepts fits. */
  lemma CoreOkFits(c: Core)
    requires CoreC().ok(c)
    ensures CoreFits(c)
  {
    hide OpC, TxOutC, OutPointC;
    assert AllOk(TxOutC(), c.outs) && AllOk(OpC(), c.ops);
    forall i | 0 <= i < |c.outs| ensures c.outs[i].asset < Limit(32) && c.outs[i].addr < Limit(32) {
      OutOkFits(c.outs[i]);
    }
    forall i | 0 <= i < |c.ops| ensures OpFits(c.ops[i]) { OpOkFits(c.ops[i]); }
  }

  lemma OutOkFits(o: TxOut)
    requires TxOutC().ok(o)
    ensures o.asset < Limit(32) && o.addr < Limit(32)
  {
    hide Limit;
  }

  lemma OpOkFits(op: TxOp)
    requires OpC().ok(op)
    ensures OpFits(op)
  {
    hide Limit;
    assert OpBody(Tag(op)).ok(op);
  }

  // ---------------------------------------------------------------- a state that fits can be written

  lemma EntryFits(e: Entry)
    requires CoinFits(e.o, e.c)
    ensures EntryC().ok(e)
  {
    hide Limit;
  }

  lemma InfoFitsOk(t: TokenInfo)
    requires InfoFits(t)
    ensures InfoC().ok(t)
  {
    hide Limit;
    TextOk(t.ticker, MAX_TICKER);
    TextOk(t.name, MAX_TOKEN_NAME);
    TextOk(t.uri, MAX_TOKEN_URI);
  }

  lemma TextOk(t: Text, max: nat)
    requires |t| <= max < TWO64
    ensures TextC(max).ok(t)
  {}

  lemma PoolFitsOk(p: Pool)
    requires p.token < Limit(32)
    ensures PoolInfoC().ok(p)
  {
    hide Limit;
  }

  lemma ListsLengths(st: State, s: Snapshot)
    requires Lists(st, s)
    ensures |s.coins| == |st.coins| && |s.tokens| == |st.tokens| && |s.pools| == |st.pools|
  {
    PointsOrdered();
    HashesOrdered();
    hide Sorted, Ordering, PointLess, HashLess;
    SortedLength((a: OutPoint, b: OutPoint) => PointLess(a, b), Points(s.coins));
    SortedLength((a: Hash, b: Hash) => HashLess(a, b), TokenIds(s.tokens));
    SortedLength((a: Hash, b: Hash) => HashLess(a, b), PoolIds(s.pools));
    assert |st.coins.Keys| == |st.coins| && |st.tokens.Keys| == |st.tokens| && |st.pools.Keys| == |st.pools|;
  }

  /** So a state that fits is encodable. */
  lemma FitsEncodable(st: State, n: nat, s: Snapshot)
    requires StateFits(st, n) && n < TWO64 && Lists(st, s) && s.block < Limit(32) && s.height < TWO64
    ensures SnapshotC().ok(s)
  {
    hide EntryC, InfoC, PoolInfoC, Sorted, CoinFits, InfoFits, Limit;
    ListsLengths(st, s);
    forall i | 0 <= i < |s.coins| ensures EntryC().ok(s.coins[i]) { EntryFits(s.coins[i]); }
    forall i | 0 <= i < |s.tokens| ensures InfoC().ok(s.tokens[i]) { InfoFitsOk(s.tokens[i]); }
    forall i | 0 <= i < |s.pools| ensures PoolInfoC().ok(s.pools[i]) { PoolFitsOk(s.pools[i]); }
    assert AllOk(EntryC(), s.coins) && AllOk(InfoC(), s.tokens) && AllOk(PoolInfoC(), s.pools);
    SnapshotOk(s);
  }

  lemma SnapshotOk(s: Snapshot)
    requires AllOk(EntryC(), s.coins) && AllOk(InfoC(), s.tokens) && AllOk(PoolInfoC(), s.pools)
    requires |s.coins| < TWO64 && |s.tokens| < TWO64 && |s.pools| < TWO64 && s.block < Limit(32) && s.height < TWO64
    ensures SnapshotC().ok(s)
  {
    hide EntryC, InfoC, PoolInfoC, AllOk, Limit;
  }

  // ---------------------------------------------------------------- every step keeps it

  /** The ids of these transactions, and of all tokens, are 32 bytes. */
  ghost predicate IdsFit(r: Rules, cs: seq<Core>) {
    (forall i :: 0 <= i < |cs| ==> r.txid(cs[i]) < Limit(32)) && forall o, i :: r.tokenId(o, i) < Limit(32)
  }

  /** Outputs and operations: how much transactions can add to a state. */
  function Weight(cs: seq<Core>): nat
  {
    if cs == [] then 0 else Weight(cs[..|cs| - 1]) + |cs[|cs| - 1].outs| + |cs[|cs| - 1].ops|
  }

  lemma {:induction false} CreatedSize(id: Hash, outs: seq<TxOut>, height: nat, coinbase: bool)
    ensures |Created(id, outs, height, coinbase)| <= |outs|
  {
    if outs != [] { CreatedSize(id, outs[..|outs| - 1], height, coinbase); }
  }

  lemma SumSize<K, V>(a: map<K, V>, b: map<K, V>)
    ensures |a + b| <= |a| + |b|
  {
    assert (a + b).Keys == a.Keys + b.Keys;
    assert |a.Keys + b.Keys| <= |a.Keys| + |b.Keys|;
  }

  lemma LessSize<K, V>(a: map<K, V>, gone: set<K>)
    ensures |a - gone| <= |a|
  {
    assert (a - gone).Keys == a.Keys - gone;
    assert |a.Keys - gone| <= |a.Keys|;
  }

  lemma CreatedFits(id: Hash, outs: seq<TxOut>, height: nat, coinbase: bool)
    requires id < Limit(32) && height < TWO64 && |outs| <= MAX_TX_OUTPUTS
    requires forall i :: 0 <= i < |outs| ==> outs[i].asset < Limit(32) && outs[i].addr < Limit(32)
    ensures CoinsFit(Created(id, outs, height, coinbase), |outs|)
  {
    CreatedSize(id, outs, height, coinbase);
  }

  lemma CoinsNext(coins: map<OutPoint, Coin>, n: nat, gone: set<OutPoint>, more: map<OutPoint, Coin>, k: nat)
    requires CoinsFit(coins, n) && CoinsFit(more, k)
    ensures CoinsFit((coins - gone) + more, n + k)
  {
    hide CoinFits;
    LessSize(coins, gone);
    SumSize(coins - gone, more);
  }

  lemma OpFitsNext(k: Call, s: Scratch, i: nat, n: nat)
    requires i < |k.core.ops| && k.core.ins != [] && StepOp(k, s, i).Ok? && CoreFits(k.core) && k.height < TWO64
    requires k.rules.txid(k.core) < Limit(32) && forall o, j :: k.rules.tokenId(o, j) < Limit(32)
    requires TokensFit(s.minted, i) && PoolsFit(s.pools, n)
    ensures TokensFit(StepOp(k, s, i).value.minted, i + 1) && PoolsFit(StepOp(k, s, i).value.pools, n + 1)
  {
    hide Limit, InfoFits, Bump;
    var op, s' := k.core.ops[i], StepOp(k, s, i).value;
    assert OpFits(op);
    if op.CreateToken? {
      var id := k.rules.tokenId(k.core.ins[0], i);
      InfoFitsNew(k.rules, k.core, k.height, op, id);
    }
  }

  lemma InfoFitsNew(r: Rules, c: Core, height: nat, op: TxOp, id: Hash)
    requires op.CreateToken? && OpFits(op) && height < TWO64 && r.txid(c) < Limit(32) && id < Limit(32)
    ensures InfoFits(InfoOf(r, c, height, op, id))
  {}

  lemma {:induction false} OpsFit(k: Call, s: Scratch, i: nat, n: nat)
    requires i <= |k.core.ops| && k.core.ins != [] && RunOps(k, s, i).Ok? && CoreFits(k.core) && k.height < TWO64
    requires k.rules.txid(k.core) < Limit(32) && forall o, j :: k.rules.tokenId(o, j) < Limit(32)
    requires TokensFit(s.minted, i) && PoolsFit(s.pools, n)
    ensures TokensFit(RunOps(k, s, i).value.minted, |k.core.ops|)
              && PoolsFit(RunOps(k, s, i).value.pools, n + |k.core.ops| - i)
    decreases |k.core.ops| - i
  {
    hide StepOp, TokensFit, PoolsFit, CoreFits, Limit;
    if i < |k.core.ops| {
      OpFitsNext(k, s, i, n);
      OpsFit(k, StepOp(k, s, i).value, i + 1, n + 1);
    }
  }

  lemma TokensNext(tokens: map<Hash, TokenInfo>, n: nat, minted: map<Hash, TokenInfo>, k: nat)
    requires TokensFit(tokens, n) && TokensFit(minted, k)
    ensures TokensFit(tokens + minted, n + k)
  {
    hide InfoFits;
    SumSize(tokens, minted);
  }

  lemma FitsParts(st: State, n: nat)
    ensures StateFits(st, n) <==> CoinsFit(st.coins, n) && TokensFit(st.tokens, n) && PoolsFit(st.pools, n)
  {}

  lemma FitsTogether(coins: map<OutPoint, Coin>, tokens: map<Hash, TokenInfo>, pools: map<Hash, Pool>, i: nat, j: nat,
                     k: nat, n: nat)
    requires CoinsFit(coins, i) && TokensFit(tokens, j) && PoolsFit(pools, k) && i <= n && j <= n && k <= n
    ensures StateFits(State(coins, tokens, pools), n)
  {}

  lemma CommitFits(r: Rules, st: State, c: Core, height: nat, s: Scratch, n: nat)
    requires CoreFits(c) && height < TWO64 && r.txid(c) < Limit(32) && StateFits(st, n)
    requires TokensFit(s.minted, |c.ops|) && PoolsFit(s.pools, n + |c.ops|)
    ensures StateFits(Commit(r, st, c, height, s), n + |c.outs| + |c.ops|)
  {
    hide *;
    CoreCreates(r, c, height, false);
    FitsNext(st, n, InputSet(c.ins), Created(r.txid(c), c.outs, height, false), |c.outs|, s.minted, s.pools, |c.ops|);
    CommitIs(r, st, c, height, s);
  }

  lemma FitsNext(st: State, n: nat, gone: set<OutPoint>, more: map<OutPoint, Coin>, i: nat,
                 minted: map<Hash, TokenInfo>, pools: map<Hash, Pool>, j: nat)
    requires StateFits(st, n) && CoinsFit(more, i) && TokensFit(minted, j) && PoolsFit(pools, n + j)
    ensures StateFits(State((st.coins - gone) + more, st.tokens + minted, pools), n + i + j)
  {
    hide *;
    FitsParts(st, n);
    TokensNext(st.tokens, n, minted, j);
    CoinsNext(st.coins, n, gone, more, i);
    FitsTogether((st.coins - gone) + more, st.tokens + minted, pools, n + i, n + j, n + j, n + i + j);
  }

  lemma CommitIs(r: Rules, st: State, c: Core, height: nat, s: Scratch)
    ensures Commit(r, st, c, height, s) == State((st.coins - InputSet(c.ins)) + Created(r.txid(c), c.outs, height,
              false), st.tokens + s.minted, s.pools)
  {}

  lemma CoreCreates(r: Rules, c: Core, height: nat, coinbase: bool)
    requires CoreFits(c) && height < TWO64 && r.txid(c) < Limit(32)
    ensures CoinsFit(Created(r.txid(c), c.outs, height, coinbase), |c.outs|)
  {
    hide CoinsFit, Limit, Created;
    CreatedFits(r.txid(c), c.outs, height, coinbase);
  }

  lemma ApplyFits(r: Rules, st: State, tx: Transaction, height: nat, n: nat)
    requires ApplyTx(r, st, tx, height, false).Ok? && CoreFits(tx.core) && height < TWO64 && IdsFit(r, [tx.core])
               && StateFits(st, n)
    ensures StateFits(ApplyTx(r, st, tx, height, false).value.state, n + |tx.core.outs| + |tx.core.ops|)
  {
    hide RunOps, Gather, CoinsFit, TokensFit, PoolsFit, FeeOf, Limit, Commit, CoreFits;
    var c := tx.core;
    var coins := Gather(r, st.coins, c.ins, height).value;
    var k, s := Call(r, c, height, coins, st.tokens), Start(c, coins, st.pools);
    assert [c][0] == c;
    NothingMinted(st.pools, n, 0);
    OpsFit(k, s, 0, n);
    CommitFits(r, st, c, height, RunOps(k, s, 0).value, n);
  }

  lemma NothingMinted(pools: map<Hash, Pool>, n: nat, k: nat)
    ensures TokensFit(map[], 0) && TokensFit(map[], k) && (PoolsFit(pools, n) ==> PoolsFit(pools, n + k))
  {}

  /** All these transactions fit. */
  ghost predicate CoresFit(r: Rules, cs: seq<Core>) { IdsFit(r, cs) && forall i :: 0 <= i < |cs| ==> CoreFits(cs[i]) }

  lemma CoresFitParts(r: Rules, a: seq<Core>, b: seq<Core>)
    requires CoresFit(r, a + b)
    ensures CoresFit(r, a) && CoresFit(r, b)
  {
    hide Limit, CoreFits;
    forall i | 0 <= i < |a| ensures r.txid(a[i]) < Limit(32) && CoreFits(a[i]) { assert (a + b)[i] == a[i]; }
    forall i | 0 <= i < |b| ensures r.txid(b[i]) < Limit(32) && CoreFits(b[i]) { assert (a + b)[|a| + i] == b[i]; }
  }

  lemma {:induction false} WeightSum(a: seq<Core>, b: seq<Core>)
    ensures Weight(a + b) == Weight(a) + Weight(b)
  {
    if b == [] {
      assert a + b == a;
    } else {
      assert (a + b)[..|a + b| - 1] == a + b[..|b| - 1];
      WeightSum(a, b[..|b| - 1]);
    }
  }

  lemma {:induction false} ApplyAllFits(r: Rules, st: State, txs: seq<Transaction>, height: nat, n: nat)
    requires ApplyAll(r, st, txs, height, false).Ok? && CoresFit(r, CoresOf(txs)) && height < TWO64 && StateFits(st, n)
    ensures StateFits(ApplyAll(r, st, txs, height, false).value.state, n + Weight(CoresOf(txs)))
  {
    hide ApplyTx, StateFits, CoreFits, Limit;
    if txs != [] {
      var front, tx := txs[..|txs| - 1], txs[|txs| - 1];
      CoresNext(txs);
      CoresFitParts(r, CoresOf(front), [tx.core]);
      ApplyAllFits(r, st, front, height, n);
      assert [tx.core][0] == tx.core && CoresOf(txs)[..|txs| - 1] == CoresOf(front);
      ApplyFits(r, ApplyAll(r, st, front, height, false).value.state, tx, height, n + Weight(CoresOf(front)));
    }
  }

  lemma ConnectFits(r: Rules, st: State, b: Block, height: nat, n: nat)
    requires b.txs != [] && ConnectState(r, st, b, height, false).Ok? && CoresFit(r, CoresOf(b.txs)) && height < TWO64
               && StateFits(st, n)
    ensures StateFits(ConnectState(r, st, b, height, false).value, n + Weight(CoresOf(b.txs)))
  {
    hide ApplyAll, TokensFit, PoolsFit, CoinsFit, Limit, Created;
    var cb, rest := b.txs[0], b.txs[1..];
    assert CoresOf(b.txs) == [cb.core] + CoresOf(rest);
    CoresFitParts(r, [cb.core], CoresOf(rest));
    WeightSum([cb.core], CoresOf(rest));
    CoinbaseFits(r, st, cb, height, n);
    ApplyAllFits(r, ApplyCoinbase(r, st, cb, height), rest, height, n + Weight([cb.core]));
  }

  lemma CoinbaseFits(r: Rules, st: State, cb: Transaction, height: nat, n: nat)
    requires CoresFit(r, [cb.core]) && height < TWO64 && StateFits(st, n)
    ensures StateFits(ApplyCoinbase(r, st, cb, height), n + Weight([cb.core]))
  {
    hide *;
    var c := cb.core;
    FitsParts(st, n);
    OneFits(r, c);
    CoreCreates(r, c, height, true);
    NothingMinted(st.pools, n, |c.ops|);
    FitsNext(st, n, {}, Created(r.txid(c), c.outs, height, true), |c.outs|, map[], st.pools, |c.ops|);
    CoinbaseIs(r, st, cb, height);
  }

  lemma CoinbaseIs(r: Rules, st: State, cb: Transaction, height: nat)
    ensures ApplyCoinbase(r, st, cb, height) == State((st.coins - {}) + Created(r.txid(cb.core), cb.core.outs, height,
              true), st.tokens + map[], st.pools)
  {
    assert st.coins - {} == st.coins && st.tokens + map[] == st.tokens;
  }

  lemma OneFits(r: Rules, c: Core)
    requires CoresFit(r, [c])
    ensures CoreFits(c) && r.txid(c) < Limit(32) && Weight([c]) == |c.outs| + |c.ops|
  {
    assert [c][0] == c && [c][..0] == [];
  }

  /** A chain of blocks whose transactions were all read, with 32-byte ids, and fewer than 2^64 blocks, outputs
      and operations. */
  ghost predicate InLimits(r: Rules, blocks: seq<Block>) {
    var cs := AllCores(blocks);
    IdsFit(r, cs) && (forall i :: 0 <= i < |cs| ==> CoreC().ok(cs[i])) && |blocks| < TWO64 && Weight(cs) < TWO64
  }

  lemma {:induction false} ReplayFits(r: Rules, blocks: seq<Block>)
    requires Replayed(r, blocks).Some? && CoresFit(r, AllCores(blocks)) && |blocks| <= TWO64
    ensures StateFits(Replayed(r, blocks).value, Weight(AllCores(blocks)))
  {
    hide ConnectState, StateFits, CoresFit, ShapeOk, Limit;
    if blocks == [] {
      EmptyFits();
    } else {
      var n := |blocks| - 1;
      var front, b := blocks[..n], blocks[n];
      assert AllCores(blocks) == AllCores(front) + CoresOf(b.txs);
      CoresFitParts(r, AllCores(front), CoresOf(b.txs));
      WeightSum(AllCores(front), CoresOf(b.txs));
      ReplayFits(r, front);
      HasCoinbase(b, n);
      ConnectFits(r, Replayed(r, front).value, b, n, Weight(AllCores(front)));
    }
  }

  lemma EmptyFits()
    ensures StateFits(EMPTY_STATE, Weight([]))
  {}

  lemma HasCoinbase(b: Block, height: nat)
    requires ShapeOk(b, height)
    ensures b.txs != []
  {}

  /** Every state that such a chain leaves is encodable. */
  lemma ReplayEncodable(r: Rules, blocks: seq<Block>, s: Snapshot)
    requires InLimits(r, blocks) && Replayed(r, blocks).Some? && Lists(Replayed(r, blocks).value, s)
    requires s.block < Limit(32) && s.height < TWO64
    ensures SnapshotC().ok(s)
  {
    hide Replayed, Lists, StateFits, SnapshotC, CoreC, CoreFits, Limit;
    var cs := AllCores(blocks);
    forall i | 0 <= i < |cs| ensures CoreFits(cs[i]) { CoreOkFits(cs[i]); }
    ReplayFits(r, blocks);
    FitsEncodable(Replayed(r, blocks).value, Weight(cs), s);
  }
}
