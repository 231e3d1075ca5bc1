/** State snapshots (src/chain/chainstate.cpp:56-84, 226-275, 374-406): one byte string per ledger state,
    which reads back to that state, so that a node started from it and one that replayed everything agree. */
module Snapshots {
  import opened Types
  import opened Sorting
  import opened Ledger
  import opened Codecs
  import opened TxCodecs
  import opened Replay

  const STATE_MAGIC: nat := 0x32545351

  // ---------------------------------------------------------------- keys in order

  predicate PointLess(a: OutPoint, b: OutPoint) { a.txid < b.txid || (a.txid == b.txid && a.n < b.n) }

  predicate HashLess(a: Hash, b: Hash) { a < b }

  lemma PointsOrdered()
    ensures Ordering((a: OutPoint, b: OutPoint) => PointLess(a, b))
  {}

  lemma HashesOrdered()
    ensures Ordering((a: Hash, b: Hash) => HashLess(a, b))
  {}

  // ---------------------------------------------------------------- the format

  /** What `read_coin` accepts for an asset: any flag but zero means an id follows. */
  function ReadCoinAsset(bs: Codecs.Bytes): Parsed<Hash> {
    if bs == [] then None
    else if bs[0] == 0 then Some((QNT, bs[1..]))
    else HashC().dec(bs[1..])
  }

  function CoinAssetC(): Codec<Hash> { Codec(AssetC().ok, AssetC().enc, bs => ReadCoinAsset(bs)) }

  lemma CoinAssetReads()
    ensures RoundTrips(CoinAssetC())
  {
    hide HashC;
    HashGood();
    forall h: Hash,
        rest: Codecs.Bytes | CoinAssetC().ok(h) ensures CoinAssetC().dec(CoinAssetC().enc(h) + rest) == Some((h,
        rest)) {
      assert (CoinAssetC().enc(h) + rest)[1..] == (if h == QNT then [] else HashC().enc(h)) + rest;
      assert [] + rest == rest;
    }
  }

  function ReadBool(bs: Codecs.Bytes): Parsed<bool> { if bs == [] then None else Some((bs[0] != 0, bs[1..])) }

  function BoolC(): Codec<bool> { Codec(b => true, b => if b then [1] else [0], bs => ReadBool(bs)) }

  lemma BoolReads()
    ensures RoundTrips(BoolC())
  {
    forall b: bool, rest: Codecs.Bytes ensures BoolC().dec(BoolC().enc(b) + rest) == Some((b, rest)) {
      assert (BoolC().enc(b) + rest)[1..] == rest;
    }
  }

  /** An index is cut to 32 bits when read. */
  function ReadIndex(bs: Codecs.Bytes): Parsed<nat> {
    match ReadVarintAt(bs, 0)
    case None => None
    case Some((v, rest)) => Some((v % 0x1_0000_0000, rest))
  }

  function IndexC(): Codec<nat> { Codec(n => n < 0x1_0000_0000, n => VarintBytes(n), bs => ReadIndex(bs)) }

  lemma IndexReads()
    ensures RoundTrips(IndexC())
  {
    hide VarintBytes, ReadVarintAt, Room;
    RoomIs64();
    forall n: nat, rest: Codecs.Bytes | IndexC().ok(n) ensures IndexC().dec(IndexC().enc(n) + rest) == Some((n, rest)) {
      VarintReads(n, 0, rest);
    }
  }

  type CoinParts = ((Hash, nat), (Amount, (Hash, (Hash, (nat, bool)))))

  datatype Entry = Entry(o: OutPoint, c: Coin)

  function ToEntry(p: CoinParts): Entry {
    Entry(OutPoint(p.0.0, p.0.1), Coin(TxOut(p.1.0, p.1.1.0, p.1.1.1.0), p.1.1.1.1.0, p.1.1.1.1.1))
  }

  function AsEntry(e: Entry): CoinParts
  {
    ((e.o.txid, e.o.n), (e.c.out.value, (e.c.out.asset, (e.c.out.addr, (e.c.height, e.c.coinbase)))))
  }

  function CoinTailC(): Codec<(Hash, (nat, bool))> { PairC(HashC(), PairC(VarintC(TWO64 - 1), BoolC())) }

  function CoinPartsC(): Codec<CoinParts>
  {
    PairC(PairC(HashC(), IndexC()), PairC(AmountC(), PairC(CoinAssetC(), CoinTailC())))
  }

  function EntryC(): Codec<Entry> { MapC(CoinPartsC(), p => ToEntry(p), e => AsEntry(e), e => true) }

  lemma EntryReads()
    ensures RoundTrips(EntryC())
  {
    HashGood();
    AmountGood();
    VarintGood(TWO64 - 1);
    hide RoundTrips, HashC, AmountC, IndexC, BoolC, CoinAssetC;
    CoinAssetReads();
    BoolReads();
    IndexReads();
    PairRoundTrips(HashC(), IndexC());
    PairRoundTrips(VarintC(TWO64 - 1), BoolC());
    PairRoundTrips(HashC(), PairC(VarintC(TWO64 - 1), BoolC()));
    PairRoundTrips(CoinAssetC(), CoinTailC());
    PairRoundTrips(AmountC(), PairC(CoinAssetC(), CoinTailC()));
    PairRoundTrips(PairC(HashC(), IndexC()), PairC(AmountC(), PairC(CoinAssetC(), CoinTailC())));
    MapGood(CoinPartsC(), p => ToEntry(p), e => AsEntry(e), (e: Entry) => true);
  }

  type InfoParts = (Hash, (Text, (Text, (Text, (byte, (Amount, (Hash, nat)))))))

  function ToInfo(p: InfoParts): TokenInfo {
    TokenInfo(p.0, p.1.0, p.1.1.0, p.1.1.1.0, p.1.1.1.1.0, p.1.1.1.1.1.0, p.1.1.1.1.1.1.0, p.1.1.1.1.1.1.1)
  }

  function AsInfo(t: TokenInfo): InfoParts
  {
    (t.id, (t.ticker, (t.name, (t.uri, (t.decimals, (t.supply, (t.createTxid, t.height)))))))
  }

  function InfoTailC(): Codec<(byte, (Amount, (Hash, nat)))>
  {
    PairC(ByteC(), PairC(AmountC(), PairC(HashC(), VarintC(TWO64 - 1))))
  }

  function InfoPartsC(): Codec<InfoParts> {
    PairC(HashC(), PairC(TextC(MAX_TICKER), PairC(TextC(MAX_TOKEN_NAME), PairC(TextC(MAX_TOKEN_URI), InfoTailC()))))
  }

  function InfoC(): Codec<TokenInfo> { MapC(InfoPartsC(), p => ToInfo(p), t => AsInfo(t), t => true) }

  lemma InfoReads()
    ensures Good(InfoC())
  {
    hide Good, HashC, AmountC, TextC, ByteC;
    HashGood();
    AmountGood();
    TextGood(MAX_TICKER);
    TextGood(MAX_TOKEN_NAME);
    TextGood(MAX_TOKEN_URI);
    ByteIsGood();
    VarintIsGood(TWO64 - 1);
    PairGood(HashC(), VarintC(TWO64 - 1));
    PairGood(AmountC(), PairC(HashC(), VarintC(TWO64 - 1)));
    PairGood(ByteC(), PairC(AmountC(), PairC(HashC(), VarintC(TWO64 - 1))));
    PairGood(TextC(MAX_TOKEN_URI), InfoTailC());
    PairGood(TextC(MAX_TOKEN_NAME), PairC(TextC(MAX_TOKEN_URI), InfoTailC()));
    PairGood(TextC(MAX_TICKER), PairC(TextC(MAX_TOKEN_NAME), PairC(TextC(MAX_TOKEN_URI), InfoTailC())));
    PairGood(HashC(), PairC(TextC(MAX_TICKER), PairC(TextC(MAX_TOKEN_NAME), PairC(TextC(MAX_TOKEN_URI), InfoTailC()))));
    Mapped(InfoPartsC(), p => ToInfo(p), t => AsInfo(t), (t: TokenInfo) => true);
  }

  function ToPool(p: PoolParts): Pool { Pool(p.0, p.1.0, p.1.1.0, p.1.1.1) }

  function FromPool(p: Pool): PoolParts { (p.token, (p.qnt, (p.tok, p.shares))) }

  function PoolInfoC(): Codec<Pool> { MapC(PoolC(), p => ToPool(p), p => FromPool(p), p => true) }

  lemma PoolInfoReads()
    ensures Good(PoolInfoC())
  {
    hide Good, PoolC;
    PartsGood();
    Mapped(PoolC(), p => ToPool(p), p => FromPool(p), (p: Pool) => true);
  }

  datatype Snapshot = Snapshot(block: Hash, height: nat, coins: seq<Entry>, tokens: seq<TokenInfo>, pools: seq<Pool>)

  type SnapParts = (Hash, (nat, (seq<Entry>, (seq<TokenInfo>, seq<Pool>))))

  function ToSnapshot(p: SnapParts): Snapshot { Snapshot(p.0, p.1.0, p.1.1.0, p.1.1.1.0, p.1.1.1.1) }

  function AsSnapshot(s: Snapshot): SnapParts { (s.block, (s.height, (s.coins, (s.tokens, s.pools)))) }

  function ListsC(): Codec<(seq<Entry>, (seq<TokenInfo>, seq<Pool>))> {
    PairC(ListC(EntryC(), TWO64 - 1), PairC(ListC(InfoC(), TWO64 - 1), ListC(PoolInfoC(), TWO64 - 1)))
  }

  function SnapPartsC(): Codec<SnapParts> { PairC(HashC(), PairC(VarintC(TWO64 - 1), ListsC())) }

  function SnapshotC(): Codec<Snapshot> { MapC(SnapPartsC(), p => ToSnapshot(p), s => AsSnapshot(s), s => true) }

  lemma SnapshotReads()
    ensures RoundTrips(SnapshotC())
  {
    HashGood();
    VarintGood(TWO64 - 1);
    InfoReads();
    PoolInfoReads();
    hide RoundTrips, HashC, EntryC, InfoC, PoolInfoC;
    EntryReads();
    ListRoundTrips(EntryC(), TWO64 - 1);
    ListRoundTrips(InfoC(), TWO64 - 1);
    ListRoundTrips(PoolInfoC(), TWO64 - 1);
    PairRoundTrips(ListC(InfoC(), TWO64 - 1), ListC(PoolInfoC(), TWO64 - 1));
    PairRoundTrips(ListC(EntryC(), TWO64 - 1), PairC(ListC(InfoC(), TWO64 - 1), ListC(PoolInfoC(), TWO64 - 1)));
    PairRoundTrips(VarintC(TWO64 - 1), ListsC());
    PairRoundTrips(HashC(), PairC(VarintC(TWO64 - 1), ListsC()));
    MapGood(SnapPartsC(), p => ToSnapshot(p), s => AsSnapshot(s), (s: Snapshot) => true);
  }

  /** The bytes of a snapshot: the magic number first. */
  function SnapshotBytes(s: Snapshot): Codecs.Bytes { LittleEndian(STATE_MAGIC, 4) + SnapshotC().enc(s) }

  /** `parse_state`, up to the filling of the tables: the magic number, the snapshot, and nothing after it. */
  function ParseBytes(bs: Codecs.Bytes): Option<Snapshot> {
    if |bs| < 4 || LittleEndianValue(bs[..4]) != STATE_MAGIC then None
    else
      match SnapshotC().dec(bs[4..])
      case None => None
      case Some((s, rest)) => if rest == [] then Some(s) else None
  }

  lemma ParseReads(s: Snapshot)
    requires SnapshotC().ok(s)
    ensures ParseBytes(SnapshotBytes(s)) == Some(s)
  {
    hide SnapshotC, LittleEndian, LittleEndianValue;
    SnapshotReads();
    var bs, e := SnapshotBytes(s), SnapshotC().enc(s);
    assert Limit(2) == 0x1_0000;
    LittleEndianReads(STATE_MAGIC, 4);
    assert bs[..4] == LittleEndian(STATE_MAGIC, 4) && bs[4..] == e + [];
  }

  // ---------------------------------------------------------------- the state in a snapshot

  function Points(es: seq<Entry>): (ks: seq<OutPoint>)
    ensures |ks| == |es| && forall i :: 0 <= i < |es| ==> ks[i] == es[i].o
  {
    seq(|es|, i requires 0 <= i < |es| => es[i].o)
  }

  function TokenIds(ts: seq<TokenInfo>): (ks: seq<Hash>)
    ensures |ks| == |ts| && forall i :: 0 <= i < |ts| ==> ks[i] == ts[i].id
  {
    seq(|ts|, i requires 0 <= i < |ts| => ts[i].id)
  }

  function PoolIds(ps: seq<Pool>): (ks: seq<Hash>)
    ensures |ks| == |ps| && forall i :: 0 <= i < |ps| ==> ks[i] == ps[i].token
  {
    seq(|ps|, i requires 0 <= i < |ps| => ps[i].token)
  }

  /** The snapshot lists exactly the state, each part in order of its key. */
  ghost predicate Lists(st: State, s: Snapshot) {
    && Sorted((a: OutPoint, b: OutPoint) => PointLess(a, b), Points(s.coins))
        && Elements(Points(s.coins)) == st.coins.Keys
    && (forall i :: 0 <= i < |s.coins| ==> s.coins[i].o in st.coins && st.coins[s.coins[i].o] == s.coins[i].c)
    && Sorted((a: Hash, b: Hash) => HashLess(a, b), TokenIds(s.tokens))
        && Elements(TokenIds(s.tokens)) == st.tokens.Keys
    && (forall i :: 0 <= i < |s.tokens| ==> s.tokens[i].id in st.tokens && st.tokens[s.tokens[i].id] == s.tokens[i])
    && Sorted((a: Hash, b: Hash) => HashLess(a, b), PoolIds(s.pools)) && Elements(PoolIds(s.pools)) == st.pools.Keys
    && (forall i :: 0 <= i < |s.pools| ==> s.pools[i].token in st.pools && st.pools[s.pools[i].token] == s.pools[i])
  }

  /** So the snapshot of a state depends on nothing but the state. */
  lemma ListsUnique(st: State, a: Snapshot, b: Snapshot)
    requires Lists(st, a) && Lists(st, b)
    ensures a.coins == b.coins && a.tokens == b.tokens && a.pools == b.pools
  {
    PointsOrdered();
    HashesOrdered();
    SortedUnique((x: OutPoint, y: OutPoint) => PointLess(x, y), Points(a.coins), Points(b.coins));
    SortedUnique((x: Hash, y: Hash) => HashLess(x, y), TokenIds(a.tokens), TokenIds(b.tokens));
    SortedUnique((x: Hash, y: Hash) => HashLess(x, y), PoolIds(a.pools), PoolIds(b.pools));
    forall i | 0 <= i < |a.coins| ensures a.coins[i] == b.coins[i] { assert Points(a.coins)[i] == Points(b.coins)[i]; }
    forall i | 0 <= i < |a.tokens| ensures a.tokens[i] == b.tokens[i] {
      assert TokenIds(a.tokens)[i] == TokenIds(b.tokens)[i];
    }
    forall i | 0 <= i < |a.pools| ensures a.pools[i] == b.pools[i] {
      assert PoolIds(a.pools)[i] == PoolIds(b.pools)[i];
    }
  }

  /** Token and pool entries carry the key they are filed under. */
  ghost predicate Keyed(st: State) {
    (forall t :: t in st.tokens ==> st.tokens[t].id == t) && (forall t :: t in st.pools ==> st.pools[t].token == t)
  }

  /** `serialize_state`. */
  method SerializeState(st: State, block: Hash, height: nat) returns (bs: Codecs.Bytes, s: Snapshot)
    requires Keyed(st)
    ensures Lists(st, s) && s.block == block && s.height == height && bs == SnapshotBytes(s)
    ensures forall t :: Lists(st, t) && t.block == block && t.height == height ==> bs == SnapshotBytes(t)
  {
    hide Lists, SnapshotBytes, Sorted, Ordering, PointLess, HashLess;
    PointsOrdered();
    HashesOrdered();
    var points := SortKeys((a: OutPoint, b: OutPoint) => PointLess(a, b), st.coins.Keys);
    var ids := SortKeys((a: Hash, b: Hash) => HashLess(a, b), st.tokens.Keys);
    var pids := SortKeys((a: Hash, b: Hash) => HashLess(a, b), st.pools.Keys);
    s := Listing(st, block, height, points, ids, pids);
    ListingLists(st, block, height, points, ids, pids);
    bs := SnapshotBytes(s);
    forall t | Lists(st, t) && t.block == block && t.height == height ensures bs == SnapshotBytes(t) {
      ListsUnique(st, s, t);
      assert t == s;
    }
  }

  /** The entries of the given keys. */
  function Listing(st: State, block: Hash, height: nat, points: seq<OutPoint>, ids: seq<Hash>,
                   pids: seq<Hash>): Snapshot
    requires Elements(points) == st.coins.Keys && Elements(ids) == st.tokens.Keys && Elements(pids) == st.pools.Keys
  {
    assert forall i :: 0 <= i < |points| ==> points[i] in Elements(points);
    assert forall i :: 0 <= i < |ids| ==> ids[i] in Elements(ids);
    assert forall i :: 0 <= i < |pids| ==> pids[i] in Elements(pids);
    Snapshot(block, height,
             seq(|points|, i requires 0 <= i < |points| => Entry(points[i], st.coins[points[i]])),
             seq(|ids|, i requires 0 <= i < |ids| => st.tokens[ids[i]]),
             seq(|pids|, i requires 0 <= i < |pids| => st.pools[pids[i]]))
  }

  lemma ListingLists(st: State, block: Hash, height: nat, points: seq<OutPoint>, ids: seq<Hash>, pids: seq<Hash>)
    requires Keyed(st) && Elements(points) == st.coins.Keys && Elements(ids) == st.tokens.Keys
               && Elements(pids) == st.pools.Keys
    requires Sorted((a: OutPoint, b: OutPoint) => PointLess(a, b), points)
    requires Sorted((a: Hash, b: Hash) => HashLess(a, b), ids) && Sorted((a: Hash, b: Hash) => HashLess(a, b), pids)
    ensures Lists(st, Listing(st, block, height, points, ids, pids))
  {
    hide Sorted, PointLess, HashLess;
    var s := Listing(st, block, height, points, ids, pids);
    assert forall i :: 0 <= i < |points| ==> points[i] in Elements(points);
    assert forall i :: 0 <= i < |ids| ==> ids[i] in Elements(ids);
    assert forall i :: 0 <= i < |pids| ==> pids[i] in Elements(pids);
    assert Points(s.coins) == points && TokenIds(s.tokens) == ids && PoolIds(s.pools) == pids;
  }

  /** Every keyed state has a snapshot. */
  lemma SnapshotExists(st: State, block: Hash, height: nat) returns (s: Snapshot)
    requires Keyed(st)
    ensures Lists(st, s) && s.block == block && s.height == height
  {
    PointsOrdered();
    HashesOrdered();
    hide Lists, Sorted, Ordering, PointLess, HashLess, Keyed;
    var points := SortedExists((a: OutPoint, b: OutPoint) => PointLess(a, b), st.coins.Keys);
    var ids := SortedExists((a: Hash, b: Hash) => HashLess(a, b), st.tokens.Keys);
    var pids := SortedExists((a: Hash, b: Hash) => HashLess(a, b), st.pools.Keys);
    s := Listing(st, block, height, points, ids, pids);
    ListingLists(st, block, height, points, ids, pids);
  }

  /** The tables a snapshot fills; a repeated key would overwrite. */
  function CoinsOf(es: seq<Entry>): map<OutPoint, Coin> {
    if es == [] then map[] else CoinsOf(es[..|es| - 1])[es[|es| - 1].o := es[|es| - 1].c]
  }

  function TokensOf(ts: seq<TokenInfo>): map<Hash, TokenInfo> {
    if ts == [] then map[] else TokensOf(ts[..|ts| - 1])[ts[|ts| - 1].id := ts[|ts| - 1]]
  }

  function PoolsOf(ps: seq<Pool>): map<Hash, Pool> {
    if ps == [] then map[] else PoolsOf(ps[..|ps| - 1])[ps[|ps| - 1].token := ps[|ps| - 1]]
  }

  function StateOf(s: Snapshot): State { State(CoinsOf(s.coins), TokensOf(s.tokens), PoolsOf(s.pools)) }

  lemma {:induction false} CoinsOfIs(es: seq<Entry>, m: map<OutPoint, Coin>)
    requires forall i :: 0 <= i < |es| ==> es[i].o in m && m[es[i].o] == es[i].c
    ensures CoinsOf(es).Keys == Elements(Points(es)) && forall o :: o in CoinsOf(es) ==>
              o in m && CoinsOf(es)[o] == m[o]
  {
    if es != [] {
      var n := |es| - 1;
      CoinsOfIs(es[..n], m);
      KeysNext(Points(es), n);
      assert Points(es[..n]) == Points(es)[..n];
    }
  }

  lemma {:induction false} TokensOfIs(ts: seq<TokenInfo>, m: map<Hash, TokenInfo>)
    requires forall i :: 0 <= i < |ts| ==> ts[i].id in m && m[ts[i].id] == ts[i]
    ensures TokensOf(ts).Keys == Elements(TokenIds(ts)) && forall t :: t in TokensOf(ts) ==>
              t in m && TokensOf(ts)[t] == m[t]
  {
    if ts != [] {
      var n := |ts| - 1;
      TokensOfIs(ts[..n], m);
      KeysNext(TokenIds(ts), n);
      assert TokenIds(ts[..n]) == TokenIds(ts)[..n];
    }
  }

  lemma {:induction false} PoolsOfIs(ps: seq<Pool>, m: map<Hash, Pool>)
    requires forall i :: 0 <= i < |ps| ==> ps[i].token in m && m[ps[i].token] == ps[i]
    ensures PoolsOf(ps).Keys == Elements(PoolIds(ps)) && forall t :: t in PoolsOf(ps) ==>
              t in m && PoolsOf(ps)[t] == m[t]
  {
    if ps != [] {
      var n := |ps| - 1;
      PoolsOfIs(ps[..n], m);
      KeysNext(PoolIds(ps), n);
      assert PoolIds(ps[..n]) == PoolIds(ps)[..n];
    }
  }

  lemma KeysNext<K>(ks: seq<K>, n: nat)
    requires |ks| == n + 1
    ensures Elements(ks) == Elements(ks[..n]) + {ks[n]}
  {
    assert ks == ks[..n] + [ks[n]];
  }

  lemma ListsState(st: State, s: Snapshot)
    requires Lists(st, s)
    ensures StateOf(s) == st
  {
    hide Sorted;
    CoinsOfIs(s.coins, st.coins);
    TokensOfIs(s.tokens, st.tokens);
    PoolsOfIs(s.pools, st.pools);
    SameMap(CoinsOf(s.coins), st.coins);
    SameMap(TokensOf(s.tokens), st.tokens);
    SameMap(PoolsOf(s.pools), st.pools);
  }

  /** Reading the snapshot of a state gives the state back. */
  lemma SnapshotExact(st: State, s: Snapshot)
    requires Lists(st, s) && SnapshotC().ok(s)
    ensures ParseBytes(SnapshotBytes(s)) == Some(s) && StateOf(s) == st
  {
    hide SnapshotC, Lists, ParseBytes, SnapshotBytes;
    ParseReads(s);
    ListsState(st, s);
  }

  lemma SameMap<K, V>(a: map<K, V>, b: map<K, V>)
    requires a.Keys == b.Keys && forall k :: k in a ==> a[k] == b[k]
    ensures a == b
  {}

  // ---------------------------------------------------------------- fast sync

  /** Connecting further blocks to a state at height `base`. */
  function ReplayFrom(r: Rules, st: State, base: nat, blocks: seq<Block>): Option<State> {
    if blocks == [] then Some(st)
    else
      var n := |blocks| - 1;
      match ReplayFrom(r, st, base, blocks[..n])
      case None => None
      case Some(mid) =>
        if !ShapeOk(blocks[n], base + n) then None
        else
          match ConnectState(r, mid, blocks[n], base + n, false)
          case Err(_) => None
          case Ok(st') => Some(st')
  }

  lemma {:induction false} ReplayJoins(r: Rules, front: seq<Block>, later: seq<Block>)
    requires Replayed(r, front).Some?
    ensures Replayed(r, front + later) == ReplayFrom(r, Replayed(r, front).value, |front|, later)
  {
    hide ConnectState, ShapeOk;
    if later == [] {
      assert front + later == front;
    } else {
      var n := |later| - 1;
      ReplayJoins(r, front, later[..n]);
      assert (front + later)[..|front| + n] == front + later[..n];
    }
  }

  // ---------------------------------------------------------------- every replayed state is keyed

  lemma {:induction false} OpsKeepKeys(k: Call, s: Scratch, i: nat, s': Scratch)
    requires i <= |k.core.ops| && k.core.ins != [] && RunOps(k, s, i) == Ok(s')
    requires Keyed(State(map[], s.minted, s.pools))
    ensures Keyed(State(map[], s'.minted, s'.pools))
    decreases |k.core.ops| - i
  {
    if i < |k.core.ops| {
      StepKeepsKeys(k, s, i);
      OpsKeepKeys(k, StepOp(k, s, i).value, i + 1, s');
    }
  }

  lemma StepKeepsKeys(k: Call, s: Scratch, i: nat)
    requires i < |k.core.ops| && k.core.ins != [] && StepOp(k, s, i).Ok? && Keyed(State(map[], s.minted, s.pools))
    ensures Keyed(State(map[], StepOp(k, s, i).value.minted, StepOp(k, s, i).value.pools))
  {}

  lemma ApplyKeepsKeys(r: Rules, st: State, tx: Transaction, height: nat)
    requires Keyed(st) && ApplyTx(r, st, tx, height, false).Ok?
    ensures Keyed(ApplyTx(r, st, tx, height, false).value.state)
  {
    var c := tx.core;
    var coins := Gather(r, st.coins, c.ins, height).value;
    var k, s := Call(r, c, height, coins, st.tokens), Start(c, coins, st.pools);
    OpsKeepKeys(k, s, 0, RunOps(k, s, 0).value);
  }

  lemma {:induction false} ApplyAllKeepsKeys(r: Rules, st: State, txs: seq<Transaction>, height: nat)
    requires Keyed(st) && ApplyAll(r, st, txs, height, false).Ok?
    ensures Keyed(ApplyAll(r, st, txs, height, false).value.state)
  {
    hide ApplyTx, Keyed;
    if txs != [] {
      var front := txs[..|txs| - 1];
      ApplyAllKeepsKeys(r, st, front, height);
      ApplyKeepsKeys(r, ApplyAll(r, st, front, height, false).value.state, txs[|txs| - 1], height);
    }
  }

  lemma {:induction false} ReplayKeyed(r: Rules, blocks: seq<Block>)
    requires Replayed(r, blocks).Some?
    ensures Keyed(Replayed(r, blocks).value)
  {
    hide ApplyAll;
    if blocks != [] {
      var n := |blocks| - 1;
      ReplayKeyed(r, blocks[..n]);
      var st, b := Replayed(r, blocks[..n]).value, blocks[n];
      ApplyAllKeepsKeys(r, ApplyCoinbase(r, st, b.txs[0], n), b.txs[1..], n);
    }
  }
}
