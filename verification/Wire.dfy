/** The wire formats byte by byte, written out flat: what the encoders of src/primitives/transaction.cpp:9-122 and
    src/chain/chainstate.cpp:56-85, 230-248 put where. */
module Wires {
  import opened Types
  import opened Arith
  import opened Limbs
  import opened Codecs
  import opened TxCodecs
  import opened Snapshots

  // ---------------------------------------------------------------- numbers

  /** A varint has the 7-bit digits of its number, lowest first, the top bit of every byte but the last set, and no
      digit too many. */
  lemma VarintDigits(v: nat)
    ensures var bs := VarintBytes(v); var n := |bs|;
            && n > 0 && v < Pow2(7 * n) && (n > 1 ==> v >= Pow2(7 * (n - 1)))
            && forall i :: 0 <= i < n ==> bs[i] % 0x80 == v / Pow2(7 * i) % 0x80 && (bs[i] >= 0x80 <==> i < n - 1)
  {
    hide Pow2, VarintBytes;
    VarintSize(v);
    forall i | 0 <= i < |VarintBytes(v)|
      ensures VarintBytes(v)[i] % 0x80 == v / Pow2(7 * i) % 0x80
      ensures VarintBytes(v)[i] >= 0x80 <==> i < |VarintBytes(v)| - 1
    {
      VarintDigit(v, i);
    }
  }

  lemma {:induction false} VarintSize(v: nat)
    ensures var n := |VarintBytes(v)|; n > 0 && v < Pow2(7 * n) && (n > 1 ==> v >= Pow2(7 * (n - 1)))
  {
    hide Pow2;
    SevenBits();
    if v >= 0x80 {
      var w := v / 0x80;
      VarintSize(w);
      var n := |VarintBytes(w)|;
      Pow2Add(7 * n, 7);
      Pow2Add(7 * (n - 1), 7);
      MulMono(w + 1, Pow2(7 * n), 0x80);
      if n > 1 { MulMono(Pow2(7 * (n - 1)), w, 0x80); }
    }
  }

  lemma {:induction false} VarintDigit(v: nat, i: nat)
    requires i < |VarintBytes(v)|
    ensures VarintBytes(v)[i] % 0x80 == v / Pow2(7 * i) % 0x80
    ensures VarintBytes(v)[i] >= 0x80 <==> i < |VarintBytes(v)| - 1
  {
    hide Pow2;
    SevenBits();
    if i > 0 {
      VarintDigit(v / 0x80, i - 1);
      DigitBelow(v, i);
      assert VarintBytes(v)[i] == VarintBytes(v / 0x80)[i - 1];
    } else if v >= 0x80 {
      VarintSize(v / 0x80);
      LowDigit(v);
    } else {
      assert v / 1 == v;
    }
  }

  lemma LowDigit(v: nat)
    ensures (v % 0x80 + 0x80) % 0x80 == v / 1 % 0x80
  {}

  lemma SevenBits()
    ensures Pow2(0) == 1 && Pow2(7) == 0x80 && Pow2(8) == 0x100
  {
    Pow2Square(2, 4);
    Pow2Square(4, 16);
  }

  lemma DigitBelow(v: nat, i: nat)
    requires i > 0
    ensures v / 0x80 / Pow2(7 * (i - 1)) == v / Pow2(7 * i)
  {
    hide Pow2;
    SevenBits();
    Pow2Add(7, 7 * (i - 1));
    DivDiv(v, 0x80, Pow2(7 * (i - 1)));
  }

  lemma ByteBelow(v: nat, i: nat)
    requires i > 0
    ensures v / 256 / Pow2(8 * (i - 1)) == v / Pow2(8 * i)
  {
    hide Pow2;
    SevenBits();
    Pow2Add(8, 8 * (i - 1));
    DivDiv(v, 256, Pow2(8 * (i - 1)));
  }

  /** Hashes go from their highest byte to their lowest, fixed-width numbers from their lowest to their highest. */
  lemma {:induction false} ByteOrder(v: nat, k: nat)
    ensures forall i :: 0 <= i < k ==>
              && BigEndian(v, k)[k - 1 - i] == v / Pow2(8 * i) % 256
              && LittleEndian(v, k)[i] == v / Pow2(8 * i) % 256
  {
    hide Pow2;
    SevenBits();
    if k > 0 {
      ByteOrder(v / 256, k - 1);
      forall i | 0 <= i < k
        ensures BigEndian(v, k)[k - 1 - i] == v / Pow2(8 * i) % 256 && LittleEndian(v, k)[i] == v / Pow2(8 * i) % 256
      {
        if i > 0 { ByteBelow(v, i); }
      }
    }
  }

  // ---------------------------------------------------------------- transactions

  function Each<T>(xs: seq<T>, f: T -> Codecs.Bytes): Codecs.Bytes
  {
    if xs == [] then [] else f(xs[0]) + Each(xs[1..], f)
  }

  function Id(h: Hash): Codecs.Bytes { BigEndian(h, 32) }

  function Num(v: nat): Codecs.Bytes { VarintBytes(v) }

  function Str(s: seq<byte>): Codecs.Bytes { Num(|s|) + s }

  function Flag(b: bool): Codecs.Bytes { [if b then 1 else 0] }

  function AssetWire(a: Hash): Codecs.Bytes { if a == QNT then [0] else [1] + Id(a) }

  function InWire(o: OutPoint): Codecs.Bytes { Id(o.txid) + Num(o.n) }

  function OutWire(o: TxOut): Codecs.Bytes { Num(o.value) + AssetWire(o.asset) + Id(o.addr) }

  function OpWire(op: TxOp): Codecs.Bytes {
    match op
    case CreateToken(ticker, name, decimals, supply,
        uri) => [1] + Str(ticker) + Str(name) + [decimals] + Num(supply) + Str(uri)
    case PoolCreate(token, qnt, tok, shares) => [2] + Id(token) + Num(qnt) + Num(tok) + Num(shares)
    case AddLiquidity(token, qnt, tok, shares) => [3] + Id(token) + Num(qnt) + Num(tok) + Num(shares)
    case RemoveLiquidity(token, shares, qnt, tok) => [4] + Id(token) + Num(shares) + Num(qnt) + Num(tok)
    case Swap(token, sell, amtIn, amtOut) => [5] + Id(token) + Flag(sell) + Num(amtIn) + Num(amtOut)
    case Message(from, to, gift, text) => [6] + Id(from) + Id(to) + [gift] + Str(text)
  }

  function CoreWire(c: Core): Codecs.Bytes {
    Num(c.version)
    + (Num(|c.ins|) + Each(c.ins, o => InWire(o)))
    + (Num(|c.outs|) + Each(c.outs, o => OutWire(o)))
    + (Num(|c.ops|) + Each(c.ops, op => OpWire(op)))
    + Num(c.lockHeight) + Str(c.extra)
  }

  function WitnessWire(w: Witness): Codecs.Bytes {
    match w
    case Ref(input) => [0] + Num(input)
    case Falcon(pk, sig) => [1] + pk + Str(sig)
  }

  function TransactionWire(t: Transaction): Codecs.Bytes {
    CoreWire(t.core) + Num(|t.wits|) + Each(t.wits, w => WitnessWire(w))
  }

  lemma {:induction false} SameEach<T>(c: Codec<T>, xs: seq<T>, f: T -> Codecs.Bytes)
    requires forall x :: x in xs ==> c.enc(x) == f(x)
    ensures EncodeAll(c, xs) == Each(xs, f)
  {
    if xs != [] { SameEach(c, xs[1..], f); }
  }

  lemma {:induction false} BytesAsTheyAre(s: seq<byte>)
    ensures EncodeAll(ByteC(), s) == s
  {
    if s != [] { BytesAsTheyAre(s[1..]); }
  }

  lemma TextWire(s: seq<byte>, max: nat)
    ensures TextC(max).enc(s) == Str(s)
  {
    BytesAsTheyAre(s);
  }

  lemma OutPointWire(o: OutPoint)
    ensures OutPointC().enc(o) == InWire(o)
  {}

  lemma TxOutWire(o: TxOut)
    ensures TxOutC().enc(o) == OutWire(o)
  {
    hide BigEndian, VarintBytes;
    assert TxOutC().enc(o) == Num(o.value) + (AssetWire(o.asset) + Id(o.addr));
  }

  lemma TokenOpWire(op: TxOp)
    requires op.CreateToken?
    ensures OpBody(1).enc(op) ==
            Str(op.ticker) + (Str(op.name) + ([op.decimals] + (Num(op.supply) + Str(op.uri))))
  {
    hide VarintBytes, TextC;
    TextWire(op.ticker, MAX_TICKER);
    TextWire(op.name, MAX_TOKEN_NAME);
    TextWire(op.uri, MAX_TOKEN_URI);
  }

  lemma PoolOpWire(op: TxOp)
    requires op.PoolCreate? || op.AddLiquidity? || op.RemoveLiquidity?
    ensures OpBody(Tag(op)).enc(op) ==
            Id(op.token) + (if op.RemoveLiquidity? then Num(op.shares) + (Num(op.qnt) + Num(op.tok))
                            else Num(op.qnt) + (Num(op.tok) + Num(op.shares)))
  {
    hide BigEndian, VarintBytes;
  }

  lemma SwapOpWire(op: TxOp)
    requires op.Swap?
    ensures OpBody(5).enc(op) == Id(op.token) + (Flag(op.sell) + (Num(op.amtIn) + Num(op.amtOut)))
  {
    hide BigEndian, VarintBytes;
  }

  lemma MessageOpWire(op: TxOp)
    requires op.Message?
    ensures OpBody(6).enc(op) == Id(op.from) + (Id(op.to) + ([op.gift] + Str(op.text)))
  {
    hide BigEndian, VarintBytes, TextC;
    TextWire(op.text, MAX_MESSAGE_TEXT);
  }

  lemma InOneRow(a: Codecs.Bytes, b: Codecs.Bytes, c: Codecs.Bytes, d: Codecs.Bytes, e: Codecs.Bytes, f: Codecs.Bytes)
    ensures a + (b + (c + (d + e))) == a + b + c + d + e
    ensures a + (b + (c + (d + (e + f)))) == a + b + c + d + e + f
  {}

  lemma OpIsWire(op: TxOp)
    ensures OpC().enc(op) == OpWire(op)
  {
    hide OpBody, Id, Num, Str, Flag;
    TagFirst(op);
    match op
    case CreateToken(ticker, name, decimals, supply, uri) =>
      TokenOpWire(op);
      InOneRow([1], Str(ticker), Str(name), [decimals], Num(supply), Str(uri));
    case PoolCreate(t, q, k, s) => PoolOpWire(op); InOneRow([2], Id(t), Num(q), Num(k), Num(s), []);
    case AddLiquidity(t, q, k, s) => PoolOpWire(op); InOneRow([3], Id(t), Num(q), Num(k), Num(s), []);
    case RemoveLiquidity(t, s, q, k) => PoolOpWire(op); InOneRow([4], Id(t), Num(s), Num(q), Num(k), []);
    case Swap(t, sell, i, o) => SwapOpWire(op); InOneRow([5], Id(t), Flag(sell), Num(i), Num(o), []);
    case Message(from, to, gift, text) => MessageOpWire(op); InOneRow([6], Id(from), Id(to), [gift], Str(text), []);
  }

  lemma TagFirst(op: TxOp)
    ensures OpC().enc(op) == [Tag(op)] + OpBody(Tag(op)).enc(op)
  {
    hide OpBody;
  }

  lemma NumIs()
    ensures forall v: nat :: Num(v) == VarintBytes(v)
  {}

  /** The bytes of a core, whose hash is the transaction's id. */
  lemma CoreIsWire(c: Core)
    ensures CoreC().enc(c) == CoreWire(c)
  {
    hide BigEndian, VarintBytes, Num, Str, TextC, OutPointC, TxOutC, OpC, InWire, OutWire, OpWire, EncodeAll, Each;
    NumIs();
    forall o | o in c.ins ensures OutPointC().enc(o) == InWire(o) { OutPointWire(o); }
    forall o | o in c.outs ensures TxOutC().enc(o) == OutWire(o) { TxOutWire(o); }
    forall op | op in c.ops ensures OpC().enc(op) == OpWire(op) { OpIsWire(op); }
    SameEach(OutPointC(), c.ins, o => InWire(o));
    SameEach(TxOutC(), c.outs, o => OutWire(o));
    SameEach(OpC(), c.ops, op => OpWire(op));
    TextWire(c.extra, MAX_COINBASE_EXTRA);
    var ins, outs, ops := Num(|c.ins|) + Each(c.ins, o => InWire(o)), Num(|c.outs|) + Each(c.outs, o => OutWire(o)),
        Num(|c.ops|) + Each(c.ops, op => OpWire(op));
    assert CoreC().enc(c) == Num(c.version) + (ins + (outs + (ops + (Num(c.lockHeight) + Str(c.extra)))));
    InOneRow(Num(c.version), ins, outs, ops, Num(c.lockHeight), Str(c.extra));
  }

  lemma FalconWire(w: Witness)
    requires w.Falcon?
    ensures FalconC().enc(w) == w.pk + Str(w.sig)
  {
    hide VarintBytes, TextC;
    TextWire(w.sig, FALCON_SIG_MAX);
  }

  lemma RefWire(w: Witness)
    requires w.Ref?
    ensures RefC().enc(w) == Num(w.input)
  {}

  lemma WitnessIsWire(w: Witness)
    ensures WitnessC().enc(w) == WitnessWire(w)
  {
    hide VarintBytes, FalconC, RefC, Str;
    if w.Falcon? {
      FalconWire(w);
      assert WitnessC().enc(w) == [1] + FalconC().enc(w);
    } else {
      RefWire(w);
      assert WitnessC().enc(w) == [0] + RefC().enc(w);
    }
  }

  /** And of a whole transaction. */
  lemma TransactionIsWire(t: Transaction)
    ensures TransactionC().enc(t) == TransactionWire(t)
  {
    hide VarintBytes, CoreC, CoreWire, WitnessC, WitnessWire, EncodeAll, Each;
    CoreIsWire(t.core);
    forall w | w in t.wits ensures WitnessC().enc(w) == WitnessWire(w) { WitnessIsWire(w); }
    SameEach(WitnessC(), t.wits, w => WitnessWire(w));
    assert TransactionC().enc(t) == CoreWire(t.core) + (Num(|t.wits|) + Each(t.wits, w => WitnessWire(w)));
  }

  // ---------------------------------------------------------------- snapshots

  function CoinWire(e: Entry): Codecs.Bytes {
    Id(e.o.txid) + Num(e.o.n) + Num(e.c.out.value) + AssetWire(e.c.out.asset) + Id(e.c.out.addr) + Num(e.c.height)
    + Flag(e.c.coinbase)
  }

  function TokenWire(t: TokenInfo): Codecs.Bytes {
    Id(t.id) + Str(t.ticker) + Str(t.name) + Str(t.uri) + [t.decimals] + Num(t.supply) + Id(t.createTxid)
    + Num(t.height)
  }

  function PoolWire(p: Pool): Codecs.Bytes { Id(p.token) + Num(p.qnt) + Num(p.tok) + Num(p.shares) }

  /** "QST2", the block and its height, and the three lists with their lengths. */
  function SnapshotWire(s: Snapshot): Codecs.Bytes {
    ['Q' as int, 'S' as int, 'T' as int, '2' as int] + Id(s.block) + Num(s.height)
    + (Num(|s.coins|) + Each(s.coins, e => CoinWire(e)))
    + (Num(|s.tokens|) + Each(s.tokens, t => TokenWire(t)))
    + (Num(|s.pools|) + Each(s.pools, p => PoolWire(p)))
  }

  lemma EntryIsWire(e: Entry)
    ensures EntryC().enc(e) == CoinWire(e)
  {
    hide BigEndian, VarintBytes;
    assert EntryC().enc(e) ==
           (Id(e.o.txid) + Num(e.o.n))
             + (Num(e.c.out.value) + (AssetWire(e.c.out.asset)
               + (Id(e.c.out.addr) + (Num(e.c.height) + Flag(e.c.coinbase)))));
  }

  lemma InfoIsWire(t: TokenInfo)
    ensures InfoC().enc(t) == TokenWire(t)
  {
    hide BigEndian, VarintBytes, TextC;
    TextWire(t.ticker, MAX_TICKER);
    TextWire(t.name, MAX_TOKEN_NAME);
    TextWire(t.uri, MAX_TOKEN_URI);
    assert InfoC().enc(t) ==
           Id(t.id) + (Str(t.ticker) + (Str(t.name) + (Str(t.uri)
             + ([t.decimals] + (Num(t.supply) + (Id(t.createTxid) + Num(t.height)))))));
  }

  lemma PoolIsWire(p: Pool)
    ensures PoolInfoC().enc(p) == PoolWire(p)
  {
    hide BigEndian, VarintBytes;
    assert PoolInfoC().enc(p) == Id(p.token) + (Num(p.qnt) + (Num(p.tok) + Num(p.shares)));
  }

  lemma MagicIs()
    ensures LittleEndian(STATE_MAGIC, 4) == ['Q' as int, 'S' as int, 'T' as int, '2' as int]
  {
    assert LittleEndian(0x32, 1) == [0x32];
    assert LittleEndian(0x3254, 2) == [0x54, 0x32];
    assert LittleEndian(0x32_5453, 3) == [0x53, 0x54, 0x32];
  }

  lemma ListsWire(s: Snapshot)
    ensures ListsC().enc((s.coins, (s.tokens, s.pools))) ==
            (Num(|s.coins|) + Each(s.coins, e => CoinWire(e)))
              + ((Num(|s.tokens|) + Each(s.tokens, t => TokenWire(t))) + (Num(|s.pools|) + Each(s.pools,
                  p => PoolWire(p))))
  {
    hide VarintBytes, EntryC, InfoC, PoolInfoC, CoinWire, TokenWire, PoolWire, EncodeAll, Each;
    forall e | e in s.coins ensures EntryC().enc(e) == CoinWire(e) { EntryIsWire(e); }
    forall t | t in s.tokens ensures InfoC().enc(t) == TokenWire(t) { InfoIsWire(t); }
    forall p | p in s.pools ensures PoolInfoC().enc(p) == PoolWire(p) { PoolIsWire(p); }
    SameEach(EntryC(), s.coins, e => CoinWire(e));
    SameEach(InfoC(), s.tokens, t => TokenWire(t));
    SameEach(PoolInfoC(), s.pools, p => PoolWire(p));
  }

  /** The bytes of a snapshot, whose hash headers commit to. */
  lemma SnapshotIsWire(s: Snapshot)
    ensures SnapshotBytes(s) == SnapshotWire(s)
  {
    hide BigEndian, VarintBytes, LittleEndian, ListsC, Each, CoinWire, TokenWire, PoolWire;
    MagicIs();
    ListsWire(s);
    assert SnapshotC().enc(s) == Id(s.block) + (Num(s.height) + ListsC().enc((s.coins, (s.tokens, s.pools))));
  }

  /** In which order: by transaction and output, by token, by pool, each ascending. */
  lemma ListedInOrder(st: State, s: Snapshot)
    requires Lists(st, s)
    ensures forall i, j :: 0 <= i < j < |s.coins| ==>
              s.coins[i].o.txid < s.coins[j].o.txid
                  || (s.coins[i].o.txid == s.coins[j].o.txid && s.coins[i].o.n < s.coins[j].o.n)
    ensures forall i, j :: 0 <= i < j < |s.tokens| ==> s.tokens[i].id < s.tokens[j].id
    ensures forall i, j :: 0 <= i < j < |s.pools| ==> s.pools[i].token < s.pools[j].token
  {
    forall i, j | 0 <= i < j < |s.coins| ensures PointLess(s.coins[i].o, s.coins[j].o) {
      assert Points(s.coins)[i] == s.coins[i].o && Points(s.coins)[j] == s.coins[j].o;
    }
    forall i, j | 0 <= i < j < |s.tokens| ensures HashLess(s.tokens[i].id, s.tokens[j].id) {
      assert TokenIds(s.tokens)[i] == s.tokens[i].id && TokenIds(s.tokens)[j] == s.tokens[j].id;
    }
    forall i, j | 0 <= i < j < |s.pools| ensures HashLess(s.pools[i].token, s.pools[j].token) {
      assert PoolIds(s.pools)[i] == s.pools[i].token && PoolIds(s.pools)[j] == s.pools[j].token;
    }
  }
}
