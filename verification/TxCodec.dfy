/** The encodings of transactions and witnesses (src/primitives/transaction.cpp:11-122), all mutually inverse
    with their readers. */
module TxCodecs {
  import opened Types
  import opened Arith
  import opened Codecs

  const FALCON_PK_BYTES: nat := 897
  const FALCON_SIG_MAX: nat := 752

  ghost predicate Good<T(!new)>(c: Codec<T>) { RoundTrips(c) && Canonical(c) }

  lemma PairGood<A(!new), B(!new)>(a: Codec<A>, b: Codec<B>)
    requires Good(a) && Good(b)
    ensures Good(PairC(a, b))
  {
    PairRoundTrips(a, b);
    PairCanonical(a, b);
  }

  lemma ListGood<T(!new)>(c: Codec<T>, max: nat)
    requires Good(c)
    ensures Good(ListC(c, max))
  {
    ListRoundTrips(c, max);
    ListCanonical(c, max);
  }

  /** A format for another type with the same bytes. */
  lemma Mapped<A(!new), B(!new)>(a: Codec<A>, to: A -> B, from: B -> A, has: B -> bool)
    requires Good(a)
    requires forall y :: has(y) ==> to(from(y)) == y
    requires forall x :: a.ok(x) ==> has(to(x)) && from(to(x)) == x
    ensures Good(MapC(a, to, from, has))
  {
    MapGood(a, to, from, has);
  }

  // ---------------------------------------------------------------- small formats

  function HashC(): Codec<Hash> { MapC(RawC(32), b => BigEndianValue(b), h => BigEndian(h, 32), h => h < Limit(32)) }

  lemma HashGood()
    ensures Good(HashC())
  {
    RawGood(32);
    forall h: Hash | h < Limit(32) ensures BigEndianValue(BigEndian(h, 32)) == h { BigEndianReads(h, 32); }
    forall b: Codecs.Bytes | |b| == 32 ensures BigEndianValue(b) < Limit(32) && BigEndian(BigEndianValue(b), 32) == b {
      BigEndianCanonical(b);
    }
    Mapped(RawC(32), b => BigEndianValue(b), h => BigEndian(h, 32), (h: Hash) => h < Limit(32));
  }

  function ToAmount(v: nat): Amount { if v < TWO64 then v else 0 }

  function AmountC(): Codec<Amount>
  {
    MapC(VarintC(TWO64 - 1), v => ToAmount(v), (a: Amount) => a as nat, (a: Amount) => true)
  }

  lemma AmountGood()
    ensures Good(AmountC())
  {
    VarintGood(TWO64 - 1);
    Mapped(VarintC(TWO64 - 1), v => ToAmount(v), (a: Amount) => a as nat, (a: Amount) => true);
  }

  function TextC(max: nat): Codec<seq<byte>> { ListC(ByteC(), max) }

  lemma TextGood(max: nat)
    ensures Good(TextC(max))
  {
    ByteGood();
    ListGood(ByteC(), max);
  }

  /** QNT is a zero byte; any other asset a one and its id, which must not be zero. */
  function ReadAsset(bs: Codecs.Bytes): Parsed<Hash> {
    if bs == [] then None
    else if bs[0] == 0 then Some((QNT, bs[1..]))
    else if bs[0] == 1 then
      match HashC().dec(bs[1..])
      case None => None
      case Some((h, rest)) => if h == 0 then None else Some((h, rest))
    else None
  }

  function AssetC(): Codec<Hash> {
    Codec(h => HashC().ok(h), h => if h == QNT then [0] else [1] + HashC().enc(h), bs => ReadAsset(bs))
  }

  lemma AssetGood()
    ensures Good(AssetC())
  {
    hide HashC;
    HashGood();
    assert HashC().ok(QNT) by { ZeroFits(); }
    forall h: Hash, rest: Codecs.Bytes | AssetC().ok(h)
      ensures AssetC().dec(AssetC().enc(h) + rest) == Some((h, rest))
    {
      var bs := AssetC().enc(h) + rest;
      if h == QNT {
        assert bs[1..] == rest;
      } else {
        assert bs[1..] == HashC().enc(h) + rest;
      }
    }
    forall bs: Codecs.Bytes | AssetC().dec(bs).Some?
      ensures AssetC().ok(AssetC().dec(bs).value.0)
                && bs == AssetC().enc(AssetC().dec(bs).value.0) + AssetC().dec(bs).value.1
    {
      assert bs == [bs[0]] + bs[1..];
    }
  }

  lemma ZeroFits()
    ensures HashC().ok(QNT)
  {
    hide BigEndian, BigEndianValue;
    LimitPositive(32);
  }

  lemma {:induction false} LimitPositive(k: nat)
    ensures Limit(k) > 0
  {
    if k > 0 { LimitPositive(k - 1); }
  }

  // ---------------------------------------------------------------- inputs and outputs

  type OutParts = (Amount, (Hash, Hash))

  function ToTxOut(p: OutParts): TxOut { TxOut(p.0, p.1.0, p.1.1) }

  function FromTxOut(o: TxOut): OutParts { (o.value, (o.asset, o.addr)) }

  function TxOutC(): Codec<TxOut>
  {
    MapC(PairC(AmountC(), PairC(AssetC(), HashC())), p => ToTxOut(p), o => FromTxOut(o), o => true)
  }

  lemma TxOutGood()
    ensures Good(TxOutC())
  {
    AmountGood();
    AssetGood();
    HashGood();
    PairGood(AssetC(), HashC());
    PairGood(AmountC(), PairC(AssetC(), HashC()));
    Mapped(PairC(AmountC(), PairC(AssetC(), HashC())), p => ToTxOut(p), o => FromTxOut(o), (o: TxOut) => true);
  }

  function ToOutPoint(p: (Hash, nat)): OutPoint { OutPoint(p.0, p.1) }

  function FromOutPoint(o: OutPoint): (Hash, nat) { (o.txid, o.n) }

  function OutPointC(): Codec<OutPoint>
  {
    MapC(PairC(HashC(), VarintC(0xffff_ffff)), p => ToOutPoint(p), o => FromOutPoint(o), o => true)
  }

  lemma OutPointGood()
    ensures Good(OutPointC())
  {
    HashGood();
    VarintGood(0xffff_ffff);
    PairGood(HashC(), VarintC(0xffff_ffff));
    Mapped(PairC(HashC(), VarintC(0xffff_ffff)), p => ToOutPoint(p), o => FromOutPoint(o), (o: OutPoint) => true);
  }

  // ---------------------------------------------------------------- ops

  type Text = seq<byte>
  type TokenParts = (Text, (Text, (byte, (Amount, Text))))
  type PoolParts = (Hash, (Amount, (Amount, Amount)))
  type SwapParts = (Hash, (bool, (Amount, Amount)))
  type MessageParts = (Hash, (Hash, (byte, Text)))

  function Tag(op: TxOp): (t: byte)
    ensures 1 <= t <= 6
  {
    match op
    case CreateToken(_, _, _, _, _) => 1
    case PoolCreate(_, _, _, _) => 2
    case AddLiquidity(_, _, _, _) => 3
    case RemoveLiquidity(_, _, _, _) => 4
    case Swap(_, _, _, _) => 5
    case Message(_, _, _, _) => 6
  }

  function AsToken(op: TxOp): TokenParts {
    if op.CreateToken? then (op.ticker, (op.name, (op.decimals, (op.supply, op.uri)))) else ([], ([], (0, (0, []))))
  }

  function AsPool(op: TxOp): PoolParts {
    match op
    case PoolCreate(t, q, k, s) => (t, (q, (k, s)))
    case AddLiquidity(t, q, k, s) => (t, (q, (k, s)))
    case RemoveLiquidity(t, s, q, k) => (t, (s, (q, k)))
    case _ => (0, (0, (0, 0)))
  }

  function AsSwap(op: TxOp): SwapParts {
    if op.Swap? then (op.token, (op.sell, (op.amtIn, op.amtOut))) else (0, (false, (0, 0)))
  }

  function AsMessage(op: TxOp): MessageParts {
    if op.Message? then (op.from, (op.to, (op.gift, op.text))) else (0, (0, (0, [])))
  }

  function ReadFlag(bs: Codecs.Bytes): Parsed<bool> {
    if bs == [] || bs[0] > 1 then None else Some((bs[0] == 1, bs[1..]))
  }

  function FlagC(): Codec<bool> { Codec(b => true, b => if b then [1] else [0], bs => ReadFlag(bs)) }

  lemma FlagGood()
    ensures Good(FlagC())
  {
    forall b: bool, rest: Codecs.Bytes ensures FlagC().dec(FlagC().enc(b) + rest) == Some((b, rest)) {
      assert (FlagC().enc(b) + rest)[1..] == rest;
    }
    forall bs: Codecs.Bytes | FlagC().dec(bs).Some?
      ensures bs == FlagC().enc(FlagC().dec(bs).value.0) + FlagC().dec(bs).value.1
    {
      assert bs == [bs[0]] + bs[1..];
    }
  }

  function TokenC(): Codec<TokenParts> {
    PairC(TextC(MAX_TICKER), PairC(TextC(MAX_TOKEN_NAME), PairC(ByteC(), PairC(AmountC(), TextC(MAX_TOKEN_URI)))))
  }

  function PoolC(): Codec<PoolParts> { PairC(HashC(), PairC(AmountC(), PairC(AmountC(), AmountC()))) }

  function SwapC(): Codec<SwapParts> { PairC(HashC(), PairC(FlagC(), PairC(AmountC(), AmountC()))) }

  function MessageC(): Codec<MessageParts> { PairC(HashC(), PairC(HashC(), PairC(ByteC(), TextC(MAX_MESSAGE_TEXT)))) }

  lemma PartsGood()
    ensures Good(TokenC()) && Good(PoolC()) && Good(SwapC()) && Good(MessageC())
  {
    hide Good;
    HashGood();
    AmountGood();
    FlagGood();
    TextGood(MAX_TICKER);
    TextGood(MAX_TOKEN_NAME);
    TextGood(MAX_TOKEN_URI);
    TextGood(MAX_MESSAGE_TEXT);
    assert Good(ByteC()) by { ByteIsGood(); }
    PairGood(AmountC(), AmountC());
    PairGood(AmountC(), PairC(AmountC(), AmountC()));
    PairGood(HashC(), PairC(AmountC(), PairC(AmountC(), AmountC())));
    PairGood(FlagC(), PairC(AmountC(), AmountC()));
    PairGood(HashC(), PairC(FlagC(), PairC(AmountC(), AmountC())));
    PairGood(ByteC(), TextC(MAX_MESSAGE_TEXT));
    PairGood(HashC(), PairC(ByteC(), TextC(MAX_MESSAGE_TEXT)));
    PairGood(HashC(), PairC(HashC(), PairC(ByteC(), TextC(MAX_MESSAGE_TEXT))));
    PairGood(AmountC(), TextC(MAX_TOKEN_URI));
    PairGood(ByteC(), PairC(AmountC(), TextC(MAX_TOKEN_URI)));
    PairGood(TextC(MAX_TOKEN_NAME), PairC(ByteC(), PairC(AmountC(), TextC(MAX_TOKEN_URI))));
    PairGood(TextC(MAX_TICKER), PairC(TextC(MAX_TOKEN_NAME), PairC(ByteC(), PairC(AmountC(), TextC(MAX_TOKEN_URI)))));
  }

  lemma ByteIsGood()
    ensures Good(ByteC())
  {
    ByteGood();
  }

  function ToToken(p: TokenParts): TxOp { CreateToken(p.0, p.1.0, p.1.1.0, p.1.1.1.0, p.1.1.1.1) }

  /** The three liquidity ops have the same bytes; `RemoveLiquidity` puts its shares first. */
  function ToPoolOp(t: byte, p: PoolParts): TxOp {
    if t == 2 then PoolCreate(p.0, p.1.0, p.1.1.0, p.1.1.1)
    else if t == 3 then AddLiquidity(p.0, p.1.0, p.1.1.0, p.1.1.1)
    else RemoveLiquidity(p.0, p.1.0, p.1.1.0, p.1.1.1)
  }

  function ToSwap(p: SwapParts): TxOp { Swap(p.0, p.1.0, p.1.1.0, p.1.1.1) }

  function ToMessage(p: MessageParts): TxOp { Message(p.0, p.1.0, p.1.1.0, p.1.1.1) }

  /** The body of an op with tag `t`. */
  function OpBody(t: byte): Codec<TxOp>
    requires 1 <= t <= 6
  {
    if t == 1 then MapC(TokenC(), p => ToToken(p), op => AsToken(op), op => Tag(op) == 1)
    else if t <= 4 then MapC(PoolC(), p => ToPoolOp(t, p), op => AsPool(op), op => Tag(op) == t)
    else if t == 5 then MapC(SwapC(), p => ToSwap(p), op => AsSwap(op), op => Tag(op) == 5)
    else MapC(MessageC(), p => ToMessage(p), op => AsMessage(op), op => Tag(op) == 6)
  }

  lemma OpBodyGood(t: byte)
    requires 1 <= t <= 6
    ensures Good(OpBody(t)) && forall op :: OpBody(t).ok(op) ==> Tag(op) == t
  {
    hide Good, PairC, TokenC, PoolC, SwapC, MessageC;
    PartsGood();
    if t == 1 {
      Mapped(TokenC(), p => ToToken(p), op => AsToken(op), op => Tag(op) == 1);
    } else if t <= 4 {
      Mapped(PoolC(), p => ToPoolOp(t, p), op => AsPool(op), op => Tag(op) == t);
    } else if t == 5 {
      Mapped(SwapC(), p => ToSwap(p), op => AsSwap(op), op => Tag(op) == 5);
    } else {
      Mapped(MessageC(), p => ToMessage(p), op => AsMessage(op), op => Tag(op) == 6);
    }
  }

  function ReadOp(bs: Codecs.Bytes): Parsed<TxOp> {
    if bs == [] || bs[0] < 1 || bs[0] > 6 then None else OpBody(bs[0]).dec(bs[1..])
  }

  function OpC(): Codec<TxOp> {
    Codec((op: TxOp) => OpBody(Tag(op)).ok(op), (op: TxOp) => [Tag(op)] + OpBody(Tag(op)).enc(op), bs => ReadOp(bs))
  }

  lemma OpGood()
    ensures Good(OpC())
  {
    hide OpBody;
    forall op: TxOp, rest: Codecs.Bytes | OpC().ok(op) ensures OpC().dec(OpC().enc(op) + rest) == Some((op, rest)) {
      OpBodyGood(Tag(op));
      assert (OpC().enc(op) + rest)[1..] == OpBody(Tag(op)).enc(op) + rest;
    }
    forall bs: Codecs.Bytes | OpC().dec(bs).Some?
      ensures OpC().ok(OpC().dec(bs).value.0) && bs == OpC().enc(OpC().dec(bs).value.0) + OpC().dec(bs).value.1
    {
      OpBodyGood(bs[0]);
      assert bs == [bs[0]] + bs[1..];
    }
  }

  // ---------------------------------------------------------------- transactions

  type CoreParts = (nat, (seq<OutPoint>, (seq<TxOut>, (seq<TxOp>, (Amount, Text)))))

  function ToCore(p: CoreParts): Core { Core(p.0, p.1.0, p.1.1.0, p.1.1.1.0, p.1.1.1.1.0, p.1.1.1.1.1) }

  function AsCore(c: Core): CoreParts { (c.version, (c.ins, (c.outs, (c.ops, (c.lockHeight, c.extra))))) }

  function TailC(): Codec<(seq<TxOp>, (Amount, Text))> {
    PairC(ListC(OpC(), MAX_TX_OPS), PairC(AmountC(), TextC(MAX_COINBASE_EXTRA)))
  }

  function CorePartsC(): Codec<CoreParts> {
    PairC(VarintC(0xffff_ffff), PairC(ListC(OutPointC(), MAX_TX_INPUTS),
          PairC(ListC(TxOutC(), MAX_TX_OUTPUTS), TailC())))
  }

  /** `write_core` and `read_core`. */
  function CoreC(): Codec<Core> { MapC(CorePartsC(), p => ToCore(p), c => AsCore(c), c => true) }

  /** A transaction core within its limits reads back whatever follows it, and everything read re-encodes to
      exactly the bytes it was read from. */
  lemma CoreGood()
    ensures Good(CoreC())
  {
    hide Good, OpC, OutPointC, TxOutC, TextC, AmountC;
    OpGood();
    OutPointGood();
    TxOutGood();
    TextGood(MAX_COINBASE_EXTRA);
    AmountGood();
    VarintIsGood(0xffff_ffff);
    ListGood(OpC(), MAX_TX_OPS);
    ListGood(OutPointC(), MAX_TX_INPUTS);
    ListGood(TxOutC(), MAX_TX_OUTPUTS);
    PairGood(AmountC(), TextC(MAX_COINBASE_EXTRA));
    PairGood(ListC(OpC(), MAX_TX_OPS), PairC(AmountC(), TextC(MAX_COINBASE_EXTRA)));
    PairGood(ListC(TxOutC(), MAX_TX_OUTPUTS), TailC());
    PairGood(ListC(OutPointC(), MAX_TX_INPUTS), PairC(ListC(TxOutC(), MAX_TX_OUTPUTS), TailC()));
    PairGood(VarintC(0xffff_ffff), PairC(ListC(OutPointC(), MAX_TX_INPUTS),
             PairC(ListC(TxOutC(), MAX_TX_OUTPUTS), TailC())));
    Mapped(CorePartsC(), p => ToCore(p), c => AsCore(c), (c: Core) => true);
  }

  lemma VarintIsGood(max: nat)
    ensures Good(VarintC(max))
  {
    VarintGood(max);
  }

  /** Ids that are a collision-free hash of the encoding do not collide on transactions within limits. */
  lemma IdsFromBytes(hash: Codecs.Bytes -> Hash, a: Core, b: Core)
    requires forall x, y :: hash(x) == hash(y) ==> x == y
    requires CoreC().ok(a) && CoreC().ok(b) && hash(CoreC().enc(a)) == hash(CoreC().enc(b))
    ensures a == b
  {
    hide CoreC;
    CoreGood();
    assert CoreC().enc(a) + [] == CoreC().enc(b);
    OneEncoding(CoreC(), a, b, []);
  }

  // ---------------------------------------------------------------- witnesses

  function ReadWitness(bs: Codecs.Bytes): Parsed<Witness> {
    if bs == [] then None
    else if bs[0] == 0 then RefC().dec(bs[1..])
    else if bs[0] == 1 then FalconC().dec(bs[1..])
    else None
  }

  function RefC(): Codec<Witness> {
    MapC(VarintC(MAX_TX_INPUTS), n => Ref(n), (w: Witness) => if w.Ref? then w.input else 0, (w: Witness) => w.Ref?)
  }

  function FalconC(): Codec<Witness> {
    MapC(PairC(RawC(FALCON_PK_BYTES), TextC(FALCON_SIG_MAX)), p => ToFalcon(p), w => AsFalcon(w),
         (w: Witness) => w.Falcon?)
  }

  function ToFalcon(p: (Text, Text)): Witness { Falcon(p.0, p.1) }

  function AsFalcon(w: Witness): (Text, Text) { if w.Falcon? then (w.pk, w.sig) else ([], []) }

  function WitnessC(): Codec<Witness> {
    Codec((w: Witness) => if w.Ref? then RefC().ok(w) else FalconC().ok(w),
          (w: Witness) => if w.Ref? then [0] + RefC().enc(w) else [1] + FalconC().enc(w),
          bs => ReadWitness(bs))
  }

  lemma WitnessBodiesGood()
    ensures Good(RefC()) && Good(FalconC())
    ensures forall w :: (RefC().ok(w) ==> w.Ref?) && (FalconC().ok(w) ==> w.Falcon?)
  {
    hide Good;
    VarintIsGood(MAX_TX_INPUTS);
    Mapped(VarintC(MAX_TX_INPUTS), n => Ref(n), (w: Witness) => if w.Ref? then w.input else 0, (w: Witness) => w.Ref?);
    assert Good(RawC(FALCON_PK_BYTES)) by { RawIsGood(FALCON_PK_BYTES); }
    TextGood(FALCON_SIG_MAX);
    PairGood(RawC(FALCON_PK_BYTES), TextC(FALCON_SIG_MAX));
    Mapped(PairC(RawC(FALCON_PK_BYTES), TextC(FALCON_SIG_MAX)), p => ToFalcon(p), w => AsFalcon(w),
           (w: Witness) => w.Falcon?);
  }

  lemma RawIsGood(k: nat)
    ensures Good(RawC(k))
  {
    RawGood(k);
  }

  lemma WitnessGood()
    ensures Good(WitnessC())
  {
    hide RefC, FalconC;
    WitnessBodiesGood();
    forall w: Witness,
        rest: Codecs.Bytes | WitnessC().ok(w) ensures WitnessC().dec(WitnessC().enc(w) + rest) == Some((w, rest)) {
      assert (WitnessC().enc(w) + rest)[1..] == (if w.Ref? then RefC().enc(w) else FalconC().enc(w)) + rest;
    }
    forall bs: Codecs.Bytes | WitnessC().dec(bs).Some?
      ensures WitnessC().ok(WitnessC().dec(bs).value.0)
                && bs == WitnessC().enc(WitnessC().dec(bs).value.0) + WitnessC().dec(bs).value.1
    {
      assert bs == [bs[0]] + bs[1..];
    }
  }

  function WitnessesC(): Codec<seq<Witness>> { ListC(WitnessC(), MAX_TX_INPUTS) }

  function ToTransaction(p: (Core, seq<Witness>)): Transaction { Transaction(p.0, p.1) }

  function AsTransaction(t: Transaction): (Core, seq<Witness>) { (t.core, t.wits) }

  /** `write_full` and `read_full`. */
  function TransactionC(): Codec<Transaction>
  {
    MapC(PairC(CoreC(), WitnessesC()), p => ToTransaction(p), t => AsTransaction(t), t => true)
  }

  lemma TransactionGood()
    ensures Good(TransactionC())
  {
    hide Good, CoreC, WitnessC;
    CoreGood();
    WitnessGood();
    ListGood(WitnessC(), MAX_TX_INPUTS);
    PairGood(CoreC(), WitnessesC());
    Mapped(PairC(CoreC(), WitnessesC()), p => ToTransaction(p), t => AsTransaction(t), (t: Transaction) => true);
  }
}
