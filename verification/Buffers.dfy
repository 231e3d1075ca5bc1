/** `Writer` and `Reader` (src/util/serialize.h:13-61) and the transaction code on top of them
    (src/primitives/transaction.cpp:11-122): a buffer that grows, a cursor that advances, each step exactly
    what the format says. */
module Buffers {
  import opened Types
  import opened Arith
  import opened Codecs
  import opened TxCodecs

  class Writer {
    var buf: Codecs.Bytes

    constructor ()
      ensures buf == []
    {
      buf := [];
    }

    method PutByte(v: byte)
      modifies this
      ensures buf == old(buf) + [v]
    {
      buf := buf + [v];
    }

    /** `varint`. */
    method PutVarint(v: nat)
      modifies this
      ensures buf == old(buf) + VarintBytes(v)
    {
      var x := v;
      while x >= 0x80
        invariant x >= 0 && buf + VarintBytes(x) == old(buf) + VarintBytes(v)
      {
        PutByte(x % 0x80 + 0x80);
        x := x / 0x80;
      }
      PutByte(x);
    }

    method PutRaw(b: Codecs.Bytes)
      modifies this
      ensures buf == old(buf) + b
    {
      buf := buf + b;
    }

    method PutHash(h: Hash)
      modifies this
      ensures buf == old(buf) + HashC().enc(h)
    {
      PutRaw(BigEndian(h, 32));
    }

    /** `bytes` and `str`: a length, then the bytes. */
    method PutText(b: Text)
      modifies this
      ensures buf == old(buf) + TextC(0).enc(b)
    {
      PutVarint(|b|);
      PutRaw(b);
      BytesAreText(b);
    }

    method PutAsset(a: Hash)
      modifies this
      ensures buf == old(buf) + AssetC().enc(a)
    {
      hide HashC;
      if a == QNT { PutByte(0); } else { PutByte(1); PutHash(a); }
    }

    method PutTxOut(o: TxOut)
      modifies this
      ensures buf == old(buf) + TxOutC().enc(o)
    {
      hide HashC, AssetC, VarintBytes;
      PutVarint(o.value);
      PutAsset(o.asset);
      PutHash(o.addr);
      Flat3(old(buf), VarintBytes(o.value), AssetC().enc(o.asset), HashC().enc(o.addr));
    }

    method PutOp(op: TxOp)
      modifies this
      ensures buf == old(buf) + OpC().enc(op)
    {
      hide TokenC, PoolC, SwapC, MessageC;
      PutByte(Tag(op));
      match op {
        case CreateToken(ticker, name, decimals, supply, uri) => PutToken(ticker, name, decimals, supply, uri);
        case PoolCreate(token, qnt, tok, shares) => PutPoolParts(token, qnt, tok, shares);
        case AddLiquidity(token, qnt, tok, shares) => PutPoolParts(token, qnt, tok, shares);
        case RemoveLiquidity(token, shares, qnt, tok) => PutPoolParts(token, shares, qnt, tok);
        case Swap(token, sell, amtIn, amtOut) => PutSwap(token, sell, amtIn, amtOut);
        case Message(from, to, gift, text) => PutMessage(from, to, gift, text);
      }
      assert OpC().enc(op) == [Tag(op)] + OpBody(Tag(op)).enc(op);
    }

    method PutToken(ticker: Text, name: Text, decimals: byte, supply: Amount, uri: Text)
      modifies this
      ensures buf == old(buf) + TokenC().enc((ticker, (name, (decimals, (supply, uri)))))
    {
      hide TextC, VarintBytes;
      PutText(ticker);
      PutText(name);
      PutByte(decimals);
      PutVarint(supply);
      PutText(uri);
      TextSame(ticker, MAX_TICKER);
      TextSame(name, MAX_TOKEN_NAME);
      TextSame(uri, MAX_TOKEN_URI);
      Flat5(old(buf), TextC(0).enc(ticker), TextC(0).enc(name), [decimals], VarintBytes(supply), TextC(0).enc(uri));
    }

    method PutPoolParts(token: Hash, a: Amount, b: Amount, c: Amount)
      modifies this
      ensures buf == old(buf) + PoolC().enc((token, (a, (b, c))))
    {
      hide HashC, VarintBytes;
      PutHash(token);
      PutVarint(a);
      PutVarint(b);
      PutVarint(c);
      Flat4(old(buf), HashC().enc(token), VarintBytes(a), VarintBytes(b), VarintBytes(c));
    }

    method PutSwap(token: Hash, sell: bool, amtIn: Amount, amtOut: Amount)
      modifies this
      ensures buf == old(buf) + SwapC().enc((token, (sell, (amtIn, amtOut))))
    {
      hide HashC, VarintBytes;
      PutHash(token);
      PutByte(if sell then 1 else 0);
      PutVarint(amtIn);
      PutVarint(amtOut);
      Flat4(old(buf), HashC().enc(token), [if sell then 1 else 0], VarintBytes(amtIn), VarintBytes(amtOut));
    }

    method PutMessage(from: Hash, to: Hash, gift: byte, text: Text)
      modifies this
      ensures buf == old(buf) + MessageC().enc((from, (to, (gift, text))))
    {
      hide HashC, TextC;
      PutHash(from);
      PutHash(to);
      PutByte(gift);
      PutText(text);
      TextSame(text, MAX_MESSAGE_TEXT);
      Flat4(old(buf), HashC().enc(from), HashC().enc(to), [gift], TextC(0).enc(text));
    }

    /** `write_core`. */
    method PutCore(c: Core)
      modifies this
      ensures buf == old(buf) + CoreC().enc(c)
    {
      hide OutPointC, TxOutC, OpC, TextC, VarintBytes, EncodeAll;
      PutVarint(c.version);
      PutIns(c.ins);
      PutOuts(c.outs);
      ghost var head := buf;
      PutOps(c.ops);
      PutVarint(c.lockHeight);
      PutText(c.extra);
      TextSame(c.extra, MAX_COINBASE_EXTRA);
      Flat3(head, ListC(OpC(), MAX_TX_OPS).enc(c.ops), VarintBytes(c.lockHeight), TextC(0).enc(c.extra));
      assert buf == head + TailC().enc((c.ops, (c.lockHeight, c.extra)));
      Flat4(old(buf), VarintBytes(c.version), ListC(OutPointC(), MAX_TX_INPUTS).enc(c.ins),
            ListC(TxOutC(), MAX_TX_OUTPUTS).enc(c.outs), TailC().enc((c.ops, (c.lockHeight, c.extra))));
    }

    method PutOutPoint(o: OutPoint)
      modifies this
      ensures buf == old(buf) + OutPointC().enc(o)
    {
      hide HashC, VarintBytes;
      PutHash(o.txid);
      PutVarint(o.n);
    }

    method PutIns(ins: seq<OutPoint>)
      modifies this
      ensures buf == old(buf) + ListC(OutPointC(), MAX_TX_INPUTS).enc(ins)
    {
      hide OutPointC, VarintBytes;
      PutVarint(|ins|);
      for i := 0 to |ins|
        invariant buf == old(buf) + VarintBytes(|ins|) + EncodeAll(OutPointC(), ins[..i])
      {
        PutOutPoint(ins[i]);
        EncodeNext(OutPointC(), ins, i);
      }
      assert ins[..|ins|] == ins;
    }

    method PutOuts(outs: seq<TxOut>)
      modifies this
      ensures buf == old(buf) + ListC(TxOutC(), MAX_TX_OUTPUTS).enc(outs)
    {
      hide TxOutC;
      PutVarint(|outs|);
      for i := 0 to |outs|
        invariant buf == old(buf) + VarintBytes(|outs|) + EncodeAll(TxOutC(), outs[..i])
      {
        PutTxOut(outs[i]);
        EncodeNext(TxOutC(), outs, i);
      }
      assert outs[..|outs|] == outs;
    }

    method PutOps(ops: seq<TxOp>)
      modifies this
      ensures buf == old(buf) + ListC(OpC(), MAX_TX_OPS).enc(ops)
    {
      hide OpC;
      PutVarint(|ops|);
      for i := 0 to |ops|
        invariant buf == old(buf) + VarintBytes(|ops|) + EncodeAll(OpC(), ops[..i])
      {
        PutOp(ops[i]);
        EncodeNext(OpC(), ops, i);
      }
      assert ops[..|ops|] == ops;
    }

    method PutWitness(w: Witness)
      modifies this
      ensures buf == old(buf) + WitnessC().enc(w)
    {
      hide TextC, VarintBytes, WitnessC;
      WitnessBytes(w);
      match w {
        case Ref(input) =>
          PutByte(0);
          PutVarint(input);
        case Falcon(pk, sig) =>
          PutByte(1);
          PutRaw(pk);
          PutText(sig);
          Flat3(old(buf), [1], pk, TextC(0).enc(sig));
      }
    }

    /** `write_witness`. */
    method PutWitnesses(ws: seq<Witness>)
      modifies this
      ensures buf == old(buf) + WitnessesC().enc(ws)
    {
      hide WitnessC, VarintBytes;
      PutVarint(|ws|);
      for i := 0 to |ws|
        invariant buf == old(buf) + VarintBytes(|ws|) + EncodeAll(WitnessC(), ws[..i])
      {
        PutWitness(ws[i]);
        EncodeNext(WitnessC(), ws, i);
      }
      assert ws[..|ws|] == ws;
    }
  }

  lemma WitnessBytes(w: Witness)
    ensures w.Ref? ==> WitnessC().enc(w) == [0] + VarintBytes(w.input)
    ensures w.Falcon? ==> WitnessC().enc(w) == [1] + (w.pk + TextC(0).enc(w.sig))
  {
    hide TextC, VarintBytes;
    if w.Ref? {
      assert RefC().enc(w) == VarintBytes(w.input);
      assert WitnessC().enc(w) == [0] + RefC().enc(w);
    } else {
      TextSame(w.sig, FALCON_SIG_MAX);
      assert FalconC().enc(w) == w.pk + TextC(0).enc(w.sig);
      assert WitnessC().enc(w) == [1] + FalconC().enc(w);
    }
  }

  lemma Flat3(p: Codecs.Bytes, a: Codecs.Bytes, b: Codecs.Bytes, c: Codecs.Bytes)
    ensures p + a + b + c == p + (a + (b + c))
  {}

  lemma Flat4(p: Codecs.Bytes, a: Codecs.Bytes, b: Codecs.Bytes, c: Codecs.Bytes, d: Codecs.Bytes)
    ensures p + a + b + c + d == p + (a + (b + (c + d)))
  {}

  lemma Flat5(p: Codecs.Bytes, a: Codecs.Bytes, b: Codecs.Bytes, c: Codecs.Bytes, d: Codecs.Bytes, e: Codecs.Bytes)
    ensures p + a + b + c + d + e == p + (a + (b + (c + (d + e))))
  {}

  lemma {:induction false} BytesAreText(b: Text)
    ensures EncodeAll(ByteC(), b) == b
  {
    if b != [] { BytesAreText(b[1..]); }
  }

  /** The bytes of a text do not depend on the reader's limit. */
  lemma TextSame(b: Text, max: nat)
    ensures TextC(max).enc(b) == TextC(0).enc(b)
  {}

  lemma {:induction false} EncodeSnoc<T>(c: Codec<T>, xs: seq<T>, x: T)
    ensures EncodeAll(c, xs + [x]) == EncodeAll(c, xs) + c.enc(x)
  {
    if xs == [] {
      assert EncodeAll(c, ([x])[1..]) == [];
    } else {
      EncodeSnoc(c, xs[1..], x);
      assert (xs + [x])[1..] == xs[1..] + [x];
    }
  }

  lemma EncodeNext<T>(c: Codec<T>, xs: seq<T>, i: nat)
    requires i < |xs|
    ensures EncodeAll(c, xs[..i + 1]) == EncodeAll(c, xs[..i]) + c.enc(xs[i])
  {
    assert xs[..i + 1] == xs[..i] + [xs[i]];
    EncodeSnoc(c, xs[..i], xs[i]);
  }

  // ---------------------------------------------------------------- reading

  /** A reader's result and what it leaves, against what the format reads there. A failed read throws, and
      where it leaves the cursor does not matter. */
  ghost predicate Agrees<T>(p: Parsed<T>, res: Option<T>, rest: Codecs.Bytes) {
    match p
    case None => res == None
    case Some((x, r)) => res == Some(x) && rest == r
  }

  class Reader {
    const data: Codecs.Bytes
    var pos: nat

    ghost predicate Valid()
      reads this
    {
      pos <= |data|
    }

    function Rest(): Codecs.Bytes
      requires Valid()
      reads this
    {
      data[pos..]
    }

    constructor (data: Codecs.Bytes)
      ensures Valid() && this.data == data && Rest() == data
    {
      this.data := data;
      pos := 0;
    }

    method GetByte() returns (res: Option<byte>)
      requires Valid()
      modifies this
      ensures Valid() && Agrees(ReadByte(old(Rest())), res, Rest())
    {
      if pos == |data| { return None; }
      res := Some(data[pos]);
      assert data[pos..][1..] == data[pos + 1..];
      pos := pos + 1;
    }

    method GetRaw(k: nat) returns (res: Option<Codecs.Bytes>)
      requires Valid()
      modifies this
      ensures Valid() && Agrees(Take(old(Rest()), k), res, Rest())
    {
      if k > |data| - pos { return None; }
      assert data[pos..][..k] == data[pos..pos + k] && data[pos..][k..] == data[pos + k..];
      res := Some(data[pos..pos + k]);
      pos := pos + k;
    }

    /** `varint`. At the tenth byte the value is complete or the loop has failed, so it never runs out. */
    method GetVarint() returns (res: Option<nat>)
      requires Valid()
      modifies this
      ensures Valid() && Agrees(ReadVarintAt(old(Rest()), 0), res, Rest())
    {
      hide ReadVarintAt, Above;
      var v: nat, weight: nat, i: nat := 0, 1, 0;
      ghost var all := ReadVarintAt(Rest(), 0);
      AboveNothing(all);
      while true
        invariant Valid() && i <= 9 && all == Above(v, weight, ReadVarintAt(Rest(), i))
        decreases 9 - i
      {
        VarintStep(Rest(), i, v, weight);
        var b := GetByte();
        if b.None? { return None; }
        var c: nat := b.value;
        if i == 9 && c > 1 { return None; }
        if c < 0x80 {
          if c == 0 && i > 0 { return None; }
          return Some(v + weight * c);
        }
        v := v + weight * (c - 0x80);
        weight := weight * 0x80;
        i := i + 1;
      }
    }

    method GetVarintMax(max: nat) returns (res: Option<nat>)
      requires Valid()
      modifies this
      ensures Valid() && Agrees(ReadVarintMax(old(Rest()), max), res, Rest())
    {
      hide ReadVarintAt;
      res := GetVarint();
      if res.Some? && res.value > max { return None; }
    }

    method GetAmount() returns (res: Option<Amount>)
      requires Valid()
      modifies this
      ensures Valid() && Agrees(AmountC().dec(old(Rest())), res, Rest())
    {
      hide ReadVarintAt;
      var v := GetVarintMax(TWO64 - 1);
      VarintFits(old(Rest()));
      if v.None? { return None; }
      res := Some(v.value);
    }

    method GetHash() returns (res: Option<Hash>)
      requires Valid()
      modifies this
      ensures Valid() && Agrees(HashC().dec(old(Rest())), res, Rest())
    {
      var b := GetRaw(32);
      if b.None? { return None; }
      res := Some(BigEndianValue(b.value));
    }

    method GetText(max: nat) returns (res: Option<Text>)
      requires Valid()
      modifies this
      ensures Valid() && Agrees(TextC(max).dec(old(Rest())), res, Rest())
    {
      hide ReadVarintMax;
      var n := GetVarintMax(max);
      if n.None? { return None; }
      TakeIsText(n.value, Rest());
      res := GetRaw(n.value);
    }

    method GetAsset() returns (res: Option<Hash>)
      requires Valid()
      modifies this
      ensures Valid() && Agrees(AssetC().dec(old(Rest())), res, Rest())
    {
      hide HashC;
      var f := GetByte();
      if f.None? { return None; }
      if f.value == 0 { return Some(QNT); }
      if f.value != 1 { return None; }
      res := GetHash();
      if res == Some(0) { return None; }
    }

    /** `read_txout`. */
    method GetTxOut() returns (res: Option<TxOut>)
      requires Valid()
      modifies this
      ensures Valid() && Agrees(TxOutC().dec(old(Rest())), res, Rest())
    {
      hide AmountC, AssetC, HashC;
      var value := GetAmount();
      if value.None? { return None; }
      var asset := GetAsset();
      if asset.None? { return None; }
      var addr := GetHash();
      if addr.None? { return None; }
      res := Some(TxOut(value.value, asset.value, addr.value));
    }

    method GetOutPoint() returns (res: Option<OutPoint>)
      requires Valid()
      modifies this
      ensures Valid() && Agrees(OutPointC().dec(old(Rest())), res, Rest())
    {
      hide HashC, ReadVarintMax;
      var id := GetHash();
      if id.None? { return None; }
      var n := GetVarintMax(0xffff_ffff);
      if n.None? { return None; }
      res := Some(OutPoint(id.value, n.value));
    }

    method GetToken() returns (res: Option<TokenParts>)
      requires Valid()
      modifies this
      ensures Valid() && Agrees(TokenC().dec(old(Rest())), res, Rest())
    {
      hide TextC, AmountC;
      var ticker := GetText(MAX_TICKER);
      if ticker.None? { return None; }
      var name := GetText(MAX_TOKEN_NAME);
      if name.None? { return None; }
      var decimals := GetByte();
      if decimals.None? { return None; }
      var supply := GetAmount();
      if supply.None? { return None; }
      var uri := GetText(MAX_TOKEN_URI);
      if uri.None? { return None; }
      res := Some((ticker.value, (name.value, (decimals.value, (supply.value, uri.value)))));
    }

    method GetPoolParts() returns (res: Option<PoolParts>)
      requires Valid()
      modifies this
      ensures Valid() && Agrees(PoolC().dec(old(Rest())), res, Rest())
    {
      hide HashC, AmountC;
      var token := GetHash();
      if token.None? { return None; }
      var a := GetAmount();
      if a.None? { return None; }
      var b := GetAmount();
      if b.None? { return None; }
      var c := GetAmount();
      if c.None? { return None; }
      res := Some((token.value, (a.value, (b.value, c.value))));
    }

    method GetSwap() returns (res: Option<SwapParts>)
      requires Valid()
      modifies this
      ensures Valid() && Agrees(SwapC().dec(old(Rest())), res, Rest())
    {
      hide HashC, AmountC;
      var token := GetHash();
      if token.None? { return None; }
      var s := GetByte();
      if s.None? || s.value > 1 { return None; }
      var a := GetAmount();
      if a.None? { return None; }
      var b := GetAmount();
      if b.None? { return None; }
      res := Some((token.value, (s.value == 1, (a.value, b.value))));
    }

    method GetMessage() returns (res: Option<MessageParts>)
      requires Valid()
      modifies this
      ensures Valid() && Agrees(MessageC().dec(old(Rest())), res, Rest())
    {
      hide HashC, TextC;
      var from := GetHash();
      if from.None? { return None; }
      var to := GetHash();
      if to.None? { return None; }
      var gift := GetByte();
      if gift.None? { return None; }
      var text := GetText(MAX_MESSAGE_TEXT);
      if text.None? { return None; }
      res := Some((from.value, (to.value, (gift.value, text.value))));
    }

    /** `read_op`. */
    method GetOp() returns (res: Option<TxOp>)
      requires Valid()
      modifies this
      ensures Valid() && Agrees(OpC().dec(old(Rest())), res, Rest())
    {
      hide TokenC, PoolC, SwapC, MessageC;
      var t := GetByte();
      if t.None? || t.value < 1 || t.value > 6 { return None; }
      if t.value == 1 {
        var p := GetToken();
        if p.None? { return None; }
        res := Some(ToToken(p.value));
      } else if t.value <= 4 {
        var p := GetPoolParts();
        if p.None? { return None; }
        res := Some(ToPoolOp(t.value, p.value));
      } else if t.value == 5 {
        var p := GetSwap();
        if p.None? { return None; }
        res := Some(ToSwap(p.value));
      } else {
        var p := GetMessage();
        if p.None? { return None; }
        res := Some(ToMessage(p.value));
      }
    }

    method GetIns() returns (res: Option<seq<OutPoint>>)
      requires Valid()
      modifies this
      ensures Valid() && Agrees(ListC(OutPointC(), MAX_TX_INPUTS).dec(old(Rest())), res, Rest())
    {
      hide ReadVarintMax, OutPointC, ReadN, Joined;
      var n := GetVarintMax(MAX_TX_INPUTS);
      if n.None? { return None; }
      var xs := [];
      ghost var all := ReadN(OutPointC(), n.value, Rest());
      JoinedNothing(all);
      for i := 0 to n.value
        invariant Valid() && |xs| == i && all == Joined(xs, ReadN(OutPointC(), n.value - i, Rest()))
      {
        JoinedStep(OutPointC(), xs, n.value - i, Rest());
        var x := GetOutPoint();
        if x.None? { return None; }
        xs := xs + [x.value];
      }
      JoinedDone(OutPointC(), xs, Rest());
      res := Some(xs);
    }

    method GetOuts() returns (res: Option<seq<TxOut>>)
      requires Valid()
      modifies this
      ensures Valid() && Agrees(ListC(TxOutC(), MAX_TX_OUTPUTS).dec(old(Rest())), res, Rest())
    {
      hide ReadVarintMax, TxOutC, ReadN, Joined;
      var n := GetVarintMax(MAX_TX_OUTPUTS);
      if n.None? { return None; }
      var xs := [];
      ghost var all := ReadN(TxOutC(), n.value, Rest());
      JoinedNothing(all);
      for i := 0 to n.value
        invariant Valid() && |xs| == i && all == Joined(xs, ReadN(TxOutC(), n.value - i, Rest()))
      {
        JoinedStep(TxOutC(), xs, n.value - i, Rest());
        var x := GetTxOut();
        if x.None? { return None; }
        xs := xs + [x.value];
      }
      JoinedDone(TxOutC(), xs, Rest());
      res := Some(xs);
    }

    method GetOps() returns (res: Option<seq<TxOp>>)
      requires Valid()
      modifies this
      ensures Valid() && Agrees(ListC(OpC(), MAX_TX_OPS).dec(old(Rest())), res, Rest())
    {
      hide ReadVarintMax, OpC, ReadN, Joined;
      var n := GetVarintMax(MAX_TX_OPS);
      if n.None? { return None; }
      var xs := [];
      ghost var all := ReadN(OpC(), n.value, Rest());
      JoinedNothing(all);
      for i := 0 to n.value
        invariant Valid() && |xs| == i && all == Joined(xs, ReadN(OpC(), n.value - i, Rest()))
      {
        JoinedStep(OpC(), xs, n.value - i, Rest());
        var x := GetOp();
        if x.None? { return None; }
        xs := xs + [x.value];
      }
      JoinedDone(OpC(), xs, Rest());
      res := Some(xs);
    }

    /** `read_core`. */
    method GetCore() returns (res: Option<Core>)
      requires Valid()
      modifies this
      ensures Valid() && Agrees(CoreC().dec(old(Rest())), res, Rest())
    {
      hide ReadVarintMax, OutPointC, TxOutC, OpC, TextC, AmountC, ReadList;
      var version := GetVarintMax(0xffff_ffff);
      if version.None? { return None; }
      var ins := GetIns();
      if ins.None? { return None; }
      var outs := GetOuts();
      if outs.None? { return None; }
      var ops := GetOps();
      if ops.None? { return None; }
      var lock := GetAmount();
      if lock.None? { return None; }
      var extra := GetText(MAX_COINBASE_EXTRA);
      if extra.None? { return None; }
      res := Some(Core(version.value, ins.value, outs.value, ops.value, lock.value, extra.value));
    }

    method GetWitness() returns (res: Option<Witness>)
      requires Valid()
      modifies this
      ensures Valid() && Agrees(WitnessC().dec(old(Rest())), res, Rest())
    {
      hide ReadVarintMax, TextC;
      var t := GetByte();
      if t.None? { return None; }
      if t.value == 0 {
        var n := GetVarintMax(MAX_TX_INPUTS);
        if n.None? { return None; }
        res := Some(Ref(n.value));
      } else if t.value == 1 {
        var pk := GetRaw(FALCON_PK_BYTES);
        if pk.None? { return None; }
        var sig := GetText(FALCON_SIG_MAX);
        if sig.None? { return None; }
        res := Some(Falcon(pk.value, sig.value));
      } else {
        res := None;
      }
    }

    /** `read_witness`. */
    method GetWitnesses() returns (res: Option<seq<Witness>>)
      requires Valid()
      modifies this
      ensures Valid() && Agrees(ListC(WitnessC(), MAX_TX_INPUTS).dec(old(Rest())), res, Rest())
    {
      hide ReadVarintMax, WitnessC, ReadN, Joined;
      var n := GetVarintMax(MAX_TX_INPUTS);
      if n.None? { return None; }
      var xs := [];
      ghost var all := ReadN(WitnessC(), n.value, Rest());
      JoinedNothing(all);
      for i := 0 to n.value
        invariant Valid() && |xs| == i && all == Joined(xs, ReadN(WitnessC(), n.value - i, Rest()))
      {
        JoinedStep(WitnessC(), xs, n.value - i, Rest());
        var x := GetWitness();
        if x.None? { return None; }
        xs := xs + [x.value];
      }
      JoinedDone(WitnessC(), xs, Rest());
      res := Some(xs);
    }

    /** `read_full`. */
    method GetTransaction() returns (res: Option<Transaction>)
      requires Valid()
      modifies this
      ensures Valid() && Agrees(TransactionC().dec(old(Rest())), res, Rest())
    {
      hide CoreC, WitnessC, ReadList;
      var core := GetCore();
      if core.None? { return None; }
      var wits := GetWitnesses();
      if wits.None? { return None; }
      res := Some(Transaction(core.value, wits.value));
    }
  }

  /** A list whose first elements `xs` have been read. */
  ghost function Joined<T>(xs: seq<T>, p: Parsed<seq<T>>): Parsed<seq<T>> {
    match p
    case None => None
    case Some((ys, rest)) => Some((xs + ys, rest))
  }

  lemma JoinedNothing<T>(p: Parsed<seq<T>>)
    ensures Joined([], p) == p
  {
    if p.Some? { assert [] + p.value.0 == p.value.0; }
  }

  lemma JoinedStep<T>(c: Codec<T>, xs: seq<T>, n: nat, bs: Codecs.Bytes)
    requires n > 0
    ensures Joined(xs, ReadN(c, n, bs)) ==
            match c.dec(bs)
            case None => None
            case Some((x, rest)) => Joined(xs + [x], ReadN(c, n - 1, rest))
  {
    if c.dec(bs).Some? {
      var (x, rest) := c.dec(bs).value;
      var p := ReadN(c, n - 1, rest);
      if p.Some? { assert xs + ([x] + p.value.0) == (xs + [x]) + p.value.0; }
    }
  }

  lemma JoinedDone<T>(c: Codec<T>, xs: seq<T>, bs: Codecs.Bytes)
    ensures Joined(xs, ReadN(c, 0, bs)) == Some((xs, bs))
  {
    assert xs + [] == xs;
  }

  /** The value of a varint whose low bits `v` have been read, `weight` being that of the next. */
  ghost function Above(v: nat, weight: nat, p: Parsed<nat>): Parsed<nat> {
    match p
    case None => None
    case Some((u, rest)) => Some((v + weight * u, rest))
  }

  lemma AboveNothing(p: Parsed<nat>)
    ensures Above(0, 1, p) == p
  {}

  /** One byte of the varint loop. */
  lemma VarintStep(bs: Codecs.Bytes, i: nat, v: nat, weight: nat)
    requires i <= 9
    ensures var all := Above(v, weight, ReadVarintAt(bs, i));
            if bs == [] then all == None
            else
              var c := bs[0];
              && weight * c >= 0
              && (if i == 9 && c > 1 then all == None
                  else if c < 0x80 then all == if c == 0 && i > 0 then None else Some((v + weight * c, bs[1..]))
                  else
                    && weight * (c - 0x80) >= 0
                    && all == Above(v + weight * (c - 0x80), weight * 0x80, ReadVarintAt(bs[1..], i + 1)))
  {
    if bs != [] {
      var c: nat := bs[0];
      MulNonNegative(weight, c);
      if c >= 0x80 && i < 9 {
        MulNonNegative(weight, c - 0x80);
        var p := ReadVarintAt(bs[1..], i + 1);
        if p.Some? { Regroup(weight, c - 0x80, p.value.0); }
      }
    }
  }

  lemma Regroup(w: nat, c: nat, u: nat)
    ensures w * (c + 0x80 * u) == w * c + (w * 0x80) * u
  {}

  lemma VarintFits(bs: Codecs.Bytes)
    ensures ReadVarintAt(bs, 0).Some? ==> ReadVarintAt(bs, 0).value.0 < TWO64
  {
    RoomIs64();
    if ReadVarintAt(bs, 0).Some? { VarintCanonical(bs, 0); }
  }

  lemma {:induction false} TakeIsText(n: nat, bs: Codecs.Bytes)
    ensures ReadN(ByteC(), n, bs) == Take(bs, n)
  {
    if n > 0 && bs != [] {
      TakeIsText(n - 1, bs[1..]);
      if n <= |bs| {
        assert [bs[0]] + bs[1..][..n - 1] == bs[..n];
        assert bs[1..][n - 1..] == bs[n..];
      }
    }
  }
}
