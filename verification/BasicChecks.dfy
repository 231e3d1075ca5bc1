/** `check_tx_basic` (src/consensus/ledger.cpp:84-140): the loops, what passing them means, and what the
    64-bit running sum does and does not guarantee. */
module BasicChecks {
  import opened Types
  import opened Arith
  import Amm
  import opened Ledger
  import opened Replay

  // ---------------------------------------------------------------- the loops

  method HasDuplicate(ins: seq<OutPoint>) returns (dup: bool)
    ensures dup <==> !Distinct(ins)
  {
    var seen: set<OutPoint> := {};
    for i := 0 to |ins|
      invariant seen == set k | 0 <= k < i :: ins[k]
      invariant forall j, k :: 0 <= j < k < i ==> ins[j] != ins[k]
    {
      if ins[i] in seen { return true; }
      seen := seen + {ins[i]};
    }
    dup := false;
  }

  method CheckOutputs(outs: seq<TxOut>, coinbase: bool) returns (err: Option<Reason>)
    ensures err == CheckOuts(outs, coinbase, 0, 0)
  {
    var qnt: Amount := 0;
    for i := 0 to |outs|
      invariant CheckOuts(outs, coinbase, 0, 0) == CheckOuts(outs, coinbase, i, qnt)
    {
      var o := outs[i];
      if o.value == 0 { return Some(ZeroOutput); }
      if o.asset == QNT {
        if !coinbase && o.value < DUST_LIMIT { return Some(DustOutput); }
        if o.value > MAX_MONEY { return Some(OutputTooLarge); }
        qnt := Add64(qnt, o.value);
        if qnt > MAX_MONEY { return Some(OutputsOverflow); }
      } else {
        if coinbase { return Some(CoinbaseTokenOutput); }
        if o.value > MAX_TOKEN_SUPPLY { return Some(OutputTooLarge); }
      }
    }
    err := None;
  }

  method PaidTo(outs: seq<TxOut>, to: Hash) returns (paid: Amount)
    ensures paid == Paid64(outs, to)
  {
    paid := 0;
    for i := 0 to |outs|
      invariant paid == Paid64(outs[..i], to)
    {
      assert outs[..i + 1][..i] == outs[..i];
      if outs[i].asset == QNT && outs[i].addr == to { paid := Add64(paid, outs[i].value); }
    }
    assert outs[..|outs|] == outs;
  }

  method CheckMessageOp(c: Core, m: TxOp) returns (err: Option<Reason>)
    requires m.Message?
    ensures err == CheckMessage(c, m)
  {
    if m.gift >= |GIFT_PRICE| { return Some(BadGift); }
    if |m.text| > MAX_MESSAGE_TEXT { return Some(MessageTooLong); }
    for k := 0 to |m.text|
      invariant forall j :: 0 <= j < k ==> !(m.text[j] < 0x20 || m.text[j] == 0x7f)
    {
      if m.text[k] < 0x20 || m.text[k] == 0x7f { return Some(BadMessageText); }
    }
    if m.text == [] && m.gift == 0 { return Some(EmptyMessage); }
    var need := if GIFT_PRICE[m.gift] < DUST_LIMIT then DUST_LIMIT else GIFT_PRICE[m.gift];
    var paid := PaidTo(c.outs, m.to);
    err := if paid < need then Some(MessageUnderpaid) else None;
  }

  method CheckAllOps(c: Core) returns (err: Option<Reason>)
    ensures err == CheckOps(c, 0, 0)
  {
    hide CheckMessage;
    var messages := 0;
    for i := 0 to |c.ops|
      invariant messages >= 0 && CheckOps(c, 0, 0) == CheckOps(c, i, messages)
    {
      var op := c.ops[i];
      if op.Message? {
        if messages >= 1 { return Some(TooManyMessages); }
        messages := messages + 1;
        var e := CheckMessageOp(c, op);
        if e.Some? { return e; }
      } else {
        var e := CheckOp(c, op);
        if e.Some? { return e; }
      }
    }
    err := None;
  }

  /** `check_tx_basic`. */
  method CheckTxBasic(tx: Transaction, expectWitness: bool) returns (err: Option<Reason>)
    ensures err == CheckBasic(tx, expectWitness)
    ensures err == None <==>
            WellFormed(tx) && (expectWitness ==> tx.core.ins == [] || |tx.wits| == |tx.core.ins|)
  {
    hide CheckOuts, CheckOps, WellFormed, Distinct;
    FullBasicIff(tx, expectWitness);
    var c := tx.core;
    NoneDistinct(c.ins);
    if c.version != 2 { return Some(BadVersion); }
    if |c.ops| > MAX_TX_OPS { return Some(TooManyOps); }
    if IsCoinbase(c) {
      if tx.wits != [] { return Some(CoinbaseWitness); }
      if c.ops != [] { return Some(CoinbaseOps); }
    } else {
      if c.outs == [] { return Some(NoOutputs); }
      if c.extra != [] { return Some(ExtraInNonCoinbase); }
      if expectWitness && |tx.wits| != |c.ins| { return Some(WitnessCount); }
      var dup := HasDuplicate(c.ins);
      if dup { return Some(DuplicateInput); }
    }
    var bad := CheckOutputs(c.outs, IsCoinbase(c));
    if bad.Some? { return bad; }
    err := CheckAllOps(c);
  }

  lemma NoneDistinct(ins: seq<OutPoint>)
    ensures ins == [] ==> Distinct(ins)
  {}

  // ---------------------------------------------------------------- what passing means

  predicate OutOk(o: TxOut, coinbase: bool) {
    && o.value > 0
    && (o.asset == QNT ==> o.value <= MAX_MONEY && (coinbase || o.value >= DUST_LIMIT))
    && (o.asset != QNT ==> !coinbase && o.value <= MAX_TOKEN_SUPPLY)
  }

  /** Every output in range, and no prefix whose QNT, summed in 64 bits, exceeds the money limit. */
  ghost predicate OutsOk(outs: seq<TxOut>, coinbase: bool) {
    && (forall i :: 0 <= i < |outs| ==> OutOk(outs[i], coinbase))
    && (forall i :: 0 <= i <= |outs| ==> TotalOut64(outs[..i]) <= MAX_MONEY)
  }

  /** Capital letters and digits. */
  predicate TickerByte(c: byte) { 'A' as int <= c <= 'Z' as int || '0' as int <= c <= '9' as int }

  predicate Printable(s: seq<byte>) { forall c :: c in s ==> ' ' as int <= c <= '~' as int }

  /** The QNT that goes to an address. */
  function Received(outs: seq<TxOut>, to: Hash): nat {
    if outs == [] then 0
    else (if outs[0].asset == QNT && outs[0].addr == to then outs[0].value else 0) + Received(outs[1..], to)
  }

  /** What a message must pay: its gift, or the dust limit. */
  function Due(gift: byte): nat {
    match gift
    case 0 => 10_000
    case 1 => 1_000_000_000
    case 2 => 5_000_000_000
    case 3 => 50_000_000_000
    case _ => 250_000_000_000
  }

  /** What an op must look like; the payment that comes with a message counts modulo 2^64. */
  predicate OpOk(c: Core, op: TxOp) {
    match op
    case CreateToken(ticker, name, decimals, supply, uri) =>
      && 1 <= |ticker| <= 10 && (forall b :: b in ticker ==> TickerByte(b))
      && 1 <= |name| <= 32 && Printable(name) && |uri| <= 120 && Printable(uri)
      && decimals <= 10 && 1 <= supply <= 10_000_000_000_000_000_000
    case PoolCreate(token, qnt, tok, shares) => token != QNT && qnt > 0 && tok > 0 && shares > 0
    case AddLiquidity(token, qnt, tok, shares) => token != QNT && qnt > 0 && tok > 0 && shares > 0
    case RemoveLiquidity(token, shares, qnt, tok) => token != QNT && shares > 0 && qnt + tok > 0
    case Swap(token, _, amtIn, amtOut) => token != QNT && amtIn > 0 && amtOut > 0
    case Message(_, to, gift, text) =>
      && gift <= 4 && |text| <= 280 && (forall b :: b in text ==> 32 <= b != 127) && (text != [] || gift > 0)
      && Received(c.outs, to) % TWO64 >= Due(gift)
  }

  lemma {:induction false} PaidIsReceived(outs: seq<TxOut>, to: Hash)
    ensures Paid64(outs, to) == Received(outs, to) % TWO64
  {
    if outs != [] {
      var n := |outs| - 1;
      var o := outs[n];
      PaidIsReceived(outs[..n], to);
      ReceivedLast(outs, to);
      if o.asset == QNT && o.addr == to {
        Add64Wraps(Received(outs[..n], to), Paid64(outs[..n], to), o.value, Received(outs, to));
      }
    }
  }

  lemma {:induction false} ReceivedLast(outs: seq<TxOut>, to: Hash)
    requires outs != []
    ensures var o := outs[|outs| - 1];
            Received(outs, to) == Received(outs[..|outs| - 1], to) + if o.asset == QNT && o.addr == to then o.value
                     else 0
  {
    if |outs| > 1 {
      ReceivedLast(outs[1..], to);
      assert outs[1..][..|outs| - 2] == outs[..|outs| - 1][1..];
    }
  }

  lemma MessageIff(c: Core, m: TxOp)
    requires m.Message?
    ensures CheckMessage(c, m) == None <==> OpOk(c, m)
  {
    hide Received, Paid64;
    PaidIsReceived(c.outs, m.to);
    forall k | 0 <= k < |m.text| ensures m.text[k] in m.text {}
    if m.gift < |GIFT_PRICE| { DueIs(m.gift); }
  }

  lemma DueIs(gift: byte)
    requires gift < |GIFT_PRICE|
    ensures Due(gift) == if GIFT_PRICE[gift] < DUST_LIMIT then DUST_LIMIT else GIFT_PRICE[gift]
  {}

  /** An op passes exactly if it looks like that. */
  lemma OpIff(c: Core, op: TxOp)
    ensures CheckOp(c, op) == None <==> OpOk(c, op)
  {
    hide CheckMessage, Received;
    match op
    case CreateToken(ticker, name, _, _, uri) =>
      assert (forall i :: 0 <= i < |ticker| ==> TickerByte(ticker[i])) <==> forall b :: b in ticker ==> TickerByte(b);
      assert ValidTicker(ticker) <==> 1 <= |ticker| <= 10 && forall i :: 0 <= i < |ticker| ==> TickerByte(ticker[i]);
      TextIff(name, 1, 32);
      TextIff(uri, 0, 120);
    case Message(_, _, _, _) => MessageIff(c, op);
    case _ =>
  }

  lemma TextIff(s: seq<byte>, lo: nat, hi: nat)
    ensures ValidText(s, lo, hi) <==> lo <= |s| <= hi && Printable(s)
  {
    forall i | 0 <= i < |s| ensures s[i] in s {}
  }

  ghost predicate WellFormed(tx: Transaction) {
    var c := tx.core;
    && c.version == 2 && |c.ops| <= MAX_TX_OPS
    && (IsCoinbase(c) ==> tx.wits == [] && c.ops == [])
    && (!IsCoinbase(c) ==> c.outs != [] && c.extra == [] && Distinct(c.ins))
    && OutsOk(c.outs, IsCoinbase(c))
    && (forall i :: 0 <= i < |c.ops| ==> OpOk(c, c.ops[i]))
    && (forall i, j :: 0 <= i < j < |c.ops| ==> !(c.ops[i].Message? && c.ops[j].Message?))
  }

  lemma {:induction false} OutsIff(outs: seq<TxOut>, coinbase: bool, i: nat)
    requires i <= |outs| && TotalOut64(outs[..i]) <= MAX_MONEY
    ensures CheckOuts(outs, coinbase, i, TotalOut64(outs[..i])) == None <==>
            && (forall k :: i <= k < |outs| ==> OutOk(outs[k], coinbase))
            && (forall k :: i <= k <= |outs| ==> TotalOut64(outs[..k]) <= MAX_MONEY)
    decreases |outs| - i
  {
    if i < |outs| {
      assert outs[..i + 1][..i] == outs[..i];
      assert TotalOut64(outs[..i + 1]) ==
             if outs[i].asset == QNT then Add64(TotalOut64(outs[..i]), outs[i].value) else TotalOut64(outs[..i]);
      if TotalOut64(outs[..i + 1]) <= MAX_MONEY { OutsIff(outs, coinbase, i + 1); }
    }
  }

  lemma {:induction false} OpsIff(c: Core, i: nat, messages: nat)
    requires i <= |c.ops|
    ensures CheckOps(c, i, messages) == None <==>
            && (forall k :: i <= k < |c.ops| ==> CheckOp(c, c.ops[k]) == None && !(c.ops[k].Message? && messages >= 1))
            && (forall j, k :: i <= j < k < |c.ops| ==> !(c.ops[j].Message? && c.ops[k].Message?))
    decreases |c.ops| - i
  {
    hide CheckOp;
    if i < |c.ops| {
      var op := c.ops[i];
      OpsIff(c, i + 1, if op.Message? then messages + 1 else messages);
    }
  }

  /** The checks pass exactly on the well-formed transactions. */
  lemma BasicIff(tx: Transaction)
    ensures BasicOk(tx) <==> WellFormed(tx)
  {
    hide CheckOuts, CheckOps, CheckOp, OutOk, OpOk;
    var c := tx.core;
    OutsStart(c.outs, IsCoinbase(c));
    OpsIff(c, 0, 0);
    forall i | 0 <= i < |c.ops| ensures CheckOp(c, c.ops[i]) == None <==> OpOk(c, c.ops[i]) { OpIff(c, c.ops[i]); }
  }

  /** Where witnesses are expected there must be one for each input of a transaction that is no coinbase. */
  lemma FullBasicIff(tx: Transaction, expectWitness: bool)
    ensures CheckBasic(tx, expectWitness) == None <==>
            WellFormed(tx) && (expectWitness ==> IsCoinbase(tx.core) || |tx.wits| == |tx.core.ins|)
  {
    hide CheckOuts, CheckOps, WellFormed, Distinct;
    BasicIff(tx);
  }

  lemma OutsStart(outs: seq<TxOut>, coinbase: bool)
    ensures CheckOuts(outs, coinbase, 0, 0) == None <==> OutsOk(outs, coinbase)
  {
    assert outs[..0] == [] && TotalOut64([]) == 0;
    OutsIff(outs, coinbase, 0);
  }

  // ---------------------------------------------------------------- sums

  /** What the running sum is meant to ensure, that the QNT outputs are within the money limit, holds of a
      transaction that passes exactly when their true sum fits 64 bits. */
  lemma OutputSumIff(tx: Transaction)
    requires BasicOk(tx)
    ensures At(OutFlow(tx.core.outs), QNT) <= MAX_MONEY <==> At(OutFlow(tx.core.outs), QNT) < TWO64
  {
    hide CheckBasic;
    BasicIff(tx);
    var outs := tx.core.outs;
    assert outs[..|outs|] == outs;
    TotalOutWraps(outs);
  }

  /** Two outputs within every limit whose sum is 2^64: the sum wraps to zero and the check passes. */
  const WRAPPING_TX: Transaction :=
    Transaction(Core(2, [OutPoint(1, 0)], [TxOut(MAX_MONEY, QNT, 1), TxOut(TWO64 - MAX_MONEY, QNT, 1)], [], 0, []), [])

  lemma SumCheckWraps()
    ensures BasicOk(WRAPPING_TX) && At(OutFlow(WRAPPING_TX.core.outs), QNT) == TWO64
  {
    var outs := WRAPPING_TX.core.outs;
    assert CheckOuts(outs, false, 2, 0) == None;
    assert CheckOuts(outs, false, 1, MAX_MONEY) == None;
    assert outs[..1][..0] == [] && outs[..1] == [TxOut(MAX_MONEY, QNT, 1)];
    assert At(OutFlow(outs[..1]), QNT) == MAX_MONEY;
  }

  // ---------------------------------------------------------------- 128-bit flows

  lemma {:induction false} CoinFlowFits(cs: seq<Coin>, a: Hash)
    ensures At(CoinFlow(cs), a) <= |cs| * TWO64
  {
    if cs != [] { CoinFlowFits(cs[..|cs| - 1], a); }
  }

  lemma {:induction false} OutFlowFits(outs: seq<TxOut>, a: Hash)
    ensures At(OutFlow(outs), a) <= |outs| * TWO64
  {
    if outs != [] { OutFlowFits(outs[..|outs| - 1], a); }
  }

  lemma StepFlowFits(k: Call, s: Scratch, i: nat, a: Hash)
    requires i < |k.core.ops| && k.core.ins != [] && StepOp(k, s, i).Ok?
    ensures At(StepOp(k, s, i).value.plus, a) <= At(s.plus, a) + 2 * TWO64
    ensures At(StepOp(k, s, i).value.minus, a) <= At(s.minus, a) + 2 * TWO64
  {
    hide PoolOp;
    var op := k.core.ops[i];
    if IsPoolOp(op) {
      PoolFlowFits(k.rules, op, op.token in s.minted || op.token in k.tokens,
                   if op.token in s.pools then Some(s.pools[op.token]) else None, Flows(s.plus, s.minus), a);
    }
  }

  lemma PoolFlowFits(r: Rules, op: TxOp, known: bool, p: Option<Pool>, f: Flows, a: Hash)
    requires IsPoolOp(op) && PoolOp(r, op, known, p, f).Ok?
    ensures At(PoolOp(r, op, known, p, f).value.plus, a) <= At(f.plus, a) + 2 * TWO64
    ensures At(PoolOp(r, op, known, p, f).value.minus, a) <= At(f.minus, a) + 2 * TWO64
  {
    hide Amm.RootShares, Amm.AddShares, Amm.RemoveQnt, Amm.RemoveTok, Amm.Quote;
  }

  lemma {:induction false} RunFlowFits(k: Call, s: Scratch, i: nat, s': Scratch, a: Hash)
    requires i <= |k.core.ops| && k.core.ins != [] && RunOps(k, s, i) == Ok(s')
    ensures At(s'.plus, a) <= At(s.plus, a) + (|k.core.ops| - i) * (2 * TWO64)
    ensures At(s'.minus, a) <= At(s.minus, a) + (|k.core.ops| - i) * (2 * TWO64)
    decreases |k.core.ops| - i
  {
    hide StepOp;
    if i < |k.core.ops| {
      StepFlowFits(k, s, i, a);
      RunFlowFits(k, StepOp(k, s, i).value, i + 1, s', a);
    }
  }

  /** No per-asset flow of a transaction within the decoder's limits leaves 128 bits. */
  lemma FlowsFit(k: Call, coins: seq<Coin>, pools: map<Hash, Pool>, s: Scratch, a: Hash)
    requires k.core.ins != [] && |coins| <= MAX_TX_INPUTS && |k.core.outs| <= MAX_TX_OUTPUTS
               && |k.core.ops| <= MAX_TX_OPS
    requires RunOps(k, Start(k.core, coins, pools), 0) == Ok(s)
    ensures At(s.plus, a) < TWO64 * TWO64 && At(s.minus, a) < TWO64 * TWO64
  {
    hide RunOps, CoinFlow, OutFlow, At;
    CoinFlowFits(coins, a);
    OutFlowFits(k.core.outs, a);
    RunFlowFits(k, Start(k.core, coins, pools), 0, s, a);
    MulMono(|coins|, MAX_TX_INPUTS, TWO64);
    MulMono(|k.core.outs|, MAX_TX_OUTPUTS, TWO64);
    MulMono(|k.core.ops|, MAX_TX_OPS, 2 * TWO64);
  }
}
