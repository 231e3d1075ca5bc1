/** The ledger rules of src/consensus/ledger.cpp as functions on states: the context-free checks
    and what one accepted transaction does to coins, tokens and pools. */
module Ledger {
  import opened Types
  import opened Amm

  datatype Reason =
    // check_tx_basic
    | BadVersion | TooManyOps | CoinbaseWitness | CoinbaseOps | NoOutputs | ExtraInNonCoinbase
    | WitnessCount | DuplicateInput | ZeroOutput | DustOutput | OutputTooLarge | OutputsOverflow
    | CoinbaseTokenOutput | BadTicker | BadTokenName | BadTokenUri | BadDecimals | BadSupply
    | BadPoolCreate | BadAddLiquidity | BadRemoveLiquidity | BadSwap
    | TooManyMessages | BadGift | MessageTooLong | BadMessageText | EmptyMessage | MessageUnderpaid
    // apply
    | CoinbaseInApply | Locked | MissingInput | ImmatureCoinbase | TokenExists | UnknownToken
    | PoolExists | PoolTooLarge | PoolSharesTooHigh | NoPool | LiquiditySharesTooHigh
    | RemoveTooManyShares | RemoveAmountsTooHigh | SwapPriceMoved | MessageFromNotInput
    | OutputsExceedInputs | FeeTooLarge | TokenNotBalanced
    // connect_block
    | CoinbasePaysTooMuch
    // verify_witness
    | RefForward | RefChain | RefAddressMismatch | KeyMismatch | BadSignature

  datatype Result<+T> = Ok(value: T) | Err(reason: Reason) {
    predicate IsFailure() { Err? }
    function PropagateFailure<U>(): Result<U> requires Err? { Err(reason) }
    function Extract(): T requires Ok? { value }
  }

  // ---------------------------------------------------------------- check_tx_basic

  predicate Distinct(ins: seq<OutPoint>) {
    forall i, j :: 0 <= i < j < |ins| ==> ins[i] != ins[j]
  }

  predicate ValidTicker(s: seq<byte>) {
    && 0 < |s| <= MAX_TICKER
    && forall i :: 0 <= i < |s| ==> 65 <= s[i] <= 90 || 48 <= s[i] <= 57
  }

  predicate ValidText(s: seq<byte>, lo: nat, hi: nat) {
    lo <= |s| <= hi && forall i :: 0 <= i < |s| ==> 0x20 <= s[i] <= 0x7e
  }

  /** Outputs from index `i` on, with the 64-bit running sum `qnt` of the earlier QNT outputs. */
  function CheckOuts(outs: seq<TxOut>, coinbase: bool, i: nat, qnt: Amount): Option<Reason>
    requires i <= |outs|
    decreases |outs| - i
  {
    if i == |outs| then None
    else
      var o := outs[i];
      if o.value == 0 then Some(ZeroOutput)
      else if o.asset == QNT then
        if !coinbase && o.value < DUST_LIMIT then Some(DustOutput)
        else if o.value > MAX_MONEY then Some(OutputTooLarge)
        else if Add64(qnt, o.value) > MAX_MONEY then Some(OutputsOverflow)
        else CheckOuts(outs, coinbase, i + 1, Add64(qnt, o.value))
      else if coinbase then Some(CoinbaseTokenOutput)
      else if o.value > MAX_TOKEN_SUPPLY then Some(OutputTooLarge)
      else CheckOuts(outs, coinbase, i + 1, qnt)
  }

  /** QNT paid to an address, summed in 64 bits. */
  function Paid64(outs: seq<TxOut>, to: Hash): Amount {
    if outs == [] then 0
    else
      var o := outs[|outs| - 1];
      var before := Paid64(outs[..|outs| - 1], to);
      if o.asset == QNT && o.addr == to then Add64(before, o.value) else before
  }

  function CheckMessage(c: Core, m: TxOp): Option<Reason>
    requires m.Message?
  {
    if m.gift >= |GIFT_PRICE| then Some(BadGift)
    else if |m.text| > MAX_MESSAGE_TEXT then Some(MessageTooLong)
    else if exists k :: 0 <= k < |m.text| && (m.text[k] < 0x20 || m.text[k] == 0x7f) then Some(BadMessageText)
    else if m.text == [] && m.gift == 0 then Some(EmptyMessage)
    else
      var price := GIFT_PRICE[m.gift];
      if Paid64(c.outs, m.to) < (if price < DUST_LIMIT then DUST_LIMIT else price) then Some(MessageUnderpaid) else None
  }

  function CheckOp(c: Core, op: TxOp): Option<Reason> {
    match op
    case CreateToken(ticker, name, decimals, supply, uri) =>
      if !ValidTicker(ticker) then Some(BadTicker)
      else if !ValidText(name, 1, MAX_TOKEN_NAME) then Some(BadTokenName)
      else if !ValidText(uri, 0, MAX_TOKEN_URI) then Some(BadTokenUri)
      else if decimals > MAX_TOKEN_DECIMALS then Some(BadDecimals)
      else if supply == 0 || supply > MAX_TOKEN_SUPPLY then Some(BadSupply)
      else None
    case PoolCreate(token, qnt, tok, shares) =>
      if token == 0 || qnt == 0 || tok == 0 || shares == 0 then Some(BadPoolCreate) else None
    case AddLiquidity(token, qnt, tok, shares) =>
      if token == 0 || qnt == 0 || tok == 0 || shares == 0 then Some(BadAddLiquidity) else None
    case RemoveLiquidity(token, shares, qnt, tok) =>
      if token == 0 || shares == 0 || (qnt == 0 && tok == 0) then Some(BadRemoveLiquidity) else None
    case Swap(token, _, amtIn, amtOut) =>
      if token == 0 || amtIn == 0 || amtOut == 0 then Some(BadSwap) else None
    case Message(_, _, _, _) => CheckMessage(c, op)
  }

  /** Ops from index `i` on, after `messages` message ops. */
  function CheckOps(c: Core, i: nat, messages: nat): Option<Reason>
    requires i <= |c.ops|
    decreases |c.ops| - i
  {
    if i == |c.ops| then None
    else
      var op := c.ops[i];
      if op.Message? && messages >= 1 then Some(TooManyMessages)
      else
        match CheckOp(c, op)
        case Some(e) => Some(e)
        case None => CheckOps(c, i + 1, if op.Message? then messages + 1 else messages)
  }

  function CheckBasic(tx: Transaction, expectWitness: bool): Option<Reason> {
    var c := tx.core;
    if c.version != 2 then Some(BadVersion)
    else if |c.ops| > MAX_TX_OPS then Some(TooManyOps)
    else if IsCoinbase(c) && tx.wits != [] then Some(CoinbaseWitness)
    else if IsCoinbase(c) && c.ops != [] then Some(CoinbaseOps)
    else if !IsCoinbase(c) && c.outs == [] then Some(NoOutputs)
    else if !IsCoinbase(c) && c.extra != [] then Some(ExtraInNonCoinbase)
    else if !IsCoinbase(c) && expectWitness && |tx.wits| != |c.ins| then Some(WitnessCount)
    else if !Distinct(c.ins) then Some(DuplicateInput)
    else
      match CheckOuts(c.outs, IsCoinbase(c), 0, 0)
      case Some(e) => Some(e)
      case None => CheckOps(c, 0, 0)
  }

  /** What a transaction must already satisfy before `apply` is called on it. */
  predicate BasicOk(tx: Transaction) { CheckBasic(tx, false) == None }

  // ---------------------------------------------------------------- flows

  function At(m: map<Hash, nat>, a: Hash): nat { if a in m then m[a] else 0 }

  function Bump(m: map<Hash, nat>, a: Hash, v: nat): map<Hash, nat> { m[a := At(m, a) + v] }

  /** plus: inputs and what ops release; minus: outputs and what ops absorb. */
  datatype Flows = Flows(plus: map<Hash, nat>, minus: map<Hash, nat>)

  /** The coins of `ins`, in order; the first missing or immature one is the error. */
  function Gather(r: Rules, coins: map<OutPoint, Coin>, ins: seq<OutPoint>, height: nat): Result<seq<Coin>> {
    if ins == [] then Ok([])
    else
      var front :- Gather(r, coins, ins[..|ins| - 1], height);
      var o := ins[|ins| - 1];
      if o !in coins then Err(MissingInput)
      else if coins[o].coinbase && height < coins[o].height + r.maturity then Err(ImmatureCoinbase)
      else Ok(front + [coins[o]])
  }

  function CoinFlow(cs: seq<Coin>): map<Hash, nat> {
    if cs == [] then map[]
    else
      var c := cs[|cs| - 1];
      Bump(CoinFlow(cs[..|cs| - 1]), c.out.asset, c.out.value)
  }

  function OutFlow(outs: seq<TxOut>): map<Hash, nat> {
    if outs == [] then map[]
    else
      var o := outs[|outs| - 1];
      Bump(OutFlow(outs[..|outs| - 1]), o.asset, o.value)
  }

  // ---------------------------------------------------------------- ops

  /** What the ops of one transaction have done so far: flows into and out of the transaction,
      the pools as they now stand, and the tokens minted. */
  datatype Scratch = Scratch(plus: map<Hash, nat>, minus: map<Hash, nat>,
                             pools: map<Hash, Pool>, minted: map<Hash, TokenInfo>)

  /** The fixed surroundings of one `apply` call. */
  datatype Call = Call(rules: Rules, core: Core, height: nat, coins: seq<Coin>, tokens: map<Hash, TokenInfo>)

  function StepCreateToken(k: Call, s: Scratch, i: nat): Result<Scratch>
    requires i < |k.core.ops| && k.core.ins != [] && k.core.ops[i].CreateToken?
  {
    var op := k.core.ops[i];
    var id := k.rules.tokenId(k.core.ins[0], i);
    if id in s.minted || id in k.tokens then Err(TokenExists)
    else Ok(s.(minted := s.minted[id := InfoOf(k.rules, k.core, k.height, op, id)],
        plus := Bump(s.plus, id, op.supply)))
  }

  function InfoOf(r: Rules, c: Core, height: nat, op: TxOp, id: Hash): TokenInfo
    requires op.CreateToken?
  {
    TokenInfo(id, op.ticker, op.name, op.uri, op.decimals, op.supply, r.txid(c), height)
  }

  /** A pool op's outcome: the pool it leaves and the flows with its own amounts added. */
  datatype PoolStep = PoolStep(pool: Pool, plus: map<Hash, nat>, minus: map<Hash, nat>)

  predicate IsPoolOp(op: TxOp) { op.PoolCreate? || op.AddLiquidity? || op.RemoveLiquidity? || op.Swap? }

  function CreatePool(r: Rules, op: TxOp, known: bool, p: Option<Pool>, f: Flows): Result<PoolStep>
    requires op.PoolCreate?
  {
    var t, qnt, tok, shares := op.token, op.qnt, op.tok, op.shares;
    if !known then Err(UnknownToken)
    else if p.Some? then Err(PoolExists)
    else if qnt > MAX_MONEY then Err(PoolTooLarge)
    else
      var total := RootShares(qnt, tok);
      if total <= MIN_LIQUIDITY || shares > total - MIN_LIQUIDITY then Err(PoolSharesTooHigh)
      else
        Ok(PoolStep(Pool(t, qnt, tok, shares + MIN_LIQUIDITY),
                    Bump(f.plus, r.shareId(t), shares),
                    Bump(Bump(f.minus, QNT, qnt), t, tok)))
  }

  function AddTo(r: Rules, op: TxOp, p: Pool, f: Flows): Result<PoolStep>
    requires op.AddLiquidity?
  {
    var t, qnt, tok, shares := op.token, op.qnt, op.tok, op.shares;
    if shares > AddShares(p, qnt, tok) then Err(LiquiditySharesTooHigh)
    else if p.qnt + qnt > MAX_MONEY || p.tok + tok > MAX_TOKEN_SUPPLY || p.shares + shares > MAX_TOKEN_SUPPLY
    then Err(PoolTooLarge)
    else
      Ok(PoolStep(p.(qnt := p.qnt + qnt, tok := p.tok + tok, shares := p.shares + shares),
                  Bump(f.plus, r.shareId(t), shares),
                  Bump(Bump(f.minus, QNT, qnt), t, tok)))
  }

  function RemoveFrom(r: Rules, op: TxOp, p: Pool, f: Flows): Result<PoolStep>
    requires op.RemoveLiquidity?
  {
    var t, qnt, tok, shares := op.token, op.qnt, op.tok, op.shares;
    if shares > Sub64(p.shares, MIN_LIQUIDITY) then Err(RemoveTooManyShares)
    else if qnt > RemoveQnt(p, shares) || tok > RemoveTok(p, shares) then Err(RemoveAmountsTooHigh)
    else
      Ok(PoolStep(p.(qnt := Sub64(p.qnt, qnt), tok := Sub64(p.tok, tok), shares := Sub64(p.shares, shares)),
                  Bump(Bump(f.plus, QNT, qnt), t, tok),
                  Bump(f.minus, r.shareId(t), shares)))
  }

  function SwapIn(op: TxOp, p: Pool, f: Flows): Result<PoolStep>
    requires op.Swap?
  {
    var t, amtIn, amtOut := op.token, op.amtIn, op.amtOut;
    var rin := if op.sell then p.tok else p.qnt;
    var rout := if op.sell then p.qnt else p.tok;
    if amtOut >= rout || amtOut > Quote(amtIn, rin, rout) then Err(SwapPriceMoved)
    else if rin + amtIn > (if op.sell then MAX_TOKEN_SUPPLY else MAX_MONEY) then Err(PoolTooLarge)
    else
      Ok(PoolStep(if op.sell then p.(tok := rin + amtIn, qnt := rout - amtOut)
                  else p.(qnt := rin + amtIn, tok := rout - amtOut),
                  Bump(f.plus, if op.sell then QNT else t, amtOut),
                  Bump(f.minus, if op.sell then t else QNT, amtIn)))
  }

  /** One pool op, given whether its token is known and the pool as it now stands. */
  function PoolOp(r: Rules, op: TxOp, known: bool, p: Option<Pool>, f: Flows): Result<PoolStep>
    requires IsPoolOp(op)
  {
    if op.PoolCreate? then CreatePool(r, op, known, p, f)
    else if p.None? then Err(NoPool)
    else if op.AddLiquidity? then AddTo(r, op, p.value, f)
    else if op.RemoveLiquidity? then RemoveFrom(r, op, p.value, f)
    else SwapIn(op, p.value, f)
  }

  function Get<K, V>(m: map<K, V>, k: K): Option<V> { if k in m then Some(m[k]) else None }

  /** One op against the scratch state. */
  function StepOp(k: Call, s: Scratch, i: nat): Result<Scratch>
    requires i < |k.core.ops| && k.core.ins != []
  {
    var op := k.core.ops[i];
    if op.CreateToken? then StepCreateToken(k, s, i)
    else if op.Message? then
      if SentFromInput(k.coins, op.from) then Ok(s) else Err(MessageFromNotInput)
    else
      var ps :- PoolOp(k.rules, op, op.token in s.minted || op.token in k.tokens, Get(s.pools, op.token),
                       Flows(s.plus, s.minus));
      Ok(s.(pools := s.pools[op.token := ps.pool], plus := ps.plus, minus := ps.minus))
  }

  predicate SentFromInput(coins: seq<Coin>, from: Hash) {
    exists j :: 0 <= j < |coins| && coins[j].out.addr == from
  }

  /** Ops from index `i` on. */
  function RunOps(k: Call, s: Scratch, i: nat): Result<Scratch>
    requires i <= |k.core.ops| && k.core.ins != []
    decreases |k.core.ops| - i
  {
    if i == |k.core.ops| then Ok(s)
    else
      var s' :- StepOp(k, s, i);
      RunOps(k, s', i + 1)
  }

  // ---------------------------------------------------------------- balance and signatures

  predicate TokensBalance(f: Flows) {
    forall a :: a in f.plus.Keys + f.minus.Keys && a != QNT ==> At(f.plus, a) == At(f.minus, a)
  }

  /** Every asset balances exactly; QNT may leave a fee. */
  function FeeOf(f: Flows): Result<Amount> {
    var p, m := At(f.plus, QNT), At(f.minus, QNT);
    if m > p then Err(OutputsExceedInputs)
    else if p - m > MAX_MONEY then Err(FeeTooLarge)
    else if !TokensBalance(f) then Err(TokenNotBalanced)
    else Ok(p - m)
  }

  /** Witnesses from input `i` on. */
  function VerifyFrom(r: Rules, tx: Transaction, coins: seq<Coin>, i: nat): Option<Reason>
    requires i <= |tx.core.ins| == |tx.wits| == |coins|
    decreases |coins| - i
  {
    if i == |coins| then None
    else
      var addr := coins[i].out.addr;
      match tx.wits[i]
      case Ref(j) =>
        if j >= i then Some(RefForward)
        else if tx.wits[j].Ref? then Some(RefChain)
        else if coins[j].out.addr != addr then Some(RefAddressMismatch)
        else VerifyFrom(r, tx, coins, i + 1)
      case Falcon(pk, sig) =>
        if r.addressOf(pk) != addr then Some(KeyMismatch)
        else if !r.falcon(pk, sig, r.txid(tx.core)) then Some(BadSignature)
        else VerifyFrom(r, tx, coins, i + 1)
  }

  function VerifyWitness(r: Rules, tx: Transaction, coins: seq<Coin>): Option<Reason>
    requires |coins| == |tx.core.ins|
  {
    if |tx.wits| != |tx.core.ins| then Some(WitnessCount) else VerifyFrom(r, tx, coins, 0)
  }

  // ---------------------------------------------------------------- apply

  /** The coins a transaction's outputs become. */
  function Created(id: Hash, outs: seq<TxOut>, height: nat, coinbase: bool): (m: map<OutPoint, Coin>)
    ensures forall o :: o in m <==> o.txid == id && o.n < |outs|
    ensures forall o :: o in m ==> m[o] == Coin(outs[o.n], height, coinbase)
  {
    if outs == [] then map[]
    else
      var n := |outs| - 1;
      Created(id, outs[..n], height, coinbase)[OutPoint(id, n) := Coin(outs[n], height, coinbase)]
  }

  function InputSet(ins: seq<OutPoint>): set<OutPoint> { set o | o in ins }

  datatype Applied = Applied(state: State, fee: Amount)

  lemma GatherLength(r: Rules, coins: map<OutPoint, Coin>, ins: seq<OutPoint>, height: nat)
    requires Gather(r, coins, ins, height).Ok?
    ensures |Gather(r, coins, ins, height).value| == |ins|
  {}

  function Start(c: Core, coins: seq<Coin>, pools: map<Hash, Pool>): Scratch {
    Scratch(CoinFlow(coins), OutFlow(c.outs), pools, map[])
  }

  function Commit(r: Rules, st: State, c: Core, height: nat, s: Scratch): State {
    State((st.coins - InputSet(c.ins)) + Created(r.txid(c), c.outs, height, false),
          st.tokens + s.minted,
          s.pools)
  }

  /** `LedgerView::apply` on the state the view presents. */
  function ApplyTx(r: Rules, st: State, tx: Transaction, height: nat, verify: bool): Result<Applied> {
    var c := tx.core;
    if IsCoinbase(c) then Err(CoinbaseInApply)
    else if c.lockHeight > height then Err(Locked)
    else
      var coins :- Gather(r, st.coins, c.ins, height);
      var s :- RunOps(Call(r, c, height, coins, st.tokens), Start(c, coins, st.pools), 0);
      var fee :- FeeOf(Flows(s.plus, s.minus));
      GatherLength(r, st.coins, c.ins, height);
      var sigs := if verify then VerifyWitness(r, tx, coins) else None;
      if sigs.Some? then Err(sigs.value)
      else Ok(Applied(Commit(r, st, c, height, s), fee))
  }

  /** `apply_coinbase`. */
  function ApplyCoinbase(r: Rules, st: State, tx: Transaction, height: nat): State {
    st.(coins := st.coins + Created(r.txid(tx.core), tx.core.outs, height, true))
  }
}
