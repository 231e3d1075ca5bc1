/** What accepted transactions keep: every asset's total, every pool's backing, and the history
    that makes outpoints unique. */
module LedgerLaws {
  import opened Types
  import opened Arith
  import opened Sums
  import opened Amm
  import opened Ledger

  // ---------------------------------------------------------------- totals

  ghost function CoinValue(a: Hash): (OutPoint, Coin) -> int {
    (o: OutPoint, c: Coin) => if c.out.asset == a then c.out.value else 0
  }

  /** What a pool holds of asset `a`. Shares in circulation are a debt of the pool. */
  ghost function Holding(r: Rules, t: Hash, p: Pool, a: Hash): int {
    (if a == QNT then p.qnt else 0) + (if a == t then p.tok else 0)
    - (if a == r.shareId(t) then p.shares - MIN_LIQUIDITY else 0)
  }

  ghost function PoolValue(r: Rules, a: Hash): (Hash, Pool) -> int {
    (t: Hash, p: Pool) => Holding(r, t, p, a)
  }

  ghost function CoinSum(coins: map<OutPoint, Coin>, a: Hash): int { MapSum(coins, CoinValue(a)) }

  ghost function PoolSum(r: Rules, pools: map<Hash, Pool>, a: Hash): int { MapSum(pools, PoolValue(r, a)) }

  function Minted(tokens: map<Hash, TokenInfo>, a: Hash): nat { if a in tokens then tokens[a].supply else 0 }

  /** Holdings of `a` in coins and pools, less what was declared. */
  ghost function Net(r: Rules, st: State, a: Hash): int {
    CoinSum(st.coins, a) + PoolSum(r, st.pools, a) - Minted(st.tokens, a)
  }

  // ---------------------------------------------------------------- pools

  ghost predicate PoolsOk(pools: map<Hash, Pool>) {
    forall t :: t in pools ==> pools[t].token == t && PoolOk(pools[t])
  }

  /** Every pool is still there, and its shares are backed by no less. */
  ghost predicate PoolsGrow(pools: map<Hash, Pool>, pools': map<Hash, Pool>) {
    forall t :: t in pools ==> t in pools' && NoDilution(pools[t], pools'[t])
  }

  lemma CreateSound(p: Pool, qnt: Amount, tok: Amount, shares: Amount)
    requires p.qnt == qnt && p.tok == tok && p.shares == shares + MIN_LIQUIDITY <= RootShares(qnt, tok)
    ensures PoolOk(p)
  {
    var x := RootShares(qnt, tok);
    ProductMono(p.shares, x, p.shares, x);
  }

  /** Flows and pools together: unchanged by every op, however far out of balance the flows are. */
  ghost function Balance(r: Rules, s: Scratch, a: Hash): int {
    PoolSum(r, s.pools, a) + At(s.plus, a) - At(s.minus, a) - Minted(s.minted, a)
  }

  /** What one op must do: leave sound, undiluted pools and move nothing out of thin air. */
  ghost predicate OpSound(r: Rules, s: Scratch, s': Scratch) {
    && PoolsOk(s'.pools)
    && PoolsGrow(s.pools, s'.pools)
    && forall a :: Balance(r, s', a) == Balance(r, s, a)
  }

  lemma BumpAt(m: map<Hash, nat>, a: Hash, v: nat, b: Hash)
    ensures At(Bump(m, a, v), b) == At(m, b) + (if a == b then v else 0)
  {}

  ghost function HoldingOf(r: Rules, t: Hash, p: Option<Pool>, a: Hash): int {
    if p.Some? then Holding(r, t, p.value, a) else 0
  }

  /** What one pool op must leave: a sound, undiluted pool ... */
  ghost predicate PoolGood(t: Hash, p: Option<Pool>, p': Pool) {
    && p'.token == t && PoolOk(p')
    && (p.Some? ==> NoDilution(p.value, p'))
  }

  /** ... and flows of exactly what the pool lost. */
  ghost predicate FlowsMatch(r: Rules, t: Hash, p: Option<Pool>, f: Flows, ps: PoolStep) {
    forall a :: FlowChange(f, ps, a) == HoldingOf(r, t, p, a) - Holding(r, t, ps.pool, a)
  }

  ghost function FlowChange(f: Flows, ps: PoolStep, a: Hash): int {
    At(ps.plus, a) - At(f.plus, a) - (At(ps.minus, a) - At(f.minus, a))
  }

  lemma DepositFlows(r: Rules, t: Hash, qnt: nat, tok: nat, shares: nat, f: Flows, ps: PoolStep, a: Hash)
    requires ps.plus == Bump(f.plus, r.shareId(t), shares) && ps.minus == Bump(Bump(f.minus, QNT, qnt), t, tok)
    ensures FlowChange(f, ps, a) ==
            (if a == r.shareId(t) then shares else 0) - (if a == QNT then qnt else 0) - (if a == t then tok else 0)
  {
    BumpAt(f.plus, r.shareId(t), shares, a);
    BumpAt(f.minus, QNT, qnt, a);
    BumpAt(Bump(f.minus, QNT, qnt), t, tok, a);
  }

  lemma CreatePoolGood(r: Rules, op: TxOp, known: bool, p: Option<Pool>, f: Flows, ps: PoolStep)
    requires op.PoolCreate? && CreatePool(r, op, known, p, f) == Ok(ps)
    ensures PoolGood(op.token, p, ps.pool)
  {
    CreateSound(ps.pool, op.qnt, op.tok, op.shares);
  }

  lemma CreatePoolFlows(r: Rules, op: TxOp, known: bool, p: Option<Pool>, f: Flows, ps: PoolStep)
    requires op.PoolCreate? && CreatePool(r, op, known, p, f) == Ok(ps)
    ensures FlowsMatch(r, op.token, p, f, ps)
  {
    forall a { DepositFlows(r, op.token, op.qnt, op.tok, op.shares, f, ps, a); }
  }

  lemma AddToGood(r: Rules, op: TxOp, p: Pool, f: Flows, ps: PoolStep)
    requires op.AddLiquidity? && AddTo(r, op, p, f) == Ok(ps) && PoolOk(p) && p.token == op.token
    ensures PoolGood(op.token, Some(p), ps.pool)
  {
    AddNoDilution(p, op.qnt, op.tok, op.shares, ps.pool);
  }

  lemma AddToFlows(r: Rules, op: TxOp, p: Pool, f: Flows, ps: PoolStep)
    requires op.AddLiquidity? && AddTo(r, op, p, f) == Ok(ps)
    ensures FlowsMatch(r, op.token, Some(p), f, ps)
  {
    hide AddShares;
    forall a { DepositFlows(r, op.token, op.qnt, op.tok, op.shares, f, ps, a); }
  }

  lemma Sub64Exact(x: Amount, y: Amount)
    requires y <= x
    ensures Sub64(x, y) == x - y
  {}

  /** None of the four 64-bit subtractions of a withdrawal wraps. */
  lemma RemoveFromGood(r: Rules, op: TxOp, p: Pool, f: Flows, ps: PoolStep)
    requires op.RemoveLiquidity? && RemoveFrom(r, op, p, f) == Ok(ps) && PoolOk(p) && p.token == op.token
    ensures op.qnt <= p.qnt && op.tok <= p.tok && op.shares <= p.shares - MIN_LIQUIDITY
    ensures ps.pool == p.(qnt := p.qnt - op.qnt, tok := p.tok - op.tok, shares := p.shares - op.shares)
    ensures PoolGood(op.token, Some(p), ps.pool)
  {
    Sub64Exact(p.shares, MIN_LIQUIDITY);
    RemoveNoDilution(p, op.shares, op.qnt, op.tok);
    Sub64Exact(p.shares, op.shares);
    Sub64Exact(p.qnt, op.qnt);
    Sub64Exact(p.tok, op.tok);
  }

  lemma RemoveFromFlows(r: Rules, op: TxOp, p: Pool, f: Flows, ps: PoolStep)
    requires op.RemoveLiquidity? && RemoveFrom(r, op, p, f) == Ok(ps)
    requires op.qnt <= p.qnt && op.tok <= p.tok && op.shares <= p.shares
    requires ps.pool == p.(qnt := p.qnt - op.qnt, tok := p.tok - op.tok, shares := p.shares - op.shares)
    ensures FlowsMatch(r, op.token, Some(p), f, ps)
  {
    forall a
      ensures FlowChange(f, ps, a) ==
              (if a == QNT then op.qnt else 0) + (if a == op.token then op.tok else 0)
              - (if a == r.shareId(op.token) then op.shares else 0)
    {
      BumpAt(f.plus, QNT, op.qnt, a);
      BumpAt(Bump(f.plus, QNT, op.qnt), op.token, op.tok, a);
      BumpAt(f.minus, r.shareId(op.token), op.shares, a);
    }
  }

  lemma SwapInGood(op: TxOp, p: Pool, f: Flows, ps: PoolStep)
    requires op.Swap? && SwapIn(op, p, f) == Ok(ps) && PoolOk(p) && p.token == op.token
    ensures PoolGood(op.token, Some(p), ps.pool)
  {
    if op.sell {
      SellNoDilution(p, op.amtIn, op.amtOut, ps.pool);
    } else {
      BuyNoDilution(p, op.amtIn, op.amtOut, ps.pool);
    }
  }

  lemma SwapInFlows(r: Rules, op: TxOp, p: Pool, f: Flows, ps: PoolStep)
    requires op.Swap? && SwapIn(op, p, f) == Ok(ps)
    ensures FlowsMatch(r, op.token, Some(p), f, ps)
  {
    forall a
      ensures FlowChange(f, ps, a) ==
              (if a == (if op.sell then QNT else op.token) then op.amtOut else 0)
              - (if a == (if op.sell then op.token else QNT) then op.amtIn else 0)
    {
      BumpAt(f.plus, if op.sell then QNT else op.token, op.amtOut, a);
      BumpAt(f.minus, if op.sell then op.token else QNT, op.amtIn, a);
    }
  }

  lemma PoolOpSound(r: Rules, op: TxOp, known: bool, p: Option<Pool>, f: Flows, ps: PoolStep)
    requires IsPoolOp(op) && PoolOp(r, op, known, p, f) == Ok(ps)
    requires p.Some? ==> PoolOk(p.value) && p.value.token == op.token
    ensures PoolGood(op.token, p, ps.pool) && FlowsMatch(r, op.token, p, f, ps)
  {
    if op.PoolCreate? {
      CreatePoolGood(r, op, known, p, f, ps);
      CreatePoolFlows(r, op, known, p, f, ps);
    } else if op.AddLiquidity? {
      AddToGood(r, op, p.value, f, ps);
      AddToFlows(r, op, p.value, f, ps);
    } else if op.RemoveLiquidity? {
      RemoveFromGood(r, op, p.value, f, ps);
      RemoveFromFlows(r, op, p.value, f, ps);
    } else {
      SwapInGood(op, p.value, f, ps);
      SwapInFlows(r, op, p.value, f, ps);
    }
  }

  /** A sound pool op makes a sound step of the whole scratch state. */
  lemma PoolStepLifts(r: Rules, s: Scratch, t: Hash, ps: PoolStep)
    requires PoolsOk(s.pools) && PoolGood(t, Get(s.pools, t), ps.pool)
    requires FlowsMatch(r, t, Get(s.pools, t), Flows(s.plus, s.minus), ps)
    ensures OpSound(r, s, s.(pools := s.pools[t := ps.pool], plus := ps.plus, minus := ps.minus))
  {
    var s' := s.(pools := s.pools[t := ps.pool], plus := ps.plus, minus := ps.minus);
    forall a
      ensures Balance(r, s', a) == Balance(r, s, a)
    {
      MapSumPut(s.pools, PoolValue(r, a), t, ps.pool);
      assert FlowChange(Flows(s.plus, s.minus), ps, a) == HoldingOf(r, t, Get(s.pools, t), a) - Holding(r, t, ps.pool,
          a);
    }
    forall u | u in s.pools
      ensures u in s'.pools && NoDilution(s.pools[u], s'.pools[u])
    {}
  }

  lemma StepOpSound(k: Call, s: Scratch, i: nat, s': Scratch)
    requires i < |k.core.ops| && k.core.ins != []
    requires StepOp(k, s, i) == Ok(s') && PoolsOk(s.pools)
    ensures OpSound(k.rules, s, s')
  {
    var op := k.core.ops[i];
    if IsPoolOp(op) {
      var known, p, f := op.token in s.minted || op.token in k.tokens, Get(s.pools, op.token), Flows(s.plus, s.minus);
      var ps := PoolOp(k.rules, op, known, p, f).value;
      PoolOpSound(k.rules, op, known, p, f, ps);
      PoolStepLifts(k.rules, s, op.token, ps);
    } else if op.CreateToken? {
      forall a ensures Balance(k.rules, s', a) == Balance(k.rules, s, a) {}
    }
  }

  /** Any mix of ops in one transaction keeps every pool sound and undiluted and conserves every asset. */
  lemma {:induction false} RunOpsSound(k: Call, s: Scratch, i: nat, s': Scratch)
    requires i <= |k.core.ops| && k.core.ins != []
    requires RunOps(k, s, i) == Ok(s') && PoolsOk(s.pools)
    ensures OpSound(k.rules, s, s')
    decreases |k.core.ops| - i
  {
    if i < |k.core.ops| {
      var s1 := StepOp(k, s, i).value;
      StepOpSound(k, s, i, s1);
      RunOpsSound(k, s1, i + 1, s');
      OpSoundTrans(k.rules, s, s1, s');
    }
  }

  lemma OpSoundTrans(r: Rules, s: Scratch, s1: Scratch, s2: Scratch)
    requires PoolsOk(s.pools) && OpSound(r, s, s1) && OpSound(r, s1, s2)
    ensures OpSound(r, s, s2)
  {
    forall t | t in s.pools
      ensures t in s2.pools && NoDilution(s.pools[t], s2.pools[t])
    {
      NoDilutionTrans(s.pools[t], s1.pools[t], s2.pools[t]);
    }
    forall a ensures Balance(r, s2, a) == Balance(r, s, a) {}
  }

  /** Minted tokens are new, and carry ids of the token-id hash; pools are only opened on known tokens. */
  ghost predicate TokensKnown(r: Rules, tokens: map<Hash, TokenInfo>, pools: map<Hash, Pool>) {
    && (forall t :: t in tokens ==> tokens[t].id == t && exists o, i :: t == r.tokenId(o, i))
    && (forall t :: t in pools ==> t in tokens)
  }

  ghost predicate TokensSound(k: Call, s: Scratch) {
    s.minted.Keys !! k.tokens.Keys && TokensKnown(k.rules, k.tokens + s.minted, s.pools)
  }

  lemma StepOpTokens(k: Call, s: Scratch, i: nat, s': Scratch)
    requires i < |k.core.ops| && k.core.ins != []
    requires StepOp(k, s, i) == Ok(s') && TokensSound(k, s)
    ensures TokensSound(k, s')
  {
    if k.core.ops[i].CreateToken? {
      var id := k.rules.tokenId(k.core.ins[0], i);
      assert k.tokens + s'.minted == (k.tokens + s.minted)[id := s'.minted[id]];
    } else {
      assert s'.minted == s.minted;
      forall t | t in s'.pools ensures t in k.tokens + s.minted {}
    }
  }

  lemma {:induction false} RunOpsTokens(k: Call, s: Scratch, i: nat, s': Scratch)
    requires i <= |k.core.ops| && k.core.ins != []
    requires RunOps(k, s, i) == Ok(s') && TokensSound(k, s)
    ensures TokensSound(k, s')
    decreases |k.core.ops| - i
  {
    if i < |k.core.ops| {
      var s1 := StepOp(k, s, i).value;
      StepOpTokens(k, s, i, s1);
      RunOpsTokens(k, s1, i + 1, s');
    }
  }

  // ---------------------------------------------------------------- coins in and out

  lemma {:induction false} CoinSumCreated(base: map<OutPoint, Coin>, id: Hash, outs: seq<TxOut>, height: nat, cb: bool,
                                          a: Hash)
    requires forall n: nat :: n < |outs| ==> OutPoint(id, n) !in base
    ensures CoinSum(base + Created(id, outs, height, cb), a) == CoinSum(base, a) + At(OutFlow(outs), a)
  {
    if outs == [] {
      assert base + Created(id, outs, height, cb) == base;
    } else {
      var n := |outs| - 1;
      var o, c := OutPoint(id, n), Coin(outs[n], height, cb);
      var made := Created(id, outs[..n], height, cb);
      CoinSumCreated(base, id, outs[..n], height, cb, a);
      assert o !in base + made;
      MapSumPut(base + made, CoinValue(a), o, c);
      assert Created(id, outs, height, cb) == made[o := c];
      MergePut(base, made, o, c);
    }
  }

  lemma {:induction false} CoinSumSpent(r: Rules, coins: map<OutPoint, Coin>, ins: seq<OutPoint>, height: nat, a: Hash)
    requires Distinct(ins) && Gather(r, coins, ins, height).Ok?
    ensures InputSet(ins) <= coins.Keys
    ensures CoinSum(coins - InputSet(ins), a) == CoinSum(coins, a) - At(CoinFlow(Gather(r, coins, ins, height).value),
              a)
  {
    if ins == [] {
      assert coins - InputSet(ins) == coins;
    } else {
      var n := |ins| - 1;
      var front := ins[..n];
      var o := ins[n];
      CoinSumSpent(r, coins, front, height, a);
      var cs := Gather(r, coins, front, height).value;
      assert Gather(r, coins, ins, height).value == cs + [coins[o]];
      assert (cs + [coins[o]])[..|cs|] == cs;
      assert o !in InputSet(front);
      MapSumTake(coins - InputSet(front), CoinValue(a), o);
      assert InputSet(ins) == InputSet(front) + {o};
      assert coins - InputSet(ins) == (coins - InputSet(front)) - {o};
    }
  }

  // ---------------------------------------------------------------- one transaction

  ghost predicate Fresh(coins: map<OutPoint, Coin>, id: Hash) {
    forall o :: o in coins ==> o.txid != id
  }

  /** Conservation: across an accepted transaction every asset's net total is unchanged,
      except that QNT falls by exactly the fee. */
  lemma ApplyConserves(r: Rules, st: State, tx: Transaction, height: nat, verify: bool, a: Hash)
    requires ApplyTx(r, st, tx, height, verify).Ok? && BasicOk(tx)
    requires PoolsOk(st.pools) && Fresh(st.coins, r.txid(tx.core))
    requires TokensKnown(r, st.tokens, st.pools)
    ensures var ap := ApplyTx(r, st, tx, height, verify).value;
            Net(r, ap.state, a) == Net(r, st, a) - (if a == QNT then ap.fee else 0)
  {
    var coins, s := ApplyParts(r, st, tx, height, verify);
    CommitConserves(r, st, tx.core, height, coins, s, a);
    FeeBalances(Flows(s.plus, s.minus), a);
  }

  lemma FeeBalances(f: Flows, a: Hash)
    requires FeeOf(f).Ok?
    ensures At(f.plus, a) - At(f.minus, a) == if a == QNT then FeeOf(f).value else 0
  {
    if a != QNT && a !in f.plus.Keys + f.minus.Keys {
      assert At(f.plus, a) == 0;
    }
  }

  /** What an accepted transaction went through. */
  lemma ApplyParts(r: Rules, st: State, tx: Transaction, height: nat,
                   verify: bool) returns (coins: seq<Coin>, s: Scratch)
    requires ApplyTx(r, st, tx, height, verify).Ok?
    ensures !IsCoinbase(tx.core) && Gather(r, st.coins, tx.core.ins, height) == Ok(coins)
    ensures RunOps(Call(r, tx.core, height, coins, st.tokens), Start(tx.core, coins, st.pools), 0) == Ok(s)
    ensures FeeOf(Flows(s.plus, s.minus)) == Ok(ApplyTx(r, st, tx, height, verify).value.fee)
    ensures ApplyTx(r, st, tx, height, verify).value.state == Commit(r, st, tx.core, height, s)
  {
    coins := Gather(r, st.coins, tx.core.ins, height).value;
    s := RunOps(Call(r, tx.core, height, coins, st.tokens), Start(tx.core, coins, st.pools), 0).value;
  }

  lemma CommitConserves(r: Rules, st: State, c: Core, height: nat, coins: seq<Coin>, s: Scratch, a: Hash)
    requires !IsCoinbase(c) && Distinct(c.ins) && Gather(r, st.coins, c.ins, height) == Ok(coins)
    requires RunOps(Call(r, c, height, coins, st.tokens), Start(c, coins, st.pools), 0) == Ok(s)
    requires PoolsOk(st.pools) && Fresh(st.coins, r.txid(c)) && TokensKnown(r, st.tokens, st.pools)
    ensures Net(r, Commit(r, st, c, height, s), a) == Net(r, st, a) - At(s.plus, a) + At(s.minus, a)
  {
    var k := Call(r, c, height, coins, st.tokens);
    var s0 := Start(c, coins, st.pools);
    assert k.tokens + s0.minted == st.tokens;
    RunOpsBalance(k, s0, s, a);
    CommitCoins(r, st, c, height, coins, s, a);
  }

  lemma RunOpsBalance(k: Call, s0: Scratch, s: Scratch, a: Hash)
    requires k.core.ins != [] && RunOps(k, s0, 0) == Ok(s)
    requires PoolsOk(s0.pools) && TokensSound(k, s0)
    ensures Balance(k.rules, s, a) == Balance(k.rules, s0, a)
    ensures Minted(k.tokens + s.minted, a) == Minted(k.tokens, a) + Minted(s.minted, a)
  {
    RunOpsTokens(k, s0, 0, s);
    RunOpsSound(k, s0, 0, s);
  }

  lemma CommitCoins(r: Rules, st: State, c: Core, height: nat, coins: seq<Coin>, s: Scratch, a: Hash)
    requires Distinct(c.ins) && Gather(r, st.coins, c.ins, height) == Ok(coins) && Fresh(st.coins, r.txid(c))
    ensures CoinSum(Commit(r, st, c, height, s).coins, a) ==
            CoinSum(st.coins, a) - At(CoinFlow(coins), a) + At(OutFlow(c.outs), a)
  {
    CoinSumSpent(r, st.coins, c.ins, height, a);
    CoinSumCreated(st.coins - InputSet(c.ins), r.txid(c), c.outs, height, false, a);
  }

  /** What every reachable ledger state satisfies. */
  ghost predicate LedgerInv(r: Rules, st: State) {
    && PoolsOk(st.pools)
    && TokensKnown(r, st.tokens, st.pools)
    && (forall a :: a != QNT ==> Net(r, st, a) == 0)
  }

  lemma ApplyKeepsLedger(r: Rules, st: State, tx: Transaction, height: nat, verify: bool)
    requires ApplyTx(r, st, tx, height, verify).Ok? && BasicOk(tx)
    requires LedgerInv(r, st) && Fresh(st.coins, r.txid(tx.core))
    ensures LedgerInv(r, ApplyTx(r, st, tx, height, verify).value.state)
    ensures PoolsGrow(st.pools, ApplyTx(r, st, tx, height, verify).value.state.pools)
  {
    var coins, s := ApplyParts(r, st, tx, height, verify);
    CommitKeepsLedger(r, st, tx.core, height, coins, s);
  }

  lemma CommitKeepsLedger(r: Rules, st: State, c: Core, height: nat, coins: seq<Coin>, s: Scratch)
    requires !IsCoinbase(c) && Distinct(c.ins) && Gather(r, st.coins, c.ins, height) == Ok(coins)
    requires RunOps(Call(r, c, height, coins, st.tokens), Start(c, coins, st.pools), 0) == Ok(s)
    requires FeeOf(Flows(s.plus, s.minus)).Ok? && LedgerInv(r, st) && Fresh(st.coins, r.txid(c))
    ensures LedgerInv(r, Commit(r, st, c, height, s)) && PoolsGrow(st.pools, s.pools)
  {
    var k := Call(r, c, height, coins, st.tokens);
    var s0 := Start(c, coins, st.pools);
    assert k.tokens + s0.minted == st.tokens;
    RunOpsTokens(k, s0, 0, s);
    RunOpsSound(k, s0, 0, s);
    forall a | a != QNT
      ensures Net(r, Commit(r, st, c, height, s), a) == 0
    {
      CommitConserves(r, st, c, height, coins, s, a);
      FeeBalances(Flows(s.plus, s.minus), a);
    }
  }

  // ---------------------------------------------------------------- what the invariant means

  /** Each token's coins and pool reserve add up to its declared supply. */
  lemma TokenTotal(r: Rules, st: State, t: Hash)
    requires LedgerInv(r, st) && r.AssetsIdeal() && t in st.tokens
    ensures CoinSum(st.coins, t) + (if t in st.pools then st.pools[t].tok else 0) == st.tokens[t].supply
  {
    TokenIsNoShare(r, st, t);
    forall j | j in st.pools && j != t
      ensures PoolValue(r, t)(j, st.pools[j]) == 0
    {}
    MapSumAt(st.pools, PoolValue(r, t), t);
    assert Net(r, st, t) == 0;
  }

  lemma TokenIsNoShare(r: Rules, st: State, t: Hash)
    requires LedgerInv(r, st) && r.AssetsIdeal() && t in st.tokens
    ensures t != QNT && forall u :: r.shareId(u) != t
  {
    var o, i :| t == r.tokenId(o, i);
  }

  /** A pool's shares are exactly the share coins plus the locked minimum. */
  lemma ShareTotal(r: Rules, st: State, t: Hash)
    requires LedgerInv(r, st) && r.AssetsIdeal() && t in st.pools
    ensures CoinSum(st.coins, r.shareId(t)) + MIN_LIQUIDITY == st.pools[t].shares
  {
    var a := r.shareId(t);
    if a in st.tokens { TokenIsNoShare(r, st, a); }
    forall j | j in st.pools
      ensures PoolValue(r, a)(j, st.pools[j]) == if j == t then MIN_LIQUIDITY - st.pools[t].shares else 0
    {
      assert a != j;
    }
    MapSumAt(st.pools, PoolValue(r, a), t);
    assert Net(r, st, a) == 0;
  }

  /** No coin carries an asset that is neither QNT, nor a declared token, nor a pool's share. */
  lemma UnknownAssetsAbsent(r: Rules, st: State, o: OutPoint)
    requires LedgerInv(r, st) && o in st.coins && st.coins[o].out.value > 0
    ensures var a := st.coins[o].out.asset;
            a == QNT || a in st.tokens || exists t :: t in st.pools && a == r.shareId(t)
  {
    var a := st.coins[o].out.asset;
    MapSumNonNegative(st.coins, CoinValue(a));
    assert CoinValue(a)(o, st.coins[o]) > 0;
    if a != QNT && a !in st.tokens {
      assert Net(r, st, a) == 0;
      if forall t :: t in st.pools ==> a != r.shareId(t) {
        forall t | t in st.pools ensures PoolValue(r, a)(t, st.pools[t]) == 0 {}
        MapSumZero(st.pools, PoolValue(r, a));
      }
    }
  }

  // ---------------------------------------------------------------- history

  ghost function Ids(r: Rules, seen: set<Core>): set<Hash> { set c | c in seen :: r.txid(c) }

  /** `seen` are all transactions so far: every coin was made by one of them, and none of their
      inputs is a coin any more. */
  ghost predicate Hist(r: Rules, st: State, seen: set<Core>) {
    && (forall o :: o in st.coins ==> o.txid in Ids(r, seen))
    && (forall c, i :: c in seen && 0 <= i < |c.ins| ==> c.ins[i] !in st.coins && c.ins[i].txid in Ids(r, seen))
  }

  /** The coinbases among `seen` belong to heights below `height`. */
  ghost predicate CoinbasesBelow(seen: set<Core>, height: nat) {
    forall c :: c in seen && IsCoinbase(c) ==> c.lockHeight < height
  }

  lemma {:induction false} GatherPresent(r: Rules, coins: map<OutPoint, Coin>, ins: seq<OutPoint>, height: nat)
    requires Gather(r, coins, ins, height).Ok?
    ensures forall i :: 0 <= i < |ins| ==> ins[i] in coins
    ensures |Gather(r, coins, ins, height).value| == |ins|
    ensures forall i :: 0 <= i < |ins| ==> Gather(r, coins, ins, height).value[i] == coins[ins[i]]
  {
    if ins != [] { GatherPresent(r, coins, ins[..|ins| - 1], height); }
  }

  /** A transaction that can be applied is not a repetition: a repeated id would be the same
      transaction, whose first input is already gone. So its outpoints are new. */
  lemma ApplyIsFresh(r: Rules, st: State, seen: set<Core>, tx: Transaction, height: nat, verify: bool)
    requires r.TxidsIdeal() && Hist(r, st, seen)
    requires ApplyTx(r, st, tx, height, verify).Ok?
    ensures r.txid(tx.core) !in Ids(r, seen)
    ensures Fresh(st.coins, r.txid(tx.core))
  {
    var c := tx.core;
    GatherPresent(r, st.coins, c.ins, height);
    assert c.ins[0] in st.coins;
    assert c !in seen;
  }

  lemma ApplyKeepsHist(r: Rules, st: State, seen: set<Core>, tx: Transaction, height: nat, verify: bool)
    requires r.TxidsIdeal() && Hist(r, st, seen)
    requires ApplyTx(r, st, tx, height, verify).Ok?
    ensures Hist(r, ApplyTx(r, st, tx, height, verify).value.state, seen + {tx.core})
  {
    ApplyIsFresh(r, st, seen, tx, height, verify);
    var coins, s := ApplyParts(r, st, tx, height, verify);
    GatherPresent(r, st.coins, tx.core.ins, height);
    CommitKeepsHist(r, st, seen, tx.core, height, s);
  }

  lemma CommitKeepsHist(r: Rules, st: State, seen: set<Core>, c: Core, height: nat, s: Scratch)
    requires Hist(r, st, seen) && !IsCoinbase(c)
    requires forall i :: 0 <= i < |c.ins| ==> c.ins[i] in st.coins
    requires r.txid(c) !in Ids(r, seen)
    ensures Hist(r, Commit(r, st, c, height, s), seen + {c})
  {
    assert Ids(r, seen + {c}) == Ids(r, seen) + {r.txid(c)};
    forall d, i | d in seen + {c} && 0 <= i < |d.ins|
      ensures d.ins[i] !in Commit(r, st, c, height, s).coins && d.ins[i].txid in Ids(r, seen + {c})
    {
      if d == c && c !in seen {
        assert d.ins[i] in st.coins;
        assert d.ins[i] in InputSet(c.ins);
      }
    }
  }

  /** Coinbases differ by the height they must carry. */
  lemma CoinbaseIsFresh(r: Rules, st: State, seen: set<Core>, tx: Transaction, height: nat)
    requires r.TxidsIdeal() && Hist(r, st, seen) && CoinbasesBelow(seen, height)
    requires IsCoinbase(tx.core) && tx.core.lockHeight == height
    ensures r.txid(tx.core) !in Ids(r, seen)
    ensures Fresh(st.coins, r.txid(tx.core))
    ensures Hist(r, ApplyCoinbase(r, st, tx, height), seen + {tx.core})
    ensures CoinbasesBelow(seen + {tx.core}, height + 1)
  {
    assert tx.core !in seen;
    assert Ids(r, seen + {tx.core}) == Ids(r, seen) + {r.txid(tx.core)};
  }

  lemma CoinbaseKeepsLedger(r: Rules, st: State, tx: Transaction, height: nat)
    requires LedgerInv(r, st) && Fresh(st.coins, r.txid(tx.core))
    requires IsCoinbase(tx.core) && BasicOk(tx)
    ensures LedgerInv(r, ApplyCoinbase(r, st, tx, height))
    ensures Net(r, ApplyCoinbase(r, st, tx, height), QNT) == Net(r, st, QNT) + At(OutFlow(tx.core.outs), QNT)
  {
    var outs := tx.core.outs;
    CoinbaseOuts(outs, 0, 0);
    forall a
      ensures Net(r, ApplyCoinbase(r, st, tx, height), a) == Net(r, st, a) + At(OutFlow(outs), a)
      ensures a != QNT ==> At(OutFlow(outs), a) == 0
    {
      CoinSumCreated(st.coins, r.txid(tx.core), outs, height, true, a);
      OutFlowOfQnt(outs, a);
    }
  }

  lemma {:induction false} CoinbaseOuts(outs: seq<TxOut>, i: nat, qnt: Amount)
    requires i <= |outs| && CheckOuts(outs, true, i, qnt) == None
    ensures forall j :: i <= j < |outs| ==> outs[j].asset == QNT
    decreases |outs| - i
  {
    if i < |outs| { CoinbaseOuts(outs, i + 1, Add64(qnt, outs[i].value)); }
  }

  lemma {:induction false} OutFlowOfQnt(outs: seq<TxOut>, a: Hash)
    requires forall j :: 0 <= j < |outs| ==> outs[j].asset == QNT
    ensures a != QNT ==> At(OutFlow(outs), a) == 0
  {
    if outs != [] { OutFlowOfQnt(outs[..|outs| - 1], a); }
  }

  // ---------------------------------------------------------------- signatures

  /** Checking signatures only ever rejects more: what applies with verification applies without,
      with the same effect. */
  lemma VerifyOnlyRejects(r: Rules, st: State, tx: Transaction, height: nat)
    requires ApplyTx(r, st, tx, height, true).Ok?
    ensures ApplyTx(r, st, tx, height, false) == ApplyTx(r, st, tx, height, true)
  {}

  /** A key accepted for the coin's address signed this transaction. */
  ghost predicate Authorised(r: Rules, tx: Transaction, coin: Coin, w: Witness) {
    && w.Falcon?
    && r.addressOf(w.pk) == coin.out.addr
    && r.falcon(w.pk, w.sig, r.txid(tx.core))
  }

  /** Witness verification succeeds exactly when every input has its own valid signature or points
      back at one, for the same address, that an earlier input carries. */
  lemma {:induction false} VerifyFromIff(r: Rules, tx: Transaction, coins: seq<Coin>, i: nat)
    requires i <= |tx.core.ins| == |tx.wits| == |coins|
    ensures VerifyFrom(r, tx, coins, i) == None <==>
            forall j :: i <= j < |coins| ==> InputOk(r, tx, coins, j)
    decreases |coins| - i
  {
    if i < |coins| {
      VerifyFromIff(r, tx, coins, i + 1);
      assert InputOk(r, tx, coins, i) || VerifyFrom(r, tx, coins, i).Some?;
    }
  }

  ghost predicate InputOk(r: Rules, tx: Transaction, coins: seq<Coin>, j: nat)
    requires j < |tx.wits| == |coins|
  {
    match tx.wits[j]
    case Falcon(_, _) => Authorised(r, tx, coins[j], tx.wits[j])
    case Ref(e) => e < j && tx.wits[e].Falcon? && coins[e].out.addr == coins[j].out.addr
  }

  /** Nobody's coin moves without a signature: after full verification each input's address is
      matched by a key that signed this very transaction. */
  lemma EveryInputSigned(r: Rules, st: State, tx: Transaction, height: nat, j: nat)
    requires ApplyTx(r, st, tx, height, true).Ok? && j < |tx.core.ins|
    ensures tx.core.ins[j] in st.coins
    ensures exists e :: 0 <= e < |tx.wits| && Authorised(r, tx, st.coins[tx.core.ins[j]], tx.wits[e])
  {
    var coins := Gather(r, st.coins, tx.core.ins, height).value;
    GatherPresent(r, st.coins, tx.core.ins, height);
    VerifyFromIff(r, tx, coins, 0);
    assert InputOk(r, tx, coins, j);
    if tx.wits[j].Ref? {
      var e := tx.wits[j].input;
      assert InputOk(r, tx, coins, e);
      assert Authorised(r, tx, st.coins[tx.core.ins[j]], tx.wits[e]);
    } else {
      assert Authorised(r, tx, st.coins[tx.core.ins[j]], tx.wits[j]);
    }
  }

  lemma WitnessIff(r: Rules, tx: Transaction, coins: seq<Coin>)
    requires |coins| == |tx.core.ins|
    ensures VerifyWitness(r, tx, coins) == None <==>
            |tx.wits| == |tx.core.ins| && forall j :: 0 <= j < |tx.wits| ==> InputOk(r, tx, coins, j)
  {
    hide InputOk, VerifyFrom;
    if |tx.wits| == |tx.core.ins| { VerifyFromIff(r, tx, coins, 0); }
  }

  lemma VerifyAdds(r: Rules, st: State, tx: Transaction, height: nat)
    ensures var coins := Gather(r, st.coins, tx.core.ins, height);
            && (coins.Ok? ==> |coins.value| == |tx.core.ins|)
            && (ApplyTx(r, st, tx, height, false).Ok? ==> coins.Ok?)
            && (ApplyTx(r, st, tx, height, true).Ok? <==>
                ApplyTx(r, st, tx, height, false).Ok? && VerifyWitness(r, tx, coins.value) == None)
  {
    hide Gather, RunOps, FeeOf, Start, VerifyWitness, Commit;
    if Gather(r, st.coins, tx.core.ins, height).Ok? { GatherLength(r, st.coins, tx.core.ins, height); }
  }

  /** Full verification adds exactly that: a transaction applies with its witnesses checked just when it applies
      without, and there is one witness per input, each a signature for its coin or a pointer back to one. */
  lemma SignedIff(r: Rules, st: State, tx: Transaction, height: nat)
    ensures ApplyTx(r, st, tx, height, true).Ok? <==>
            && ApplyTx(r, st, tx, height, false).Ok?
            && var coins := Gather(r, st.coins, tx.core.ins, height);
               coins.Ok? && |tx.wits| == |tx.core.ins| == |coins.value| && forall j :: 0 <= j < |tx.wits| ==>
                   InputOk(r, tx, coins.value, j)
  {
    hide ApplyTx, Gather, InputOk, VerifyWitness;
    VerifyAdds(r, st, tx, height);
    if ApplyTx(r, st, tx, height, false).Ok? { WitnessIff(r, tx, Gather(r, st.coins, tx.core.ins, height).value); }
  }
}
