/** What `LedgerView::apply` accepts and what it then does (src/consensus/ledger.cpp:184-301), told of the transaction
    and the state: inputs there and ripe, lock height reached, a course of pools in which each op moves its pool as the
    pool's own inequalities allow, and for every asset what comes in against what goes out. */
module Admissions {
  import opened Types
  import opened Arith
  import opened Amm
  import opened Ledger
  import opened LedgerLaws

  // ---------------------------------------------------------------- what comes in, what goes out

  /** Of asset `a` in the coins a transaction spends. */
  function Spent(coins: map<OutPoint, Coin>, ins: seq<OutPoint>, a: Hash): nat
    requires forall i :: 0 <= i < |ins| ==> ins[i] in coins
  {
    if ins == [] then 0
    else (if coins[ins[0]].out.asset == a then coins[ins[0]].out.value else 0) + Spent(coins, ins[1..], a)
  }

  /** In its outputs. */
  function Paid(outs: seq<TxOut>, a: Hash): nat {
    if outs == [] then 0 else (if outs[0].asset == a then outs[0].value else 0) + Paid(outs[1..], a)
  }

  function If(b: bool, v: nat): nat { if b then v else 0 }

  /** What op `i` hands to the transaction: new tokens, pool shares, or what it takes out of a pool. */
  function Gives(r: Rules, c: Core, i: nat, a: Hash): nat
    requires i < |c.ops| && c.ins != []
  {
    match c.ops[i]
    case CreateToken(_, _, _, supply, _) => If(a == r.tokenId(c.ins[0], i), supply)
    case PoolCreate(t, _, _, shares) => If(a == r.shareId(t), shares)
    case AddLiquidity(t, _, _, shares) => If(a == r.shareId(t), shares)
    case RemoveLiquidity(t, _, qnt, tok) => If(a == QNT, qnt) + If(a == t, tok)
    case Swap(t, sell, _, amtOut) => If(a == (if sell then QNT else t), amtOut)
    case Message(_, _, _, _) => 0
  }

  /** What it takes from it. */
  function Takes(r: Rules, c: Core, i: nat, a: Hash): nat
    requires i < |c.ops|
  {
    match c.ops[i]
    case CreateToken(_, _, _, _, _) => 0
    case PoolCreate(t, qnt, tok, _) => If(a == QNT, qnt) + If(a == t, tok)
    case AddLiquidity(t, qnt, tok, _) => If(a == QNT, qnt) + If(a == t, tok)
    case RemoveLiquidity(t, shares, _, _) => If(a == r.shareId(t), shares)
    case Swap(t, sell, amtIn, _) => If(a == (if sell then t else QNT), amtIn)
    case Message(_, _, _, _) => 0
  }

  /** By the first `i` ops. */
  function Given(r: Rules, c: Core, i: nat, a: Hash): nat
    requires i <= |c.ops| && c.ins != []
  {
    if i == 0 then 0 else Given(r, c, i - 1, a) + Gives(r, c, i - 1, a)
  }

  function Taken(r: Rules, c: Core, i: nat, a: Hash): nat
    requires i <= |c.ops|
  {
    if i == 0 then 0 else Taken(r, c, i - 1, a) + Takes(r, c, i - 1, a)
  }

  function In(r: Rules, st: State, c: Core, a: Hash): nat
    requires c.ins != [] && forall i :: 0 <= i < |c.ins| ==> c.ins[i] in st.coins
  {
    Spent(st.coins, c.ins, a) + Given(r, c, |c.ops|, a)
  }

  function Out(r: Rules, c: Core, a: Hash): nat { Paid(c.outs, a) + Taken(r, c, |c.ops|, a) }

  // ---------------------------------------------------------------- ops

  /** `p'` has these reserves and shares. */
  predicate Holds(p: Pool, t: Hash, qnt: int, tok: int, shares: int) {
    p.token == t && p.qnt == qnt && p.tok == tok && p.shares == shares
  }

  /** A swap of `amtIn` for `amtOut` against reserves: the product rule after the fee of 0.3 percent. */
  predicate Fair(amtIn: Amount, amtOut: Amount, rin: Amount, rout: Amount) {
    amtOut < rout && (amtOut == 0 || (rin > 0 && rin * amtOut * 10_000 <= amtIn * 9_970 * (rout - amtOut)))
  }

  /** The op may take the pool of its token from `p` to `p'`. */
  predicate PoolMoves(op: TxOp, known: bool, p: Option<Pool>, p': Pool) {
    match op
    case PoolCreate(t, qnt, tok, shares) =>
      && known && p == None && qnt <= MAX_MONEY
      && (MIN_LIQUIDITY + 1) * (MIN_LIQUIDITY + 1) <= qnt * tok
      && (shares + MIN_LIQUIDITY) * (shares + MIN_LIQUIDITY) <= qnt * tok
      && Holds(p', t, qnt, tok, shares + MIN_LIQUIDITY)
    case AddLiquidity(t, qnt, tok, shares) =>
      && p.Some?
      && (|| shares == 0
          || (&& shares * p.value.qnt <= qnt * p.value.shares < TWO64 * p.value.qnt
              && shares * p.value.tok <= tok * p.value.shares < TWO64 * p.value.tok))
      && Holds(p', p.value.token, p.value.qnt + qnt, p.value.tok + tok, p.value.shares + shares)
      && p'.qnt <= MAX_MONEY && p'.tok <= MAX_TOKEN_SUPPLY && p'.shares <= MAX_TOKEN_SUPPLY
    case RemoveLiquidity(t, shares, qnt, tok) =>
      && p.Some? && shares + MIN_LIQUIDITY <= p.value.shares
      && qnt * p.value.shares <= shares * p.value.qnt && tok * p.value.shares <= shares * p.value.tok
      && Holds(p', p.value.token, p.value.qnt - qnt, p.value.tok - tok, p.value.shares - shares)
    case Swap(t, sell, amtIn, amtOut) =>
      && p.Some?
      && (if sell then
            && Fair(amtIn, amtOut, p.value.tok, p.value.qnt) && p'.tok <= MAX_TOKEN_SUPPLY
            && Holds(p', p.value.token, p.value.qnt - amtOut, p.value.tok + amtIn, p.value.shares)
          else
            && Fair(amtIn, amtOut, p.value.qnt, p.value.tok) && p'.qnt <= MAX_MONEY
            && Holds(p', p.value.token, p.value.qnt + amtIn, p.value.tok - amtOut, p.value.shares))
    case _ => false
  }

  /** Op `j` mints token `t`. */
  predicate Mints(r: Rules, c: Core, j: nat, t: Hash)
    requires c.ins != []
  {
    j < |c.ops| && c.ops[j].CreateToken? && r.tokenId(c.ins[0], j) == t
  }

  /** One of the first `i` ops does. */
  predicate MintedBefore(r: Rules, c: Core, i: nat, t: Hash)
    requires c.ins != []
  {
    exists j :: 0 <= j < i && Mints(r, c, j, t)
  }

  predicate SenderPays(st: State, c: Core, from: Hash) {
    exists j :: 0 <= j < |c.ins| && c.ins[j] in st.coins && st.coins[c.ins[j]].out.addr == from
  }

  /** Op `i` may take the pools from `pools` to `pools'`. */
  predicate OpMoves(r: Rules, st: State, c: Core, i: nat, pools: map<Hash, Pool>, pools': map<Hash, Pool>)
    requires i < |c.ops| && c.ins != []
  {
    var op := c.ops[i];
    match op
    case CreateToken(_, _, _, _, _) =>
      var id := r.tokenId(c.ins[0], i);
      pools' == pools && id !in st.tokens && !MintedBefore(r, c, i, id)
    case Message(from, _, _, _) => pools' == pools && SenderPays(st, c, from)
    case _ =>
      && op.token in pools' && pools' == pools[op.token := pools'[op.token]]
      && PoolMoves(op, op.token in st.tokens || MintedBefore(r, c, i, op.token), Get(pools, op.token), pools'[op.token])
  }

  /** The pools before each op and after the last. */
  ghost predicate Course(r: Rules, st: State, c: Core, run: seq<map<Hash, Pool>>)
    requires c.ins != []
  {
    && |run| == |c.ops| + 1 && run[0] == st.pools
    && forall i {:trigger run[i]} :: 0 <= i < |c.ops| ==> OpMoves(r, st, c, i, run[i], run[i + 1])
  }

  /** An input is there, and no coinbase too young. */
  predicate Ripe(r: Rules, coins: map<OutPoint, Coin>, o: OutPoint, height: nat) {
    o in coins && (coins[o].coinbase ==> coins[o].height + r.maturity <= height)
  }

  /** Everything but signatures. */
  ghost predicate Admits(r: Rules, st: State, c: Core, height: nat, run: seq<map<Hash, Pool>>) {
    && c.ins != [] && c.lockHeight <= height
    && (forall i :: 0 <= i < |c.ins| ==> Ripe(r, st.coins, c.ins[i], height))
    && Course(r, st, c, run)
    && (forall a :: a != QNT ==> In(r, st, c, a) == Out(r, c, a))
    && Out(r, c, QNT) <= In(r, st, c, QNT) <= Out(r, c, QNT) + MAX_MONEY
  }

  ghost predicate Admissible(r: Rules, st: State, c: Core, height: nat) { exists run :: Admits(r, st, c, height, run) }

  // ---------------------------------------------------------------- one pool op

  lemma CreateIff(r: Rules, op: TxOp, known: bool, p: Option<Pool>, f: Flows, p': Pool)
    requires op.PoolCreate?
    ensures PoolMoves(op, known, p, p') <==>
              CreatePool(r, op, known, p, f).Ok? && CreatePool(r, op, known, p, f).value.pool == p'
  {
    var total := RootShares(op.qnt, op.tok);
    RootIff(op.qnt, op.tok, MIN_LIQUIDITY + 1);
    RootIff(op.qnt, op.tok, op.shares + MIN_LIQUIDITY);
  }

  lemma RootIff(qnt: Amount, tok: Amount, x: nat)
    ensures x <= RootShares(qnt, tok) <==> x * x <= qnt * tok
  {
    var s := RootShares(qnt, tok);
    assert s * s <= qnt * tok < (s + 1) * (s + 1);
    if x <= s { ProductMono(x, s, x, s); } else { ProductMono(s + 1, x, s + 1, x); }
  }

  lemma AddIff(r: Rules, op: TxOp, p: Pool, f: Flows, p': Pool)
    requires op.AddLiquidity? && PoolOk(p)
    ensures PoolMoves(op, true, Some(p), p') <==> AddTo(r, op, p, f).Ok? && AddTo(r, op, p, f).value.pool == p'
  {
    hide AddShares;
    ReservesPositive(p);
    AddSharesIff(p, op.qnt, op.tok, op.shares);
  }

  lemma RemoveIsIff(r: Rules, op: TxOp, p: Pool, f: Flows, p': Pool)
    requires op.RemoveLiquidity? && PoolOk(p)
    ensures PoolMoves(op, true, Some(p), p') <==>
              RemoveFrom(r, op, p, f).Ok? && RemoveFrom(r, op, p, f).value.pool == p'
  {
    hide RemoveQnt, RemoveTok;
    Sub64Exact(p.shares, MIN_LIQUIDITY);
    if op.shares + MIN_LIQUIDITY <= p.shares {
      RemoveIff(p, op.shares, op.qnt, op.tok);
      if op.qnt <= RemoveQnt(p, op.shares) && op.tok <= RemoveTok(p, op.shares) {
        RemoveNoDilution(p, op.shares, op.qnt, op.tok);
        Sub64Exact(p.shares, op.shares);
        Sub64Exact(p.qnt, op.qnt);
        Sub64Exact(p.tok, op.tok);
      }
    }
  }

  lemma SwapIff(op: TxOp, p: Pool, f: Flows, p': Pool)
    requires op.Swap? && PoolOk(p)
    ensures PoolMoves(op, true, Some(p), p') <==> SwapIn(op, p, f).Ok? && SwapIn(op, p, f).value.pool == p'
  {
    hide Quote;
    if op.sell { QuoteIff(op.amtIn, p.tok, p.qnt, op.amtOut); } else { QuoteIff(op.amtIn, p.qnt, p.tok, op.amtOut); }
  }

  /** A pool op goes through exactly if its inequalities hold, and leaves exactly the reserves they speak of. */
  lemma PoolOpIff(r: Rules, op: TxOp, known: bool, p: Option<Pool>, f: Flows, p': Pool)
    requires IsPoolOp(op) && (p.Some? ==> PoolOk(p.value))
    ensures PoolMoves(op, known, p, p') <==>
              PoolOp(r, op, known, p, f).Ok? && PoolOp(r, op, known, p, f).value.pool == p'
  {
    hide CreatePool, AddTo, RemoveFrom, SwapIn, Fair, Holds;
    match op
    case PoolCreate(_, _, _, _) => CreateIff(r, op, known, p, f, p');
    case AddLiquidity(_, _, _, _) => if p.Some? { AddIff(r, op, p.value, f, p'); }
    case RemoveLiquidity(_, _, _, _) => if p.Some? { RemoveIsIff(r, op, p.value, f, p'); }
    case Swap(_, _, _, _) => if p.Some? { SwapIff(op, p.value, f, p'); }
  }

  // ---------------------------------------------------------------- one op, and all of them

  /** Where the first `i` ops have led: sums, minted tokens with all they declare, and sound pools. */
  ghost predicate Tallied(k: Call, s: Scratch, i: nat, st: State)
    requires k.core.ins != [] && i <= |k.core.ops| && forall j :: 0 <= j < |k.core.ins| ==> k.core.ins[j] in st.coins
  {
    && (forall a :: At(s.plus, a) == Spent(st.coins, k.core.ins, a) + Given(k.rules, k.core, i, a))
    && (forall a :: At(s.minus, a) == Paid(k.core.outs, a) + Taken(k.rules, k.core, i, a))
    && MintsAre(k.rules, k.core, k.height, i, s.minted) && PoolsOk(s.pools)
  }

  /** The entries of the tokens minted by the first `i` ops. */
  ghost predicate MintsAre(r: Rules, c: Core, height: nat, i: nat, minted: map<Hash, TokenInfo>)
    requires c.ins != [] && i <= |c.ops|
  {
    && (forall t :: t in minted <==> MintedBefore(r, c, i, t))
    && (forall j: nat, t :: j < i && Mints(r, c, j, t) && t in minted ==> EntryOf(r, c, height, c.ops[j], t, minted[t]))
  }

  /** A token's entry says what its op declared, in which transaction and at which height. */
  predicate EntryOf(r: Rules, c: Core, height: nat, op: TxOp, id: Hash, e: TokenInfo) {
    && op.CreateToken? && e.id == id && e.ticker == op.ticker && e.name == op.name && e.uri == op.uri
    && e.decimals == op.decimals && e.supply == op.supply && e.createTxid == r.txid(c) && e.height == height
  }

  /** The call is on this state, with the coins of the inputs. */
  ghost predicate CallOn(k: Call, st: State) {
    && k.core.ins != [] && k.tokens == st.tokens && |k.coins| == |k.core.ins|
    && (forall j :: 0 <= j < |k.core.ins| ==> k.core.ins[j] in st.coins && k.coins[j] == st.coins[k.core.ins[j]])
  }

  lemma SenderIff(k: Call, st: State, from: Hash)
    requires CallOn(k, st)
    ensures SentFromInput(k.coins, from) <==> SenderPays(st, k.core, from)
  {
    if SentFromInput(k.coins, from) {
      var j :| 0 <= j < |k.coins| && k.coins[j].out.addr == from;
      assert k.core.ins[j] in st.coins && st.coins[k.core.ins[j]].out.addr == from;
    }
    if SenderPays(st, k.core, from) {
      var j :| 0 <= j < |k.core.ins| && k.core.ins[j] in st.coins && st.coins[k.core.ins[j]].out.addr == from;
      assert k.coins[j].out.addr == from;
    }
  }

  lemma MintedNext(r: Rules, c: Core, i: nat, t: Hash)
    requires c.ins != [] && i < |c.ops|
    ensures MintedBefore(r, c, i + 1, t) <==> MintedBefore(r, c, i, t) || Mints(r, c, i, t)
  {
    if MintedBefore(r, c, i + 1, t) {
      var j :| 0 <= j < i + 1 && Mints(r, c, j, t);
      if j < i { assert MintedBefore(r, c, i, t); }
    }
  }

  /** One op: it goes through exactly if some course of the pools allows it, and takes that course. */
  lemma StepIff(k: Call, s: Scratch, i: nat, st: State, pools': map<Hash, Pool>)
    requires CallOn(k, st) && i < |k.core.ops| && Tallied(k, s, i, st)
    ensures OpMoves(k.rules, st, k.core, i, s.pools, pools') <==>
            StepOp(k, s, i).Ok? && StepOp(k, s, i).value.pools == pools'
  {
    hide PoolOp, PoolMoves, MintedBefore, Spent, Paid, Given, Taken, SentFromInput, SenderPays;
    var op := k.core.ops[i];
    if op.Message? {
      SenderIff(k, st, op.from);
    } else if IsPoolOp(op) {
      var known, p, f := op.token in s.minted || op.token in k.tokens, Get(s.pools, op.token), Flows(s.plus, s.minus);
      var step := PoolOp(k.rules, op, known, p, f);
      if step.Ok? { PoolOpIff(k.rules, op, known, p, f, step.value.pool); }
      if op.token in pools' { PoolOpIff(k.rules, op, known, p, f, pools'[op.token]); }
    }
  }

  lemma PoolFlows(r: Rules, c: Core, i: nat, known: bool, p: Option<Pool>, f: Flows, ps: PoolStep, a: Hash)
    requires c.ins != [] && i < |c.ops| && IsPoolOp(c.ops[i]) && PoolOp(r, c.ops[i], known, p, f) == Ok(ps)
    ensures At(ps.plus, a) == At(f.plus, a) + Gives(r, c, i, a) && At(ps.minus, a) == At(f.minus, a) + Takes(r, c, i, a)
  {
    hide AddShares, RemoveQnt, RemoveTok, Quote, RootShares, Sub64, Bump, At;
    var op := c.ops[i];
    match op
    case PoolCreate(t, qnt, tok, shares) => TwoBumps(f.minus, qnt, t, tok, a); BumpAt(f.plus, r.shareId(t), shares, a);
    case AddLiquidity(t, qnt, tok, shares) => TwoBumps(f.minus, qnt, t, tok, a); BumpAt(f.plus, r.shareId(t), shares,
        a);
    case RemoveLiquidity(t, shares, qnt, tok) => TwoBumps(f.plus, qnt, t, tok, a); BumpAt(f.minus, r.shareId(t), shares,
        a);
    case Swap(t, sell, amtIn, amtOut) =>
      BumpAt(f.plus, if sell then QNT else t, amtOut, a);
      BumpAt(f.minus, if sell then t else QNT, amtIn, a);
  }

  lemma TwoBumps(m: map<Hash, nat>, qnt: Amount, t: Hash, tok: Amount, a: Hash)
    ensures At(Bump(Bump(m, QNT, qnt), t, tok), a) == At(m, a) + If(a == QNT, qnt) + If(a == t, tok)
  {}

  lemma StepTallies(k: Call, s: Scratch, i: nat, st: State)
    requires CallOn(k, st) && i < |k.core.ops| && Tallied(k, s, i, st) && StepOp(k, s, i).Ok?
    ensures Tallied(k, StepOp(k, s, i).value, i + 1, st)
  {
    hide PoolOp, MintedBefore, Spent, Paid;
    var op, s' := k.core.ops[i], StepOp(k, s, i).value;
    StepOpSound(k, s, i, s');
    forall t
      ensures MintedBefore(k.rules, k.core, i + 1, t) <==>
              MintedBefore(k.rules, k.core, i, t) || Mints(k.rules, k.core, i, t)
    {
      MintedNext(k.rules, k.core, i, t);
    }
    forall a
      ensures At(s'.plus, a) == At(s.plus, a) + Gives(k.rules, k.core, i, a)
      ensures At(s'.minus, a) == At(s.minus, a) + Takes(k.rules, k.core, i, a)
    {
      if IsPoolOp(op) {
        PoolFlows(k.rules, k.core, i, op.token in s.minted || op.token in k.tokens, Get(s.pools, op.token),
                  Flows(s.plus, s.minus), PoolOp(k.rules, op, op.token in s.minted || op.token in k.tokens,
                  Get(s.pools, op.token), Flows(s.plus, s.minus)).value, a);
      }
    }
    StepMints(k, s, i, st);
  }

  lemma StepMints(k: Call, s: Scratch, i: nat, st: State)
    requires CallOn(k, st) && i < |k.core.ops| && Tallied(k, s, i, st) && StepOp(k, s, i).Ok?
    ensures MintsAre(k.rules, k.core, k.height, i + 1, StepOp(k, s, i).value.minted)
  {
    hide PoolOp, MintedBefore, Spent, Paid, Given, Taken;
    forall t
      ensures MintedBefore(k.rules, k.core, i + 1, t) <==>
              MintedBefore(k.rules, k.core, i, t) || Mints(k.rules, k.core, i, t)
    {
      MintedNext(k.rules, k.core, i, t);
    }
    var s' := StepOp(k, s, i).value;
    forall j: nat, t | j < i + 1 && Mints(k.rules, k.core, j, t) && t in s'.minted
      ensures EntryOf(k.rules, k.core, k.height, k.core.ops[j], t, s'.minted[t])
    {
      if j < i { assert t in s.minted by { MintedEarlier(k.rules, k.core, i, j, t); } }
    }
  }

  lemma MintedEarlier(r: Rules, c: Core, i: nat, j: nat, t: Hash)
    requires c.ins != [] && j < i && Mints(r, c, j, t)
    ensures MintedBefore(r, c, i, t)
  {}

  /** From op `i` on: whatever goes through has a course, ... */
  lemma {:induction false} RunHasCourse(k: Call, s: Scratch, i: nat, st: State, run: seq<map<Hash, Pool>>)
    returns (all: seq<map<Hash, Pool>>)
    requires CallOn(k, st) && i <= |k.core.ops| && Tallied(k, s, i, st) && RunOps(k, s, i).Ok?
    requires |run| == i + 1 && run[0] == st.pools && run[i] == s.pools
    requires forall j :: 0 <= j < i ==> OpMoves(k.rules, st, k.core, j, run[j], run[j + 1])
    ensures Course(k.rules, st, k.core, all) && all[|k.core.ops|] == RunOps(k, s, i).value.pools
    ensures Tallied(k, RunOps(k, s, i).value, |k.core.ops|, st)
    decreases |k.core.ops| - i
  {
    hide StepOp, OpMoves, Tallied;
    if i == |k.core.ops| {
      all := run;
    } else {
      var s' := StepOp(k, s, i).value;
      StepIff(k, s, i, st, s'.pools);
      StepTallies(k, s, i, st);
      all := RunHasCourse(k, s', i + 1, st, run + [s'.pools]);
    }
  }

  /** ... and whatever has a course goes through, and takes it. */
  lemma {:induction false} CourseRuns(k: Call, s: Scratch, i: nat, st: State, run: seq<map<Hash, Pool>>)
    requires CallOn(k, st) && i <= |k.core.ops| && Tallied(k, s, i, st)
    requires Course(k.rules, st, k.core, run) && run[i] == s.pools
    ensures RunOps(k, s, i).Ok? && RunOps(k, s, i).value.pools == run[|k.core.ops|]
    ensures Tallied(k, RunOps(k, s, i).value, |k.core.ops|, st)
    decreases |k.core.ops| - i
  {
    hide StepOp, OpMoves, Tallied;
    if i < |k.core.ops| {
      StepIff(k, s, i, st, run[i + 1]);
      StepTallies(k, s, i, st);
      CourseRuns(k, StepOp(k, s, i).value, i + 1, st, run);
    }
  }

  // ---------------------------------------------------------------- the transaction

  lemma {:induction false} GatherIff(r: Rules, coins: map<OutPoint, Coin>, ins: seq<OutPoint>, height: nat)
    ensures Gather(r, coins, ins, height).Ok? <==> forall i :: 0 <= i < |ins| ==> Ripe(r, coins, ins[i], height)
  {
    if ins != [] {
      GatherIff(r, coins, ins[..|ins| - 1], height);
      forall i | 0 <= i < |ins| - 1 ensures ins[..|ins| - 1][i] == ins[i] {}
    }
  }

  lemma {:induction false} SpentIs(coins: map<OutPoint, Coin>, ins: seq<OutPoint>, cs: seq<Coin>, a: Hash)
    requires |cs| == |ins| && forall i :: 0 <= i < |ins| ==> ins[i] in coins && cs[i] == coins[ins[i]]
    ensures At(CoinFlow(cs), a) == Spent(coins, ins, a)
  {
    if ins != [] {
      var n := |ins| - 1;
      SpentIs(coins, ins[..n], cs[..n], a);
      SpentLast(coins, ins, a);
    }
  }

  lemma {:induction false} SpentLast(coins: map<OutPoint, Coin>, ins: seq<OutPoint>, a: Hash)
    requires ins != [] && forall i :: 0 <= i < |ins| ==> ins[i] in coins
    ensures var o := ins[|ins| - 1];
            Spent(coins, ins, a) == Spent(coins, ins[..|ins| - 1], a) + If(coins[o].out.asset == a, coins[o].out.value)
  {
    if |ins| > 1 {
      SpentLast(coins, ins[1..], a);
      assert ins[1..][..|ins| - 2] == ins[..|ins| - 1][1..];
    }
  }

  lemma {:induction false} PaidIs(outs: seq<TxOut>, a: Hash)
    ensures At(OutFlow(outs), a) == Paid(outs, a)
  {
    if outs != [] {
      PaidIs(outs[..|outs| - 1], a);
      PaidLast(outs, a);
    }
  }

  lemma {:induction false} PaidLast(outs: seq<TxOut>, a: Hash)
    requires outs != []
    ensures var o := outs[|outs| - 1]; Paid(outs, a) == Paid(outs[..|outs| - 1], a) + If(o.asset == a, o.value)
  {
    if |outs| > 1 {
      PaidLast(outs[1..], a);
      assert outs[1..][..|outs| - 2] == outs[..|outs| - 1][1..];
    }
  }

  lemma FeeIff(f: Flows)
    ensures FeeOf(f).Ok? <==>
            && (forall a :: a != QNT ==> At(f.plus, a) == At(f.minus, a))
            && At(f.minus, QNT) <= At(f.plus, QNT) <= At(f.minus, QNT) + MAX_MONEY
    ensures FeeOf(f).Ok? ==> FeeOf(f).value == At(f.plus, QNT) - At(f.minus, QNT)
  {}

  lemma StartTallied(r: Rules, st: State, c: Core, height: nat, k: Call)
    requires c.ins != [] && PoolsOk(st.pools) && Gather(r, st.coins, c.ins, height).Ok?
    requires k == Call(r, c, height, Gather(r, st.coins, c.ins, height).value, st.tokens)
    ensures CallOn(k, st) && Tallied(k, Start(c, k.coins, st.pools), 0, st)
  {
    hide Gather;
    GatherPresent(r, st.coins, c.ins, height);
    forall a
      ensures At(CoinFlow(k.coins), a) == Spent(st.coins, c.ins, a) && At(OutFlow(c.outs), a) == Paid(c.outs, a)
    {
      SpentIs(st.coins, c.ins, k.coins, a);
      PaidIs(c.outs, a);
    }
  }

  /** What an accepted transaction leaves. */
  ghost predicate Effect(r: Rules, st: State, c: Core, height: nat, run: seq<map<Hash, Pool>>, st': State, fee: Amount)
    requires Admits(r, st, c, height, run)
  {
    && fee == In(r, st, c, QNT) - Out(r, c, QNT)
    && (forall o :: o in st'.coins <==> (o.txid == r.txid(c) && o.n < |c.outs|) || (o in st.coins && o !in c.ins))
    && (forall o :: o in st'.coins ==>
          st'.coins[o] == if o.txid == r.txid(c) && o.n < |c.outs| then Coin(c.outs[o.n], height, false)
              else st.coins[o])
    && (forall t :: t in st'.tokens <==> t in st.tokens || MintedBefore(r, c, |c.ops|, t))
    && (forall t :: t in st.tokens ==> st'.tokens[t] == st.tokens[t])
    && (forall j: nat, t :: t in st'.tokens && Mints(r, c, j, t) ==> EntryOf(r, c, height, c.ops[j], t, st'.tokens[t]))
    && st'.pools == run[|c.ops|]
  }

  /** Without signatures: accepted exactly if there is a course of the pools that admits it. */
  lemma AdmitsIff(r: Rules, st: State, tx: Transaction, height: nat)
    requires PoolsOk(st.pools)
    ensures ApplyTx(r, st, tx, height, false).Ok? <==> Admissible(r, st, tx.core, height)
  {
    if ApplyTx(r, st, tx, height, false).Ok? {
      var run := Accepted(r, st, tx, height);
    }
    if Admissible(r, st, tx.core, height) {
      var run :| Admits(r, st, tx.core, height, run);
      Admitted(r, st, tx, height, run);
    }
  }

  lemma Accepted(r: Rules, st: State, tx: Transaction, height: nat) returns (run: seq<map<Hash, Pool>>)
    requires PoolsOk(st.pools) && ApplyTx(r, st, tx, height, false).Ok?
    ensures Admits(r, st, tx.core, height, run)
    ensures Effect(r, st, tx.core, height, run, ApplyTx(r, st, tx, height, false).value.state,
              ApplyTx(r, st, tx, height, false).value.fee)
  {
    hide Gather, RunOps, Start, Tallied, Course, FeeOf, Commit, Effect;
    var c := tx.core;
    var k := Call(r, c, height, Gather(r, st.coins, c.ins, height).value, st.tokens);
    StartTallied(r, st, c, height, k);
    GatherIff(r, st.coins, c.ins, height);
    assert Start(c, k.coins, st.pools).pools == st.pools by { StartPools(c, k.coins, st.pools); }
    run := RunHasCourse(k, Start(c, k.coins, st.pools), 0, st, [st.pools]);
    var s := RunOps(k, Start(c, k.coins, st.pools), 0).value;
    SumsAre(k, s, st);
    FeeIff(Flows(s.plus, s.minus));
    EffectIs(k, s, st, run);
  }

  lemma StartPools(c: Core, coins: seq<Coin>, pools: map<Hash, Pool>)
    ensures Start(c, coins, pools).pools == pools
  {}

  lemma SumsAre(k: Call, s: Scratch, st: State)
    requires CallOn(k, st) && Tallied(k, s, |k.core.ops|, st)
    ensures forall a :: At(s.plus, a) == In(k.rules, st, k.core, a) && At(s.minus, a) == Out(k.rules, k.core, a)
  {}

  lemma CommitParts(r: Rules, st: State, c: Core, height: nat, s: Scratch)
    ensures Commit(r, st, c, height, s).tokens == st.tokens + s.minted && Commit(r, st, c, height, s).pools == s.pools
  {}

  lemma EffectIs(k: Call, s: Scratch, st: State, run: seq<map<Hash, Pool>>)
    requires CallOn(k, st) && Tallied(k, s, |k.core.ops|, st) && Admits(k.rules, st, k.core, k.height, run)
    requires run[|k.core.ops|] == s.pools
    ensures Effect(k.rules, st, k.core, k.height, run, Commit(k.rules, st, k.core, k.height, s),
              In(k.rules, st, k.core, QNT) - Out(k.rules, k.core, QNT))
  {
    hide Spent, Paid, Given, Taken, In, Out, Course, MintedBefore, PoolsOk, Commit;
    CommitParts(k.rules, st, k.core, k.height, s);
    MintsAreNew(k.rules, st, k.core, run);
    CommittedCoins(k.rules, st, k.core, k.height, s);
    forall j: nat, t | Mints(k.rules, k.core, j, t) ensures t in s.minted {
      MintedEarlier(k.rules, k.core, |k.core.ops|, j, t);
    }
  }

  lemma CommittedCoins(r: Rules, st: State, c: Core, height: nat, s: Scratch)
    ensures var coins := Commit(r, st, c, height, s).coins;
            && (forall o :: o in coins <==> (o.txid == r.txid(c) && o.n < |c.outs|) || (o in st.coins && o !in c.ins))
            && (forall o :: o in coins ==>
                  coins[o] == if o.txid == r.txid(c) && o.n < |c.outs| then Coin(c.outs[o.n], height, false)
                      else st.coins[o])
  {}

  lemma MintsAreNew(r: Rules, st: State, c: Core, run: seq<map<Hash, Pool>>)
    requires c.ins != [] && Course(r, st, c, run)
    ensures forall t :: t in st.tokens ==> !MintedBefore(r, c, |c.ops|, t)
  {
    forall j: nat, t | Mints(r, c, j, t) ensures t !in st.tokens { assert OpMoves(r, st, c, j, run[j], run[j + 1]); }
  }

  lemma Admitted(r: Rules, st: State, tx: Transaction, height: nat, run: seq<map<Hash, Pool>>)
    requires PoolsOk(st.pools) && Admits(r, st, tx.core, height, run)
    ensures ApplyTx(r, st, tx, height, false).Ok?
    ensures Effect(r, st, tx.core, height, run, ApplyTx(r, st, tx, height, false).value.state,
              ApplyTx(r, st, tx, height, false).value.fee)
  {
    hide Gather, RunOps, Start, Tallied, Course, FeeOf, Commit, Effect;
    var c := tx.core;
    GatherIff(r, st.coins, c.ins, height);
    var k := Call(r, c, height, Gather(r, st.coins, c.ins, height).value, st.tokens);
    StartTallied(r, st, c, height, k);
    StartPools(c, k.coins, st.pools);
    CourseStarts(r, st, c, run);
    CourseRuns(k, Start(c, k.coins, st.pools), 0, st, run);
    var s := RunOps(k, Start(c, k.coins, st.pools), 0).value;
    SumsAre(k, s, st);
    FeeIff(Flows(s.plus, s.minus));
    EffectIs(k, s, st, run);
  }

  lemma CourseStarts(r: Rules, st: State, c: Core, run: seq<map<Hash, Pool>>)
    requires c.ins != [] && Course(r, st, c, run)
    ensures |run| == |c.ops| + 1 && run[0] == st.pools
  {}

  // ---------------------------------------------------------------- signatures, and the whole

  /** Input `j` is signed for: by its own key, or by the key of an earlier input of the same address. */
  predicate SignedFor(r: Rules, st: State, tx: Transaction, j: nat)
    requires j < |tx.wits| == |tx.core.ins| && forall i :: 0 <= i < |tx.core.ins| ==> tx.core.ins[i] in st.coins
  {
    var addr := st.coins[tx.core.ins[j]].out.addr;
    match tx.wits[j]
    case Falcon(pk, sig) => r.addressOf(pk) == addr && r.falcon(pk, sig, r.txid(tx.core))
    case Ref(e) => e < j && tx.wits[e].Falcon? && st.coins[tx.core.ins[e]].out.addr == addr
  }

  predicate AllSignedFor(r: Rules, st: State, tx: Transaction) {
    && (forall i :: 0 <= i < |tx.core.ins| ==> tx.core.ins[i] in st.coins) && |tx.wits| == |tx.core.ins|
    && forall j :: 0 <= j < |tx.wits| ==> SignedFor(r, st, tx, j)
  }

  lemma SignedForIff(r: Rules, st: State, tx: Transaction, height: nat)
    requires Gather(r, st.coins, tx.core.ins, height).Ok?
    ensures var coins := Gather(r, st.coins, tx.core.ins, height).value;
            |tx.wits| == |tx.core.ins| == |coins| && (forall j :: 0 <= j < |tx.wits| ==> InputOk(r, tx, coins, j))
            <==> AllSignedFor(r, st, tx)
  {
    hide Gather;
    GatherPresent(r, st.coins, tx.core.ins, height);
    var coins := Gather(r, st.coins, tx.core.ins, height).value;
    if |tx.wits| == |tx.core.ins| {
      forall j | 0 <= j < |tx.wits| ensures InputOk(r, tx, coins, j) <==> SignedFor(r, st, tx, j) {}
    }
  }

  /** Exactly which transactions `apply` accepts, on any state with sound pools; and a lock height not reached is
      refused before anything else is looked at. */
  lemma ApplyIff(r: Rules, st: State, tx: Transaction, height: nat, verify: bool)
    requires PoolsOk(st.pools)
    ensures ApplyTx(r, st, tx, height, verify).Ok? <==>
            Admissible(r, st, tx.core, height) && (verify ==> AllSignedFor(r, st, tx))
    ensures tx.core.ins != [] && tx.core.lockHeight > height ==> ApplyTx(r, st, tx, height, verify) == Err(Locked)
    ensures ApplyTx(r, st, tx, height, verify).Ok? ==> exists run ::
              && Admits(r, st, tx.core, height, run)
              && Effect(r, st, tx.core, height, run, ApplyTx(r, st, tx, height, verify).value.state,
                        ApplyTx(r, st, tx, height, verify).value.fee)
  {
    hide ApplyTx, Admits, Admissible, AllSignedFor, InputOk, Gather, Effect;
    AdmitsIff(r, st, tx, height);
    LockedFirst(r, st, tx, height, verify);
    if verify {
      SignedIff(r, st, tx, height);
      VerifyAdds(r, st, tx, height);
      if Gather(r, st.coins, tx.core.ins, height).Ok? { SignedForIff(r, st, tx, height); }
      if ApplyTx(r, st, tx, height, true).Ok? { VerifyOnlyRejects(r, st, tx, height); }
    }
    if ApplyTx(r, st, tx, height, verify).Ok? { var run := Accepted(r, st, tx, height); }
  }

  lemma LockedFirst(r: Rules, st: State, tx: Transaction, height: nat, verify: bool)
    ensures tx.core.ins != [] && tx.core.lockHeight > height ==> ApplyTx(r, st, tx, height, verify) == Err(Locked)
  {}
}
