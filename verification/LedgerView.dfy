/** `LedgerView`: an overlay of pending changes on a chain state or on another overlay
    (src/consensus/ledger.cpp:162-301). */
module LedgerViews {
  import opened Types
  import opened Ledger
  import opened LedgerLaws
  import opened Admissions
  import opened Sums

  /** The maps of a `LedgerView`. */
  datatype Overlay = Overlay(
    created: map<OutPoint, Coin>,
    spentCreated: set<OutPoint>,               // created here, then spent here
    spentBase: map<OutPoint, Coin>,
    tokens: map<Hash, TokenInfo>,
    pools: map<Hash, Pool>,
    poolsBefore: map<Hash, Option<Pool>>)      // pools as the base had them

  const EMPTY_OVERLAY: Overlay := Overlay(map[], {}, map[], map[], map[], map[])

  /** A `StateReader`: the chain state, or a view on top of another reader. */
  datatype Reader = Chain(st: State) | View(base: Reader, ov: Overlay)
  {
    function Coin(o: OutPoint): Option<Coin> {
      match this
      case Chain(st) => Get(st.coins, o)
      case View(b, ov) =>
        if o in ov.spentBase then None
        else if o in ov.created then Some(ov.created[o])
        else if o in ov.spentCreated then None
        else b.Coin(o)
    }

    function Token(id: Hash): Option<TokenInfo> {
      match this
      case Chain(st) => Get(st.tokens, id)
      case View(b, ov) => if id in ov.tokens then Some(ov.tokens[id]) else b.Token(id)
    }

    function Pool(t: Hash): Option<Pool> {
      match this
      case Chain(st) => Get(st.pools, t)
      case View(b, ov) => if t in ov.pools then Some(ov.pools[t]) else b.Pool(t)
    }

    /** The state a reader presents, flattened. */
    ghost function State(): State {
      match this
      case Chain(st) => st
      case View(b, ov) =>
        var st := b.State();
        Types.State((st.coins - ov.spentBase.Keys) + ov.created, st.tokens + ov.tokens, st.pools + ov.pools)
    }

    ghost predicate Valid() {
      match this
      case Chain(_) => true
      case View(b, ov) => b.Valid() && OverlayOk(b.State(), ov)
    }
  }

  /** How an overlay relates to the state below it. */
  ghost predicate OverlayOk(st: State, ov: Overlay) {
    && (forall o :: o in ov.spentBase ==> o in st.coins && ov.spentBase[o] == st.coins[o])
    && ov.created.Keys !! st.coins.Keys
    && ov.spentCreated !! st.coins.Keys
    && ov.spentCreated !! ov.created.Keys
    && ov.tokens.Keys !! st.tokens.Keys
    && ov.poolsBefore.Keys == ov.pools.Keys
    && (forall t :: t in ov.poolsBefore ==> ov.poolsBefore[t] == Get(st.pools, t))
  }

  /** Looking up through any depth of overlays is looking up in the flattened state. */
  lemma {:induction false} LookupsAgree(rd: Reader)
    requires rd.Valid()
    ensures forall o :: rd.Coin(o) == Get(rd.State().coins, o)
    ensures forall t :: rd.Token(t) == Get(rd.State().tokens, t)
    ensures forall t :: rd.Pool(t) == Get(rd.State().pools, t)
  {
    if rd.View? { LookupsAgree(rd.base); }
  }

  /** Coins as an overlay presents them. */
  ghost function Coins(st: State, ov: Overlay): map<OutPoint, Coin> { (st.coins - ov.spentBase.Keys) + ov.created }

  /** Spending one coin, from the overlay if it was made there and from the base otherwise. */
  function Spend(base: Reader, ov: Overlay, o: OutPoint): Overlay {
    if o in ov.created then
      ov.(created := ov.created - {o}, spentCreated := ov.spentCreated + {o})
    else
      match base.Coin(o)
      case Some(c) => ov.(spentBase := ov.spentBase[o := c])
      case None => ov
  }

  lemma SpendOne(base: Reader, ov: Overlay, o: OutPoint)
    requires base.Valid() && OverlayOk(base.State(), ov) && o in Coins(base.State(), ov)
    ensures o !in ov.created ==> base.Coin(o).Some?
    ensures OverlayOk(base.State(), Spend(base, ov, o))
    ensures Coins(base.State(), Spend(base, ov, o)) == Coins(base.State(), ov) - {o}
  {
    LookupsAgree(base);
    if o in ov.created {
      SpendCreated(base.State(), ov, o);
    } else {
      SpendFromBase(base.State(), ov, o, base.State().coins[o]);
    }
  }

  lemma SpendCreated(st: State, ov: Overlay, o: OutPoint)
    requires OverlayOk(st, ov) && o in ov.created
    ensures var ov' := ov.(created := ov.created - {o}, spentCreated := ov.spentCreated + {o});
            OverlayOk(st, ov') && Coins(st, ov') == Coins(st, ov) - {o}
  {}

  lemma SpendFromBase(st: State, ov: Overlay, o: OutPoint, c: Coin)
    requires OverlayOk(st, ov) && o !in ov.created && o in st.coins && st.coins[o] == c
    ensures var ov' := ov.(spentBase := ov.spentBase[o := c]);
            OverlayOk(st, ov') && Coins(st, ov') == Coins(st, ov) - {o}
  {}

  function SpendAll(base: Reader, ov: Overlay, ins: seq<OutPoint>): Overlay {
    if ins == [] then ov
    else Spend(base, SpendAll(base, ov, ins[..|ins| - 1]), ins[|ins| - 1])
  }

  /** `ov'` is `ov` with exactly the coins `used` spent, some in the overlay and some in the base. */
  ghost predicate SpentFrom(st: State, ov: Overlay, ov': Overlay, used: set<OutPoint>) {
    && OverlayOk(st, ov')
    && Coins(st, ov') == Coins(st, ov) - used
    && ov'.tokens == ov.tokens && ov'.pools == ov.pools && ov'.poolsBefore == ov.poolsBefore
    && ov'.created.Keys <= ov.created.Keys
    && ov'.spentCreated <= ov.spentCreated + used
    && ov'.spentBase.Keys <= ov.spentBase.Keys + used
  }

  lemma SpendNext(base: Reader, ov: Overlay, ov1: Overlay, used: set<OutPoint>, o: OutPoint)
    requires base.Valid() && SpentFrom(base.State(), ov, ov1, used)
    requires o in Coins(base.State(), ov) && o !in used
    ensures SpentFrom(base.State(), ov, Spend(base, ov1, o), used + {o})
  {
    hide OverlayOk;
    SpendOne(base, ov1, o);
    DropTwice(Coins(base.State(), ov), used, o);
  }

  lemma DropTwice<K, V>(m: map<K, V>, used: set<K>, o: K)
    ensures (m - used) - {o} == m - (used + {o})
  {}

  lemma {:induction false} SpendAllOk(base: Reader, ov: Overlay, ins: seq<OutPoint>)
    requires base.Valid() && OverlayOk(base.State(), ov) && Distinct(ins)
    requires forall i :: 0 <= i < |ins| ==> ins[i] in Coins(base.State(), ov)
    ensures SpentFrom(base.State(), ov, SpendAll(base, ov, ins), InputSet(ins))
  {
    if ins == [] {
      assert Coins(base.State(), ov) - InputSet(ins) == Coins(base.State(), ov);
    } else {
      var o, front := ins[|ins| - 1], ins[..|ins| - 1];
      SpendAllOk(base, ov, front);
      assert InputSet(ins) == InputSet(front) + {o};
      SpendNext(base, ov, SpendAll(base, ov, front), InputSet(front), o);
    }
  }

  /** Coins of a new transaction put into an overlay. */
  lemma PutOk(st: State, ov: Overlay, made: map<OutPoint, Coin>)
    requires OverlayOk(st, ov) && made.Keys !! st.coins.Keys && made.Keys !! ov.spentCreated
    ensures OverlayOk(st, ov.(created := ov.created + made))
    ensures Coins(st, ov.(created := ov.created + made)) == Coins(st, ov) + made
  {
    assert (ov.created + made).Keys == ov.created.Keys + made.Keys;
    MergeAssoc(st.coins - ov.spentBase.Keys, ov.created, made);
  }

  /** The scratch pools that exist. */
  function Values(touched: map<Hash, Option<Pool>>): map<Hash, Pool> {
    map t | t in touched && touched[t].Some? :: touched[t].value
  }

  /** Pools with the touched ones put over them. */
  ghost function Patched(pools: map<Hash, Pool>, touched: map<Hash, Option<Pool>>): map<Hash, Pool> {
    pools + Values(touched)
  }

  lemma PatchOne(pools: map<Hash, Pool>, touched: map<Hash, Option<Pool>>, t: Hash, p: Pool)
    ensures Patched(pools, touched[t := Some(p)]) == Patched(pools, touched)[t := p]
  {}

  lemma PatchLoaded(pools: map<Hash, Pool>, touched: map<Hash, Option<Pool>>, t: Hash)
    requires t !in touched
    ensures Patched(pools, touched[t := Get(pools, t)]) == Patched(pools, touched)
  {}

  /** Minted tokens and touched pools put into an overlay, remembering what the base had. */
  function Install(base: Reader, ov: Overlay, touched: map<Hash, Option<Pool>>, minted: map<Hash, TokenInfo>): Overlay {
    ov.(tokens := ov.tokens + minted,
        poolsBefore := ov.poolsBefore + (map t | t in touched && t !in ov.poolsBefore && t !in ov.pools ::
            base.Pool(t)),
        pools := ov.pools + Values(touched))
  }

  lemma InstallOk(base: Reader, ov: Overlay, touched: map<Hash, Option<Pool>>, minted: map<Hash, TokenInfo>)
    requires base.Valid() && OverlayOk(base.State(), ov)
    requires forall t :: t in touched ==> touched[t].Some?
    requires minted.Keys !! base.State().tokens.Keys
    ensures OverlayOk(base.State(), Install(base, ov, touched, minted))
  {
    LookupsAgree(base);
    InstallKeys(base, ov, touched, minted);
  }

  lemma InstallKeys(base: Reader, ov: Overlay, touched: map<Hash, Option<Pool>>, minted: map<Hash, TokenInfo>)
    requires ov.poolsBefore.Keys == ov.pools.Keys && forall t :: t in touched ==> touched[t].Some?
    ensures Install(base, ov, touched, minted).poolsBefore.Keys == Install(base, ov, touched, minted).pools.Keys
  {
    assert Values(touched).Keys == touched.Keys;
  }

  /** The overlay after a whole transaction. */
  function CommitInto(r: Rules, base: Reader, ov: Overlay, c: Core, height: nat,
                      touched: map<Hash, Option<Pool>>, minted: map<Hash, TokenInfo>): Overlay {
    var ov1 := SpendAll(base, ov, c.ins);
    var ov2 := ov1.(created := ov1.created + Created(r.txid(c), c.outs, height, false));
    Install(base, ov2, touched, minted)
  }

  /** A whole transaction put into an overlay is the commit of that transaction. */
  lemma CommitOverlay(r: Rules, base: Reader, ov: Overlay, c: Core, height: nat, f: Flows,
                      touched: map<Hash, Option<Pool>>, minted: map<Hash, TokenInfo>)
    requires base.Valid() && OverlayOk(base.State(), ov) && Distinct(c.ins)
    requires forall i :: 0 <= i < |c.ins| ==> c.ins[i] in Coins(base.State(), ov)
    requires forall o :: o in base.State().coins || o in ov.spentCreated || o in c.ins ==> o.txid != r.txid(c)
    requires forall t :: t in touched ==> touched[t].Some?
    requires minted.Keys !! View(base, ov).State().tokens.Keys
    ensures var ov' := CommitInto(r, base, ov, c, height, touched, minted);
            var st := View(base, ov).State();
            && OverlayOk(base.State(), ov')
            && View(base, ov').State() == Commit(r, st, c, height,
                Scratch(f.plus, f.minus, Patched(st.pools, touched), minted))
  {
    var st := base.State();
    SpendAllOk(base, ov, c.ins);
    var ov1 := SpendAll(base, ov, c.ins);
    var made := Created(r.txid(c), c.outs, height, false);
    PutOk(st, ov1, made);
    var ov2 := ov1.(created := ov1.created + made);
    InstallOk(base, ov2, touched, minted);
    MergeAssoc(st.pools, ov.pools, Values(touched));
    MergeAssoc(st.tokens, ov.tokens, minted);
  }

  /** What every view satisfies. `seen` are the transactions of the chain below and of the view;
      whatever the overlay mentions was made by one of them. */
  ghost predicate ViewOk(r: Rules, base: Reader, ov: Overlay, seen: set<Core>) {
    && r.TxidsIdeal()
    && base.Valid() && OverlayOk(base.State(), ov)
    && Hist(r, View(base, ov).State(), seen)
    && Remembered(r, ov, seen)
  }

  /** An empty overlay shows what is below it. */
  lemma EmptyView(r: Rules, base: Reader, seen: set<Core>)
    requires r.TxidsIdeal() && base.Valid() && Hist(r, base.State(), seen)
    ensures View(base, EMPTY_OVERLAY).State() == base.State() && ViewOk(r, base, EMPTY_OVERLAY, seen)
  {
    hide Hist;
    assert View(base, EMPTY_OVERLAY).State() == base.State();
  }

  ghost predicate Remembered(r: Rules, ov: Overlay, seen: set<Core>) {
    forall o :: o in ov.created || o in ov.spentCreated || o in ov.spentBase ==> o.txid in Ids(r, seen)
  }

  /** What an acceptable transaction finds: its inputs are there and its own id is nowhere. */
  lemma ReadyToCommit(r: Rules, base: Reader, ov: Overlay, seen: set<Core>, tx: Transaction, height: nat, verify: bool)
    requires ViewOk(r, base, ov, seen) && BasicOk(tx)
    requires ApplyTx(r, View(base, ov).State(), tx, height, verify).Ok?
    ensures Distinct(tx.core.ins) && r.txid(tx.core) !in Ids(r, seen)
    ensures forall i :: 0 <= i < |tx.core.ins| ==> tx.core.ins[i] in Coins(base.State(), ov)
    ensures forall o :: o in base.State().coins || o in ov.spentCreated || o in tx.core.ins ==> o.txid in Ids(r, seen)
  {
    var st := View(base, ov).State();
    ApplyIsFresh(r, st, seen, tx, height, verify);
    GatherPresent(r, st.coins, tx.core.ins, height);
    forall o | o in base.State().coins
      ensures o.txid in Ids(r, seen)
    {
      assert o in st.coins || o in ov.spentBase;
    }
  }

  lemma CommitRemembered(r: Rules, base: Reader, ov: Overlay, seen: set<Core>, c: Core, height: nat,
                         touched: map<Hash, Option<Pool>>, minted: map<Hash, TokenInfo>)
    requires base.Valid() && OverlayOk(base.State(), ov) && Remembered(r, ov, seen) && Distinct(c.ins)
    requires forall i :: 0 <= i < |c.ins| ==> c.ins[i] in Coins(base.State(), ov)
    requires forall o :: o in c.ins ==> o.txid in Ids(r, seen)
    ensures Remembered(r, CommitInto(r, base, ov, c, height, touched, minted), seen + {c})
  {
    hide OverlayOk, SpendAll, Coins, Created, Distinct, SpentFrom;
    SpendAllOk(base, ov, c.ins);
    SpentKeys(base.State(), ov, SpendAll(base, ov, c.ins), InputSet(c.ins));
    CreatedKeys(r.txid(c), c.outs, height);
    assert Ids(r, seen + {c}) == Ids(r, seen) + {r.txid(c)};
  }

  lemma SpentKeys(st: State, ov: Overlay, ov': Overlay, ins: set<OutPoint>)
    requires SpentFrom(st, ov, ov', ins)
    ensures forall o :: o in ov'.created || o in ov'.spentCreated || o in ov'.spentBase ==>
              o in ov.created || o in ov.spentCreated || o in ov.spentBase || o in ins
  {}

  lemma CreatedKeys(id: Hash, outs: seq<TxOut>, height: nat)
    ensures forall o :: o in Created(id, outs, height, false) ==> o.txid == id
  {}

  /** Committing an acceptable transaction keeps the view sound and presents the state `ApplyTx` gives. */
  lemma CommitKeepsView(r: Rules, base: Reader, ov: Overlay, seen: set<Core>, tx: Transaction, height: nat,
                        verify: bool, fee: Amount, f: Flows, touched: map<Hash, Option<Pool>>,
                        minted: map<Hash, TokenInfo>)
    requires ViewOk(r, base, ov, seen) && BasicOk(tx)
    requires forall t :: t in touched ==> touched[t].Some?
    requires minted.Keys !! View(base, ov).State().tokens.Keys
    requires Accepts(r, View(base, ov).State(), tx, height, verify, fee, f, touched, minted)
    ensures var ov' := CommitInto(r, base, ov, tx.core, height, touched, minted);
            && ViewOk(r, base, ov', seen + {tx.core})
            && ApplyTx(r, View(base, ov).State(), tx, height, verify) == Ok(Applied(View(base, ov').State(), fee))
  {
    ReadyToCommit(r, base, ov, seen, tx, height, verify);
    CommitOverlay(r, base, ov, tx.core, height, f, touched, minted);
    CommitRemembered(r, base, ov, seen, tx.core, height, touched, minted);
    ApplyKeepsHist(r, View(base, ov).State(), seen, tx, height, verify);
  }

  lemma CoinbaseKeepsView(r: Rules, base: Reader, ov: Overlay, seen: set<Core>, tx: Transaction, height: nat)
    requires ViewOk(r, base, ov, seen)
    requires IsCoinbase(tx.core) && tx.core.lockHeight == height && CoinbasesBelow(seen, height)
    ensures var ov' := ov.(created := ov.created + Created(r.txid(tx.core), tx.core.outs, height, true));
            && ViewOk(r, base, ov', seen + {tx.core})
            && View(base, ov').State() == ApplyCoinbase(r, View(base, ov).State(), tx, height)
  {
    var made := Created(r.txid(tx.core), tx.core.outs, height, true);
    CoinbaseIsFresh(r, View(base, ov).State(), seen, tx, height);
    forall o | o in base.State().coins
      ensures o.txid != r.txid(tx.core)
    {
      assert o in View(base, ov).State().coins || o in ov.spentBase;
    }
    PutOk(base.State(), ov, made);
    assert Ids(r, seen + {tx.core}) == Ids(r, seen) + {r.txid(tx.core)};
  }

  /** The transaction is acceptable, with these pools touched and tokens minted. */
  ghost predicate Accepts(r: Rules, st: State, tx: Transaction, height: nat, verify: bool, fee: Amount, f: Flows,
                          touched: map<Hash, Option<Pool>>, minted: map<Hash, TokenInfo>) {
    ApplyTx(r, st, tx, height, verify) ==
    Ok(Applied(Commit(r, st, tx.core, height, Scratch(f.plus, f.minus, Patched(st.pools, touched), minted)), fee))
  }

  /** Nothing is minted that the state already has. */
  lemma {:induction false} MintedFresh(k: Call, s: Scratch, i: nat, s': Scratch)
    requires i <= |k.core.ops| && k.core.ins != [] && RunOps(k, s, i) == Ok(s')
    requires s.minted.Keys !! k.tokens.Keys
    ensures s'.minted.Keys !! k.tokens.Keys
    decreases |k.core.ops| - i
  {
    if i < |k.core.ops| { MintedFresh(k, StepOp(k, s, i).value, i + 1, s'); }
  }

  /** The first bad input decides. */
  lemma {:induction false} GatherStops(r: Rules, coins: map<OutPoint, Coin>, ins: seq<OutPoint>, n: nat, height: nat)
    requires n <= |ins| && Gather(r, coins, ins[..n], height).Err?
    ensures Gather(r, coins, ins, height) == Gather(r, coins, ins[..n], height)
    decreases |ins|
  {
    if n < |ins| {
      assert ins[..|ins| - 1][..n] == ins[..n];
      GatherStops(r, coins, ins[..|ins| - 1], n, height);
    } else {
      assert ins[..n] == ins;
    }
  }

  lemma GatherNext(r: Rules, coins: map<OutPoint, Coin>, ins: seq<OutPoint>, i: nat, height: nat)
    requires i < |ins| && Gather(r, coins, ins[..i], height).Ok?
    ensures Gather(r, coins, ins[..i + 1], height) ==
            if ins[i] !in coins then Err(MissingInput)
            else if coins[ins[i]].coinbase && height < coins[ins[i]].height + r.maturity then Err(ImmatureCoinbase)
            else Ok(Gather(r, coins, ins[..i], height).value + [coins[ins[i]]])
  {
    assert ins[..i + 1][..i] == ins[..i];
  }

  lemma CoinFlowNext(coins: seq<Coin>, c: Coin)
    ensures CoinFlow(coins + [c]) == Bump(CoinFlow(coins), c.out.asset, c.out.value)
  {
    assert (coins + [c])[..|coins|] == coins;
  }

  lemma CreatedNext(base: map<OutPoint, Coin>, id: Hash, outs: seq<TxOut>, n: nat, height: nat, coinbase: bool)
    requires n < |outs|
    ensures base + Created(id, outs[..n + 1], height, coinbase) ==
            (base + Created(id, outs[..n], height, coinbase))[OutPoint(id, n) := Coin(outs[n], height, coinbase)]
  {
    assert outs[..n + 1][..n] == outs[..n];
    MergePut(base, Created(id, outs[..n], height, coinbase), OutPoint(id, n), Coin(outs[n], height, coinbase));
  }

  class LedgerView {
    const rules: Rules
    const base: Reader
    var ov: Overlay
    /** The transactions of the chain below and of this view. */
    ghost var seen: set<Core>

    ghost predicate Valid()
      reads this
    {
      ViewOk(rules, base, ov, seen)
    }

    function AsReader(): Reader
      reads this
    {
      View(base, ov)
    }

    ghost function State(): State
      reads this
    {
      AsReader().State()
    }

    constructor (rules: Rules, base: Reader, ghost seen: set<Core>)
      requires rules.TxidsIdeal() && base.Valid()
      requires Hist(rules, base.State(), seen)
      ensures Valid() && this.rules == rules && this.base == base && this.seen == seen
      ensures ov == EMPTY_OVERLAY && State() == base.State()
    {
      hide Hist, ViewOk, Remembered;
      this.rules := rules;
      this.base := base;
      this.ov := EMPTY_OVERLAY;
      this.seen := seen;
      new;
      EmptyView(rules, base, seen);
    }

    /** The inputs' coins and what they bring in. */
    method GatherInputs(ins: seq<OutPoint>, height: nat) returns (res: Result<seq<Coin>>, plus: map<Hash, nat>)
      requires AsReader().Valid()
      ensures res == Gather(rules, State().coins, ins, height)
      ensures res.Ok? ==> plus == CoinFlow(res.value)
    {
      plus := map[];
      var coins: seq<Coin> := [];
      ghost var have := State().coins;
      for i := 0 to |ins|
        invariant Gather(rules, have, ins[..i], height) == Ok(coins)
        invariant plus == CoinFlow(coins)
      {
        GatherNext(rules, have, ins, i, height);
        var c := AsReader().Coin(ins[i]);
        assert c == Get(have, ins[i]) by { LookupsAgree(AsReader()); }
        if c.None? {
          GatherStops(rules, have, ins, i + 1, height);
          return Err(MissingInput), plus;
        }
        if c.value.coinbase && height < c.value.height + rules.maturity {
          GatherStops(rules, have, ins, i + 1, height);
          return Err(ImmatureCoinbase), plus;
        }
        plus := Bump(plus, c.value.out.asset, c.value.out.value);
        CoinFlowNext(coins, c.value);
        coins := coins + [c.value];
      }
      assert ins[..|ins|] == ins;
      res := Ok(coins);
    }

    static method SumOutputs(outs: seq<TxOut>) returns (minus: map<Hash, nat>)
      ensures minus == OutFlow(outs)
    {
      minus := map[];
      for i := 0 to |outs|
        invariant minus == OutFlow(outs[..i])
      {
        assert outs[..i + 1][..i] == outs[..i];
        minus := Bump(minus, outs[i].asset, outs[i].value);
      }
      assert outs[..|outs|] == outs;
    }

    static method FromInput(coins: seq<Coin>, from: Hash) returns (found: bool)
      ensures found == SentFromInput(coins, from)
    {
      found := false;
      for j := 0 to |coins|
        invariant found <==> exists i :: 0 <= i < j && coins[i].out.addr == from
      {
        found := found || coins[j].out.addr == from;
      }
    }

    /** One op against scratch copies of the pools touched so far. */
    method ExecOp(c: Core, height: nat, coins: seq<Coin>, i: nat, plus0: map<Hash, nat>, minus0: map<Hash, nat>,
                  touched0: map<Hash, Option<Pool>>, minted0: map<Hash, TokenInfo>)
      returns (err: Option<Reason>, plus: map<Hash, nat>, minus: map<Hash, nat>,
               touched: map<Hash, Option<Pool>>, minted: map<Hash, TokenInfo>)
      requires AsReader().Valid() && c.ins != [] && i < |c.ops|
      requires forall t :: t in touched0 ==> touched0[t].Some?
      ensures err.None? ==> forall t :: t in touched ==> touched[t].Some?
      ensures StepOp(Call(rules, c, height, coins, State().tokens),
                     Scratch(plus0, minus0, Patched(State().pools, touched0), minted0), i) ==
              if err.Some? then Err(err.value)
              else Ok(Scratch(plus, minus, Patched(State().pools, touched), minted))
    {
      hide PoolOp, Bump;
      err, plus, minus, touched, minted := None, plus0, minus0, touched0, minted0;
      LookupsAgree(AsReader());
      var op := c.ops[i];
      if op.CreateToken? {
        var id := rules.tokenId(c.ins[0], i);
        if id in minted || AsReader().Token(id).Some? { err := Some(TokenExists); return; }
        minted := minted[id := InfoOf(rules, c, height, op, id)];
        plus := Bump(plus, id, op.supply);
      } else if op.Message? {
        var found := FromInput(coins, op.from);
        if !found { err := Some(MessageFromNotInput); return; }
      } else {
        var t := op.token;
        if t !in touched {
          PatchLoaded(State().pools, touched, t);
          touched := touched[t := AsReader().Pool(t)];
        }
        assert touched[t] == Get(Patched(State().pools, touched), t);
        var ps := PoolOp(rules, op, t in minted || AsReader().Token(t).Some?, touched[t], Flows(plus, minus));
        if ps.Err? { err := Some(ps.reason); return; }
        PatchOne(State().pools, touched, t, ps.value.pool);
        touched := touched[t := Some(ps.value.pool)];
        plus, minus := ps.value.plus, ps.value.minus;
      }
    }

    /** Ops in order. */
    method ExecOps(c: Core, height: nat, coins: seq<Coin>, plus0: map<Hash, nat>, minus0: map<Hash, nat>)
      returns (err: Option<Reason>, plus: map<Hash, nat>, minus: map<Hash, nat>,
               touched: map<Hash, Option<Pool>>, minted: map<Hash, TokenInfo>)
      requires AsReader().Valid() && c.ins != []
      ensures err.None? ==> forall t :: t in touched ==> touched[t].Some?
      ensures RunOps(Call(rules, c, height, coins, State().tokens), Scratch(plus0, minus0, State().pools, map[]), 0) ==
              if err.Some? then Err(err.value)
              else Ok(Scratch(plus, minus, Patched(State().pools, touched), minted))
    {
      err, plus, minus, touched, minted := None, plus0, minus0, map[], map[];
      ghost var k := Call(rules, c, height, coins, State().tokens);
      assert Patched(State().pools, touched) == State().pools;
      for i := 0 to |c.ops|
        invariant err == None
        invariant forall t :: t in touched ==> touched[t].Some?
        invariant RunOps(k, Scratch(plus0, minus0, State().pools, map[]), 0) ==
                  RunOps(k, Scratch(plus, minus, Patched(State().pools, touched), minted), i)
      {
        err, plus, minus, touched, minted := ExecOp(c, height, coins, i, plus, minus, touched, minted);
        if err.Some? { return; }
      }
    }

    /** Assets in increasing order of id, QNT first. */
    static method CheckBalance(f: Flows) returns (res: Result<Amount>)
      ensures res == FeeOf(f)
    {
      var todo := f.plus.Keys + f.minus.Keys;
      var fee: Amount := 0;
      while todo != {}
        invariant forall a :: a in f.plus || a in f.minus ==> a in todo || Settled(f, a)
        invariant Settled(f, QNT) && QNT !in todo ==> fee == At(f.plus, QNT) - At(f.minus, QNT)
        invariant QNT in todo ==> fee == 0
        decreases todo
      {
        var a := Least(todo);
        var p, m := At(f.plus, a), At(f.minus, a);
        if a == QNT {
          if m > p { return Err(OutputsExceedInputs); }
          if p - m > MAX_MONEY { return Err(FeeTooLarge); }
          fee := p - m;
        } else if p != m {
          UnsettledToken(f, a);
          return Err(TokenNotBalanced);
        }
        todo := todo - {a};
      }
      AllSettled(f);
      res := Ok(fee);
    }

    method VerifySigs(tx: Transaction, coins: seq<Coin>) returns (err: Option<Reason>)
      requires |coins| == |tx.core.ins|
      ensures err == VerifyWitness(rules, tx, coins)
    {
      if |tx.wits| != |tx.core.ins| { return Some(WitnessCount); }
      for i := 0 to |coins|
        invariant VerifyWitness(rules, tx, coins) == VerifyFrom(rules, tx, coins, i)
      {
        var addr := coins[i].out.addr;
        match tx.wits[i]
        case Ref(j) =>
          if j >= i { return Some(RefForward); }
          if tx.wits[j].Ref? { return Some(RefChain); }
          if coins[j].out.addr != addr { return Some(RefAddressMismatch); }
        case Falcon(pk, sig) =>
          if rules.addressOf(pk) != addr { return Some(KeyMismatch); }
          if !rules.falcon(pk, sig, rules.txid(tx.core)) { return Some(BadSignature); }
      }
      err := None;
    }

    /** Everything that can fail. */
    method Validate(tx: Transaction, height: nat, verify: bool)
      returns (res: Result<Amount>, ghost f: Flows, touched: map<Hash, Option<Pool>>, minted: map<Hash, TokenInfo>)
      requires AsReader().Valid()
      ensures res.Err? ==> ApplyTx(rules, State(), tx, height, verify) == Err(res.reason)
      ensures res.Ok? ==>
                && (forall t :: t in touched ==> touched[t].Some?)
                && minted.Keys !! State().tokens.Keys
                && Accepts(rules, State(), tx, height, verify, res.value, f, touched, minted)
    {
      f, touched, minted := Flows(map[], map[]), map[], map[];
      var c := tx.core;
      if IsCoinbase(c) { return Err(CoinbaseInApply), f, touched, minted; }
      if c.lockHeight > height { return Err(Locked), f, touched, minted; }
      var coins, plus := GatherInputs(c.ins, height);
      if coins.Err? { return Err(coins.reason), f, touched, minted; }
      GatherLength(rules, State().coins, c.ins, height);
      var minus := SumOutputs(c.outs);
      var opErr;
      opErr, plus, minus, touched, minted := ExecOps(c, height, coins.value, plus, minus);
      if opErr.Some? { return Err(opErr.value), f, touched, minted; }
      f := Flows(plus, minus);
      MintedFresh(Call(rules, c, height, coins.value, State().tokens), Start(c, coins.value, State().pools), 0,
                  Scratch(plus, minus, Patched(State().pools, touched), minted));
      res := CheckBalance(Flows(plus, minus));
      if res.Err? { return; }
      if verify {
        var sigErr := VerifySigs(tx, coins.value);
        if sigErr.Some? { return Err(sigErr.value), f, touched, minted; }
      }
    }

    /** Spend the inputs. */
    method SpendInputs(ins: seq<OutPoint>)
      modifies this`ov
      ensures ov == SpendAll(base, old(ov), ins)
    {
      for i := 0 to |ins|
        invariant ov == SpendAll(base, old(ov), ins[..i])
      {
        assert ins[..i + 1][..i] == ins[..i];
        if ins[i] in ov.created {
          ov := ov.(created := ov.created - {ins[i]}, spentCreated := ov.spentCreated + {ins[i]});
        } else {
          var c := base.Coin(ins[i]);
          if c.Some? { ov := ov.(spentBase := ov.spentBase[ins[i] := c.value]); }
        }
      }
      assert ins[..|ins|] == ins;
    }

    /** Make the outputs. */
    method MakeOutputs(id: Hash, outs: seq<TxOut>, height: nat, coinbase: bool)
      modifies this`ov
      ensures ov == old(ov).(created := old(ov).created + Created(id, outs, height, coinbase))
    {
      ghost var before := ov;
      for n := 0 to |outs|
        invariant ov == before.(created := before.created + Created(id, outs[..n], height, coinbase))
      {
        CreatedNext(before.created, id, outs, n, height, coinbase);
        ov := ov.(created := ov.created[OutPoint(id, n) := Types.Coin(outs[n], height, coinbase)]);
      }
      assert outs[..|outs|] == outs;
    }

    /** `apply_coinbase`: a coinbase of a height not seen before. */
    method AddCoinbase(tx: Transaction, height: nat)
      requires Valid() && IsCoinbase(tx.core) && tx.core.lockHeight == height && CoinbasesBelow(seen, height)
      modifies this
      ensures Valid() && seen == old(seen) + {tx.core}
      ensures State() == ApplyCoinbase(rules, old(State()), tx, height)
    {
      CoinbaseKeepsView(rules, base, ov, seen, tx, height);
      MakeOutputs(rules.txid(tx.core), tx.core.outs, height, true);
      seen := seen + {tx.core};
    }

    /** `LedgerView::apply`: all of the transaction or nothing. */
    method Apply(tx: Transaction, height: nat, verify: bool) returns (res: Result<Amount>)
      requires Valid() && BasicOk(tx)
      modifies this
      ensures Valid()
      ensures ApplyTx(rules, old(State()), tx, height, verify) ==
              if res.Ok? then Ok(Applied(State(), res.value)) else Err(res.reason)
      ensures res.Ok? ==> seen == old(seen) + {tx.core}
      ensures res.Err? ==> ov == old(ov) && seen == old(seen)
      ensures tx.core.ins != [] && tx.core.lockHeight > height ==> res == Err(Locked)
      ensures PoolsOk(old(State()).pools) ==>
                (res.Ok? <==>
                   && Admissible(rules, old(State()), tx.core, height)
                   && (verify ==> AllSignedFor(rules, old(State()), tx)))
    {
      hide Admissible, AllSignedFor, PoolsOk, BasicOk, RunOps, Gather, FeeOf, VerifyWitness;
      var c := tx.core;
      AcceptedIff(rules, State(), tx, height, verify);
      ghost var f;
      var touched, minted;
      res, f, touched, minted := Validate(tx, height, verify);
      if res.Err? { return; }
      CommitKeepsView(rules, base, ov, seen, tx, height, verify, res.value, f, touched, minted);
      SpendInputs(c.ins);
      MakeOutputs(rules.txid(c), c.outs, height, false);
      ov := Install(base, ov, touched, minted);
      seen := seen + {c};
    }
  }

  lemma AcceptedIff(r: Rules, st: State, tx: Transaction, height: nat, verify: bool)
    ensures tx.core.ins != [] && tx.core.lockHeight > height ==> ApplyTx(r, st, tx, height, verify) == Err(Locked)
    ensures PoolsOk(st.pools) ==>
              (ApplyTx(r, st, tx, height, verify).Ok? <==>
                 Admissible(r, st, tx.core, height) && (verify ==> AllSignedFor(r, st, tx)))
  {
    hide ApplyTx, Admissible, AllSignedFor;
    LockedFirst(r, st, tx, height, verify);
    if PoolsOk(st.pools) { ApplyIff(r, st, tx, height, verify); }
  }

  /** An asset that passed its balance check. */
  ghost predicate Settled(f: Flows, a: Hash) {
    if a == QNT then At(f.minus, a) <= At(f.plus, a) <= At(f.minus, a) + MAX_MONEY
    else At(f.plus, a) == At(f.minus, a)
  }

  lemma UnsettledToken(f: Flows, a: Hash)
    requires a != QNT && At(f.plus, a) != At(f.minus, a)
    requires Settled(f, QNT)
    ensures FeeOf(f) == Err(TokenNotBalanced)
  {
    assert a in f.plus.Keys + f.minus.Keys;
  }

  lemma AllSettled(f: Flows)
    requires forall a :: a in f.plus || a in f.minus ==> Settled(f, a)
    ensures Settled(f, QNT)
    ensures FeeOf(f) == Ok(At(f.plus, QNT) - At(f.minus, QNT))
  {
    if QNT !in f.plus && QNT !in f.minus { assert Settled(f, QNT); }
  }

  method Least(s: set<Hash>) returns (a: Hash)
    requires s != {}
    ensures a in s && forall b :: b in s ==> a <= b
  {
    LeastExists(s);
    a :| a in s && forall b :: b in s ==> a <= b;
  }

  lemma {:induction false} LeastExists(s: set<Hash>)
    requires s != {}
    ensures exists a :: a in s && forall b :: b in s ==> a <= b
    decreases |s|
  {
    var x :| x in s;
    if y :| y in s && y < x {
      var rest := s - {x};
      assert y in rest;
      LeastExists(rest);
      var a :| a in rest && forall b :: b in rest ==> a <= b;
      forall b | b in s ensures a <= b {
        if b != x { assert b in rest; }
      }
    }
  }
}
