/** The QNT supply of a chain against its emission, and where 64-bit sums break the bound. */
module Supply {
  import opened Types
  import opened Sums
  import opened Ledger
  import opened LedgerLaws
  import opened Emission
  import opened Replay

  ghost function QntReserve(): (Hash, Pool) -> int { (t: Hash, p: Pool) => p.qnt }

  /** QNT in coins plus QNT in pools. */
  ghost function SupplyOf(coins: map<OutPoint, Coin>, pools: map<Hash, Pool>): int {
    CoinSum(coins, QNT) + MapSum(pools, QntReserve())
  }

  lemma SupplyIsNet(r: Rules, st: State)
    requires r.AssetsIdeal() && LedgerInv(r, st)
    ensures SupplyOf(st.coins, st.pools) == Net(r, st, QNT)
    ensures SupplyOf(st.coins, st.pools) >= 0
  {
    if QNT in st.tokens { TokenIsNoShare(r, st, QNT); }
    forall t | t in st.pools
      ensures PoolValue(r, QNT)(t, st.pools[t]) == QntReserve()(t, st.pools[t])
    {
      TokenIsNoShare(r, st, t);
    }
    MapSumSame(st.pools, PoolValue(r, QNT), QntReserve());
    MapSumNonNegative(st.coins, CoinValue(QNT));
    MapSumNonNegative(st.pools, QntReserve());
  }

  // ---------------------------------------------------------------- the block's own coinbase

  /** Coinbase coins of this very height: not spendable in this block. */
  ghost predicate Immature(r: Rules, extra: map<OutPoint, Coin>, height: nat) {
    forall o :: o in extra ==> extra[o].coinbase && height < extra[o].height + r.maturity
  }

  lemma {:induction false} GatherFrame(r: Rules, coins: map<OutPoint, Coin>, extra: map<OutPoint, Coin>,
                                       ins: seq<OutPoint>, height: nat)
    requires Immature(r, extra, height) && coins.Keys !! extra.Keys
    ensures Gather(r, coins + extra, ins, height).Ok? <==> Gather(r, coins, ins, height).Ok?
    ensures Gather(r, coins, ins, height).Ok? ==>
              && Gather(r, coins + extra, ins, height) == Gather(r, coins, ins, height)
              && InputSet(ins) !! extra.Keys
  {
    if ins != [] {
      var front, o := ins[..|ins| - 1], ins[|ins| - 1];
      GatherFrame(r, coins, extra, front, height);
      assert InputSet(ins) == InputSet(front) + {o};
    }
  }

  lemma CommitFrame(r: Rules, st: State, extra: map<OutPoint, Coin>, c: Core, height: nat, s: Scratch)
    requires st.coins.Keys !! extra.Keys && InputSet(c.ins) !! extra.Keys && Fresh(extra, r.txid(c))
    ensures Commit(r, st.(coins := st.coins + extra), c, height, s) ==
            Commit(r, st, c, height, s).(coins := Commit(r, st, c, height, s).coins + extra)
    ensures Commit(r, st, c, height, s).coins.Keys !! extra.Keys
  {
    hide InputSet;
    MergeFrame(st.coins, extra, InputSet(c.ins), Created(r.txid(c), c.outs, height, false));
  }

  lemma MergeFrame<K, V>(m: map<K, V>, extra: map<K, V>, gone: set<K>, made: map<K, V>)
    requires m.Keys !! extra.Keys && gone !! extra.Keys && made.Keys !! extra.Keys
    ensures ((m + extra) - gone) + made == ((m - gone) + made) + extra
    ensures ((m - gone) + made).Keys !! extra.Keys
  {}

  /** A transaction does not see the coinbase of its own block: with or without it, the same
      transactions are accepted, at the same fee, to the same effect. */
  lemma ApplyFrame(r: Rules, st: State, extra: map<OutPoint, Coin>, tx: Transaction, height: nat, verify: bool)
    requires Immature(r, extra, height) && st.coins.Keys !! extra.Keys && Fresh(extra, r.txid(tx.core))
    ensures ApplyTx(r, st.(coins := st.coins + extra), tx, height, verify).Ok? <==>
              ApplyTx(r, st, tx, height, verify).Ok?
    ensures ApplyTx(r, st, tx, height, verify).Ok? ==>
              var ap, ap' := ApplyTx(r, st, tx, height, verify).value,
                  ApplyTx(r, st.(coins := st.coins + extra), tx, height, verify).value;
              && ap'.fee == ap.fee && ap'.state == ap.state.(coins := ap.state.coins + extra)
              && ap.state.coins.Keys !! extra.Keys
  {
    hide Gather, RunOps, FeeOf, VerifyWitness, Commit;
    GatherFrame(r, st.coins, extra, tx.core.ins, height);
    if Gather(r, st.coins, tx.core.ins, height).Ok? && !IsCoinbase(tx.core) {
      var coins := Gather(r, st.coins, tx.core.ins, height).value;
      var ops := RunOps(Call(r, tx.core, height, coins, st.tokens), Start(tx.core, coins, st.pools), 0);
      if ops.Ok? { CommitFrame(r, st, extra, tx.core, height, ops.value); }
    }
  }

  lemma {:induction false} ApplyAllFrame(r: Rules, st: State, extra: map<OutPoint, Coin>, txs: seq<Transaction>,
                                         height: nat, verify: bool)
    requires Immature(r, extra, height) && st.coins.Keys !! extra.Keys
    requires forall i :: 0 <= i < |txs| ==> Fresh(extra, r.txid(txs[i].core))
    ensures ApplyAll(r, st.(coins := st.coins + extra), txs, height, verify).Ok? <==>
              ApplyAll(r, st, txs, height, verify).Ok?
    ensures ApplyAll(r, st, txs, height, verify).Ok? ==>
              var ap, ap' := ApplyAll(r, st, txs, height, verify).value,
                  ApplyAll(r, st.(coins := st.coins + extra), txs, height, verify).value;
              && ap'.fee == ap.fee && ap'.state == ap.state.(coins := ap.state.coins + extra)
              && ap.state.coins.Keys !! extra.Keys
              && TrueFees(r, st.(coins := st.coins + extra), txs, height, verify) == TrueFees(r, st, txs, height,
                  verify)
  {
    if txs != [] {
      var front, tx := txs[..|txs| - 1], txs[|txs| - 1];
      ApplyAllFrame(r, st, extra, front, height, verify);
      if ApplyAll(r, st, front, height, verify).Ok? {
        ApplyFrame(r, ApplyAll(r, st, front, height, verify).value.state, extra, tx, height, verify);
      }
    }
  }

  /** A coinbase shares no id with the other transactions of its block. */
  lemma CoinbaseApart(r: Rules, b: Block, height: nat)
    requires r.TxidsIdeal() && ShapeOk(b, height)
    ensures var extra := Created(r.txid(b.txs[0].core), b.txs[0].core.outs, height, true);
            forall i :: 0 <= i < |b.txs[1..]| ==> Fresh(extra, r.txid(b.txs[1..][i].core))
  {
    forall i | 0 <= i < |b.txs[1..]|
      ensures r.txid(b.txs[1..][i].core) != r.txid(b.txs[0].core)
    {
      assert b.txs[1..][i] == b.txs[i + 1];
      assert b.txs[i + 1].core != b.txs[0].core;
    }
  }

  // ---------------------------------------------------------------- one block

  /** The coinbase's true QNT output. */
  function CoinbaseOut(b: Block): nat
    requires b.txs != []
  {
    At(OutFlow(b.txs[0].core.outs), QNT)
  }

  ghost function BlockFees(r: Rules, st: State, b: Block, height: nat): nat
    requires b.txs != [] && ConnectState(r, st, b, height, false).Ok?
  {
    TrueFees(r, ApplyCoinbase(r, st, b.txs[0], height), b.txs[1..], height, false)
  }

  /** Fees come out of what was there before the block. */
  lemma FeesFromSupply(r: Rules, st: State, cs: seq<Core>, b: Block, height: nat)
    requires r.TxidsIdeal() && r.AssetsIdeal() && r.maturity > 0
    requires Sound(r, st, cs) && CoinbasesBelow(Seen(cs), height)
    requires ShapeOk(b, height) && ConnectState(r, st, b, height, false).Ok?
    ensures BlockFees(r, st, b, height) <= SupplyOf(st.coins, st.pools)
  {
    var cb, rest := b.txs[0], b.txs[1..];
    var extra := Created(r.txid(cb.core), cb.core.outs, height, true);
    CoinbaseSound(r, st, cs, cb, height);
    CoinbaseApart(r, b, height);
    ApplyAllFrame(r, st, extra, rest, height, false);
    assert AllBasic(rest);
    ApplyAllSound(r, st, cs, rest, height, false);
    SupplyIsNet(r, st);
    SupplyIsNet(r, ApplyAll(r, st, rest, height, false).value.state);
  }

  /** An accepted block moves the supply by the coinbase's true output less the true fees. */
  lemma ConnectSupply(r: Rules, st: State, cs: seq<Core>, b: Block, height: nat)
    requires r.TxidsIdeal() && r.AssetsIdeal() && r.maturity > 0
    requires Sound(r, st, cs) && CoinbasesBelow(Seen(cs), height)
    requires ShapeOk(b, height) && ConnectState(r, st, b, height, false).Ok?
    ensures var st' := ConnectState(r, st, b, height, false).value;
            SupplyOf(st'.coins, st'.pools) == SupplyOf(st.coins, st.pools) + CoinbaseOut(b) - BlockFees(r, st, b,
                     height)
  {
    ConnectSound(r, st, cs, b, height, false);
    SupplyIsNet(r, st);
    SupplyIsNet(r, ConnectState(r, st, b, height, false).value);
  }

  /** The reward rule is met by an accepted block exactly when the coinbase's true output fits 64 bits. */
  lemma RewardRuleIff(r: Rules, st: State, cs: seq<Core>, b: Block, height: nat)
    requires r.TxidsIdeal() && r.AssetsIdeal() && r.maturity > 0
    requires Sound(r, st, cs) && CoinbasesBelow(Seen(cs), height) && height > 0
    requires ShapeOk(b, height) && ConnectState(r, st, b, height, false).Ok?
    requires SupplyOf(st.coins, st.pools) <= Issued(height - 1) && Issued(height) < TWO64
    ensures CoinbaseOut(b) <= BlockSubsidy(height) + BlockFees(r, st, b, height) <==> CoinbaseOut(b) < TWO64
  {
    var fees := BlockFees(r, st, b, height);
    FeesFromSupply(r, st, cs, b, height);
    FeesWrap(r, ApplyCoinbase(r, st, b.txs[0], height), b.txs[1..], height, false);
    TotalOutWraps(b.txs[0].core.outs);
    assert Subsidy64(height) == BlockSubsidy(height) by { WrapFits(Issued(height - 1)); }
    assert Issued(height) == Issued(height - 1) + BlockSubsidy(height);
    WrappedRule(CoinbaseOut(b), fees, Subsidy64(height));
  }

  lemma WrapFits(x: nat)
    ensures Wrap64(x) == x % TWO64
    ensures x < TWO64 ==> Wrap64(x) == x
  {}

  /** The 64-bit comparison, when only the output may be too wide. */
  lemma WrappedRule(out: nat, fees: nat, subsidy: Amount)
    requires subsidy + fees < TWO64 && Wrap64(out) <= Add64(subsidy, Wrap64(fees))
    ensures out <= subsidy + fees <==> out < TWO64
  {
    WrapFits(fees);
    WrapFits(out);
    assert Add64(subsidy, fees) == Wrap64(subsidy + fees);
    WrapFits(subsidy + fees);
  }

  // ---------------------------------------------------------------- whole chains

  predicate CoinbasesFit(blocks: seq<Block>) {
    forall i :: 0 <= i < |blocks| && blocks[i].txs != [] ==> CoinbaseOut(blocks[i]) < TWO64
  }

  /** Genesis creates nothing. */
  predicate NoPremine(blocks: seq<Block>) {
    blocks != [] ==> blocks[0].txs != [] && blocks[0].txs[0].core.outs == [] && |blocks[0].txs| == 1
  }

  /** QNT in the coins and pools that the chain leaves. */
  ghost function ReplaySupply(r: Rules, blocks: seq<Block>): int {
    match Replayed(r, blocks)
    case None => 0
    case Some(st) => SupplyOf(st.coins, st.pools)
  }

  lemma LastConnects(r: Rules, blocks: seq<Block>)
    requires blocks != [] && Replayed(r, blocks).Some?
    ensures var n := |blocks| - 1;
            && Replayed(r, blocks[..n]).Some? && ShapeOk(blocks[n], n) && blocks[n].txs != []
            && ConnectState(r, Replayed(r, blocks[..n]).value, blocks[n], n, false) == Ok(Replayed(r, blocks).value)
  {
    hide ConnectState;
  }

  /** The true fees of the last block. */
  ghost function LastFees(r: Rules, blocks: seq<Block>): nat {
    if blocks == [] || Replayed(r, blocks).None? then 0
    else
      LastConnects(r, blocks);
      BlockFees(r, Replayed(r, blocks[..|blocks| - 1]).value, blocks[|blocks| - 1], |blocks| - 1)
  }

  /** What the last block adds to the supply, and what it takes from what was there. */
  lemma SupplyNext(r: Rules, blocks: seq<Block>)
    requires r.TxidsIdeal() && r.AssetsIdeal() && r.maturity > 0 && blocks != [] && Replayed(r, blocks).Some?
    ensures var n := |blocks| - 1;
            && Replayed(r, blocks[..n]).Some? && blocks[n].txs != []
            && ReplaySupply(r, blocks) == ReplaySupply(r, blocks[..n]) + CoinbaseOut(blocks[n]) - LastFees(r, blocks)
            && LastFees(r, blocks) <= ReplaySupply(r, blocks[..n])
  {
    hide Replayed, ConnectState, ShapeOk, Sound, CoinbasesBelow, BlockFees, CoinbaseOut, SupplyOf;
    var n := |blocks| - 1;
    LastConnects(r, blocks);
    var st := Replayed(r, blocks[..n]).value;
    ReplaySound(r, blocks[..n]);
    ConnectSupply(r, st, AllCores(blocks[..n]), blocks[n], n);
    FeesFromSupply(r, st, AllCores(blocks[..n]), blocks[n], n);
  }

  lemma RewardNext(r: Rules, blocks: seq<Block>)
    requires r.TxidsIdeal() && r.AssetsIdeal() && r.maturity > 0 && |blocks| > 1 && Replayed(r, blocks).Some?
    requires Replayed(r, blocks[..|blocks| - 1]).Some?
               && ReplaySupply(r, blocks[..|blocks| - 1]) <= Issued(|blocks| - 2)
    requires blocks[|blocks| - 1].txs != [] && CoinbaseOut(blocks[|blocks| - 1]) < TWO64 && Issued(|blocks| - 1) < TWO64
    ensures ReplaySupply(r, blocks) <= Issued(|blocks| - 1)
  {
    hide Replayed, ConnectState, ShapeOk, Sound, CoinbasesBelow, BlockFees, CoinbaseOut, SupplyOf;
    var n := |blocks| - 1;
    LastConnects(r, blocks);
    SupplyNext(r, blocks);
    ReplaySound(r, blocks[..n]);
    RewardRuleIff(r, Replayed(r, blocks[..n]).value, AllCores(blocks[..n]), blocks[n], n);
    assert Issued(n) == Issued(n - 1) + BlockSubsidy(n);
  }

  /** The supply ceiling: QNT in coins and pools never exceeds what the emission curve has issued, for
      every replayed chain whose coinbases' true sums fit 64 bits. */
  lemma {:induction false} SupplyCeiling(r: Rules, blocks: seq<Block>)
    requires r.TxidsIdeal() && r.AssetsIdeal() && r.maturity > 0
    requires blocks != [] && Replayed(r, blocks).Some? && NoPremine(blocks) && CoinbasesFit(blocks)
    requires Issued(|blocks| - 1) < TWO64
    ensures ReplaySupply(r, blocks) <= Issued(|blocks| - 1)
  {
    hide Replayed, ReplaySupply, CoinbaseOut, LastFees, Issued;
    var n := |blocks| - 1;
    SupplyNext(r, blocks);
    if n == 0 {
      GenesisAddsNothing(r, blocks);
    } else {
      IssuedMonotone(n - 1, n);
      SupplyCeiling(r, blocks[..n]);
      RewardNext(r, blocks);
    }
  }

  lemma GenesisAddsNothing(r: Rules, blocks: seq<Block>)
    requires |blocks| == 1 && NoPremine(blocks) && Replayed(r, []).Some?
    ensures blocks[..0] == [] && CoinbaseOut(blocks[0]) == 0 && ReplaySupply(r, []) == 0
  {}

  /** No height of the chain is above the curve. */
  ghost predicate UnderCeiling(r: Rules, blocks: seq<Block>) {
    forall n :: 0 < n <= |blocks| ==> Replayed(r, blocks[..n]).Some? && ReplaySupply(r, blocks[..n]) <= Issued(n - 1)
  }

  /** The condition is exact: a chain is under the ceiling at every height just when all its coinbases fit. */
  lemma CeilingIff(r: Rules, blocks: seq<Block>)
    requires r.TxidsIdeal() && r.AssetsIdeal() && r.maturity > 0
    requires blocks != [] && Replayed(r, blocks).Some? && NoPremine(blocks) && Issued(|blocks| - 1) < TWO64
    ensures UnderCeiling(r, blocks) <==> CoinbasesFit(blocks)
  {
    hide Replayed, ReplaySupply, CoinbaseOut, Issued;
    if CoinbasesFit(blocks) {
      forall n | 0 < n <= |blocks|
        ensures Replayed(r, blocks[..n]).Some? && ReplaySupply(r, blocks[..n]) <= Issued(n - 1)
      {
        ReplayPrefix(r, blocks, n);
        IssuedMonotone(n - 1, |blocks| - 1);
        SupplyCeiling(r, blocks[..n]);
      }
    }
    if UnderCeiling(r, blocks) {
      forall i | 0 <= i < |blocks| && blocks[i].txs != [] ensures CoinbaseOut(blocks[i]) < TWO64 {
        IssuedMonotone(i, |blocks| - 1);
        UnderMeansFit(r, blocks[..i + 1]);
      }
    }
  }

  lemma UnderMeansFit(r: Rules, blocks: seq<Block>)
    requires r.TxidsIdeal() && r.AssetsIdeal() && r.maturity > 0
    requires blocks != [] && Replayed(r, blocks).Some? && ReplaySupply(r, blocks) <= Issued(|blocks| - 1) < TWO64
    ensures blocks[|blocks| - 1].txs != [] && CoinbaseOut(blocks[|blocks| - 1]) < TWO64
  {
    hide Replayed, ReplaySupply, CoinbaseOut, Issued, LastFees;
    SupplyNext(r, blocks);
  }

  /** A 64-bit counter that tracks the supply is the supply. */
  lemma CounterIsSupply(r: Rules, blocks: seq<Block>, st: State, supply: Amount)
    requires r.TxidsIdeal() && blocks != [] && Replayed(r, blocks) == Some(st) && NoPremine(blocks)
    requires supply == Wrap64(SupplyOf(st.coins, st.pools))
    ensures r.AssetsIdeal() && r.maturity > 0 && CoinbasesFit(blocks) && Issued(|blocks| - 1) < TWO64 ==>
              supply == SupplyOf(st.coins, st.pools) && supply <= Issued(|blocks| - 1)
  {
    hide Issued, SupplyOf, LedgerInv, Hist, DistinctIds, Replayed, CoinbasesFit, NoPremine, Net, CoinbasesBelow, Seen,
         AllCores;
    if r.AssetsIdeal() && r.maturity > 0 && CoinbasesFit(blocks) && Issued(|blocks| - 1) < TWO64 {
      SupplyCeiling(r, blocks);
      ReplaySound(r, blocks);
      SupplyIsNet(r, st);
    }
  }

  // ---------------------------------------------------------------- the wrap

  /** Two outputs, each within every limit, whose 64-bit sum is zero. */
  const WRAPPING_OUTS: seq<TxOut> := [TxOut(10_000_000_000_000_000_000, QNT, 1),
      TxOut(8_446_744_073_709_551_616, QNT, 1)]

  const WRAPPING_BLOCK: Block :=
    Block(Header(2, 0, 0, 0, 0, 0, 0, 0), [Transaction(Core(2, [], WRAPPING_OUTS, [], 1, []), [])])

  const PLAIN_GENESIS: Block := Block(Header(2, 0, 0, 0, 0, 0, 0, 0), [Transaction(Core(2, [], [], [], 0, []), [])])

  lemma WrappingShape()
    ensures ShapeOk(WRAPPING_BLOCK, 1)
  {
    var outs := WRAPPING_OUTS;
    assert CheckOuts(outs, true, 2, 0) == None;
    assert CheckOuts(outs, true, 1, outs[0].value) == None;
  }

  lemma WrappingSums()
    ensures TotalOut64(WRAPPING_OUTS) == 0 && At(OutFlow(WRAPPING_OUTS), QNT) == TWO64
  {
    var outs := WRAPPING_OUTS;
    assert outs[..1] == [outs[0]] && outs[..1][..0] == [];
    assert TotalOut64(outs[..1]) == outs[0].value && At(OutFlow(outs[..1]), QNT) == outs[0].value;
  }

  /** This block passes every check at height 1 on the empty state. */
  lemma WrappingConnects(r: Rules, verify: bool)
    ensures ConnectState(r, EMPTY_STATE, WRAPPING_BLOCK, 1, verify).Ok?
    ensures var st := ConnectState(r, EMPTY_STATE, WRAPPING_BLOCK, 1, verify).value;
            SupplyOf(st.coins, st.pools) == TWO64
  {
    hide TotalOut64, OutFlow;
    WrappingSums();
    var cb := WRAPPING_BLOCK.txs[0];
    assert WRAPPING_BLOCK.txs[1..] == [];
    CoinSumCreated(map[], r.txid(cb.core), WRAPPING_OUTS, 1, true, QNT);
    assert map[] + Created(r.txid(cb.core), WRAPPING_OUTS, 1, true) == Created(r.txid(cb.core), WRAPPING_OUTS, 1, true);
  }

  lemma GenesisConnects(r: Rules)
    ensures ShapeOk(PLAIN_GENESIS, 0) && ConnectState(r, EMPTY_STATE, PLAIN_GENESIS, 0, false) == Ok(EMPTY_STATE)
  {
    assert PLAIN_GENESIS.txs[1..] == [];
    assert ApplyCoinbase(r, EMPTY_STATE, PLAIN_GENESIS.txs[0], 0) == EMPTY_STATE;
  }

  /** Without the condition the ceiling fails: a chain of two blocks that replays and leaves more QNT than the curve has
      issued. */
  lemma CeilingNeedsFit(r: Rules)
    ensures var blocks := [PLAIN_GENESIS, WRAPPING_BLOCK];
            && NoPremine(blocks) && Replayed(r, blocks).Some? && Issued(|blocks| - 1) < TWO64
            && ReplaySupply(r, blocks) > Issued(|blocks| - 1) && !CoinbasesFit(blocks)
  {
    hide ConnectState, ShapeOk, SupplyOf;
    var blocks := [PLAIN_GENESIS, WRAPPING_BLOCK];
    GenesisConnects(r);
    WrappingShape();
    WrappingConnects(r, false);
    WrappingSums();
    assert blocks[..1] == [PLAIN_GENESIS] && [PLAIN_GENESIS][..0] == [];
    assert Replayed(r, [PLAIN_GENESIS]) == Some(EMPTY_STATE);
    assert CoinbaseOut(blocks[1]) >= TWO64;
  }
}
