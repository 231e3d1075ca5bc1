/** Blocks as functions on states: connecting one block, replaying a chain from genesis, and what
    every replayed state satisfies (src/chain/chainstate.cpp:766-774). */
module Replay {
  import opened Types
  import opened Sums
  import opened Amm
  import opened Ledger
  import opened LedgerLaws
  import opened Emission

  datatype Header = Header(version: nat, prev: Hash, merkleRoot: Hash, witnessRoot: Hash, stateCommit: Hash,
                           time: Amount, bits: nat, nonce: Amount)

  datatype Block = Block(header: Header, txs: seq<Transaction>)

  /** What `accept_block` demands of a body before it stores it. */
  predicate ShapeOk(b: Block, height: nat) {
    && b.txs != []
    && (forall i :: 0 <= i < |b.txs| ==> IsCoinbase(b.txs[i].core) == (i == 0) && BasicOk(b.txs[i]))
    && b.txs[0].core.lockHeight == height
  }

  /** Transactions in order; the fees are summed in 64 bits. */
  function ApplyAll(r: Rules, st: State, txs: seq<Transaction>, height: nat, verify: bool): Result<Applied> {
    if txs == [] then Ok(Applied(st, 0))
    else
      var front :- ApplyAll(r, st, txs[..|txs| - 1], height, verify);
      var last :- ApplyTx(r, front.state, txs[|txs| - 1], height, verify);
      Ok(Applied(last.state, Add64(front.fee, last.fee)))
  }

  /** `total_qnt_out`, a 64-bit sum. */
  function TotalOut64(outs: seq<TxOut>): Amount {
    if outs == [] then 0
    else
      var o := outs[|outs| - 1];
      var s := TotalOut64(outs[..|outs| - 1]);
      if o.asset == QNT then Add64(s, o.value) else s
  }

  /** One block on top of a state. */
  function ConnectState(r: Rules, st: State, b: Block, height: nat, verify: bool): Result<State>
    requires b.txs != []
  {
    var ap :- ApplyAll(r, ApplyCoinbase(r, st, b.txs[0], height), b.txs[1..], height, verify);
    if height > 0 && TotalOut64(b.txs[0].core.outs) > Add64(Subsidy64(height), ap.fee)
    then Err(CoinbasePaysTooMuch)
    else Ok(ap.state)
  }

  /** The state after a chain of blocks, from genesis; `None` if some block does not connect. */
  function Replayed(r: Rules, blocks: seq<Block>): Option<State> {
    if blocks == [] then Some(EMPTY_STATE)
    else
      var n := |blocks| - 1;
      match Replayed(r, blocks[..n])
      case None => None
      case Some(st) =>
        if !ShapeOk(blocks[n], n) then None
        else
          match ConnectState(r, st, blocks[n], n, false)
          case Err(_) => None
          case Ok(st') => Some(st')
  }

  // ---------------------------------------------------------------- histories

  function CoresOf(txs: seq<Transaction>): seq<Core> { seq(|txs|, i requires 0 <= i < |txs| => txs[i].core) }

  /** All transactions of a chain, in order. */
  function AllCores(blocks: seq<Block>): seq<Core> {
    if blocks == [] then []
    else AllCores(blocks[..|blocks| - 1]) + CoresOf(blocks[|blocks| - 1].txs)
  }

  ghost function Seen(cs: seq<Core>): set<Core> { set c | c in cs }

  ghost predicate DistinctIds(r: Rules, cs: seq<Core>) {
    forall i, j :: 0 <= i < j < |cs| ==> r.txid(cs[i]) != r.txid(cs[j])
  }

  /** A ledger state together with the transactions that led to it. */
  ghost predicate Sound(r: Rules, st: State, cs: seq<Core>) {
    && LedgerInv(r, st)
    && Hist(r, st, Seen(cs))
    && DistinctIds(r, cs)
  }

  lemma SeenNext(cs: seq<Core>, c: Core)
    ensures Seen(cs + [c]) == Seen(cs) + {c}
  {}

  lemma NewIdDistinct(r: Rules, cs: seq<Core>, c: Core)
    requires DistinctIds(r, cs) && r.txid(c) !in Ids(r, Seen(cs))
    ensures DistinctIds(r, cs + [c])
  {
    forall i | 0 <= i < |cs| ensures r.txid(cs[i]) != r.txid(c) {
      assert cs[i] in Seen(cs);
    }
  }

  lemma ApplyKeepsSound(r: Rules, st: State, cs: seq<Core>, tx: Transaction, height: nat, verify: bool)
    requires r.TxidsIdeal() && Sound(r, st, cs) && BasicOk(tx)
    requires ApplyTx(r, st, tx, height, verify).Ok?
    ensures Sound(r, ApplyTx(r, st, tx, height, verify).value.state, cs + [tx.core])
    ensures Net(r, ApplyTx(r, st, tx, height, verify).value.state, QNT) ==
            Net(r, st, QNT) - ApplyTx(r, st, tx, height, verify).value.fee
    ensures PoolsGrow(st.pools, ApplyTx(r, st, tx, height, verify).value.state.pools)
  {
    hide ApplyTx, Net, PoolsOk, TokensKnown, Hist, DistinctIds, CoinbasesBelow, NoDilution, PoolsGrow;
    ApplyIsFresh(r, st, Seen(cs), tx, height, verify);
    ApplyKeepsLedger(r, st, tx, height, verify);
    ApplyKeepsHist(r, st, Seen(cs), tx, height, verify);
    ApplyConserves(r, st, tx, height, verify, QNT);
    SeenNext(cs, tx.core);
    NewIdDistinct(r, cs, tx.core);
  }

  lemma Add64Wraps(a: nat, s: Amount, b: Amount, sum: nat)
    requires s == Wrap64(a) && sum == a + b
    ensures Add64(s, b) == Wrap64(sum)
  {
    var q := a / TWO64;
    assert a == q * TWO64 + s;
    assert (s + b) + q * TWO64 == sum;
  }

  /** Fees as they are, not as the 64-bit sum shows them. */
  ghost function TrueFees(r: Rules, st: State, txs: seq<Transaction>, height: nat, verify: bool): nat
    requires ApplyAll(r, st, txs, height, verify).Ok?
  {
    if txs == [] then 0
    else
      var front := txs[..|txs| - 1];
      TrueFees(r, st, front, height, verify) +
      ApplyTx(r, ApplyAll(r, st, front, height, verify).value.state, txs[|txs| - 1], height, verify).value.fee
  }

  predicate AllBasic(txs: seq<Transaction>) { forall i :: 0 <= i < |txs| ==> BasicOk(txs[i]) }

  lemma CoresNext(txs: seq<Transaction>)
    requires txs != []
    ensures CoresOf(txs) == CoresOf(txs[..|txs| - 1]) + [txs[|txs| - 1].core]
  {}

  /** Pools that grow twice grow. */
  lemma PoolsGrowTrans(r: Rules, a: State, ca: seq<Core>, b: State, cb: seq<Core>, pools: map<Hash, Pool>)
    requires Sound(r, a, ca) && Sound(r, b, cb) && PoolsGrow(a.pools, b.pools) && PoolsGrow(b.pools, pools)
    ensures PoolsGrow(a.pools, pools)
  {
    hide NoDilution, PoolOk;
    forall t | t in a.pools ensures t in pools && NoDilution(a.pools[t], pools[t]) {
      NoDilutionTrans(a.pools[t], b.pools[t], pools[t]);
    }
  }

  lemma PoolsGrowSelf(pools: map<Hash, Pool>)
    ensures PoolsGrow(pools, pools)
  {}

  /** Any sequence of accepted transactions keeps the ledger sound, never creates an outpoint twice,
      dilutes no pool, and lowers QNT by exactly the fees. */
  lemma {:induction false} ApplyAllSound(r: Rules, st: State, cs: seq<Core>, txs: seq<Transaction>, height: nat,
                                         verify: bool)
    requires r.TxidsIdeal() && Sound(r, st, cs) && AllBasic(txs)
    requires ApplyAll(r, st, txs, height, verify).Ok?
    ensures var ap := ApplyAll(r, st, txs, height, verify).value;
            && Sound(r, ap.state, cs + CoresOf(txs))
            && Net(r, ap.state, QNT) == Net(r, st, QNT) - TrueFees(r, st, txs, height, verify)
            && PoolsGrow(st.pools, ap.state.pools)
  {
    hide ApplyTx, Net, Sound, PoolsGrow;
    if txs == [] {
      assert cs + CoresOf(txs) == cs;
      PoolsGrowSelf(st.pools);
    } else {
      var front, tx := txs[..|txs| - 1], txs[|txs| - 1];
      ApplyAllSound(r, st, cs, front, height, verify);
      var ap := ApplyAll(r, st, front, height, verify).value;
      CoresNext(txs);
      assert (cs + CoresOf(front)) + [tx.core] == cs + CoresOf(txs);
      ApplyKeepsSound(r, ap.state, cs + CoresOf(front), tx, height, verify);
      PoolsGrowTrans(r, st, cs, ap.state, cs + CoresOf(front), ApplyAll(r, st, txs, height, verify).value.state.pools);
    }
  }

  /** The 64-bit fee sum is the true one modulo 2^64. */
  lemma {:induction false} FeesWrap(r: Rules, st: State, txs: seq<Transaction>, height: nat, verify: bool)
    requires ApplyAll(r, st, txs, height, verify).Ok?
    ensures ApplyAll(r, st, txs, height, verify).value.fee == Wrap64(TrueFees(r, st, txs, height, verify))
  {
    if txs != [] {
      var front := txs[..|txs| - 1];
      FeesWrap(r, st, front, height, verify);
      var ap := ApplyAll(r, st, front, height, verify).value;
      Add64Wraps(TrueFees(r, st, front, height, verify), ap.fee,
                 ApplyTx(r, ap.state, txs[|txs| - 1], height, verify).value.fee, TrueFees(r, st, txs, height, verify));
    }
  }

  /** `TotalOut64` is the true QNT sum modulo 2^64. */
  lemma {:induction false} TotalOutWraps(outs: seq<TxOut>)
    ensures TotalOut64(outs) == Wrap64(At(OutFlow(outs), QNT))
  {
    if outs != [] {
      var front, o := outs[..|outs| - 1], outs[|outs| - 1];
      TotalOutWraps(front);
      if o.asset == QNT {
        Add64Wraps(At(OutFlow(front), QNT), TotalOut64(front), o.value, At(OutFlow(outs), QNT));
      }
    }
  }

  /** A connected block keeps the ledger sound and dilutes no pool. What it adds to QNT is the coinbase's true sum less
      the true fees. */
  lemma ConnectSound(r: Rules, st: State, cs: seq<Core>, b: Block, height: nat, verify: bool)
    requires r.TxidsIdeal() && Sound(r, st, cs) && CoinbasesBelow(Seen(cs), height)
    requires ShapeOk(b, height) && ConnectState(r, st, b, height, verify).Ok?
    ensures var st0 := ApplyCoinbase(r, st, b.txs[0], height);
            var st' := ConnectState(r, st, b, height, verify).value;
            && ApplyAll(r, st0, b.txs[1..], height, verify).Ok?
            && Sound(r, st', cs + CoresOf(b.txs))
            && CoinbasesBelow(Seen(cs + CoresOf(b.txs)), height + 1)
            && Fresh(st.coins, r.txid(b.txs[0].core))
            && Net(r, st', QNT) == Net(r, st, QNT) + At(OutFlow(b.txs[0].core.outs), QNT)
                                   - TrueFees(r, st0, b.txs[1..], height, verify)
            && PoolsGrow(st.pools, st'.pools)
  {
    hide ApplyAll, Net, Sound, PoolsGrow, CoinbasesBelow, Fresh;
    var cb, rest := b.txs[0], b.txs[1..];
    CoinbaseSound(r, st, cs, cb, height);
    assert AllBasic(rest);
    ApplyAllSound(r, ApplyCoinbase(r, st, cb, height), cs + [cb.core], rest, height, verify);
    BlockCores(cs, b);
    CoinbasesOfBlock(cs, b, height);
  }

  lemma CoinbaseSound(r: Rules, st: State, cs: seq<Core>, cb: Transaction, height: nat)
    requires r.TxidsIdeal() && Sound(r, st, cs) && CoinbasesBelow(Seen(cs), height)
    requires IsCoinbase(cb.core) && BasicOk(cb) && cb.core.lockHeight == height
    ensures Sound(r, ApplyCoinbase(r, st, cb, height), cs + [cb.core])
    ensures Fresh(st.coins, r.txid(cb.core))
    ensures Net(r, ApplyCoinbase(r, st, cb, height), QNT) == Net(r, st, QNT) + At(OutFlow(cb.core.outs), QNT)
  {
    CoinbaseIsFresh(r, st, Seen(cs), cb, height);
    CoinbaseKeepsLedger(r, st, cb, height);
    SeenNext(cs, cb.core);
    NewIdDistinct(r, cs, cb.core);
  }

  lemma BlockCores(cs: seq<Core>, b: Block)
    requires b.txs != []
    ensures cs + [b.txs[0].core] + CoresOf(b.txs[1..]) == cs + CoresOf(b.txs)
  {}

  lemma CoinbasesOfBlock(cs: seq<Core>, b: Block, height: nat)
    requires CoinbasesBelow(Seen(cs), height) && ShapeOk(b, height)
    ensures CoinbasesBelow(Seen(cs + CoresOf(b.txs)), height + 1)
  {
    forall c | c in Seen(cs + CoresOf(b.txs)) && IsCoinbase(c)
      ensures c.lockHeight < height + 1
    {
      if c in cs {
        assert c in Seen(cs);
      } else {
        var i :| 0 <= i < |b.txs| && b.txs[i].core == c;
      }
    }
  }

  lemma EmptySound(r: Rules)
    ensures Sound(r, EMPTY_STATE, [])
  {
    forall a ensures Net(r, EMPTY_STATE, a) == 0 {}
  }

  /** Every replayed chain: tokens, shares and pools add up, and no outpoint was ever created twice. */
  lemma {:induction false} ReplaySound(r: Rules, blocks: seq<Block>)
    requires r.TxidsIdeal() && Replayed(r, blocks).Some?
    ensures Sound(r, Replayed(r, blocks).value, AllCores(blocks))
    ensures CoinbasesBelow(Seen(AllCores(blocks)), |blocks|)
  {
    if blocks == [] {
      EmptySound(r);
    } else {
      var n := |blocks| - 1;
      ReplaySound(r, blocks[..n]);
      ConnectSound(r, Replayed(r, blocks[..n]).value, AllCores(blocks[..n]), blocks[n], n, false);
    }
  }

  /** Signature checks never change what a block does. */
  lemma {:induction false} ApplyAllVerified(r: Rules, st: State, txs: seq<Transaction>, height: nat)
    requires ApplyAll(r, st, txs, height, true).Ok?
    ensures ApplyAll(r, st, txs, height, false) == ApplyAll(r, st, txs, height, true)
  {
    if txs != [] {
      ApplyAllVerified(r, st, txs[..|txs| - 1], height);
      VerifyOnlyRejects(r, ApplyAll(r, st, txs[..|txs| - 1], height, true).value.state, txs[|txs| - 1], height);
    }
  }

  lemma ConnectVerified(r: Rules, st: State, b: Block, height: nat, verify: bool)
    requires b.txs != [] && ConnectState(r, st, b, height, verify).Ok?
    ensures ConnectState(r, st, b, height, false) == ConnectState(r, st, b, height, verify)
  {
    if verify { ApplyAllVerified(r, ApplyCoinbase(r, st, b.txs[0], height), b.txs[1..], height); }
  }

  /** Every prefix of a replayed chain is replayed. */
  lemma {:induction false} ReplayPrefix(r: Rules, blocks: seq<Block>, n: nat)
    requires n <= |blocks| && Replayed(r, blocks).Some?
    ensures Replayed(r, blocks[..n]).Some?
    decreases |blocks|
  {
    if n == |blocks| {
      assert blocks[..n] == blocks;
    } else {
      ReplayPrefix(r, blocks[..|blocks| - 1], n);
      assert blocks[..|blocks| - 1][..n] == blocks[..n];
    }
  }

  lemma PoolsGrowNext(r: Rules, blocks: seq<Block>)
    requires r.TxidsIdeal() && Replayed(r, blocks).Some? && blocks != []
    ensures var front := blocks[..|blocks| - 1];
            Replayed(r, front).Some? && PoolsGrow(Replayed(r, front).value.pools, Replayed(r, blocks).value.pools)
  {
    hide ConnectState, Sound, PoolsGrow, CoinbasesBelow;
    var n := |blocks| - 1;
    ReplaySound(r, blocks[..n]);
    ConnectSound(r, Replayed(r, blocks[..n]).value, AllCores(blocks[..n]), blocks[n], n, false);
  }

  /** Between any two heights of a chain no pool disappears, and none is worth less per share at the higher one. */
  lemma {:induction false} PoolsNeverDiluted(r: Rules, blocks: seq<Block>, m: nat, n: nat)
    requires r.TxidsIdeal() && Replayed(r, blocks).Some? && m <= n <= |blocks|
    ensures Replayed(r, blocks[..m]).Some? && Replayed(r, blocks[..n]).Some?
    ensures PoolsGrow(Replayed(r, blocks[..m]).value.pools, Replayed(r, blocks[..n]).value.pools)
    decreases n
  {
    hide Replayed, Sound, PoolsGrow, CoinbasesBelow;
    ReplayPrefix(r, blocks, m);
    ReplayPrefix(r, blocks, n);
    if m == n {
      PoolsGrowSelf(Replayed(r, blocks[..m]).value.pools);
    } else {
      PoolsNeverDiluted(r, blocks, m, n - 1);
      assert blocks[..n][..n - 1] == blocks[..n - 1];
      PoolsGrowNext(r, blocks[..n]);
      ReplaySound(r, blocks[..m]);
      ReplaySound(r, blocks[..n - 1]);
      PoolsGrowTrans(r, Replayed(r, blocks[..m]).value, AllCores(blocks[..m]), Replayed(r, blocks[..n - 1]).value,
                     AllCores(blocks[..n - 1]),
                     Replayed(r, blocks[..n]).value.pools);
    }
  }

  /** `total_qnt_out`. */
  method TotalQntOut(outs: seq<TxOut>) returns (s: Amount)
    ensures s == TotalOut64(outs)
  {
    s := 0;
    for i := 0 to |outs|
      invariant s == TotalOut64(outs[..i])
    {
      assert outs[..i + 1][..i] == outs[..i];
      if outs[i].asset == QNT { s := Add64(s, outs[i].value); }
    }
    assert outs[..|outs|] == outs;
  }
}
