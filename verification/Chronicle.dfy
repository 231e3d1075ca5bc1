/** What replaying a chain comes to, told of its transactions alone: the coins are the outputs nobody has spent, the
    tokens those that some transaction created, every input spends an earlier output that no other transaction spends,
    and lock heights and maturity are kept (src/chain/chainstate.cpp:747-792). */
module Chronicles {
  import opened Types
  import opened Ledger
  import opened LedgerLaws
  import opened Admissions
  import opened Replay

  /** A transaction of the chain, and the height of its block. */
  datatype Placed = Placed(core: Core, height: nat)

  /** A chain's transactions in order. */
  function LogOf(blocks: seq<Block>): seq<Placed> {
    if blocks == [] then []
    else LogOf(blocks[..|blocks| - 1]) + Section(blocks[|blocks| - 1].txs, |blocks| - 1)
  }

  function Section(txs: seq<Transaction>, height: nat): seq<Placed> {
    seq(|txs|, i requires 0 <= i < |txs| => Placed(txs[i].core, height))
  }

  ghost predicate Makes(r: Rules, e: Placed, o: OutPoint) { r.txid(e.core) == o.txid && o.n < |e.core.outs| }

  ghost predicate Uses(e: Placed, o: OutPoint) { o in e.core.ins }

  ghost predicate Made(r: Rules, log: seq<Placed>, o: OutPoint) { exists i :: 0 <= i < |log| && Makes(r, log[i], o) }

  ghost predicate Used(log: seq<Placed>, o: OutPoint) { exists i :: 0 <= i < |log| && Uses(log[i], o) }

  /** The coins are exactly the outputs made and not used, each with its height and whether a coinbase made it. */
  ghost predicate CoinsExact(r: Rules, st: State, log: seq<Placed>) {
    && (forall o :: o in st.coins <==> Made(r, log, o) && !Used(log, o))
    && (forall i, o :: 0 <= i < |log| && Makes(r, log[i], o) && o in st.coins ==>
          st.coins[o] == Coin(log[i].core.outs[o.n], log[i].height, log[i].core.ins == []))
  }

  /** Op `j` of this transaction creates token `t`. */
  ghost predicate Creates(r: Rules, e: Placed, j: nat, t: Hash) { e.core.ins != [] && Mints(r, e.core, j, t) }

  ghost predicate Declared(r: Rules, log: seq<Placed>, t: Hash) {
    exists i: nat, j: nat :: 0 <= i < |log| && Creates(r, log[i], j, t)
  }

  /** The tokens are exactly those created, and each entry says what its op declared, where and when. */
  ghost predicate TokensExact(r: Rules, st: State, log: seq<Placed>) {
    && (forall t :: t in st.tokens <==> Declared(r, log, t))
    && (forall i: nat, j: nat, t :: 0 <= i < |log| && Creates(r, log[i], j, t) && t in st.tokens ==>
          EntryOf(r, log[i].core, log[i].height, log[i].core.ops[j], t, st.tokens[t]))
  }

  /** A transaction came when it could: its lock height is reached; whatever it uses was made before it, if by a
      coinbase then long enough before; and no two use the same. */
  ghost predicate Orderly(r: Rules, log: seq<Placed>) {
    && (forall i :: 0 <= i < |log| ==> log[i].core.lockHeight <= log[i].height)
    && (forall i, o :: 0 <= i < |log| && Uses(log[i], o) ==> Made(r, log[..i], o))
    && (forall i, k, o ::
          0 <= i < |log| && 0 <= k < |log| && Uses(log[i], o) && Makes(r, log[k], o) && log[k].core.ins == [] ==>
            log[k].height + r.maturity <= log[i].height)
    && (forall i, k, o :: 0 <= i < k < |log| && Uses(log[i], o) ==> !Uses(log[k], o))
  }

  ghost function CoresIn(log: seq<Placed>): set<Core> { set i | 0 <= i < |log| :: log[i].core }

  ghost predicate Recorded(r: Rules, st: State, log: seq<Placed>) {
    Hist(r, st, CoresIn(log)) && CoinsExact(r, st, log) && TokensExact(r, st, log) && Orderly(r, log)
  }

  // ---------------------------------------------------------------- one more entry

  lemma CoresLast(log: seq<Placed>, e: Placed)
    ensures CoresIn(log + [e]) == CoresIn(log) + {e.core}
  {
    assert forall c :: c in CoresIn(log) ==> c in CoresIn(log + [e]) by {
      forall c | c in CoresIn(log) ensures c in CoresIn(log + [e]) {
        var i :| 0 <= i < |log| && log[i].core == c;
        assert (log + [e])[i].core == c;
      }
    }
    assert (log + [e])[|log|].core == e.core;
  }

  lemma MadeLast(r: Rules, log: seq<Placed>, e: Placed, o: OutPoint)
    ensures Made(r, log + [e], o) <==> Made(r, log, o) || Makes(r, e, o)
    ensures Used(log + [e], o) <==> Used(log, o) || Uses(e, o)
  {
    var log' := log + [e];
    assert log'[|log|] == e;
    if Made(r, log, o) {
      var i :| 0 <= i < |log| && Makes(r, log[i], o);
      assert Makes(r, log'[i], o);
    }
    if Used(log, o) {
      var i :| 0 <= i < |log| && Uses(log[i], o);
      assert Uses(log'[i], o);
    }
  }

  lemma DeclaredLast(r: Rules, log: seq<Placed>, e: Placed, t: Hash)
    ensures Declared(r, log + [e], t) <==> Declared(r, log, t) || exists j: nat :: Creates(r, e, j, t)
  {
    var log' := log + [e];
    assert log'[|log|] == e;
    if Declared(r, log, t) {
      var i: nat, j: nat :| 0 <= i < |log| && Creates(r, log[i], j, t);
      assert Creates(r, log'[i], j, t);
    }
    if j: nat :| Creates(r, e, j, t) { assert Creates(r, log'[|log|], j, t); }
  }

  /** Whatever was ever made or used has the id of an earlier transaction. */
  lemma KnownIds(r: Rules, st: State, log: seq<Placed>, o: OutPoint)
    requires Hist(r, st, CoresIn(log))
    ensures Made(r, log, o) || Used(log, o) ==> o.txid in Ids(r, CoresIn(log))
  {
    if Made(r, log, o) {
      var i :| 0 <= i < |log| && Makes(r, log[i], o);
      assert log[i].core in CoresIn(log);
    }
    if Used(log, o) {
      var i :| 0 <= i < |log| && Uses(log[i], o);
      assert log[i].core in CoresIn(log);
    }
  }

  /** The coins after a transaction with a new id that spends coins there are. */
  lemma CoinsNext(r: Rules, st: State, log: seq<Placed>, e: Placed, st': State)
    requires Hist(r, st, CoresIn(log)) && CoinsExact(r, st, log) && r.txid(e.core) !in Ids(r, CoresIn(log))
    requires forall o :: o in e.core.ins ==> o in st.coins
    requires forall o :: o in st'.coins <==> Makes(r, e, o) || (o in st.coins && o !in e.core.ins)
    requires forall o :: o in st'.coins ==>
               st'.coins[o] == if Makes(r, e, o) then Coin(e.core.outs[o.n], e.height, e.core.ins == [])
                   else st.coins[o]
    ensures CoinsExact(r, st', log + [e])
  {
    hide Hist, Made, Used;
    var log' := log + [e];
    forall o ensures o in st'.coins <==> Made(r, log', o) && !Used(log', o) {
      MadeLast(r, log, e, o);
      KnownIds(r, st, log, o);
    }
    forall i, o | 0 <= i < |log'| && Makes(r, log'[i], o) && o in st'.coins
      ensures st'.coins[o] == Coin(log'[i].core.outs[o.n], log'[i].height, log'[i].core.ins == [])
    {
      if i < |log| {
        assert Made(r, log, o) by { ItMade(r, log, i, o); }
        KnownIds(r, st, log, o);
      }
    }
  }

  lemma ItMade(r: Rules, log: seq<Placed>, i: nat, o: OutPoint)
    requires i < |log| && Makes(r, log[i], o)
    ensures Made(r, log, o)
  {}

  lemma TokensNext(r: Rules, st: State, log: seq<Placed>, e: Placed, st': State)
    requires TokensExact(r, st, log)
    requires forall t :: t in st'.tokens <==> t in st.tokens || exists j: nat :: Creates(r, e, j, t)
    requires forall t :: t in st.tokens ==> st'.tokens[t] == st.tokens[t] && forall j: nat :: !Creates(r, e, j, t)
    requires forall j: nat, t :: Creates(r, e, j, t) && t in st'.tokens ==>
               EntryOf(r, e.core, e.height, e.core.ops[j], t, st'.tokens[t])
    ensures TokensExact(r, st', log + [e])
  {
    hide Declared, EntryOf;
    var log' := log + [e];
    forall t ensures t in st'.tokens <==> Declared(r, log', t) { DeclaredLast(r, log, e, t); }
    forall i: nat, j: nat, t | 0 <= i < |log'| && Creates(r, log'[i], j, t) && t in st'.tokens
      ensures EntryOf(r, log'[i].core, log'[i].height, log'[i].core.ops[j], t, st'.tokens[t])
    {
      if i < |log| { assert Declared(r, log, t) by { ItDeclared(r, log, i, j, t); } }
    }
  }

  lemma ItDeclared(r: Rules, log: seq<Placed>, i: nat, j: nat, t: Hash)
    requires i < |log| && Creates(r, log[i], j, t)
    ensures Declared(r, log, t)
  {}

  lemma OrderlyNext(r: Rules, st: State, log: seq<Placed>, e: Placed)
    requires Hist(r, st, CoresIn(log)) && CoinsExact(r, st, log) && Orderly(r, log)
    requires r.txid(e.core) !in Ids(r, CoresIn(log)) && e.core.lockHeight <= e.height
    requires forall i :: 0 <= i < |e.core.ins| ==> Ripe(r, st.coins, e.core.ins[i], e.height)
    ensures Orderly(r, log + [e])
  {
    hide Hist, Made, Used;
    var log', n := log + [e], |log|;
    assert log'[..n] == log;
    forall o | Uses(e, o) ensures Ripe(r, st.coins, o, e.height) && Made(r, log, o) {
      var j :| 0 <= j < |e.core.ins| && e.core.ins[j] == o;
    }
    forall i, o | 0 <= i < |log'| && Uses(log'[i], o) ensures Made(r, log'[..i], o) {
      assert log'[..i] == log[..i];
      if i == n { assert log[..i] == log; }
    }
    forall i, k, o | 0 <= i < |log'| && 0 <= k < |log'| && Uses(log'[i], o) && Makes(r, log'[k], o)
        && log'[k].core.ins == []
      ensures log'[k].height + r.maturity <= log'[i].height
    {
      if k == n {
        if i < n { ItUsed(log, i, o); }
        KnownIds(r, st, log, o);
        assert false;
      }
    }
    forall i, k, o | 0 <= i < k < |log'| && Uses(log'[i], o) ensures !Uses(log'[k], o) {
      if k == n { assert Used(log, o) by { ItUsed(log, i, o); } }
    }
  }

  lemma ItUsed(log: seq<Placed>, i: nat, o: OutPoint)
    requires i < |log| && Uses(log[i], o)
    ensures Used(log, o)
  {}

  // ---------------------------------------------------------------- transactions, blocks, chains

  lemma ApplyRecorded(r: Rules, st: State, log: seq<Placed>, tx: Transaction, height: nat)
    requires r.TxidsIdeal() && PoolsOk(st.pools) && Recorded(r, st, log) && ApplyTx(r, st, tx, height, false).Ok?
    ensures Recorded(r, ApplyTx(r, st, tx, height, false).value.state, log + [Placed(tx.core, height)])
  {
    hide ApplyTx, Admits, Hist, CoinsExact, TokensExact, Orderly, Effect;
    var e, st' := Placed(tx.core, height), ApplyTx(r, st, tx, height, false).value.state;
    ApplyIsFresh(r, st, CoresIn(log), tx, height, false);
    ApplyKeepsHist(r, st, CoresIn(log), tx, height, false);
    CoresLast(log, e);
    var run := Accepted(r, st, tx, height);
    AdmitsMeans(r, st, tx.core, height, run);
    EffectMeans(r, st, e, run, st', ApplyTx(r, st, tx, height, false).value.fee);
    CoinsNext(r, st, log, e, st');
    TokensNext(r, st, log, e, st');
    OrderlyNext(r, st, log, e);
  }

  lemma AdmitsMeans(r: Rules, st: State, c: Core, height: nat, run: seq<map<Hash, Pool>>)
    requires Admits(r, st, c, height, run)
    ensures c.ins != [] && c.lockHeight <= height && forall i :: 0 <= i < |c.ins| ==>
              Ripe(r, st.coins, c.ins[i], height)
  {}

  lemma EffectMeans(r: Rules, st: State, e: Placed, run: seq<map<Hash, Pool>>, st': State, fee: Amount)
    requires Admits(r, st, e.core, e.height, run) && Effect(r, st, e.core, e.height, run, st', fee)
    ensures forall o :: o in st'.coins <==> Makes(r, e, o) || (o in st.coins && o !in e.core.ins)
    ensures forall o :: o in st'.coins ==>
              st'.coins[o] == if Makes(r, e, o) then Coin(e.core.outs[o.n], e.height, false) else st.coins[o]
    ensures forall t :: t in st'.tokens <==> t in st.tokens || exists j: nat :: Creates(r, e, j, t)
    ensures forall t :: t in st.tokens ==> st'.tokens[t] == st.tokens[t] && forall j: nat :: !Creates(r, e, j, t)
    ensures forall j: nat, t :: Creates(r, e, j, t) && t in st'.tokens ==>
              EntryOf(r, e.core, e.height, e.core.ops[j], t, st'.tokens[t])
  {
    hide Course, In, Out, EntryOf;
    MintsAreNew(r, st, e.core, run);
    forall t ensures (exists j: nat :: Creates(r, e, j, t)) <==> MintedBefore(r, e.core, |e.core.ops|, t) {
      if MintedBefore(r, e.core, |e.core.ops|, t) {
        var j :| 0 <= j < |e.core.ops| && Mints(r, e.core, j, t);
        assert Creates(r, e, j, t);
      }
    }
  }

  lemma CoinbaseRecorded(r: Rules, st: State, log: seq<Placed>, tx: Transaction, height: nat)
    requires r.TxidsIdeal() && Recorded(r, st, log) && CoinbasesBelow(CoresIn(log), height)
    requires IsCoinbase(tx.core) && tx.core.lockHeight == height
    ensures Recorded(r, ApplyCoinbase(r, st, tx, height), log + [Placed(tx.core, height)])
  {
    hide Hist, CoinsExact, TokensExact, Orderly, CoinbasesBelow;
    var e, st' := Placed(tx.core, height), ApplyCoinbase(r, st, tx, height);
    CoinbaseIsFresh(r, st, CoresIn(log), tx, height);
    CoresLast(log, e);
    CoinsNext(r, st, log, e, st');
    TokensNext(r, st, log, e, st');
    OrderlyNext(r, st, log, e);
  }

  lemma {:induction false} ApplyAllRecorded(r: Rules, st: State, cs: seq<Core>, log: seq<Placed>, txs: seq<Transaction>,
                                            height: nat)
    requires r.TxidsIdeal() && Sound(r, st, cs) && AllBasic(txs) && Recorded(r, st, log)
    requires ApplyAll(r, st, txs, height, false).Ok?
    ensures Recorded(r, ApplyAll(r, st, txs, height, false).value.state, log + Section(txs, height))
  {
    hide ApplyTx, Sound, Recorded;
    if txs == [] {
      assert log + Section(txs, height) == log;
    } else {
      var front, tx := txs[..|txs| - 1], txs[|txs| - 1];
      ApplyAllRecorded(r, st, cs, log, front, height);
      ApplyAllSound(r, st, cs, front, height, false);
      var ap := ApplyAll(r, st, front, height, false).value;
      SoundPools(r, ap.state, cs + CoresOf(front));
      ApplyRecorded(r, ap.state, log + Section(front, height), tx, height);
      assert log + Section(front, height) + [Placed(tx.core, height)] == log + Section(txs, height);
    }
  }

  lemma SoundPools(r: Rules, st: State, cs: seq<Core>)
    requires Sound(r, st, cs)
    ensures PoolsOk(st.pools)
  {}

  lemma BlockRecorded(r: Rules, st: State, cs: seq<Core>, log: seq<Placed>, b: Block, height: nat)
    requires r.TxidsIdeal() && Sound(r, st, cs) && CoinbasesBelow(Seen(cs), height) && CoresIn(log) == Seen(cs)
    requires Recorded(r, st, log) && ShapeOk(b, height) && ConnectState(r, st, b, height, false).Ok?
    ensures Recorded(r, ConnectState(r, st, b, height, false).value, log + Section(b.txs, height))
  {
    hide ApplyAll, Sound, Recorded, CoinbasesBelow, BasicOk;
    var cb, rest := b.txs[0], b.txs[1..];
    CoinbaseSound(r, st, cs, cb, height);
    CoinbaseRecorded(r, st, log, cb, height);
    ApplyAllRecorded(r, ApplyCoinbase(r, st, cb, height), cs + [cb.core], log + [Placed(cb.core, height)], rest,
                     height);
    assert log + [Placed(cb.core, height)] + Section(rest, height) == log + Section(b.txs, height);
  }

  lemma {:induction false} LogCores(blocks: seq<Block>)
    ensures CoresIn(LogOf(blocks)) == Seen(AllCores(blocks)) && |LogOf(blocks)| == |AllCores(blocks)|
    ensures forall i :: 0 <= i < |LogOf(blocks)| ==> LogOf(blocks)[i].core == AllCores(blocks)[i]
  {
    if blocks != [] { LogCores(blocks[..|blocks| - 1]); }
    var log, cs := LogOf(blocks), AllCores(blocks);
    assert |log| == |cs| && forall i :: 0 <= i < |log| ==> log[i].core == cs[i];
    forall c | c in CoresIn(log) ensures c in Seen(cs) {
      var i :| 0 <= i < |log| && log[i].core == c;
      assert cs[i] == c;
    }
    forall c | c in Seen(cs) ensures c in CoresIn(log) {
      var i :| 0 <= i < |cs| && cs[i] == c;
      assert log[i].core == c;
    }
  }

  /** Every replayed chain: the coins are exactly the unspent outputs of its transactions, the tokens exactly those they
      created, and everything was spent in order. */
  lemma {:induction false} ReplayRecorded(r: Rules, blocks: seq<Block>)
    requires r.TxidsIdeal() && Replayed(r, blocks).Some?
    ensures CoinsExact(r, Replayed(r, blocks).value, LogOf(blocks))
              && TokensExact(r, Replayed(r, blocks).value, LogOf(blocks))
    ensures Orderly(r, LogOf(blocks)) && Hist(r, Replayed(r, blocks).value, CoresIn(LogOf(blocks)))
  {
    hide ConnectState, CoinsExact, TokensExact, Orderly, Hist, ShapeOk;
    if blocks == [] {
      NothingRecorded(r);
    } else {
      var n := |blocks| - 1;
      ReplayRecorded(r, blocks[..n]);
      ReplaySound(r, blocks[..n]);
      LogCores(blocks[..n]);
      BlockRecorded(r, Replayed(r, blocks[..n]).value, AllCores(blocks[..n]), LogOf(blocks[..n]), blocks[n], n);
    }
  }

  lemma NothingRecorded(r: Rules)
    ensures Recorded(r, EMPTY_STATE, [])
  {}
}
