/** Undo data: what a block's view remembers is exactly what takes the block back
    (src/chain/chainstate.cpp:776-785, 800-806). */
module Undos {
  import opened Types
  import opened Ledger
  import opened LedgerLaws
  import opened LedgerViews
  import opened Replay

  datatype Undo = Undo(spent: map<OutPoint, Coin>, poolsBefore: map<Hash, Option<Pool>>, tokensCreated: set<Hash>)

  function UndoFrom(ov: Overlay): Undo { Undo(ov.spentBase, ov.poolsBefore, ov.tokens.Keys) }

  /** All outpoints of a list of transactions. */
  function OutsOf(r: Rules, txs: seq<Transaction>): set<OutPoint> {
    if txs == [] then {}
    else OutsOf(r, txs[..|txs| - 1]) + OutPoints(r.txid(txs[|txs| - 1].core), |txs[|txs| - 1].core.outs|)
  }

  function OutPoints(id: Hash, n: nat): set<OutPoint> { set k | 0 <= k < n :: OutPoint(id, k) }

  function RestorePools(pools: map<Hash, Pool>, before: map<Hash, Option<Pool>>): map<Hash, Pool> {
    (pools - before.Keys) + Values(before)
  }

  /** Taking a block back: drop its outputs, return what it spent, put pools and tokens back. */
  function Disconnected(r: Rules, st: State, b: Block, u: Undo): State {
    State((st.coins - OutsOf(r, b.txs)) + u.spent, st.tokens - u.tokensCreated, RestorePools(st.pools, u.poolsBefore))
  }

  /** `u` takes `st'` back to `st`, and returned coins never meet a coin that is still there. */
  ghost predicate UndoOk(r: Rules, st: State, b: Block, st': State, u: Undo) {
    && Disconnected(r, st', b, u) == st
    && u.spent.Keys !! (st'.coins - OutsOf(r, b.txs)).Keys
  }

  lemma {:induction false} OutsOfIds(r: Rules, txs: seq<Transaction>)
    ensures forall o :: o in OutsOf(r, txs) ==> exists i :: 0 <= i < |txs| && o.txid == r.txid(txs[i].core)
  {
    if txs != [] {
      var n := |txs| - 1;
      OutsOfIds(r, txs[..n]);
      forall o | o in OutsOf(r, txs)
        ensures exists i :: 0 <= i < |txs| && o.txid == r.txid(txs[i].core)
      {
        if o in OutsOf(r, txs[..n]) {
          var i :| 0 <= i < n && o.txid == r.txid(txs[..n][i].core);
          assert txs[..n][i] == txs[i];
        } else {
          assert o.txid == r.txid(txs[n].core);
        }
      }
    }
  }

  /** Applying transactions adds no coins but their outputs. */
  lemma {:induction false} OnlyOutputs(r: Rules, st: State, txs: seq<Transaction>, height: nat, verify: bool)
    requires ApplyAll(r, st, txs, height, verify).Ok?
    ensures ApplyAll(r, st, txs, height, verify).value.state.coins.Keys <= st.coins.Keys + OutsOf(r, txs)
  {
    if txs != [] {
      var front, tx := txs[..|txs| - 1], txs[|txs| - 1];
      OnlyOutputs(r, st, front, height, verify);
      var ap := ApplyAll(r, st, front, height, verify).value;
      var _, s := ApplyParts(r, ap.state, tx, height, verify);
      CommitOutputs(r, ap.state, tx.core, height, s);
    }
  }

  lemma CommitOutputs(r: Rules, st: State, c: Core, height: nat, s: Scratch)
    ensures Commit(r, st, c, height, s).coins.Keys <= st.coins.Keys + OutPoints(r.txid(c), |c.outs|)
  {
    forall o | o in Commit(r, st, c, height, s).coins
      ensures o in st.coins || o in OutPoints(r.txid(c), |c.outs|)
    {
      if o in Created(r.txid(c), c.outs, height, false) { assert o == OutPoint(r.txid(c), o.n); }
    }
  }

  lemma {:induction false} OutsOfFirst(r: Rules, txs: seq<Transaction>)
    requires txs != []
    ensures OutsOf(r, txs) == OutPoints(r.txid(txs[0].core), |txs[0].core.outs|) + OutsOf(r, txs[1..])
  {
    if |txs| > 1 {
      var n := |txs| - 1;
      OutsOfFirst(r, txs[..n]);
      assert txs[..n][1..] == txs[1..][..n - 1];
      assert txs[1..][n - 1] == txs[n];
    }
  }

  /** The coins of a connected block: old ones, or outputs of the block. */
  lemma BlockOutputs(r: Rules, st: State, b: Block, height: nat, verify: bool)
    requires b.txs != [] && ConnectState(r, st, b, height, verify).Ok?
    ensures ConnectState(r, st, b, height, verify).value.coins.Keys <= st.coins.Keys + OutsOf(r, b.txs)
  {
    var cb := b.txs[0];
    OnlyOutputs(r, ApplyCoinbase(r, st, cb, height), b.txs[1..], height, verify);
    OutsOfFirst(r, b.txs);
    forall o | o in ApplyCoinbase(r, st, cb, height).coins
      ensures o in st.coins || o in OutPoints(r.txid(cb.core), |cb.core.outs|)
    {
      if o !in st.coins { assert o == OutPoint(r.txid(cb.core), o.n); }
    }
  }

  /** A block's outputs are all new. */
  lemma OutputsAreNew(r: Rules, st: State, cs: seq<Core>, b: Block)
    requires Hist(r, st, Seen(cs)) && DistinctIds(r, cs + CoresOf(b.txs))
    ensures OutsOf(r, b.txs) !! st.coins.Keys
    ensures forall i :: 0 <= i < |b.txs| ==> r.txid(b.txs[i].core) !in Ids(r, Seen(cs))
  {
    forall i | 0 <= i < |b.txs|
      ensures r.txid(b.txs[i].core) !in Ids(r, Seen(cs))
    {
      forall c | c in Seen(cs)
        ensures r.txid(c) != r.txid(b.txs[i].core)
      {
        var j :| 0 <= j < |cs| && cs[j] == c;
        var all := cs + CoresOf(b.txs);
        assert all[j] == c && all[|cs| + i] == b.txs[i].core;
      }
    }
    OutsOfIds(r, b.txs);
  }

  /** The pure core of undoing: an overlay that only made outputs of `b`, none of them in the base. */
  lemma OverlayUndo(r: Rules, st: State, ov: Overlay, b: Block)
    requires OverlayOk(st, ov)
    requires OutsOf(r, b.txs) !! st.coins.Keys
    requires View(Chain(st), ov).State().coins.Keys <= st.coins.Keys + OutsOf(r, b.txs)
    ensures UndoOk(r, st, b, View(Chain(st), ov).State(), UndoFrom(ov))
  {
    UndoCoins(st.coins, ov, OutsOf(r, b.txs));
    UndoPools(st.pools, ov);
    assert (st.tokens + ov.tokens) - ov.tokens.Keys == st.tokens;
  }

  lemma UndoCoins(coins: map<OutPoint, Coin>, ov: Overlay, outs: set<OutPoint>)
    requires forall o :: o in ov.spentBase ==> o in coins && ov.spentBase[o] == coins[o]
    requires ov.created.Keys !! coins.Keys && outs !! coins.Keys
    requires ((coins - ov.spentBase.Keys) + ov.created).Keys <= coins.Keys + outs
    ensures ((coins - ov.spentBase.Keys) + ov.created) - outs == coins - ov.spentBase.Keys
    ensures (coins - ov.spentBase.Keys) + ov.spentBase == coins
  {
    var now := (coins - ov.spentBase.Keys) + ov.created;
    assert forall o :: o in ov.created ==> o in now.Keys;
  }

  lemma UndoPools(pools: map<Hash, Pool>, ov: Overlay)
    requires ov.poolsBefore.Keys == ov.pools.Keys
    requires forall t :: t in ov.poolsBefore ==> ov.poolsBefore[t] == Get(pools, t)
    ensures RestorePools(pools + ov.pools, ov.poolsBefore) == pools
  {}

  /** What the view of a connected block remembers undoes the block exactly. */
  lemma UndoRestores(r: Rules, st: State, cs: seq<Core>, b: Block, height: nat, verify: bool, ov: Overlay)
    requires r.TxidsIdeal() && Sound(r, st, cs) && CoinbasesBelow(Seen(cs), height) && ShapeOk(b, height)
    requires OverlayOk(st, ov) && ConnectState(r, st, b, height, verify) == Ok(View(Chain(st), ov).State())
    ensures UndoOk(r, st, b, View(Chain(st), ov).State(), UndoFrom(ov))
    ensures forall i :: 0 <= i < |b.txs| ==> r.txid(b.txs[i].core) !in Ids(r, Seen(cs))
  {
    ConnectSound(r, st, cs, b, height, verify);
    OutputsAreNew(r, st, cs, b);
    BlockOutputs(r, st, b, height, verify);
    OverlayUndo(r, st, ov, b);
  }
}
