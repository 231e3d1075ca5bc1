/** `Mempool`: pending transactions in arrival order over a cached view of the chain
    (src/chain/mempool.cpp:8-125). The chain it watches is known to it through its callbacks. */
module Mempools {
  import opened Types
  import opened Ledger
  import opened LedgerLaws
  import opened Admissions
  import opened BasicChecks
  import opened LedgerViews
  import opened Emission
  import opened Replay
  import opened Selections

  const MAX_TX_BYTES: nat := 100_000
  const MAX_BYTES: nat := 64 * 1024 * 1024
  const MIN_RELAY_FEE_PER_KB: nat := 100_000
  const MAX_BLOCK_SIZE: nat := 1_000_000

  datatype Why =
    | AlreadyInMempool | CoinbaseTx | Basic(reason: Reason) | TxTooLarge | AlreadyConfirmed
    | MempoolConflict | Refused(reason: Reason) | FeeTooLow | MempoolFull

  /** The chain as the mempool sees it: `seen` are all its transactions. */
  datatype Tip = Tip(state: State, height: nat, confirmed: set<Hash>)

  ghost predicate TipOk(r: Rules, tip: Tip, seen: set<Core>) {
    r.TxidsIdeal() && Hist(r, tip.state, seen) && Provenance(r, tip.state)
  }

  /** Every replayed chain is one a mempool can watch. */
  lemma ChainGivesTip(r: Rules, blocks: seq<Block>, confirmed: set<Hash>)
    requires r.TxidsIdeal() && blocks != [] && Replayed(r, blocks).Some?
    ensures TipOk(r, Tip(Replayed(r, blocks).value, |blocks| - 1, confirmed), Seen(AllCores(blocks)))
    ensures CoinbasesBelow(Seen(AllCores(blocks)), |blocks|)
  {
    ReplaySound(r, blocks);
    ReplayProvenance(r, blocks);
  }

  // ---------------------------------------------------------------- the list

  function IdsIn(es: seq<Entry>): set<Hash> { set i | 0 <= i < |es| :: es[i].txid }

  function CoresIn(es: seq<Entry>): set<Core> { set i | 0 <= i < |es| :: es[i].tx.core }

  ghost predicate DistinctEntries(es: seq<Entry>) { forall i, j :: 0 <= i < j < |es| ==> es[i].txid != es[j].txid }

  /** `order_`, `by_id_` and `bytes_` agree; every entry is basic-valid and had its signatures checked. */
  ghost predicate ListOk(r: Rules, size: Transaction -> nat, es: seq<Entry>, byId: set<Hash>, bytes: nat) {
    && EntriesOk(r, es)
    && (forall i :: 0 <= i < |es| ==> es[i].size == size(es[i].tx) && Signed(r, es[i].tx))
    && DistinctEntries(es) && byId == IdsIn(es) && bytes == Bytes(es)
  }

  lemma {:induction false} BytesConcat(a: seq<Entry>, b: seq<Entry>)
    ensures Bytes(a + b) == Bytes(a) + Bytes(b)
  {
    if b == [] {
      assert a + b == a;
    } else {
      BytesConcat(a, b[..|b| - 1]);
      assert (a + b)[..|a + b| - 1] == a + b[..|b| - 1];
    }
  }

  lemma BytesAt(es: seq<Entry>, k: nat)
    requires k < |es|
    ensures Bytes(es) == Bytes(es[..k]) + es[k].size + Bytes(es[k + 1..])
  {
    assert es == (es[..k] + [es[k]]) + es[k + 1..];
    BytesConcat(es[..k] + [es[k]], es[k + 1..]);
    BytesConcat(es[..k], [es[k]]);
    assert [es[k]][..0] == [];
  }

  lemma EraseOk(r: Rules, size: Transaction -> nat, es: seq<Entry>, byId: set<Hash>, bytes: nat, k: nat)
    requires ListOk(r, size, es, byId, bytes) && k < |es|
    ensures bytes >= es[k].size
    ensures ListOk(r, size, es[..k] + es[k + 1..], byId - {es[k].txid}, bytes - es[k].size)
  {
    hide EntryOk, Signed;
    var rest := es[..k] + es[k + 1..];
    BytesAt(es, k);
    BytesConcat(es[..k], es[k + 1..]);
    EraseIds(es, k);
    forall i | 0 <= i < |rest| ensures rest[i] == es[if i < k then i else i + 1] {}
  }

  lemma EraseIds(es: seq<Entry>, k: nat)
    requires k < |es| && DistinctEntries(es)
    ensures DistinctEntries(es[..k] + es[k + 1..]) && IdsIn(es[..k] + es[k + 1..]) == IdsIn(es) - {es[k].txid}
  {
    var rest := es[..k] + es[k + 1..];
    forall i | 0 <= i < |rest| ensures rest[i] == es[if i < k then i else i + 1] {}
    forall id | id in IdsIn(es) - {es[k].txid} ensures id in IdsIn(rest) {
      var i :| 0 <= i < |es| && es[i].txid == id;
      assert rest[if i < k then i else i - 1] == es[i];
    }
  }

  lemma RefeeOk(r: Rules, size: Transaction -> nat, es: seq<Entry>, byId: set<Hash>, bytes: nat, k: nat, fee: Amount)
    requires ListOk(r, size, es, byId, bytes) && k < |es|
    ensures ListOk(r, size, es[k := es[k].(fee := fee)], byId, bytes)
  {
    hide BasicOk, Signed;
    var es' := es[k := es[k].(fee := fee)];
    BytesAt(es, k);
    BytesAt(es', k);
    assert es'[..k] == es[..k] && es'[k + 1..] == es[k + 1..];
    assert forall i :: 0 <= i < |es| ==> es'[i].txid == es[i].txid;
  }

  lemma AppendOk(r: Rules, size: Transaction -> nat, es: seq<Entry>, byId: set<Hash>, bytes: nat, e: Entry)
    requires ListOk(r, size, es, byId, bytes) && EntryOk(r, e) && Signed(r, e.tx) && e.size == size(e.tx)
               && e.txid !in byId
    ensures ListOk(r, size, es + [e], byId + {e.txid}, bytes + e.size)
  {
    hide BasicOk, Signed;
    assert (es + [e])[..|es|] == es;
    forall i | 0 <= i < |es| ensures es[i].txid != e.txid { assert es[i].txid in IdsIn(es); }
    assert forall id :: id in IdsIn(es) ==> id in IdsIn(es + [e]) by {
      forall id | id in IdsIn(es) ensures id in IdsIn(es + [e]) {
        var i :| 0 <= i < |es| && es[i].txid == id;
        assert (es + [e])[i].txid == id;
      }
    }
    assert (es + [e])[|es|].txid == e.txid;
  }

  /** The list without the entries of some ids. */
  function Without(es: seq<Entry>, ids: set<Hash>): seq<Entry> {
    if es == [] then []
    else
      var e, front := es[|es| - 1], Without(es[..|es| - 1], ids);
      if e.txid in ids then front else front + [e]
  }

  lemma {:induction false} WithoutMore(es: seq<Entry>, a: set<Hash>, b: set<Hash>)
    ensures Without(Without(es, a), b) == Without(es, a + b)
  {
    if es != [] {
      var n := |es| - 1;
      WithoutMore(es[..n], a, b);
      var front := Without(es[..n], a);
      if es[n].txid !in a { assert (front + [es[n]])[..|front|] == front; }
    }
  }

  lemma {:induction false} WithoutNone(es: seq<Entry>, ids: set<Hash>)
    requires IdsIn(es) !! ids
    ensures Without(es, ids) == es
  {
    if es != [] {
      var n := |es| - 1;
      assert es[n].txid in IdsIn(es);
      forall id | id in IdsIn(es[..n]) ensures id !in ids {
        var i :| 0 <= i < n && es[..n][i].txid == id;
        assert es[i].txid in IdsIn(es);
      }
      WithoutNone(es[..n], ids);
    }
  }

  lemma {:induction false} WithoutOne(es: seq<Entry>, k: nat)
    requires k < |es| && DistinctEntries(es)
    ensures Without(es, {es[k].txid}) == es[..k] + es[k + 1..]
  {
    var n, id := |es| - 1, es[k].txid;
    var front := es[..n];
    if k == n {
      assert IdsIn(front) !! {id};
      WithoutNone(front, {id});
      assert es[..k] + es[k + 1..] == front;
    } else {
      WithoutOne(front, k);
      assert es[n].txid != id;
      assert es[..k] + es[k + 1..] == (front[..k] + front[k + 1..]) + [es[n]];
    }
  }

  /** The marks of the entries whose ids are not among `ids`. */
  function Others(es: seq<Entry>, ids: set<Hash>): seq<bool> {
    seq(|es|, i requires 0 <= i < |es| => es[i].txid !in ids)
  }

  /** Exactly the entries of those ids go; the rest keep their order. */
  lemma {:induction false} WithoutIs(es: seq<Entry>, ids: set<Hash>)
    ensures Without(es, ids) == Chosen(es, Others(es, ids))
  {
    if es != [] {
      var n := |es| - 1;
      WithoutIs(es[..n], ids);
      ChosenLast(es, Others(es, ids));
      assert Others(es, ids)[..n] == Others(es[..n], ids);
    }
  }

  // ---------------------------------------------------------------- what a clean mempool is

  /** `order` applies as it stands, with the fees it shows, and leads to `view`. */
  ghost predicate Clean(r: Rules, tip: Tip, seen: set<Core>, es: seq<Entry>, base: Reader, view: State,
                        viewSeen: set<Core>) {
    && base == Chain(tip.state)
    && Pick(r, tip.state, es, tip.height + 1, None).entries == es
    && Pick(r, tip.state, es, tip.height + 1, None).state == view
    && viewSeen == seen + CoresIn(es)
  }

  /** Which is to say: the view is the chain with `order_` applied in order. */
  lemma CleanMeans(r: Rules, tip: Tip, seen: set<Core>, es: seq<Entry>, base: Reader, view: State, viewSeen: set<Core>)
    requires Clean(r, tip, seen, es, base, view, viewSeen)
    ensures ApplyAll(r, tip.state, Txs(es), tip.height + 1, false).Ok?
    ensures ApplyAll(r, tip.state, Txs(es), tip.height + 1, false).value.state == view
  {
    PickApplies(r, tip.state, es, tip.height + 1, None);
  }

  /** Picking from what was picked changes nothing. */
  lemma {:induction false} PickAgain(r: Rules, st: State, es: seq<Entry>, height: nat)
    ensures Pick(r, st, Pick(r, st, es, height, None).entries, height, None) == Pick(r, st, es, height, None)
  {
    hide ApplyTx, PickNext;
    if es != [] {
      var front, e := es[..|es| - 1], es[|es| - 1];
      PickAgain(r, st, front, height);
      PickNextAgain(r, st, Pick(r, st, front, height, None), e, height);
    }
  }

  lemma PickNextAgain(r: Rules, st: State, p: Picked, e: Entry, height: nat)
    requires Pick(r, st, p.entries, height, None) == p
    ensures var q := PickNext(r, p, e, height, None); Pick(r, st, q.entries, height, None) == q
  {
    hide ApplyTx;
    var ap := ApplyTx(r, p.state, e.tx, height, false);
    if ap.Ok? {
      var e' := e.(fee := ap.value.fee);
      assert PickNext(r, p, e', height, None) == PickNext(r, p, e, height, None);
      PickStep(r, st, p.entries + [e'], |p.entries|, height, None);
      assert (p.entries + [e'])[..|p.entries|] == p.entries;
      assert (p.entries + [e'])[..|p.entries| + 1] == p.entries + [e'];
    }
  }

  /** Room for everything is no limit. */
  lemma {:induction false} PickFits(r: Rules, st: State, es: seq<Entry>, height: nat, max: nat)
    requires Bytes(es) <= max
    ensures Pick(r, st, es, height, Some(max)) == Pick(r, st, es, height, None)
    ensures Pick(r, st, es, height, None).used <= Bytes(es)
  {
    hide ApplyTx;
    if es != [] { PickFits(r, st, es[..|es| - 1], height, max); }
  }

  lemma PickStep(r: Rules, st: State, es: seq<Entry>, i: nat, height: nat, limit: Option<nat>)
    requires i < |es|
    ensures Pick(r, st, es[..i + 1], height, limit) == PickNext(r, Pick(r, st, es[..i], height, limit), es[i], height,
              limit)
  {
    assert es[..i + 1][..i] == es[..i];
  }

  // ---------------------------------------------------------------- acceptance

  function MinFee(size: nat): nat { size * MIN_RELAY_FEE_PER_KB / 1000 }

  /** What `accept` comes down to. */
  predicate Acceptable(r: Rules, size: Transaction -> nat, st: State, tip: Tip, bytes: nat, tx: Transaction) {
    && CheckBasic(tx, true) == None && size(tx) <= MAX_TX_BYTES && r.txid(tx.core) !in tip.confirmed
    && ApplyTx(r, st, tx, tip.height + 1, true).Ok?
    && ApplyTx(r, st, tx, tip.height + 1, true).value.fee >= MinFee(size(tx))
    && bytes + size(tx) <= MAX_BYTES
  }

  /** The terms of acceptance, told of the transaction: well-formed with a witness for each input, at most 100,000
      bytes, not in the chain, admissible and signed for on the state the mempool leads to, a fee of at least 100 a
      byte, and room for it in 64 megabytes. */
  lemma AcceptableIff(r: Rules, size: Transaction -> nat, st: State, tip: Tip, bytes: nat, tx: Transaction)
    requires PoolsOk(st.pools)
    ensures Acceptable(r, size, st, tip, bytes, tx) <==>
            && WellFormed(tx) && size(tx) <= 100_000 && r.txid(tx.core) !in tip.confirmed
            && Admissible(r, st, tx.core, tip.height + 1) && AllSignedFor(r, st, tx)
            && In(r, st, tx.core, QNT) - Out(r, tx.core, QNT) >= 100 * size(tx)
            && bytes + size(tx) <= 67_108_864
  {
    hide ApplyTx, CheckBasic, WellFormed, Admits, Admissible, AllSignedFor, In, Out, Effect, PoolsOk;
    FullBasicIff(tx, true);
    ApplyIff(r, st, tx, tip.height + 1, true);
    if AllSignedFor(r, st, tx) { SignedForEach(r, st, tx); }
    if ApplyTx(r, st, tx, tip.height + 1, true).Ok? {
      var ap := ApplyTx(r, st, tx, tip.height + 1, true).value;
      var h := tip.height + 1;
      var run :| Admits(r, st, tx.core, h, run) && Effect(r, st, tx.core, h, run, ap.state, ap.fee);
      EffectFee(r, st, tx.core, h, run, ap.state, ap.fee);
    }
  }

  lemma SignedForEach(r: Rules, st: State, tx: Transaction)
    requires AllSignedFor(r, st, tx)
    ensures |tx.wits| == |tx.core.ins| && forall i :: 0 <= i < |tx.core.ins| ==> tx.core.ins[i] in st.coins
  {}

  lemma EffectFee(r: Rules, st: State, c: Core, height: nat, run: seq<map<Hash, Pool>>, st': State, fee: Amount)
    requires Admits(r, st, c, height, run) && Effect(r, st, c, height, run, st', fee)
    ensures c.ins != [] && fee == In(r, st, c, QNT) - Out(r, c, QNT)
  {}

  /** The fee `accept` finds, on the state the mempool leads to. */
  function FeeFound(r: Rules, st: State, tx: Transaction, height: nat): Amount {
    match ApplyTx(r, st, tx, height, true)
    case Ok(ap) => ap.fee
    case Err(_) => 0
  }

  function EntryFor(r: Rules, size: Transaction -> nat, st: State, tip: Tip, tx: Transaction): Entry {
    Entry(tx, r.txid(tx.core), FeeFound(r, st, tx, tip.height + 1), size(tx))
  }

  /** The list brought up to date, and behind it the transaction if it is acceptable there. */
  function AcceptOne(r: Rules, size: Transaction -> nat, tip: Tip, es: seq<Entry>, tx: Transaction): seq<Entry> {
    var p := Pick(r, tip.state, es, tip.height + 1, None);
    if Acceptable(r, size, p.state, tip, Bytes(p.entries), tx) then p.entries + [EntryFor(r, size, p.state, tip, tx)]
        else p.entries
  }

  /** The list is what the greedy pass keeps, and an accepted transaction is last on it, with its id, its size and the
      fee it pays there. */
  lemma AcceptOneIs(r: Rules, size: Transaction -> nat, tip: Tip, es: seq<Entry>, tx: Transaction)
    ensures var p, h := Pick(r, tip.state, es, tip.height + 1, None), tip.height + 1;
            if Acceptable(r, size, p.state, tip, Bytes(p.entries), tx) then
              && ApplyTx(r, p.state, tx, h, true).Ok?
              && AcceptOne(r, size, tip, es, tx) ==
                 p.entries + [Entry(tx, r.txid(tx.core), ApplyTx(r, p.state, tx, h, true).value.fee, size(tx))]
            else AcceptOne(r, size, tip, es, tx) == p.entries
  {
    hide ApplyTx, CheckBasic, Pick;
  }

  /** The list brought up to date, and then each transaction in turn. */
  function AcceptEach(r: Rules, size: Transaction -> nat, tip: Tip, es: seq<Entry>, txs: seq<Transaction>): seq<Entry> {
    if txs == [] then Pick(r, tip.state, es, tip.height + 1, None).entries
    else AcceptOne(r, size, tip, AcceptEach(r, size, tip, es, txs[..|txs| - 1]), txs[|txs| - 1])
  }

  lemma AcceptEachNext(r: Rules, size: Transaction -> nat, tip: Tip, es: seq<Entry>, txs: seq<Transaction>, i: nat)
    requires i < |txs|
    ensures AcceptEach(r, size, tip, es, txs[..i + 1]) == AcceptOne(r, size, tip,
              AcceptEach(r, size, tip, es, txs[..i]), txs[i])
  {
    hide AcceptOne, Pick;
    assert txs[..i + 1][..i] == txs[..i];
  }

  lemma AcceptNone(r: Rules, size: Transaction -> nat, tip: Tip, es: seq<Entry>, txs: seq<Transaction>)
    ensures AcceptEach(r, size, tip, es, txs[..0]) == Pick(r, tip.state, es, tip.height + 1, None).entries
  {}

  predicate Spends(ov: Overlay, o: OutPoint) { o in ov.spentBase || o in ov.spentCreated }

  /** An input the view already spends is missing from it. */
  lemma ConflictFails(r: Rules, base: Reader, ov: Overlay, tx: Transaction, i: nat, height: nat, verify: bool)
    requires View(base, ov).Valid() && i < |tx.core.ins| && Spends(ov, tx.core.ins[i])
    ensures ApplyTx(r, View(base, ov).State(), tx, height, verify).Err?
  {
    var st := View(base, ov).State();
    assert tx.core.ins[i] !in st.coins;
    if ApplyTx(r, st, tx, height, verify).Ok? {
      var coins, s := ApplyParts(r, st, tx, height, verify);
      GatherPresent(r, st.coins, tx.core.ins, height);
    }
  }

  /** A transaction already among those of the view cannot apply to it again. */
  lemma RepeatFails(r: Rules, st: State, seen: set<Core>, tx: Transaction, height: nat, verify: bool)
    requires r.TxidsIdeal() && Hist(r, st, seen) && r.txid(tx.core) in Ids(r, seen)
    ensures ApplyTx(r, st, tx, height, verify).Err?
  {
    if ApplyTx(r, st, tx, height, verify).Ok? { ApplyIsFresh(r, st, seen, tx, height, verify); }
  }

  lemma KnownIds(r: Rules, es: seq<Entry>, seen: set<Core>, id: Hash)
    requires EntriesOk(r, es) && id in IdsIn(es)
    ensures id in Ids(r, seen + CoresIn(es))
  {
    var i :| 0 <= i < |es| && es[i].txid == id;
    assert es[i].tx.core in CoresIn(es) && EntryOk(r, es[i]);
  }

  lemma CoresAppend(es: seq<Entry>, e: Entry)
    ensures CoresIn(es + [e]) == CoresIn(es) + {e.tx.core}
  {
    forall c | c in CoresIn(es) ensures c in CoresIn(es + [e]) {
      var i :| 0 <= i < |es| && es[i].tx.core == c;
      assert (es + [e])[i] == es[i];
    }
    assert (es + [e])[|es|] == e;
  }

  /** One more entry on a clean mempool. */
  lemma CleanNext(r: Rules, tip: Tip, seen: set<Core>, es: seq<Entry>, base: Reader, view: State, viewSeen: set<Core>,
                  e: Entry, view': State)
    requires Clean(r, tip, seen, es, base, view, viewSeen)
    requires ApplyTx(r, view, e.tx, tip.height + 1, false) == Ok(Applied(view', e.fee))
    ensures Clean(r, tip, seen, es + [e], base, view', viewSeen + {e.tx.core})
  {
    hide ApplyTx;
    assert (es + [e])[..|es|] == es;
    assert e.(fee := e.fee) == e;
    CoresAppend(es, e);
  }

  // ---------------------------------------------------------------- rebuilding

  /** Halfway through `rebuild`: of the `i` first entries the `k` first are left, applied to the new view. */
  ghost predicate Rebuilding(r: Rules, tip: Tip, seen: set<Core>, all: seq<Entry>, i: nat, es: seq<Entry>, k: nat,
                             view: State, viewSeen: set<Core>) {
    && k <= |es| && i <= |all| && es[k..] == all[i..]
    && Pick(r, tip.state, all[..i], tip.height + 1, None).entries == es[..k]
    && Pick(r, tip.state, all[..i], tip.height + 1, None).state == view
    && viewSeen == seen + CoresIn(es[..k])
  }

  lemma RebuildStart(r: Rules, tip: Tip, seen: set<Core>, es: seq<Entry>)
    ensures Rebuilding(r, tip, seen, es, 0, es, 0, tip.state, seen)
  {
    assert es[..0] == [] && es[0..] == es;
    assert CoresIn([]) == {};
  }

  lemma RebuildStep(r: Rules, tip: Tip, seen: set<Core>, all: seq<Entry>, i: nat, es: seq<Entry>, k: nat, view: State,
                    viewSeen: set<Core>)
    requires Rebuilding(r, tip, seen, all, i, es, k, view, viewSeen) && k < |es|
    ensures i < |all| && es[k] == all[i]
    ensures var ap := ApplyTx(r, view, es[k].tx, tip.height + 1, false);
            if ap.Ok? then
              Rebuilding(r, tip, seen, all, i + 1, es[k := es[k].(fee := ap.value.fee)], k + 1, ap.value.state,
                         viewSeen + {es[k].tx.core})
            else
              Rebuilding(r, tip, seen, all, i + 1, es[..k] + es[k + 1..], k, view, viewSeen)
  {
    hide ApplyTx;
    assert es[k..][0] == es[k] && all[i..][0] == all[i];
    assert es[k..][1..] == es[k + 1..] && all[i..][1..] == all[i + 1..];
    PickStep(r, tip.state, all, i, tip.height + 1, None);
    var ap := ApplyTx(r, view, es[k].tx, tip.height + 1, false);
    if ap.Ok? {
      var e := es[k].(fee := ap.value.fee);
      assert es[k := e][..k + 1] == es[..k] + [e];
      assert es[k := e][k + 1..] == es[k + 1..];
      CoresAppend(es[..k], e);
    } else {
      assert (es[..k] + es[k + 1..])[..k] == es[..k];
      assert (es[..k] + es[k + 1..])[k..] == es[k + 1..];
    }
  }

  lemma RebuildDone(r: Rules, tip: Tip, seen: set<Core>, all: seq<Entry>, i: nat, es: seq<Entry>, view: State,
                    viewSeen: set<Core>)
    requires Rebuilding(r, tip, seen, all, i, es, |es|, view, viewSeen)
    ensures es == Pick(r, tip.state, all, tip.height + 1, None).entries
    ensures Clean(r, tip, seen, es, Chain(tip.state), view, viewSeen)
  {
    assert es[|es|..] == [] && es[..|es|] == es;
    assert |all[i..]| == |all| - i;
    assert all[..i] == all;
    PickAgain(r, tip.state, all, tip.height + 1);
  }

  lemma PickedIs(r: Rules, tip: Tip, seen: set<Core>, before: seq<Entry>, es: seq<Entry>, base: Reader, view: State,
                 viewSeen: set<Core>)
    requires Clean(r, tip, seen, es, base, view, viewSeen)
    requires es == before || es == Pick(r, tip.state, before, tip.height + 1, None).entries
    ensures es == Pick(r, tip.state, before, tip.height + 1, None).entries
    ensures view == Pick(r, tip.state, before, tip.height + 1, None).state
  {
    PickAgain(r, tip.state, before, tip.height + 1);
  }

  lemma EntryBasic(r: Rules, size: Transaction -> nat, es: seq<Entry>, byId: set<Hash>, bytes: nat, k: nat)
    requires ListOk(r, size, es, byId, bytes) && k < |es|
    ensures BasicOk(es[k].tx)
  {
    assert EntryOk(r, es[k]);
  }

  lemma ListBytes(r: Rules, size: Transaction -> nat, es: seq<Entry>, byId: set<Hash>, bytes: nat)
    requires ListOk(r, size, es, byId, bytes)
    ensures bytes == Bytes(es)
  {}

  lemma ListHas(r: Rules, size: Transaction -> nat, es: seq<Entry>, byId: set<Hash>, bytes: nat, id: Hash)
    requires ListOk(r, size, es, byId, bytes) && id in byId
    ensures DistinctEntries(es) && exists k :: 0 <= k < |es| && es[k].txid == id
  {}

  lemma CoinbaseFails(r: Rules, st: State, tx: Transaction, height: nat)
    ensures IsCoinbase(tx.core) ==> ApplyTx(r, st, tx, height, true).Err?
  {}

  lemma KnownFails(r: Rules, size: Transaction -> nat, tip: Tip, seen: set<Core>, es: seq<Entry>, byId: set<Hash>,
                   bytes: nat, base: Reader, ov: Overlay, viewSeen: set<Core>, tx: Transaction)
    requires ListOk(r, size, es, byId, bytes) && ViewOk(r, base, ov, viewSeen)
    requires Clean(r, tip, seen, es, base, View(base, ov).State(), viewSeen) && r.txid(tx.core) in byId
    ensures ApplyTx(r, View(base, ov).State(), tx, tip.height + 1, true).Err?
  {
    KnownIds(r, es, seen, r.txid(tx.core));
    RepeatFails(r, View(base, ov).State(), viewSeen, tx, tip.height + 1, true);
  }

  lemma ConflictsFail(r: Rules, base: Reader, ov: Overlay, viewSeen: set<Core>, tx: Transaction, height: nat)
    requires ViewOk(r, base, ov, viewSeen) && exists i :: 0 <= i < |tx.core.ins| && Spends(ov, tx.core.ins[i])
    ensures ApplyTx(r, View(base, ov).State(), tx, height, true).Err?
  {
    var i :| 0 <= i < |tx.core.ins| && Spends(ov, tx.core.ins[i]);
    ConflictFails(r, base, ov, tx, i, height, true);
  }

  /** A view can itself be the base of a view. */
  lemma ProbeReady(r: Rules, base: Reader, ov: Overlay, viewSeen: set<Core>, tx: Transaction)
    requires ViewOk(r, base, ov, viewSeen) && CheckBasic(tx, true) == None
    ensures r.TxidsIdeal() && View(base, ov).Valid() && Hist(r, View(base, ov).State(), viewSeen) && BasicOk(tx)
  {}

  lemma AcceptableMeans(r: Rules, size: Transaction -> nat, tip: Tip, seen: set<Core>, es: seq<Entry>, base: Reader,
                        view: State, viewSeen: set<Core>, bytes: nat, tx: Transaction)
    requires TipOk(r, tip, seen) && Clean(r, tip, seen, es, base, view, viewSeen)
               && Acceptable(r, size, view, tip, bytes, tx)
    ensures BasicOk(tx) && Signed(r, tx)
    ensures ApplyTx(r, view, tx, tip.height + 1, true).Ok?
    ensures ApplyTx(r, view, tx, tip.height + 1, false) == ApplyTx(r, view, tx, tip.height + 1, true)
    ensures forall fee, n :: EntryOk(r, Entry(tx, r.txid(tx.core), fee, n))
  {
    CleanMeans(r, tip, seen, es, base, view, viewSeen);
    ApplyAllProvenance(r, tip.state, Txs(es), tip.height + 1, false);
    VerifyOnlyRejects(r, view, tx, tip.height + 1);
    ChecksAreRemembered(r, view, tx, tip.height + 1);
    CoinbaseFails(r, view, tx, tip.height + 1);
  }

  function IdsOf(r: Rules, txs: seq<Transaction>): set<Hash> { set i | 0 <= i < |txs| :: r.txid(txs[i].core) }

  lemma IdsNext(r: Rules, txs: seq<Transaction>, i: nat)
    requires i < |txs|
    ensures IdsOf(r, txs[..i + 1]) == IdsOf(r, txs[..i]) + {r.txid(txs[i].core)}
  {
    forall id | id in IdsOf(r, txs[..i]) ensures id in IdsOf(r, txs[..i + 1]) {
      var k :| 0 <= k < i && r.txid(txs[..i][k].core) == id;
      assert txs[..i + 1][k] == txs[k];
    }
    assert txs[..i + 1][i] == txs[i];
  }

  lemma WithoutAbsent(r: Rules, size: Transaction -> nat, es: seq<Entry>, byId: set<Hash>, bytes: nat, id: Hash)
    requires ListOk(r, size, es, byId, bytes) && id !in byId
    ensures Without(es, {id}) == es
  {
    WithoutNone(es, {id});
  }

  /** A template: a coinbase and a sublist of the mempool within the size, which connects with signature
      checks, and has an acceptable body exactly when the reward is within the money limit. */
  ghost predicate TemplateOk(r: Rules, tip: Tip, es: seq<Entry>, max: nat, b: Block) {
    && b.txs != [] && ConnectState(r, tip.state, b, tip.height + 1, true).Ok?
    && (ShapeOk(b, tip.height + 1) <==> TotalOut64(b.txs[0].core.outs) <= MAX_MONEY)
    && (BodyFits(r, b, tip.height + 1) <==> TotalOut64(b.txs[0].core.outs) <= MAX_MONEY)
    && exists kept :: SubList(kept, es) && Bytes(kept) <= max && b.txs[1..] == Txs(kept)
  }

  lemma TemplateIsOk(r: Rules, size: Transaction -> nat, tip: Tip, seen: set<Core>, es: seq<Entry>, byId: set<Hash>,
                     bytes: nat, max: nat, hdr: Header, payout: Hash, tag: seq<byte>, nonce: seq<byte>)
    requires ListOk(r, size, es, byId, bytes) && TipOk(r, tip, seen)
    requires r.maturity > 0 && tip.height + 1 < TWO64 && CoinbasesBelow(seen, tip.height + 1)
    ensures var p := Pick(r, tip.state, es, tip.height + 1, Some(max));
            var cb := TemplateCoinbase(tip.height + 1, Add64(Subsidy64(tip.height + 1), p.fees), payout, tag, nonce);
            TemplateOk(r, tip, es, max, Block(hdr, [cb] + Txs(p.entries)))
  {
    hide ListOk, Provenance, Hist, ConnectState, ShapeOk, Pick, Signed, BasicOk, ApplyAll, CoinbasesBelow, BodyFits,
         DistinctEntries, EntriesOk;
    var p, height := Pick(r, tip.state, es, tip.height + 1, Some(max)), tip.height + 1;
    SelectionOk(r, size, tip, es, byId, bytes, max);
    var reward := Add64(Subsidy64(height), p.fees);
    var cb := TemplateCoinbase(height, reward, payout, tag, nonce);
    var b := Block(hdr, [cb] + Txs(p.entries));
    TemplateConnects(r, tip.state, seen, hdr, height, Txs(p.entries), Applied(p.state, p.fees), payout, tag, nonce,
                     true);
    TotalOfOne(cb.core.outs, reward, payout);
    BodyFitsIff(r, p.entries, cb, height, hdr);
    BasicIffShape(r, p.entries, cb, height, hdr);
    assert b.txs[1..] == Txs(p.entries);
  }

  /** The coinbase of `b` pays all of what the height and the fees of the other transactions allow, 64 bits of it, to
      `payout`; and once `b` is connected the coin is there. */
  ghost predicate MinerPaid(r: Rules, st: State, b: Block, height: nat, payout: Hash) {
    && b.txs != [] && ApplyAll(r, st, b.txs[1..], height, false).Ok? && ConnectState(r, st, b, height, true).Ok?
    && var c, reward := b.txs[0].core, (Subsidy64(height) + ApplyAll(r, st, b.txs[1..], height,
        false).value.fee) % TWO64;
       && c.ins == [] && c.ops == [] && c.lockHeight == height
       && (forall o :: o in c.outs ==> o.asset == QNT && o.addr == payout && o.value == reward > 0)
       && Paid(c.outs, QNT) == reward && |c.outs| <= 1
       && var coins := ConnectState(r, st, b, height, true).value.coins;
          forall n: nat :: n < |c.outs| ==>
            OutPoint(r.txid(c), n) in coins
                     && coins[OutPoint(r.txid(c), n)] == Coin(TxOut(reward, QNT, payout), height, true)
  }

  lemma MinerIsPaid(r: Rules, tip: Tip, seen: set<Core>, es: seq<Entry>, byId: set<Hash>, bytes: nat,
                    size: Transaction -> nat, b: Block, payout: Hash, tag: seq<byte>, nonce: seq<byte>)
    requires ListOk(r, size, es, byId, bytes) && TipOk(r, tip, seen)
    requires r.maturity > 0 && tip.height + 1 < TWO64 && CoinbasesBelow(seen, tip.height + 1)
    requires var p, height := Pick(r, tip.state, es, tip.height + 1, Some(MAX_BLOCK_SIZE - 2000)), tip.height + 1;
             b.txs == [TemplateCoinbase(height, Add64(Subsidy64(height), p.fees), payout, tag, nonce)] + Txs(p.entries)
    ensures MinerPaid(r, tip.state, b, tip.height + 1, payout)
  {
    hide ListOk, Provenance, Hist, ConnectState, ShapeOk, Pick, Signed, BasicOk, ApplyAll, CoinbasesBelow,
         DistinctEntries, EntriesOk, Subsidy64, ApplyCoinbase, TemplateCoinbase, Paid;
    var max := MAX_BLOCK_SIZE - 2000;
    var p, height := Pick(r, tip.state, es, tip.height + 1, Some(max)), tip.height + 1;
    var reward := Add64(Subsidy64(height), p.fees);
    SelectionOk(r, size, tip, es, byId, bytes, max);
    TemplateConnects(r, tip.state, seen, b.header, height, Txs(p.entries), Applied(p.state, p.fees), payout, tag, nonce,
                     true);
    assert b == Block(b.header, b.txs) && b.txs[1..] == Txs(p.entries);
    TemplatePays(r, p.state, height, reward, payout, tag, nonce);
    var outs := b.txs[0].core.outs;
    assert outs != [] ==> outs[0] in outs;
  }

  lemma BasicIffShape(r: Rules, es: seq<Entry>, cb: Transaction, height: nat, hdr: Header)
    requires EntriesOk(r, es) && IsCoinbase(cb.core) && cb.core.lockHeight == height
    ensures ShapeOk(Block(hdr, [cb] + Txs(es)), height) <==> BasicOk(cb)
  {
    hide BasicOk;
    var txs := [cb] + Txs(es);
    assert txs[0] == cb;
    forall i | 0 < i < |txs| ensures BasicOk(txs[i]) && !IsCoinbase(txs[i].core) {
      assert EntryOk(r, es[i - 1]) && txs[i] == Txs(es)[i - 1];
    }
  }

  /** What is selected can go into a block. */
  lemma SelectionOk(r: Rules, size: Transaction -> nat, tip: Tip, es: seq<Entry>, byId: set<Hash>, bytes: nat, max: nat)
    requires ListOk(r, size, es, byId, bytes)
    ensures var p := Pick(r, tip.state, es, tip.height + 1, Some(max));
            && ApplyAll(r, tip.state, Txs(p.entries), tip.height + 1, false) == Ok(Applied(p.state, p.fees))
            && Bytes(p.entries) <= max && SubList(p.entries, es)
            && AllSigned(r, Txs(p.entries))
            && DistinctEntries(p.entries) && EntriesOk(r, p.entries)
            && forall i :: 0 <= i < |p.entries| ==> BasicOk(Txs(p.entries)[i]) && !IsCoinbase(Txs(p.entries)[i].core)
  {
    hide ApplyTx, Signed, BasicOk, Pick;
    var p := Pick(r, tip.state, es, tip.height + 1, Some(max));
    PickApplies(r, tip.state, es, tip.height + 1, Some(max));
    SubListOk(r, p.entries, es);
    SubListSigned(r, p.entries, es);
    SubListDistinct(p.entries, es);
    assert forall i :: 0 <= i < |p.entries| ==> EntryOk(r, p.entries[i]);
  }

  lemma IdsLast(es: seq<Entry>)
    requires es != []
    ensures IdsIn(es) == IdsIn(es[..|es| - 1]) + {es[|es| - 1].txid}
    ensures DistinctEntries(es) <==> DistinctEntries(es[..|es| - 1]) && es[|es| - 1].txid !in IdsIn(es[..|es| - 1])
  {
    var n := |es| - 1;
    forall id | id in IdsIn(es) ensures id in IdsIn(es[..n]) + {es[n].txid} {
      var i :| 0 <= i < |es| && es[i].txid == id;
      if i < n { assert es[..n][i].txid == id; }
    }
    forall id | id in IdsIn(es[..n]) ensures id in IdsIn(es) {
      var i :| 0 <= i < n && es[..n][i].txid == id;
      assert es[i].txid == id;
    }
    if DistinctEntries(es[..n]) && es[n].txid !in IdsIn(es[..n]) {
      forall i, j | 0 <= i < j < |es| ensures es[i].txid != es[j].txid {
        assert es[..n][i].txid == es[i].txid;
        if j < n { assert es[..n][j].txid == es[j].txid; }
      }
    }
  }

  lemma {:induction false} SubListDistinct(kept: seq<Entry>, es: seq<Entry>)
    requires SubList(kept, es) && DistinctEntries(es)
    ensures DistinctEntries(kept) && IdsIn(kept) <= IdsIn(es)
  {
    hide DistinctEntries, IdsIn;
    if es == [] {
      assert kept == es;
    } else {
      var front := es[..|es| - 1];
      IdsLast(es);
      if SubList(kept, front) {
        SubListDistinct(kept, front);
      } else {
        SubListDistinct(kept[..|kept| - 1], front);
        IdsLast(kept);
      }
    }
  }

  /** A signed transaction has a witness for each input, so the full checks ask no more of it. */
  lemma SignedBasic(r: Rules, tx: Transaction)
    requires Signed(r, tx) && BasicOk(tx)
    ensures CheckBasic(tx, true) == None
  {
    hide CheckOuts, CheckOps;
    var coins :| InputsMade(r, tx.core.ins, coins) && VerifyWitness(r, tx, coins) == None;
  }

  /** What `accept_block` asks of the transactions of a block at this height, apart from roots and size. */
  ghost predicate BodyFits(r: Rules, b: Block, height: nat) {
    && b.txs != [] && b.txs[0].core.lockHeight == height
    && (forall i :: 0 <= i < |b.txs| ==> IsCoinbase(b.txs[i].core) == (i == 0) && CheckBasic(b.txs[i], true) == None)
    && (forall i, j :: 0 <= i < j < |b.txs| ==> r.txid(b.txs[i].core) != r.txid(b.txs[j].core))
  }

  lemma BodyFitsIff(r: Rules, es: seq<Entry>, cb: Transaction, height: nat, hdr: Header)
    requires r.TxidsIdeal() && DistinctEntries(es) && EntriesOk(r, es) && AllSigned(r, Txs(es))
    requires IsCoinbase(cb.core) && cb.core.lockHeight == height
    ensures BodyFits(r, Block(hdr, [cb] + Txs(es)), height) <==> BasicOk(cb)
  {
    hide Signed, CheckOuts, CheckOps;
    var txs := [cb] + Txs(es);
    assert txs[0] == cb;
    forall i | 0 < i < |txs|
      ensures txs[i] == es[i - 1].tx && CheckBasic(txs[i], true) == None && !IsCoinbase(txs[i].core)
    {
      assert EntryOk(r, es[i - 1]) && txs[i] == Txs(es)[i - 1];
      SignedBasic(r, es[i - 1].tx);
    }
    forall i, j | 0 <= i < j < |txs| ensures r.txid(txs[i].core) != r.txid(txs[j].core) {
      assert EntryOk(r, es[j - 1]);
      if i > 0 { assert EntryOk(r, es[i - 1]) && es[i - 1].txid != es[j - 1].txid; }
    }
  }

  lemma {:induction false} SubListSigned(r: Rules, kept: seq<Entry>, es: seq<Entry>)
    requires SubList(kept, es) && forall i :: 0 <= i < |es| ==> Signed(r, es[i].tx)
    ensures forall i :: 0 <= i < |kept| ==> Signed(r, kept[i].tx)
  {
    hide Signed;
    if es != [] {
      var front := es[..|es| - 1];
      if SubList(kept, front) {
        SubListSigned(r, kept, front);
      } else {
        SubListSigned(r, kept[..|kept| - 1], front);
      }
    }
  }

  class Mempool {
    const rules: Rules
    const fullSize: Transaction -> nat
    var tip: Tip
    ghost var seen: set<Core>
    var view: LedgerView
    var order: seq<Entry>
    var byId: set<Hash>
    var bytes: nat
    var readd: seq<Transaction>
    var dirty: bool

    /** Whenever the mempool is not dirty, its view is the chain state with `order` applied. */
    ghost predicate Valid()
      reads this, view
    {
      && TipOk(rules, tip, seen)
      && ListOk(rules, fullSize, order, byId, bytes)
      && view.rules == rules && view.Valid()
      && (!dirty ==> Clean(rules, tip, seen, order, view.base, view.State(), view.seen))
    }

    constructor (rules: Rules, fullSize: Transaction -> nat, tip: Tip, ghost seen: set<Core>)
      requires TipOk(rules, tip, seen)
      ensures Valid() && !dirty && order == [] && fresh(view) && this.tip == tip && this.rules == rules
                && this.fullSize == fullSize
    {
      this.rules, this.fullSize, this.tip, this.seen := rules, fullSize, tip, seen;
      order, byId, bytes, readd, dirty := [], {}, 0, [], false;
      view := new LedgerView(rules, Chain(tip.state), seen);
      new;
      assert CoresIn([]) == {};
    }

    /** `rebuild`: re-apply every entry to a fresh view, dropping those that no longer apply. */
    method Rebuild()
      requires Valid()
      modifies this`view, this`order, this`byId, this`bytes, this`dirty
      ensures Valid() && !dirty && fresh(view)
      ensures order == Pick(rules, tip.state, old(order), tip.height + 1, None).entries
    {
      hide ListOk, ApplyTx, Rebuilding, Clean, Pick, Provenance, Hist, ViewOk, PoolsOk, Admissible, AllSignedFor,
           BasicOk;
      dirty := false;
      var v := new LedgerView(rules, Chain(tip.state), seen);
      view := v;
      var k := 0;
      ghost var all, i := order, 0;
      RebuildStart(rules, tip, seen, order);
      while k < |order|
        invariant fresh(v) && view == v && v.Valid() && v.rules == rules && v.base == Chain(tip.state) && !dirty
        invariant ListOk(rules, fullSize, order, byId, bytes) && k <= |order|
        invariant Rebuilding(rules, tip, seen, all, i, order, k, v.State(), v.seen)
        decreases |order| - k
      {
        var e := order[k];
        RebuildStep(rules, tip, seen, all, i, order, k, v.State(), v.seen);
        EntryBasic(rules, fullSize, order, byId, bytes, k);
        var res := v.Apply(e.tx, tip.height + 1, false);
        if res.Err? {
          EraseOk(rules, fullSize, order, byId, bytes, k);
          bytes := bytes - e.size;
          byId := byId - {e.txid};
          order := order[..k] + order[k + 1..];
        } else {
          RefeeOk(rules, fullSize, order, byId, bytes, k, res.value);
          order := order[k := e.(fee := res.value)];
          k := k + 1;
        }
        i := i + 1;
      }
      RebuildDone(rules, tip, seen, all, i, order, v.State(), v.seen);
    }

    /** `accept`. The tests that come before the dry run never change the verdict, and the commit after a
        successful dry run on a nested view always succeeds, with the same fee. */
    method Accept(tx: Transaction) returns (why: Option<Why>)
      requires Valid()
      modifies this`view, this`order, this`byId, this`bytes, this`dirty, view
      ensures Valid() && !dirty && (view == old(view) || fresh(view))
      ensures var p := Pick(rules, tip.state, old(order), tip.height + 1, None);
              && (why == None <==> Acceptable(rules, fullSize, p.state, tip, Bytes(p.entries), tx))
              && order == AcceptOne(rules, fullSize, tip, old(order), tx)
    {
      hide ListOk, ApplyTx, Clean, Pick, Provenance, Hist, CheckBasic, ViewOk, TipOk, Acceptable, EntryFor;
      if dirty {
        Rebuild();
      }
      ghost var p := Pick(rules, tip.state, old(order), tip.height + 1, None);
      assert order == p.entries && view.State() == p.state by { PickedIs(rules, tip, seen, old(order), order, view.base,
          view.State(), view.seen); }
      ListBytes(rules, fullSize, order, byId, bytes);
      why := TryAdd(tx);
    }

    /** `accept` on a clean mempool. */
    method TryAdd(tx: Transaction) returns (why: Option<Why>)
      requires Valid() && !dirty
      modifies this`order, this`byId, this`bytes, view
      ensures Valid() && !dirty
      ensures why == None <==> Acceptable(rules, fullSize, old(view.State()), tip, old(bytes), tx)
      ensures why.Some? ==> order == old(order)
      ensures why == None ==> order == old(order) + [EntryFor(rules, fullSize, old(view.State()), tip, tx)]
    {
      hide ListOk, ApplyTx, Clean, Provenance, Hist, Acceptable, ViewOk, EntryOk;
      why := Screen(tx);
      if why.Some? { return; }
      ghost var st := view.State();
      var h := tip.height + 1;
      AcceptableMeans(rules, fullSize, tip, seen, order, view.base, st, view.seen, bytes, tx);
      var res := view.Apply(tx, h, false);
      assert res == Ok(FeeFound(rules, st, tx, h));
      var e := Entry(tx, rules.txid(tx.core), res.value, fullSize(tx));
      AppendOk(rules, fullSize, order, byId, bytes, e);
      CleanNext(rules, tip, seen, order, view.base, st, old(view.seen), e, view.State());
      order := order + [e];
      byId := byId + {e.txid};
      bytes := bytes + e.size;
    }

    /** Everything `accept` tests, ending with the dry run and the fee and space policies. */
    method Screen(tx: Transaction) returns (why: Option<Why>)
      requires Valid() && !dirty
      ensures why == None <==> Acceptable(rules, fullSize, view.State(), tip, bytes, tx)
      ensures why == None ==> rules.txid(tx.core) !in byId
    {
      hide ListOk, ApplyTx, Clean, Provenance, Hist, CheckBasic, ViewOk;
      var id, h := rules.txid(tx.core), tip.height + 1;
      ghost var st := view.State();
      CoinbaseFails(rules, st, tx, h);
      if id in byId {
        KnownFails(rules, fullSize, tip, seen, order, byId, bytes, view.base, view.ov, view.seen, tx);
        return Some(AlreadyInMempool);
      }
      if IsCoinbase(tx.core) { return Some(CoinbaseTx); }
      var basic := CheckBasic(tx, true);
      if basic.Some? { return Some(Basic(basic.value)); }
      var size := fullSize(tx);
      if size > MAX_TX_BYTES { return Some(TxTooLarge); }
      if id in tip.confirmed { return Some(AlreadyConfirmed); }
      var conflict := SpendsAny(tx.core.ins);
      if conflict {
        ConflictsFail(rules, view.base, view.ov, view.seen, tx, h);
        return Some(MempoolConflict);
      }
      ProbeReady(rules, view.base, view.ov, view.seen, tx);
      var probe := new LedgerView(rules, view.AsReader(), view.seen);
      var res := probe.Apply(tx, h, true);
      if res.Err? { return Some(Refused(res.reason)); }
      if res.value < MinFee(size) { return Some(FeeTooLow); }
      if bytes + size > MAX_BYTES { return Some(MempoolFull); }
      why := None;
    }

    method SpendsAny(ins: seq<OutPoint>) returns (found: bool)
      ensures found <==> exists i :: 0 <= i < |ins| && Spends(view.ov, ins[i])
    {
      for i := 0 to |ins|
        invariant forall k :: 0 <= k < i ==> !Spends(view.ov, ins[k])
      {
        if Spends(view.ov, ins[i]) { return true; }
      }
      found := false;
    }

    // ---------------------------------------------------------------- block selection

    /** `select_for_block`: a greedy pass on a scratch view of the chain. */
    method SelectForBlock(max: nat) returns (out: seq<Entry>, fees: Amount)
      requires Valid()
      ensures var p := Pick(rules, tip.state, order, tip.height + 1, Some(max)); out == p.entries && fees == p.fees
    {
      hide ListOk, ApplyTx, Clean, Provenance, Hist, ViewOk;
      var scratch := new LedgerView(rules, Chain(tip.state), seen);
      var h := tip.height + 1;
      var used: nat := 0;
      out, fees := [], 0;
      for i := 0 to |order|
        invariant fresh(scratch) && scratch.Valid() && scratch.rules == rules
        invariant Pick(rules, tip.state, order[..i], h, Some(max)) == Picked(out, used, fees, scratch.State())
      {
        var e := order[i];
        PickStep(rules, tip.state, order, i, h, Some(max));
        if used + e.size <= max {
          EntryBasic(rules, fullSize, order, byId, bytes, i);
          var res := scratch.Apply(e.tx, h, false);
          if res.Ok? {
            out := out + [e.(fee := res.value)];
            used := used + e.size;
            fees := Add64(fees, res.value);
          }
        }
      }
      assert order[..|order|] == order;
    }

    /** `create_block_template`: the block connects to the chain, signatures included, and its body is
        accepted exactly when subsidy plus fees is within the money limit. */
    method CreateTemplate(hdr: Header, payout: Hash, tag: seq<byte>, nonce: seq<byte>) returns (b: Block)
      requires Valid() && rules.maturity > 0 && tip.height + 1 < TWO64 && CoinbasesBelow(seen, tip.height + 1)
      ensures b.header == hdr && TemplateOk(rules, tip, order, MAX_BLOCK_SIZE - 2000, b)
      ensures var p, height := Pick(rules, tip.state, order, tip.height + 1, Some(MAX_BLOCK_SIZE - 2000)),
                tip.height + 1;
              b.txs == [TemplateCoinbase(height, Add64(Subsidy64(height), p.fees), payout, tag, nonce)] + Txs(p.entries)
      ensures MinerPaid(rules, tip.state, b, tip.height + 1, payout)
    {
      hide ListOk, Clean, Provenance, Hist, ViewOk, TemplateOk, Pick, CoinbasesBelow, MinerPaid, TemplateCoinbase,
           Subsidy64;
      var height := tip.height + 1;
      var sel, fees := SelectForBlock(MAX_BLOCK_SIZE - 2000);
      var reward := Add64(Subsidy64(height), fees);
      var cb := TemplateCoinbase(height, reward, payout, tag, nonce);
      b := Block(hdr, [cb] + Txs(sel));
      TemplateIsOk(rules, fullSize, tip, seen, order, byId, bytes, MAX_BLOCK_SIZE - 2000, hdr, payout, tag, nonce);
      MinerIsPaid(rules, tip, seen, order, byId, bytes, fullSize, b, payout, tag, nonce);
    }

    // ---------------------------------------------------------------- callbacks

    /** Take one id off the list, if it is there. */
    method Drop(id: Hash)
      requires ListOk(rules, fullSize, order, byId, bytes)
      modifies this`order, this`byId, this`bytes
      ensures ListOk(rules, fullSize, order, byId, bytes) && order == Without(old(order), {id})
    {
      hide ListOk, DistinctEntries, Without;
      if id in byId {
        ListHas(rules, fullSize, order, byId, bytes, id);
        var k :| 0 <= k < |order| && order[k].txid == id;
        WithoutOne(order, k);
        EraseOk(rules, fullSize, order, byId, bytes, k);
        bytes := bytes - order[k].size;
        byId := byId - {id};
        order := order[..k] + order[k + 1..];
      } else {
        WithoutAbsent(rules, fullSize, order, byId, bytes, id);
      }
    }

    method DropAll(txs: seq<Transaction>)
      requires ListOk(rules, fullSize, order, byId, bytes)
      modifies this`order, this`byId, this`bytes
      ensures ListOk(rules, fullSize, order, byId, bytes) && order == Without(old(order), IdsOf(rules, txs))
    {
      hide ListOk;
      WithoutNone(order, {});
      assert IdsOf(rules, txs[..0]) == {};
      for i := 0 to |txs|
        invariant ListOk(rules, fullSize, order, byId, bytes)
        invariant order == Without(old(order), IdsOf(rules, txs[..i]))
      {
        var id := rules.txid(txs[i].core);
        IdsNext(rules, txs, i);
        WithoutMore(old(order), IdsOf(rules, txs[..i]), {id});
        Drop(id);
      }
      assert txs[..|txs|] == txs;
    }

    /** A block was connected: its transactions leave the list. */
    method OnConnect(b: Block, now: Tip, ghost nowSeen: set<Core>)
      requires Valid() && TipOk(rules, now, nowSeen)
      modifies this`tip, this`seen, this`order, this`byId, this`bytes, this`dirty
      ensures Valid() && dirty && tip == now && seen == nowSeen
      ensures order == Without(old(order), IdsOf(rules, b.txs))
    {
      hide ListOk, Clean, TipOk, ViewOk;
      DropAll(b.txs);
      dirty := true;
      tip, seen := now, nowSeen;
    }

    /** A block was taken back: its transactions wait to be accepted again, if they can still be read. */
    method OnDisconnect(full: Option<Block>, now: Tip, ghost nowSeen: set<Core>)
      requires Valid() && TipOk(rules, now, nowSeen) && (full.Some? ==> full.value.txs != [])
      modifies this`tip, this`seen, this`readd, this`dirty
      ensures Valid() && dirty && tip == now && seen == nowSeen
      ensures readd == old(readd) + if full.Some? then full.value.txs[1..] else []
    {
      hide ListOk, Clean, TipOk, ViewOk;
      if full.Some? { readd := readd + full.value.txs[1..]; }
      dirty := true;
      tip, seen := now, nowSeen;
    }

    /** The new chain is in place: the list is brought up to date and the waiting transactions are tried
        again behind it. */
    method OnTip()
      requires Valid()
      modifies this`view, this`order, this`byId, this`bytes, this`dirty, this`readd, view
      ensures Valid() && !dirty && readd == [] && (view == old(view) || fresh(view))
      ensures order == AcceptEach(rules, fullSize, tip, old(order), old(readd))
    {
      hide *;
      ghost var es := order;
      var v := readd;
      UpToDate();
      AcceptNone(rules, fullSize, tip, es, v);
      for i := 0 to |v|
        invariant Valid() && !dirty && readd == [] && (view == old(view) || fresh(view))
        invariant order == AcceptEach(rules, fullSize, tip, es, v[..i])
      {
        AcceptEachNext(rules, fullSize, tip, es, v, i);
        var why := Accept(v[i]);
      }
      assert v[..|v|] == v;
    }

    method UpToDate()
      requires Valid()
      modifies this`view, this`order, this`byId, this`bytes, this`dirty, this`readd
      ensures Valid() && !dirty && readd == [] && (view == old(view) || fresh(view))
      ensures order == Pick(rules, tip.state, old(order), tip.height + 1, None).entries
    {
      hide ListOk, TipOk, ViewOk, Pick;
      if dirty { Rebuild(); }
      readd := [];
    }

    /** A mempool that is not dirty: its list applies to the chain in order, and leads to its view. */
    lemma CleanHere()
      requires Valid() && !dirty
      ensures ApplyAll(rules, tip.state, Txs(order), tip.height + 1, false).Ok?
      ensures ApplyAll(rules, tip.state, Txs(order), tip.height + 1, false).value.state == view.State()
    {
      hide TipOk, ListOk, ViewOk, ApplyAll;
      CleanMeans(rules, tip, seen, order, view.base, view.State(), view.seen);
    }
  }
}
