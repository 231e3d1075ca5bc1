/** Choosing transactions for a block: greedy application in arrival order, signatures that stay valid,
    and the block template (src/chain/mempool.cpp:33-48, 107-125; src/miner/miner.cpp:13-39). */
module Selections {
  import opened Types
  import opened Ledger
  import opened LedgerLaws
  import opened Admissions
  import opened Emission
  import opened Replay
  import opened Supply

  datatype Entry = Entry(tx: Transaction, txid: Hash, fee: Amount, size: nat)

  function Txs(es: seq<Entry>): (txs: seq<Transaction>)
    ensures |txs| == |es| && forall i :: 0 <= i < |es| ==> txs[i] == es[i].tx
  {
    seq(|es|, i requires 0 <= i < |es| => es[i].tx)
  }

  function Bytes(es: seq<Entry>): nat { if es == [] then 0 else Bytes(es[..|es| - 1]) + es[|es| - 1].size }

  /** What a greedy pass has kept, and the state it has reached. */
  datatype Picked = Picked(entries: seq<Entry>, used: nat, fees: Amount, state: State)

  /** Entries in order: skip what does not fit or does not apply, keep the rest with its current fee. */
  function Pick(r: Rules, st: State, es: seq<Entry>, height: nat, limit: Option<nat>): Picked {
    if es == [] then Picked([], 0, 0, st)
    else PickNext(r, Pick(r, st, es[..|es| - 1], height, limit), es[|es| - 1], height, limit)
  }

  function PickNext(r: Rules, p: Picked, e: Entry, height: nat, limit: Option<nat>): Picked {
    if limit.Some? && p.used + e.size > limit.value then p
    else
      match ApplyTx(r, p.state, e.tx, height, false)
      case Err(_) => p
      case Ok(ap) => Picked(p.entries + [e.(fee := ap.fee)], p.used + e.size, Add64(p.fees, ap.fee), ap.state)
  }

  predicate EntryOk(r: Rules, e: Entry) { e.txid == r.txid(e.tx.core) && BasicOk(e.tx) && !IsCoinbase(e.tx.core) }

  predicate EntriesOk(r: Rules, es: seq<Entry>) { forall i :: 0 <= i < |es| ==> EntryOk(r, es[i]) }

  /** `kept` is `es` with some entries left out and fees brought up to date. */
  ghost predicate SubList(kept: seq<Entry>, es: seq<Entry>) {
    if es == [] then kept == []
    else
      var front := es[..|es| - 1];
      || SubList(kept, front)
      || (kept != [] && SubList(kept[..|kept| - 1], front)
          && kept[|kept| - 1] == es[|es| - 1].(fee := kept[|kept| - 1].fee))
  }

  /** Whatever is picked applies, in that order, with exactly the fees counted, and fits the limit. */
  lemma {:induction false} PickApplies(r: Rules, st: State, es: seq<Entry>, height: nat, limit: Option<nat>)
    ensures var p := Pick(r, st, es, height, limit);
            && ApplyAll(r, st, Txs(p.entries), height, false) == Ok(Applied(p.state, p.fees))
            && p.used == Bytes(p.entries) && (limit.Some? ==> p.used <= limit.value)
            && SubList(p.entries, es)
  {
    if es != [] {
      var front, e := es[..|es| - 1], es[|es| - 1];
      PickApplies(r, st, front, height, limit);
      PickNextApplies(r, st, Pick(r, st, front, height, limit), e, height, limit);
    }
  }

  lemma PickNextApplies(r: Rules, st: State, p: Picked, e: Entry, height: nat, limit: Option<nat>)
    requires ApplyAll(r, st, Txs(p.entries), height, false) == Ok(Applied(p.state, p.fees))
    requires p.used == Bytes(p.entries) && (limit.Some? ==> p.used <= limit.value)
    ensures var q := PickNext(r, p, e, height, limit);
            && ApplyAll(r, st, Txs(q.entries), height, false) == Ok(Applied(q.state, q.fees))
            && q.used == Bytes(q.entries) && (limit.Some? ==> q.used <= limit.value)
            && (q == p || (q.entries != [] && q.entries[..|q.entries| - 1] == p.entries
                           && q.entries[|q.entries| - 1] == e.(fee := q.entries[|q.entries| - 1].fee)))
  {
    hide ApplyTx;
    var q := PickNext(r, p, e, height, limit);
    if q != p {
      var n := |p.entries|;
      assert q.entries[..n] == p.entries;
      assert Txs(q.entries)[..n] == Txs(p.entries);
    }
  }

  /** A list that applies as a whole loses nothing. */
  lemma {:induction false} PickKeepsAll(r: Rules, st: State, es: seq<Entry>, height: nat)
    requires ApplyAll(r, st, Txs(es), height, false).Ok?
    ensures Txs(Pick(r, st, es, height, None).entries) == Txs(es)
    ensures Pick(r, st, es, height, None).state == ApplyAll(r, st, Txs(es), height, false).value.state
  {
    hide ApplyTx;
    if es != [] {
      var n := |es| - 1;
      assert Txs(es)[..n] == Txs(es[..n]);
      PickKeepsAll(r, st, es[..n], height);
    }
  }

  /** The entries of `es` marked in `keep`. */
  function Chosen(es: seq<Entry>, keep: seq<bool>): seq<Entry>
    requires |keep| == |es|
  {
    if es == [] then [] else (if keep[0] then [es[0]] else []) + Chosen(es[1..], keep[1..])
  }

  /** An entry is marked exactly if, behind those marked before it, there is room for it and all of them apply. */
  ghost predicate Greedy(r: Rules, st: State, es: seq<Entry>, height: nat, limit: Option<nat>, keep: seq<bool>) {
    && |keep| == |es|
    && forall i :: 0 <= i < |es| ==>
        (keep[i] <==>
           var before := Chosen(es[..i], keep[..i]);
           && (limit.Some? ==> Bytes(before) + es[i].size <= limit.value)
           && ApplyAll(r, st, Txs(before) + [es[i].tx], height, false).Ok?)
  }

  /** Each entry shows the fee it pays where it stands. */
  ghost predicate FeesShown(r: Rules, st: State, es: seq<Entry>, height: nat) {
    forall i :: 0 <= i < |es| ==>
      && ApplyAll(r, st, Txs(es[..i]), height, false).Ok?
      && var now := ApplyAll(r, st, Txs(es[..i]), height, false).value.state;
         ApplyTx(r, now, es[i].tx, height, false).Ok? && ApplyTx(r, now, es[i].tx, height, false).value.fee == es[i].fee
  }

  lemma {:induction false} ChosenLast(es: seq<Entry>, keep: seq<bool>)
    requires |keep| == |es| && es != []
    ensures var n := |es| - 1; Chosen(es, keep) == Chosen(es[..n], keep[..n]) + if keep[n] then [es[n]] else []
  {
    if |es| > 1 {
      var n := |es| - 1;
      ChosenLast(es[1..], keep[1..]);
      assert es[1..][..n - 1] == es[..n][1..] && keep[1..][..n - 1] == keep[..n][1..];
    }
  }

  lemma GreedyPrefix(r: Rules, st: State, es: seq<Entry>, height: nat, limit: Option<nat>, keep: seq<bool>)
    requires Greedy(r, st, es, height, limit, keep) && es != []
    ensures Greedy(r, st, es[..|es| - 1], height, limit, keep[..|es| - 1])
  {
    hide ApplyAll;
    var n := |es| - 1;
    forall i | 0 <= i < n ensures es[..n][..i] == es[..i] && keep[..n][..i] == keep[..i] {}
  }

  /** The marks of a greedy pass are what it picks, apart from the fees. */
  lemma {:induction false} GreedyIsPicked(r: Rules, st: State, es: seq<Entry>, height: nat, limit: Option<nat>,
                                          keep: seq<bool>)
    requires Greedy(r, st, es, height, limit, keep)
    ensures var p := Pick(r, st, es, height, limit);
            Txs(p.entries) == Txs(Chosen(es, keep)) && p.used == Bytes(Chosen(es, keep))
  {
    hide ApplyTx, ApplyAll, Chosen;
    if es == [] {
      assert Chosen(es, keep) == [] by { ChosenNone(keep); }
    } else {
      var n := |es| - 1;
      GreedyPrefix(r, st, es, height, limit, keep);
      GreedyIsPicked(r, st, es[..n], height, limit, keep[..n]);
      ChosenLast(es, keep);
      PickApplies(r, st, es[..n], height, limit);
      NextPicked(r, st, Pick(r, st, es[..n], height, limit), Chosen(es[..n], keep[..n]), es[n], height, limit, keep[n]);
      if !keep[n] { assert Chosen(es, keep) == Chosen(es[..n], keep[..n]); }
    }
  }

  lemma NextPicked(r: Rules, st: State, p: Picked, before: seq<Entry>, e: Entry, height: nat, limit: Option<nat>,
                   kept: bool)
    requires ApplyAll(r, st, Txs(p.entries), height, false) == Ok(Applied(p.state, p.fees))
    requires Txs(p.entries) == Txs(before) && p.used == Bytes(before)
    requires kept <==>
               && (limit.Some? ==> Bytes(before) + e.size <= limit.value)
               && ApplyAll(r, st, Txs(before) + [e.tx], height, false).Ok?
    ensures var q := PickNext(r, p, e, height, limit); var after := if kept then before + [e] else before;
            Txs(q.entries) == Txs(after) && q.used == Bytes(after)
  {
    hide ApplyTx, ApplyAll;
    OneMoreApplies(r, st, Txs(before), e.tx, height);
    assert (before + [e])[..|before|] == before;
    assert Txs(before + [e]) == Txs(before) + [e.tx];
    var q := PickNext(r, p, e, height, limit);
    if kept { assert Txs(q.entries) == Txs(p.entries) + [e.tx]; }
  }

  lemma ChosenNone(keep: seq<bool>)
    requires keep == []
    ensures Chosen([], keep) == []
  {}

  lemma OneMoreApplies(r: Rules, st: State, txs: seq<Transaction>, tx: Transaction, height: nat)
    ensures ApplyAll(r, st, txs + [tx], height, false).Ok? <==>
            && ApplyAll(r, st, txs, height, false).Ok?
            && ApplyTx(r, ApplyAll(r, st, txs, height, false).value.state, tx, height, false).Ok?
  {
    hide ApplyTx;
    assert (txs + [tx])[..|txs|] == txs;
  }

  /** There is one way to mark a list so, and it is what the greedy pass picks, at the fees of the day. */
  lemma {:induction false} PickIsGreedy(r: Rules, st: State, es: seq<Entry>, height: nat, limit: Option<nat>)
    returns (keep: seq<bool>)
    ensures Greedy(r, st, es, height, limit, keep)
    ensures forall other :: Greedy(r, st, es, height, limit, other) ==> other == keep
    ensures Txs(Pick(r, st, es, height, limit).entries) == Txs(Chosen(es, keep))
    ensures FeesShown(r, st, Pick(r, st, es, height, limit).entries, height)
  {
    hide ApplyTx, ApplyAll, Chosen, Pick, FeesShown;
    keep := Marks(r, st, es, height, limit);
    GreedyIsPicked(r, st, es, height, limit, keep);
    PickShows(r, st, es, height, limit);
    forall other | Greedy(r, st, es, height, limit, other) ensures other == keep {
      SameMarks(r, st, es, height, limit, keep, other);
    }
  }

  lemma {:induction false} Marks(r: Rules, st: State, es: seq<Entry>, height: nat, limit: Option<nat>)
    returns (keep: seq<bool>)
    ensures Greedy(r, st, es, height, limit, keep)
  {
    hide ApplyAll, Chosen;
    if es == [] {
      keep := [];
    } else {
      var n := |es| - 1;
      var front := Marks(r, st, es[..n], height, limit);
      var before := Chosen(es[..n], front);
      var next := (limit.Some? ==> Bytes(before) + es[n].size <= limit.value)
                  && ApplyAll(r, st, Txs(before) + [es[n].tx], height, false).Ok?;
      keep := front + [next];
      assert keep[..n] == front;
      forall i | 0 <= i < n ensures es[..n][..i] == es[..i] && keep[..i] == front[..i] && es[..n][i] == es[i] {}
    }
  }

  lemma {:induction false} SameMarks(r: Rules, st: State, es: seq<Entry>, height: nat, limit: Option<nat>,
                                     a: seq<bool>, b: seq<bool>)
    requires Greedy(r, st, es, height, limit, a) && Greedy(r, st, es, height, limit, b)
    ensures a == b
  {
    hide ApplyAll, Chosen;
    if es != [] {
      var n := |es| - 1;
      GreedyPrefix(r, st, es, height, limit, a);
      GreedyPrefix(r, st, es, height, limit, b);
      SameMarks(r, st, es[..n], height, limit, a[..n], b[..n]);
      assert a[n] == b[n];
      assert a == a[..n] + [a[n]] && b == b[..n] + [b[n]];
    }
  }

  lemma {:induction false} PickShows(r: Rules, st: State, es: seq<Entry>, height: nat, limit: Option<nat>)
    ensures FeesShown(r, st, Pick(r, st, es, height, limit).entries, height)
  {
    hide PickNext, FeesShown;
    if es == [] {
      NoneShown(r, st, height);
    } else {
      var front := es[..|es| - 1];
      PickShows(r, st, front, height, limit);
      PickApplies(r, st, front, height, limit);
      NextShows(r, st, Pick(r, st, front, height, limit), es[|es| - 1], height, limit);
    }
  }

  lemma NoneShown(r: Rules, st: State, height: nat)
    ensures FeesShown(r, st, [], height)
  {}

  lemma NextShows(r: Rules, st: State, p: Picked, e: Entry, height: nat, limit: Option<nat>)
    requires FeesShown(r, st, p.entries, height)
    requires ApplyAll(r, st, Txs(p.entries), height, false) == Ok(Applied(p.state, p.fees))
    ensures FeesShown(r, st, PickNext(r, p, e, height, limit).entries, height)
  {
    hide ApplyTx, ApplyAll;
    var q, n := PickNext(r, p, e, height, limit), |p.entries|;
    if q != p {
      forall i | 0 <= i <= n ensures q.entries[..i] == p.entries[..i] {}
      assert p.entries[..n] == p.entries;
    }
  }

  lemma {:induction false} SubListOk(r: Rules, kept: seq<Entry>, es: seq<Entry>)
    requires SubList(kept, es) && EntriesOk(r, es)
    ensures EntriesOk(r, kept)
  {
    if es != [] {
      var front := es[..|es| - 1];
      if SubList(kept, front) {
        SubListOk(r, kept, front);
      } else {
        SubListOk(r, kept[..|kept| - 1], front);
        assert EntryOk(r, es[|es| - 1]);
      }
    }
  }

  // ---------------------------------------------------------------- signatures

  /** Some transaction with the outpoint's id has this output there. */
  ghost predicate MadeBy(r: Rules, o: OutPoint, out: TxOut) {
    exists c: Core :: r.txid(c) == o.txid && o.n < |c.outs| && c.outs[o.n] == out
  }

  lemma MadeOnce(r: Rules, o: OutPoint, a: TxOut, b: TxOut)
    requires r.TxidsIdeal() && MadeBy(r, o, a) && MadeBy(r, o, b)
    ensures a == b
  {}

  /** Every coin is what its outpoint's transaction made. */
  ghost predicate Provenance(r: Rules, st: State) {
    forall o :: o in st.coins ==> MadeBy(r, o, st.coins[o].out)
  }

  lemma CreatedProvenance(r: Rules, c: Core, height: nat, coinbase: bool)
    ensures var m := Created(r.txid(c), c.outs, height, coinbase); forall o :: o in m ==> MadeBy(r, o, m[o].out)
  {}

  lemma ApplyProvenance(r: Rules, st: State, tx: Transaction, height: nat, verify: bool)
    requires Provenance(r, st) && ApplyTx(r, st, tx, height, verify).Ok?
    ensures Provenance(r, ApplyTx(r, st, tx, height, verify).value.state)
  {
    var coins, s := ApplyParts(r, st, tx, height, verify);
    CreatedProvenance(r, tx.core, height, false);
  }

  lemma {:induction false} ApplyAllProvenance(r: Rules, st: State, txs: seq<Transaction>, height: nat, verify: bool)
    requires Provenance(r, st) && ApplyAll(r, st, txs, height, verify).Ok?
    ensures Provenance(r, ApplyAll(r, st, txs, height, verify).value.state)
  {
    hide ApplyTx, Provenance;
    if txs != [] {
      var front := txs[..|txs| - 1];
      ApplyAllProvenance(r, st, front, height, verify);
      ApplyProvenance(r, ApplyAll(r, st, front, height, verify).value.state, txs[|txs| - 1], height, verify);
    }
  }

  lemma {:induction false} ReplayProvenance(r: Rules, blocks: seq<Block>)
    requires Replayed(r, blocks).Some?
    ensures Provenance(r, Replayed(r, blocks).value)
  {
    if blocks != [] {
      var n := |blocks| - 1;
      ReplayProvenance(r, blocks[..n]);
      ConnectProvenance(r, Replayed(r, blocks[..n]).value, blocks[n], n);
    }
  }

  lemma ConnectProvenance(r: Rules, st: State, b: Block, height: nat)
    requires Provenance(r, st) && b.txs != [] && ConnectState(r, st, b, height, false).Ok?
    ensures Provenance(r, ConnectState(r, st, b, height, false).value)
  {
    CreatedProvenance(r, b.txs[0].core, height, true);
    ApplyAllProvenance(r, ApplyCoinbase(r, st, b.txs[0], height), b.txs[1..], height, false);
  }

  ghost predicate InputsMade(r: Rules, ins: seq<OutPoint>, coins: seq<Coin>) {
    |coins| == |ins| && forall i :: 0 <= i < |ins| ==> MadeBy(r, ins[i], coins[i].out)
  }

  /** The witnesses were checked against the outputs that the inputs name. */
  ghost predicate Signed(r: Rules, tx: Transaction) {
    exists coins :: InputsMade(r, tx.core.ins, coins) && VerifyWitness(r, tx, coins) == None
  }

  lemma {:induction false} VerifySame(r: Rules, tx: Transaction, a: seq<Coin>, b: seq<Coin>, i: nat)
    requires |a| == |tx.core.ins| == |b| == |tx.wits| && i <= |a|
    requires forall k :: 0 <= k < |a| ==> a[k].out == b[k].out
    ensures VerifyFrom(r, tx, a, i) == VerifyFrom(r, tx, b, i)
    decreases |a| - i
  {
    if i < |a| { VerifySame(r, tx, a, b, i + 1); }
  }

  lemma {:induction false} GatherMade(r: Rules, st: State, ins: seq<OutPoint>, height: nat)
    requires Provenance(r, st) && Gather(r, st.coins, ins, height).Ok?
    ensures InputsMade(r, ins, Gather(r, st.coins, ins, height).value)
  {
    if ins != [] { GatherMade(r, st, ins[..|ins| - 1], height); }
  }

  /** A transaction whose signatures were once checked, in any state, passes again in every state that
      accepts it without them. */
  lemma SignedVerifies(r: Rules, st: State, tx: Transaction, height: nat)
    requires r.TxidsIdeal() && Provenance(r, st) && Signed(r, tx) && ApplyTx(r, st, tx, height, false).Ok?
    ensures ApplyTx(r, st, tx, height, true) == ApplyTx(r, st, tx, height, false)
  {
    hide RunOps, Commit, FeeOf, MadeBy, Gather;
    var coins, s := ApplyParts(r, st, tx, height, false);
    GatherMade(r, st, tx.core.ins, height);
    var a: seq<Coin> :| InputsMade(r, tx.core.ins, a) && VerifyWitness(r, tx, a) == None;
    forall k | 0 <= k < |a| ensures a[k].out == coins[k].out {
      MadeOnce(r, tx.core.ins[k], a[k].out, coins[k].out);
    }
    VerifySame(r, tx, a, coins, 0);
    assert VerifyWitness(r, tx, coins) == None;
  }

  lemma ChecksAreRemembered(r: Rules, st: State, tx: Transaction, height: nat)
    requires Provenance(r, st) && ApplyTx(r, st, tx, height, true).Ok?
    ensures Signed(r, tx)
  {
    var coins, s := ApplyParts(r, st, tx, height, true);
    GatherMade(r, st, tx.core.ins, height);
  }

  ghost predicate AllSigned(r: Rules, txs: seq<Transaction>) { forall i :: 0 <= i < |txs| ==> Signed(r, txs[i]) }

  lemma {:induction false} AllVerify(r: Rules, st: State, txs: seq<Transaction>, height: nat)
    requires r.TxidsIdeal() && Provenance(r, st) && AllSigned(r, txs) && ApplyAll(r, st, txs, height, false).Ok?
    ensures ApplyAll(r, st, txs, height, true) == ApplyAll(r, st, txs, height, false)
  {
    hide ApplyTx, Provenance, Signed;
    if txs != [] {
      var front := txs[..|txs| - 1];
      AllVerify(r, st, front, height);
      ApplyAllProvenance(r, st, front, height, false);
      SignedVerifies(r, ApplyAll(r, st, front, height, false).value.state, txs[|txs| - 1], height);
    }
  }

  lemma {:induction false} AllWereSigned(r: Rules, st: State, txs: seq<Transaction>, height: nat)
    requires Provenance(r, st) && ApplyAll(r, st, txs, height, true).Ok?
    ensures AllSigned(r, txs)
  {
    hide ApplyTx, Provenance, Signed;
    if txs != [] {
      var front := txs[..|txs| - 1];
      AllWereSigned(r, st, front, height);
      ApplyAllProvenance(r, st, front, height, true);
      ChecksAreRemembered(r, ApplyAll(r, st, front, height, true).value.state, txs[|txs| - 1], height);
      assert txs == front + [txs[|txs| - 1]];
    }
  }

  /** Connecting a block with its witnesses checked asks for exactly one thing more than without: that every transaction
      but the coinbase is signed for, against the outputs that its inputs name. */
  lemma ConnectSignedIff(r: Rules, st: State, b: Block, height: nat)
    requires r.TxidsIdeal() && Provenance(r, st) && b.txs != []
    ensures ConnectState(r, st, b, height, true).Ok? <==>
            ConnectState(r, st, b, height, false).Ok? && AllSigned(r, b.txs[1..])
  {
    hide ApplyAll, Provenance, AllSigned, ApplyCoinbase;
    var st0 := ApplyCoinbase(r, st, b.txs[0], height);
    CoinbaseProvenance(r, st, b.txs[0], height);
    if ConnectState(r, st, b, height, true).Ok? {
      AllWereSigned(r, st0, b.txs[1..], height);
      ConnectVerified(r, st, b, height, true);
    }
    if ConnectState(r, st, b, height, false).Ok? && AllSigned(r, b.txs[1..]) { AllVerify(r, st0, b.txs[1..], height); }
  }

  lemma CoinbaseProvenance(r: Rules, st: State, tx: Transaction, height: nat)
    requires Provenance(r, st)
    ensures Provenance(r, ApplyCoinbase(r, st, tx, height))
  {
    CreatedProvenance(r, tx.core, height, true);
  }

  // ---------------------------------------------------------------- the block template

  /** The coinbase of a template; `tag` is the miner's, `nonce` its eight random bytes. */
  function TemplateCoinbase(height: Amount, reward: Amount, payout: Hash, tag: seq<byte>,
      nonce: seq<byte>): Transaction {
    var extra := (if |tag| > 60 then tag[..60] else tag) + nonce;
    Transaction(Core(2, [], if reward > 0 then [TxOut(reward, QNT, payout)] else [], [], height, extra), [])
  }

  /** A template connects, signatures included, whatever was picked; `accept_block` takes its body exactly
      when the reward is within the money limit. */
  lemma TemplateConnects(r: Rules, st: State, seen: set<Core>, hdr: Header, height: Amount, txs: seq<Transaction>,
                         ap: Applied, payout: Hash, tag: seq<byte>, nonce: seq<byte>, verify: bool)
    requires r.TxidsIdeal() && r.maturity > 0 && height > 0 && Hist(r, st, seen) && CoinbasesBelow(seen, height)
    requires forall i :: 0 <= i < |txs| ==> BasicOk(txs[i]) && !IsCoinbase(txs[i].core)
    requires Provenance(r, st) && AllSigned(r, txs) && ApplyAll(r, st, txs, height, false) == Ok(ap)
    ensures var reward := Add64(Subsidy64(height), ap.fee);
            var cb := TemplateCoinbase(height, reward, payout, tag, nonce);
            var b := Block(hdr, [cb] + txs);
            && ConnectState(r, st, b, height, verify) == Ok(ApplyCoinbase(r, ap.state, cb, height))
            && (ShapeOk(b, height) <==> reward <= MAX_MONEY)
  {
    var reward := Add64(Subsidy64(height), ap.fee);
    var cb := TemplateCoinbase(height, reward, payout, tag, nonce);
    var b := Block(hdr, [cb] + txs);
    assert b.txs[1..] == txs;
    TemplateShape(hdr, height, reward, txs, payout, tag, nonce);
    if verify { AllVerify(r, st, txs, height); }
    TemplateApplies(r, st, seen, height, txs, ap, cb, verify);
    TotalOfOne(cb.core.outs, reward, payout);
  }

  /** Who is paid: the coinbase is one output of the whole reward, if there is any, to the payout address, at this
      height, with the tag cut to 60 bytes and the nonce behind it; and once the block is connected those coins are
      there. */
  lemma TemplatePays(r: Rules, st: State, height: Amount, reward: Amount, payout: Hash, tag: seq<byte>,
                     nonce: seq<byte>)
    ensures var c := TemplateCoinbase(height, reward, payout, tag, nonce).core;
            && (forall o :: o in c.outs ==> o.asset == QNT && o.addr == payout && o.value == reward > 0)
            && Paid(c.outs, QNT) == reward && |c.outs| <= 1
            && c.version == 2 && c.ins == [] && c.ops == [] && c.lockHeight == height
            && |c.extra| == (if |tag| > 60 then 60 else |tag|) + |nonce|
            && c.extra[..|c.extra| - |nonce|] <= tag && c.extra[|c.extra| - |nonce|..] == nonce
    ensures var cb := TemplateCoinbase(height, reward, payout, tag, nonce);
            var coins := ApplyCoinbase(r, st, cb, height).coins;
            var o := OutPoint(r.txid(cb.core), 0);
            reward > 0 ==> o in coins && coins[o] == Coin(TxOut(reward, QNT, payout), height, true)
  {
    var c := TemplateCoinbase(height, reward, payout, tag, nonce).core;
    if reward > 0 { assert c.outs[1..] == [] && Paid(c.outs[1..], QNT) == 0; }
  }

  lemma TotalOfOne(outs: seq<TxOut>, reward: Amount, payout: Hash)
    requires outs == if reward > 0 then [TxOut(reward, QNT, payout)] else []
    ensures TotalOut64(outs) == reward
  {
    if reward > 0 { assert outs[..0] == [] && TotalOut64(outs[..0]) == 0; }
  }

  lemma TemplateShape(hdr: Header, height: Amount, reward: Amount, txs: seq<Transaction>, payout: Hash, tag: seq<byte>,
                      nonce: seq<byte>)
    requires forall i :: 0 <= i < |txs| ==> BasicOk(txs[i]) && !IsCoinbase(txs[i].core)
    ensures ShapeOk(Block(hdr, [TemplateCoinbase(height, reward, payout, tag, nonce)] + txs), height) <==>
              reward <= MAX_MONEY
  {
    var cb := TemplateCoinbase(height, reward, payout, tag, nonce);
    var b := Block(hdr, [cb] + txs);
    assert BasicOk(cb) <==> reward <= MAX_MONEY by { CoinbaseBasic(cb, reward, payout); }
    hide BasicOk;
    assert b.txs[0] == cb;
    forall i | 0 < i < |b.txs| ensures b.txs[i] == txs[i - 1] {}
  }

  lemma CoinbaseBasic(cb: Transaction, reward: Amount, payout: Hash)
    requires cb.core.version == 2 && cb.core.ins == [] && cb.core.ops == [] && cb.wits == []
    requires cb.core.outs == if reward > 0 then [TxOut(reward, QNT, payout)] else []
    ensures BasicOk(cb) <==> reward <= MAX_MONEY
  {
    if reward > 0 {
      var o := cb.core.outs[0];
      assert CheckOuts(cb.core.outs, true, 1, Add64(0, reward)) == None;
    }
  }

  lemma TemplateApplies(r: Rules, st: State, seen: set<Core>, height: Amount, txs: seq<Transaction>, ap: Applied,
                        cb: Transaction, verify: bool)
    requires r.TxidsIdeal() && r.maturity > 0 && Hist(r, st, seen) && CoinbasesBelow(seen, height)
    requires IsCoinbase(cb.core) && cb.core.lockHeight == height
    requires forall i :: 0 <= i < |txs| ==> !IsCoinbase(txs[i].core)
    requires ApplyAll(r, st, txs, height, verify) == Ok(ap)
    ensures ApplyAll(r, ApplyCoinbase(r, st, cb, height), txs, height,
              verify) == Ok(Applied(ApplyCoinbase(r, ap.state, cb, height), ap.fee))
  {
    hide ApplyTx;
    var extra := Created(r.txid(cb.core), cb.core.outs, height, true);
    CoinbaseIsFresh(r, st, seen, cb, height);
    forall i | 0 <= i < |txs| ensures Fresh(extra, r.txid(txs[i].core)) {
      assert txs[i].core != cb.core;
    }
    ApplyAllFrame(r, st, extra, txs, height, verify);
  }
}
