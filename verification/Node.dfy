/** A mempool that watches a chain state (src/chain/mempool.cpp:8-32, src/chain/chainstate.cpp:788, 809, 859): every
    connect and disconnect calls it back, and the whole change of tip once more at the end. */
module Nodes {
  import opened Types
  import opened Ledger
  import opened LedgerLaws
  import opened BasicChecks
  import opened Replay
  import opened Undos
  import opened BlockTree
  import opened ChainLedger
  import opened Commitments
  import opened Rejoins
  import opened ChainSteps
  import opened Chainstates
  import opened Selections
  import opened Mempools

  /** What the mempool is told of the chain. */
  function TipOf(cs: Chainstate): (tip: Tip)
    requires cs.chain != []
    reads cs
    ensures tip == Tip(cs.State(), |cs.chain| - 1, cs.txindex.Keys)
  {
    Tip(cs.State(), |cs.chain| - 1, cs.txindex.Keys)
  }

  ghost function SeenBy(store: Store, chain: seq<Hash>): set<Core>
  {
    if Stored(store, chain) then Seen(AllCores(BlocksOf(store, chain))) else {}
  }

  /** The mempool's idea of the chain is the chain: its state, its height and its transactions. */
  ghost function Follows(cs: Chainstate, mp: Mempool): (ok: bool)
    reads cs, mp, mp.view
    ensures ok <==>
              && cs.LedgerValid() && cs.TreeValid() && cs.chain != [] && mp.Valid() && mp.rules == cs.rules
              && mp.tip == TipOf(cs) && mp.seen == SeenBy(cs.store, cs.chain)
  {
    && cs.LedgerValid() && cs.TreeValid() && cs.chain != [] && mp.Valid() && mp.rules == cs.rules
    && mp.tip == TipOf(cs) && mp.seen == SeenBy(cs.store, cs.chain)
  }

  lemma TipIsOk(r: Rules, s: Network, prune: bool, store: Store, chain: seq<Hash>, st: State,
                byAddr: map<Hash, set<OutPoint>>, supply: Amount, txindex: map<Hash, Hash>, undo: map<Hash, Undos.Undo>,
                snaps: Snaps, files: Files)
    requires LedgerValues(r, s, prune, store, chain, st, byAddr, supply, txindex, undo, snaps, files) && chain != []
    ensures TipOk(r, Tip(st, |chain| - 1, txindex.Keys), SeenBy(store, chain))
  {
    hide TipOk, SnapsOk, UndoKept, Verified, BookOk, Replayed;
    var bs := BlocksOf(store, chain);
    ReplaysIff(r, bs, st);
    ChainGivesTip(r, bs, txindex.Keys);
  }

  /** A block on top, and the callback. */
  method ConnectAndTell(cs: Chainstate, mp: Mempool, x: Hash) returns (out: Outcome)
    requires Follows(cs, mp) && cs.bestHeader in cs.nodes && cs.candidates !! cs.failed
    requires x !in cs.chain && ChainOk(cs.nodes, cs.genesis, cs.chain + [x]) && x in cs.chainData && x !in cs.failed
    modifies cs`utxo, cs`byAddr, cs`supply, cs`tokens, cs`pools, cs`txindex, cs`chain, cs`undoFiles, cs`witnessFiles
    modifies cs`snapshots, cs`peaks, cs`deepest, cs`skipped
    modifies mp`tip, mp`seen, mp`order, mp`byId, mp`bytes, mp`dirty
    ensures Follows(cs, mp)
    ensures cs.chain == if out == Connected then old(cs.chain) + [x] else old(cs.chain)
    ensures out == Connected ==> x in cs.store && mp.order == Without(old(mp.order), IdsOf(cs.rules, cs.store[x].txs))
    ensures out != Connected ==> mp.order == old(mp.order)
    ensures out == Invalid ==> cs.env.net.Ok() && ReadAs(cs.store, cs.witnessFiles, x).Some?
    ensures out == Invalid ==> Rejects(cs.rules, cs.env.net, cs.State(), cs.chain, cs.snapshots, cs.store,
              cs.witnessFiles, x)
  {
    hide *;
    NextReady(cs.rules, cs.env.net, cs.nodes, cs.genesis, cs.children, cs.chain, cs.store, cs.chainData, cs.failed,
              cs.candidates, x);
    ghost var gone;
    out, gone := cs.ConnectNext(x);
    if out == Connected {
      TipIsOk(cs.rules, cs.env.net, cs.prune, cs.store, cs.chain, cs.State(), cs.byAddr, cs.supply, cs.txindex,
              cs.undoFiles, cs.Held(), cs.witnessFiles);
      mp.OnConnect(cs.store[x], TipOf(cs), SeenBy(cs.store, cs.chain));
    }
  }

  lemma TipReadable(r: Rules, s: Network, t: Tree, root: Hash, children: map<Hash, seq<Hash>>, chain: seq<Hash>,
                    store: Store, chainData: set<Hash>, failed: set<Hash>, files: Files)
    requires TreeValues(r, s, t, root, children, chain, store, chainData, failed) && chain != []
    ensures var b := ReadAs(store, files, chain[|chain| - 1]); b.Some? ==> b.value.txs != []
  {
    hide TreeInv, FailedOk, ReadAs;
  }

  /** The tip taken back, and the callback, which reads the block again. */
  method DisconnectAndTell(cs: Chainstate, mp: Mempool) returns (ok: bool)
    requires Follows(cs, mp)
    modifies cs`utxo, cs`byAddr, cs`supply, cs`tokens, cs`pools, cs`txindex, cs`chain, cs`peaks, cs`deepest
    modifies mp`tip, mp`seen, mp`readd, mp`dirty
    ensures Follows(cs, mp)
    ensures ok <==> |old(cs.chain)| > 1 && old(cs.Tip()) in cs.undoFiles
    ensures cs.chain == if ok then old(cs.chain)[..|old(cs.chain)| - 1] else old(cs.chain)
    ensures mp.readd == old(mp.readd) + if ok then Again(ReadAs(cs.store, cs.witnessFiles, old(cs.Tip()))) else []
  {
    hide *;
    TipReadable(cs.rules, cs.env.net, cs.nodes, cs.genesis, cs.children, cs.chain, cs.store, cs.chainData, cs.failed,
                cs.witnessFiles);
    var full := ReadAs(cs.store, cs.witnessFiles, cs.Tip());
    AgainIs(full);
    ghost var before := cs.chain;
    ok := cs.DisconnectTip();
    if ok {
      ShorterPrefix(before);
      TreePrefix(cs.rules, cs.env.net, cs.nodes, cs.genesis, cs.children, before, cs.chain, cs.store, cs.chainData,
                 cs.failed);
      TipIsOk(cs.rules, cs.env.net, cs.prune, cs.store, cs.chain, cs.State(), cs.byAddr, cs.supply, cs.txindex,
              cs.undoFiles, cs.Held(), cs.witnessFiles);
      mp.OnDisconnect(full, TipOf(cs), SeenBy(cs.store, cs.chain));
    }
  }

  /** What of a disconnected block goes back to the mempool. */
  function Again(full: Option<Block>): seq<Transaction>
  {
    if full.Some? && full.value.txs != [] then full.value.txs[1..] else []
  }

  lemma AgainIs(full: Option<Block>)
    requires full.Some? ==> full.value.txs != []
    ensures Again(full) == if full.Some? then full.value.txs[1..] else []
  {}

  lemma ShorterPrefix(chain: seq<Hash>)
    ensures |chain| > 1 ==> PrefixOf(chain[..|chain| - 1], chain)
  {}

  datatype Step = Connect(x: Hash) | Disconnect

  /** Any course of connects and disconnects, then the callback for the new tip. Throughout, the mempool's chain is the
      chain; and in the end its list applies, in order, to the state of the chain. */
  method FollowAll(cs: Chainstate, mp: Mempool, steps: seq<Step>)
    requires Follows(cs, mp) && cs.bestHeader in cs.nodes && cs.candidates !! cs.failed
    modifies cs`utxo, cs`byAddr, cs`supply, cs`tokens, cs`pools, cs`txindex, cs`chain, cs`undoFiles, cs`witnessFiles
    modifies cs`snapshots, cs`peaks, cs`deepest, cs`skipped
    modifies mp, mp.view
    ensures Follows(cs, mp) && !mp.dirty && mp.readd == []
    ensures ApplyAll(cs.rules, cs.State(), Txs(mp.order), |cs.chain|, false).Ok?
    ensures ApplyAll(cs.rules, cs.State(), Txs(mp.order), |cs.chain|, false).value.state == mp.view.State()
  {
    hide *;
    ghost var view := mp.view;
    for i := 0 to |steps|
      invariant Follows(cs, mp) && mp.view == view
    {
      match steps[i]
      case Disconnect => var ok := DisconnectAndTell(cs, mp);
      case Connect(x) =>
        if x in cs.nodes && cs.nodes[x].prev == Some(cs.Tip()) && x in cs.chainData && x !in cs.failed {
          ChildFits(cs.rules, cs.env.net, cs.nodes, cs.genesis, cs.children, cs.chain, cs.store, cs.chainData,
                    cs.failed, x);
          var out := ConnectAndTell(cs, mp, x);
        }
    }
    mp.OnTip();
    mp.CleanHere();
  }

  /** A template is a body that `accept_block` takes, exactly if its reward is within the money limit and its roots and
      size are right. */
  lemma TemplateAccepted(r: Rules, env: Env, tip: Tip, es: seq<Entry>, max: nat, b: Block, best: nat)
    requires TemplateOk(r, tip, es, max, b)
    ensures BodyOk(r, env, b, tip.height + 1, true, best) <==>
            && TotalOut64(b.txs[0].core.outs) <= MAX_MONEY && env.merkleOk(b) && env.sizeOk(b, true)
            && env.net.witnessOk(env.headerHash(b.header), Witnesses(b))
  {
    hide ConnectState, ShapeOk, SubList, CheckBasic, Witnesses;
  }

  /** What `accept_block` asks of a body, told of its transactions: the first is the coinbase and no other is, it locks
      itself to the height, each is well-formed and has its witnesses, and no id is there twice. */
  lemma BodyOkIff(r: Rules, env: Env, b: Block, height: nat, hasWitness: bool, best: nat)
    ensures BodyOk(r, env, b, height, hasWitness, best) <==>
            && b.txs != [] && (forall i :: 0 <= i < |b.txs| ==> (b.txs[i].core.ins == [] <==> i == 0))
            && b.txs[0].core.lockHeight == height
            && (forall i :: 0 <= i < |b.txs| ==>
                  WellFormed(b.txs[i]) && (hasWitness ==> |b.txs[i].wits| == |b.txs[i].core.ins|))
            && (forall i, j :: 0 <= i < j < |b.txs| ==> r.txid(b.txs[i].core) != r.txid(b.txs[j].core))
            && env.merkleOk(b) && env.sizeOk(b, hasWitness)
            && (hasWitness ==> env.net.witnessOk(env.headerHash(b.header), Witnesses(b)))
            && (!hasWitness ==> height + 5040 <= best)
  {
    hide WellFormed, CheckBasic, Witnesses;
    forall i | 0 <= i < |b.txs|
      ensures CheckBasic(b.txs[i], hasWitness) == None <==>
              WellFormed(b.txs[i]) && (hasWitness ==> |b.txs[i].wits| == |b.txs[i].core.ins|)
    {
      FullBasicIff(b.txs[i], hasWitness);
      CoinbaseBare(b.txs[i]);
    }
  }

  lemma CoinbaseBare(tx: Transaction)
    ensures WellFormed(tx) && tx.core.ins == [] ==> |tx.wits| == |tx.core.ins|
  {}

  /** Wherever the node still has the witnesses of a block of its chain, every transaction of that block but the
      coinbase is signed for with them. */
  lemma ChainIsSigned(cs: Chainstate, i: nat)
    requires cs.Valid() && 0 < i < |cs.chain| && cs.chain[i] in cs.witnessFiles
    ensures var b := ReadAs(cs.store, cs.witnessFiles, cs.chain[i]);
            b.Some? && forall j :: 0 < j < |b.value.txs| ==> Signed(cs.rules, b.value.txs[j])
  {
    hide *;
    cs.ValidMeans();
    VerifiedHere(cs.rules, cs.env.net, cs.prune, cs.store, cs.chain, cs.State(), cs.byAddr, cs.supply, cs.txindex,
                 cs.undoFiles, cs.Held(), cs.witnessFiles);
    BlockIsSigned(cs.rules, cs.env.net, cs.store, cs.chain, cs.witnessFiles, i);
  }

  lemma VerifiedHere(r: Rules, s: Network, prune: bool, store: Store, chain: seq<Hash>, st: State,
                     byAddr: map<Hash, set<OutPoint>>, supply: Amount, txindex: map<Hash, Hash>,
                     undo: map<Hash, Undo>, snaps: Snaps, files: Files)
    requires LedgerValues(r, s, prune, store, chain, st, byAddr, supply, txindex, undo, snaps, files)
    ensures Verified(r, s, store, chain, files)
  {
    hide Verified, LedgerOk, SnapsOk, FilesOk, UndoKept, Anchored;
  }

  lemma BlockIsSigned(r: Rules, s: Network, store: Store, chain: seq<Hash>, files: Files, i: nat)
    requires r.TxidsIdeal() && Verified(r, s, store, chain, files) && 0 < i < |chain| && chain[i] in files
    ensures var b := ReadAs(store, files, chain[i]);
            b.Some? && forall j :: 0 < j < |b.value.txs| ==> Signed(r, b.value.txs[j])
  {
    hide ConnectState, Provenance, Signed, Replays, ReadAs;
    assert VerifiedAt(r, s, store, chain, files, i);
    var bs := BlocksOf(store, chain)[..i];
    var st :| Replays(r, bs, st) && Connectable(r, st, store, files, chain[i], i);
    ReplaysIff(r, bs, st);
    ReplayProvenance(r, bs);
    var b := ReadAs(store, files, chain[i]).value;
    ConnectSignedIff(r, st, b, i);
    forall j | 0 < j < |b.txs| ensures Signed(r, b.txs[j]) { assert b.txs[j] == b.txs[1..][j - 1]; }
  }

  // ---------------------------------------------------------------- a whole activation

  /** The rest of `Chainstate.Valid`, which connecting and disconnecting leave alone. */
  ghost function Fine(cs: Chainstate, mp: Mempool): (ok: bool)
    reads cs, mp, mp.view
    ensures ok <==>
              && Follows(cs, mp) && CandidatesOk(cs.nodes, cs.chainData, cs.failed, cs.candidates, cs.high)
              && BestHeaderOk(cs.nodes, cs.failed, cs.bestHeader) && SeqsOk(cs.nodes, cs.nextSeq)
                  && GenesisOk(cs.store, cs.genesis)
  {
    && Follows(cs, mp) && CandidatesOk(cs.nodes, cs.chainData, cs.failed, cs.candidates, cs.high)
    && BestHeaderOk(cs.nodes, cs.failed, cs.bestHeader) && SeqsOk(cs.nodes, cs.nextSeq)
        && GenesisOk(cs.store, cs.genesis)
  }

  lemma FineFacts(cs: Chainstate, mp: Mempool)
    requires Fine(cs, mp)
    ensures cs.Valid() && TreeOk(cs.nodes, cs.genesis) && SkipsOk(cs.nodes, cs.genesis)
              && ChainOk(cs.nodes, cs.genesis, cs.chain)
    ensures cs.chain != [] && cs.Tip() in cs.nodes && cs.Tip() in cs.chainData && cs.bestHeader in cs.nodes
    ensures cs.candidates <= cs.chainData <= cs.nodes.Keys && cs.candidates !! cs.failed
  {
    hide *;
    TreeParts(cs.rules, cs.env.net, cs.nodes, cs.genesis, cs.children, cs.chain, cs.store, cs.chainData, cs.failed);
    Ready(cs.rules, cs.env.net, cs.nodes, cs.genesis, cs.children, cs.chain, cs.store, cs.chainData, cs.failed,
          cs.candidates, cs.high, cs.bestHeader);
  }

  /** Back to block `n` of the chain, each block called back. */
  method RewindAndTell(cs: Chainstate, mp: Mempool, fork: Hash, ghost n: nat) returns (ok: bool)
    requires Fine(cs, mp) && n < |cs.chain| && cs.chain[n] == fork
    modifies cs`utxo, cs`byAddr, cs`supply, cs`tokens, cs`pools, cs`txindex, cs`chain, cs`peaks, cs`deepest
    modifies mp`tip, mp`seen, mp`readd, mp`dirty
    ensures Fine(cs, mp) && n < |cs.chain| && PrefixOf(cs.chain, old(cs.chain)) && (ok ==> cs.Tip() == fork)
  {
    hide *;
    PrefixSelf(cs.chain);
    while cs.Tip() != fork
      invariant Fine(cs, mp) && n < |cs.chain| && PrefixOf(cs.chain, old(cs.chain))
      decreases |cs.chain|
    {
      PrefixShrinks(cs.chain, old(cs.chain), n);
      var done := DisconnectAndTell(cs, mp);
      if !done { return false; }
    }
    ok := true;
  }

  /** One block up, called back if it connects, failed if it is rejected. */
  method ClimbAndTell(cs: Chainstate, mp: Mempool, b: Hash, ghost cand: Hash) returns (out: Outcome)
    requires Fine(cs, mp) && TreeOk(cs.nodes, cs.genesis) && cand in cs.chainData && cand !in cs.failed
    requires Climbed(cs.nodes, cs.genesis, cand, cs.chain) && |cs.chain| <= cs.nodes[cand].height
    requires b == Up(cs.nodes, cs.genesis, cand, |cs.chain|)
    modifies cs`utxo, cs`byAddr, cs`supply, cs`tokens, cs`pools, cs`txindex, cs`chain, cs`undoFiles, cs`witnessFiles
    modifies cs`snapshots, cs`peaks, cs`deepest, cs`skipped, cs`failed, cs`candidates, cs`bestHeader
    modifies mp`tip, mp`seen, mp`order, mp`byId, mp`bytes, mp`dirty
    ensures Fine(cs, mp)
    ensures out == Connected ==>
              cs.chain == old(cs.chain) + [b] && Climbed(cs.nodes, cs.genesis, cand, cs.chain)
              && cs.failed == old(cs.failed)
  {
    hide *;
    FineFacts(cs, mp);
    ClimbNext(cs.rules, cs.env.net, cs.nodes, cs.genesis, cs.children, cs.chain, cs.store, cs.chainData, cs.failed,
              cand, b);
    out := ConnectAndTell(cs, mp, b);
    if out == Invalid { FailAndGoOn(cs, mp, b); }
  }

  method FailAndGoOn(cs: Chainstate, mp: Mempool, b: Hash)
    requires Fine(cs, mp) && b !in cs.chain && ChainOk(cs.nodes, cs.genesis, cs.chain + [b]) && b in cs.chainData
               && b !in cs.failed
    requires cs.env.net.Ok() && ReadAs(cs.store, cs.witnessFiles, b).Some?
    requires Rejects(cs.rules, cs.env.net, cs.State(), cs.chain, cs.snapshots, cs.store, cs.witnessFiles, b)
    modifies cs`failed, cs`candidates, cs`bestHeader
    ensures Fine(cs, mp)
  {
    hide *;
    FineFacts(cs, mp);
    AtHome(cs.rules, cs.env.net, cs.prune, cs.nodes, cs.genesis, cs.children, cs.store, cs.chain, cs.State(), cs.byAddr,
           cs.supply, cs.txindex,
           cs.undoFiles, cs.Held(), cs.witnessFiles, cs.chainData, cs.failed, cs.candidates, cs.high, cs.bestHeader);
    cs.FailBlock(b, cs.chain);
    CandidatesShrink(cs.nodes, cs.chainData, old(cs.failed), cs.failed, old(cs.candidates), cs.candidates, cs.high);
  }

  /** One round of `activate_best_chain`, with its callbacks. */
  method RoundAndTell(cs: Chainstate, mp: Mempool) returns (more: bool)
    requires Fine(cs, mp)
    modifies cs`utxo, cs`byAddr, cs`supply, cs`tokens, cs`pools, cs`txindex, cs`chain, cs`undoFiles, cs`witnessFiles
    modifies cs`snapshots, cs`peaks, cs`deepest, cs`skipped, cs`failed, cs`candidates, cs`bestHeader
    modifies mp`tip, mp`seen, mp`order, mp`byId, mp`bytes, mp`readd, mp`dirty
    ensures Fine(cs, mp)
  {
    hide *;
    FineFacts(cs, mp);
    var cand := cs.BestCandidate();
    if cand == cs.Tip() { return false; }
    var t, before := cs.nodes, cs.chain;
    var fork := FindFork(t, cs.genesis, before, cand);
    ForkOnChain(t, cs.genesis, before, fork, cand);
    var ok := RewindAndTell(cs, mp, fork, t[fork].height);
    if !ok { return false; }
    more := PathAndTell(cs, mp, cand);
  }

  method PathAndTell(cs: Chainstate, mp: Mempool, cand: Hash) returns (more: bool)
    requires Fine(cs, mp) && TreeOk(cs.nodes, cs.genesis) && cand in cs.chainData && cand !in cs.failed
    requires cs.chain != [] && IsAncestor(cs.nodes, cs.genesis, cs.Tip(), cand)
    modifies cs`utxo, cs`byAddr, cs`supply, cs`tokens, cs`pools, cs`txindex, cs`chain, cs`undoFiles, cs`witnessFiles
    modifies cs`snapshots, cs`peaks, cs`deepest, cs`skipped, cs`failed, cs`candidates, cs`bestHeader
    modifies mp`tip, mp`seen, mp`order, mp`byId, mp`bytes, mp`dirty
    ensures Fine(cs, mp)
  {
    hide *;
    PathReady(cs.rules, cs.env.net, cs.nodes, cs.genesis, cs.children, cs.store, cs.chain, cs.chainData, cs.failed,
              cand);
    var t, n := cs.nodes, |cs.chain|;
    var path := PathTo(t, cs.genesis, cand, n - 1);
    for i := 0 to |path|
      invariant Fine(cs, mp) && |cs.chain| == n + i && Climbed(t, cs.genesis, cand, cs.chain) && cand !in cs.failed
    {
      var out := ClimbAndTell(cs, mp, path[i], cand);
      if out != Connected { return out == Invalid; }
    }
    more := true;
  }

  /** `activate_best_chain` with every callback in its place. Throughout, the mempool's chain is the chain; and if the
      tip has changed, the mempool's list applies, in order, to the new state. */
  method ActivateAndTell(cs: Chainstate, mp: Mempool) returns (told: bool)
    requires Fine(cs, mp)
    modifies cs`utxo, cs`byAddr, cs`supply, cs`tokens, cs`pools, cs`txindex, cs`chain, cs`undoFiles, cs`witnessFiles
    modifies cs`snapshots, cs`peaks, cs`deepest, cs`skipped, cs`failed, cs`candidates, cs`bestHeader, cs`high
    modifies mp, mp.view
    ensures Fine(cs, mp) && cs.Valid() && cs.chain != [] && old(cs.chain) != [] && (told <==> cs.Tip() != old(cs.Tip()))
    ensures told ==> !mp.dirty && mp.readd == []
    ensures told ==> ApplyAll(cs.rules, cs.State(), Txs(mp.order), |cs.chain|, false).Ok?
    ensures told ==> ApplyAll(cs.rules, cs.State(), Txs(mp.order), |cs.chain|, false).value.state == mp.view.State()
  {
    hide *;
    FineFacts(cs, mp);
    var start := cs.Tip();
    SearchAndTell(cs, mp);
    FineFacts(cs, mp);
    told := cs.Tip() != start;
    if told { TellTip(cs, mp); }
  }

  /** The callback for a new tip. */
  method TellTip(cs: Chainstate, mp: Mempool)
    requires Fine(cs, mp)
    modifies mp, mp.view
    ensures Fine(cs, mp) && !mp.dirty && mp.readd == []
    ensures ApplyAll(cs.rules, cs.State(), Txs(mp.order), |cs.chain|, false).Ok?
    ensures ApplyAll(cs.rules, cs.State(), Txs(mp.order), |cs.chain|, false).value.state == mp.view.State()
  {
    hide *;
    mp.OnTip();
    mp.CleanHere();
  }

  method SearchAndTell(cs: Chainstate, mp: Mempool)
    requires Fine(cs, mp)
    modifies cs`utxo, cs`byAddr, cs`supply, cs`tokens, cs`pools, cs`txindex, cs`chain, cs`undoFiles, cs`witnessFiles
    modifies cs`snapshots, cs`peaks, cs`deepest, cs`skipped, cs`failed, cs`candidates, cs`bestHeader, cs`high
    modifies mp`tip, mp`seen, mp`order, mp`byId, mp`bytes, mp`readd, mp`dirty
    ensures Fine(cs, mp)
  {
    hide *;
    var guard, more := 0, true;
    while more && guard < 1_000_000
      invariant Fine(cs, mp)
    {
      more := RoundAndTell(cs, mp);
      guard := guard + 1;
    }
    FinishAndTell(cs, mp);
  }

  method FinishAndTell(cs: Chainstate, mp: Mempool)
    requires Fine(cs, mp)
    modifies cs`candidates, cs`high
    ensures Fine(cs, mp)
  {
    hide *;
    FineFacts(cs, mp);
    cs.FinishCandidates();
  }
}
