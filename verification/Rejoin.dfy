/** Blocks that once connected connect again, and blocks that failed did not: what a block's files make of it on
    top of its own ancestors, apart from any particular moment (src/chain/chainstate.cpp:456-478, 747-774). */
module Rejoins {
  import opened Types
  import opened Arith
  import opened Ledger
  import opened Replay
  import opened BlockTree
  import opened ChainLedger
  import opened Commitments

  type Files = map<Hash, seq<seq<Witness>>>

  // ---------------------------------------------------------------- reading a block

  /** Witnesses read back into a block; a coinbase has none that anyone looks at. */
  function WithWitnesses(b: Block, ws: seq<seq<Witness>>): Block
    requires |b.txs| <= |ws|
  {
    b.(txs := seq(|b.txs|, i requires 0 <= i < |b.txs| => if i == 0 then b.txs[0] else b.txs[i].(wits := ws[i])))
  }

  ghost predicate SameCores(a: Block, b: Block) {
    && |a.txs| == |b.txs|
    && (forall i :: 0 <= i < |a.txs| ==> a.txs[i].core == b.txs[i].core && (i == 0 ==> a.txs[i] == b.txs[i]))
  }

  /** `read_block`: the stored cores, with the witnesses of the witness file if there is one. */
  function ReadAs(store: Store, files: Files, x: Hash): (b: Option<Block>)
    ensures b.Some? ==> x in store && SameCores(store[x], b.value)
  {
    if x !in store then None
    else if x !in files then Some(store[x])
    else if |files[x]| < |store[x].txs| then None
    else Some(WithWitnesses(store[x], files[x]))
  }

  lemma SameCoresShape(a: Block, b: Block, height: nat)
    requires SameCores(a, b) && ShapeOk(a, height)
    ensures ShapeOk(b, height)
  {}

  /** Witnesses can only make a block fail: replay may leave them out. */
  lemma SameCoresConnect(r: Rules, st: State, a: Block, b: Block, height: nat, verify: bool)
    requires SameCores(a, b) && b.txs != [] && ConnectState(r, st, b, height, verify).Ok?
    ensures a.txs != [] && ConnectState(r, st, a, height, false) == ConnectState(r, st, b, height, verify)
  {
    ConnectVerified(r, st, b, height, verify);
    var st0 := ApplyCoinbase(r, st, a.txs[0], height);
    ApplyAllCores(r, st0, a.txs[1..], b.txs[1..], height);
  }

  lemma {:induction false} ApplyAllCores(r: Rules, st: State, txs: seq<Transaction>, txs': seq<Transaction>,
                                         height: nat)
    requires |txs| == |txs'| && forall i :: 0 <= i < |txs| ==> txs[i].core == txs'[i].core
    ensures ApplyAll(r, st, txs, height, false) == ApplyAll(r, st, txs', height, false)
  {
    hide ApplyTx;
    if txs != [] {
      var n := |txs| - 1;
      ApplyAllCores(r, st, txs[..n], txs'[..n], height);
      var front := ApplyAll(r, st, txs[..n], height, false);
      if front.Ok? { ApplyTxCores(r, front.value.state, txs[n], txs'[n], height); }
    }
  }

  lemma ApplyTxCores(r: Rules, st: State, tx: Transaction, tx': Transaction, height: nat)
    requires tx.core == tx'.core
    ensures ApplyTx(r, st, tx, height, false) == ApplyTx(r, st, tx', height, false)
  {}

  // ---------------------------------------------------------------- blocks that connected

  /** The block, as its files give it now, connects to `st` at height `h`. */
  predicate Connectable(r: Rules, st: State, store: Store, files: Files, x: Hash, h: nat) {
    var b := ReadAs(store, files, x);
    b.Some? && b.value.txs != [] && ConnectState(r, st, b.value, h, x in files && h > 0).Ok?
  }

  ghost predicate VerifiedAt(r: Rules, s: Network, store: Store, chain: seq<Hash>, files: Files, i: nat)
    requires s.Ok() && Stored(store, chain) && i < |chain|
  {
    exists st :: Replays(r, BlocksOf(store, chain)[..i], st) && Connectable(r, st, store, files, chain[i], i)
  }

  /** Every block of the chain would connect again in its place. */
  ghost predicate Verified(r: Rules, s: Network, store: Store, chain: seq<Hash>, files: Files) {
    && s.Ok() && Stored(store, chain)
    && forall i :: 0 < i < |chain| ==> VerifiedAt(r, s, store, chain, files, i)
  }

  /** A block is read the same way from both. */
  ghost predicate ReadSame(store: Store, store': Store, files: Files, files': Files, x: Hash) {
    && x in store && x in store' && store'[x] == store[x]
    && (x in files <==> x in files') && (x in files ==> files'[x] == files[x])
  }

  /** Or its witness file is gone. */
  ghost predicate ReadLess(store: Store, store': Store, files: Files, files': Files, x: Hash) {
    ReadSame(store, store', files, files', x) || (x in store && x in store' && store'[x] == store[x] && x !in files')
  }

  /** Losing witnesses does not make a block fail. */
  lemma ConnectableLess(r: Rules, st: State, store: Store, store': Store, files: Files, files': Files, x: Hash, h: nat)
    requires Connectable(r, st, store, files, x, h) && ReadLess(store, store', files, files', x)
    ensures Connectable(r, st, store', files', x, h)
  {
    hide ConnectState;
    if x in files && x !in files' {
      SameCoresConnect(r, st, store[x], ReadAs(store, files, x).value, h, h > 0);
    }
  }

  /** More blocks stored, fewer witness files, a shorter chain: still verified. */
  lemma VerifiedLess(r: Rules, s: Network, store: Store, store': Store, chain: seq<Hash>, chain': seq<Hash>,
                     files: Files, files': Files)
    requires Verified(r, s, store, chain, files) && chain' <= chain
    requires forall x :: x in store ==> x in store' && store'[x] == store[x]
    requires forall i :: 0 <= i < |chain'| ==> ReadLess(store, store', files, files', chain'[i])
    ensures Verified(r, s, store', chain', files')
  {
    hide Connectable, ReadLess, HashAt;
    forall i | 0 < i < |chain'| ensures Stored(store', chain') && VerifiedAt(r, s, store', chain', files', i) {
      assert VerifiedAt(r, s, store, chain, files, i);
      VerifiedAtLess(r, s, store, store', chain, chain', files, files', i);
    }
  }

  lemma VerifiedAtLess(r: Rules, s: Network, store: Store, store': Store, chain: seq<Hash>, chain': seq<Hash>,
                       files: Files, files': Files, i: nat)
    requires s.Ok() && Stored(store, chain) && Stored(store', chain') && i < |chain'| && chain' <= chain
    requires VerifiedAt(r, s, store, chain, files, i) && ReadLess(store, store', files, files', chain'[i])
    requires forall x :: x in store ==> x in store' && store'[x] == store[x]
    ensures VerifiedAt(r, s, store', chain', files', i)
  {
    hide Connectable, HashAt, ReadLess, Replays;
    var st :| Replays(r, BlocksOf(store, chain)[..i], st) && Connectable(r, st, store, files, chain[i], i);
    assert BlocksOf(store', chain')[..i] == BlocksOf(store, chain)[..i];
    ConnectableLess(r, st, store, store', files, files', chain[i], i);
  }

  /** A block that connects joins the verified ones. */
  lemma VerifiedNext(r: Rules, s: Network, store: Store, chain: seq<Hash>, files: Files, st: State, x: Hash)
    requires Verified(r, s, store, chain, files) && Replays(r, BlocksOf(store, chain), st)
    requires x in store && Connectable(r, st, store, files, x, |chain|)
    ensures Verified(r, s, store, chain + [x], files)
  {
    hide Connectable, Replays, VerifiedAt;
    var n, chain' := |chain|, chain + [x];
    forall i | 0 < i < |chain'| ensures Stored(store, chain') && VerifiedAt(r, s, store, chain', files, i) {
      if i < n {
        assert VerifiedAt(r, s, store, chain, files, i);
        VerifiedAtLonger(r, s, store, chain, x, files, i);
      } else {
        VerifiedAtLast(r, s, store, chain, files, st, x);
      }
    }
  }

  lemma VerifiedAtLast(r: Rules, s: Network, store: Store, chain: seq<Hash>, files: Files, st: State, x: Hash)
    requires s.Ok() && Stored(store, chain) && Replays(r, BlocksOf(store, chain), st)
    requires x in store && Connectable(r, st, store, files, x, |chain|)
    ensures Stored(store, chain + [x]) && VerifiedAt(r, s, store, chain + [x], files, |chain|)
  {
    hide Connectable, Replays;
    assert BlocksOf(store, chain + [x])[..|chain|] == BlocksOf(store, chain);
  }

  lemma VerifiedAtLonger(r: Rules, s: Network, store: Store, chain: seq<Hash>, x: Hash, files: Files, i: nat)
    requires s.Ok() && Stored(store, chain) && x in store && i < |chain| && VerifiedAt(r, s, store, chain, files, i)
    ensures VerifiedAt(r, s, store, chain + [x], files, i)
  {
    hide Connectable, Replays;
    assert BlocksOf(store, chain + [x])[..i] == BlocksOf(store, chain)[..i];
  }

  // ---------------------------------------------------------------- rejoining

  /** Two chains that share a block share everything below it. */
  lemma SharedPrefix(t: Tree, root: Hash, home: seq<Hash>, chain: seq<Hash>, b: Hash)
    requires TreeOk(t, root) && ChainOk(t, root, home) && ChainOk(t, root, chain + [b]) && b in home
    ensures |chain| < |home| && home[|chain|] == b && chain == home[..|chain|]
  {
    var chain', n := chain + [b], |chain|;
    assert chain'[n] == b;
    var j :| 0 <= j < |home| && home[j] == b;
    assert j == n;
    forall i | 0 <= i < n ensures chain[i] == home[i] {
      ChainUp(t, root, chain', n, i);
      ChainUp(t, root, home, n, i);
      assert chain'[i] == chain[i];
    }
  }

  lemma HashUnique(r: Rules, s: Network, store: Store, a: seq<Hash>, b: seq<Hash>, i: nat, g: Hash, h: Hash)
    requires Stored(store, a) && Stored(store, b) && i < |a| && i < |b| && a[..i + 1] == b[..i + 1]
    requires HashAt(r, s, store, a, i, g) && HashAt(r, s, store, b, i, h)
    ensures g == h
  {
    HashAtSame(r, s, store, store, a, b, i, g);
    var st :| Replays(r, BlocksOf(store, b)[..i + 1], st) && g == s.stateHash(b[i], i, st);
    var st' :| Replays(r, BlocksOf(store, b)[..i + 1], st') && h == s.stateHash(b[i], i, st');
    ReplaysIff(r, BlocksOf(store, b)[..i + 1], st);
    ReplaysIff(r, BlocksOf(store, b)[..i + 1], st');
  }

  /** A block of a verified chain is never refused on top of its own ancestors, unless its commitment is wrong and
      was not checked the first time. */
  lemma Rejoining(r: Rules, s: Network, t: Tree, root: Hash, store: Store, home: seq<Hash>, chain: seq<Hash>,
                  files: Files, snaps: Snaps, st: State, b: Hash)
    requires TreeOk(t, root) && ChainOk(t, root, home) && ChainOk(t, root, chain + [b]) && b in home && chain != []
    requires Verified(r, s, store, home, files) && SnapsOk(r, s, store, chain, snaps)
               && Replays(r, BlocksOf(store, chain), st)
    ensures Connectable(r, st, store, files, b, |chain|)
    ensures AllRight(r, s, store, home) ==> Commits(s, chain, snaps.hashes, b)
  {
    hide Connectable, HashAt, Replays, VerifiedAt, SnapsOk, TreeOk, ChainOk, BlocksOf, CommitRight;
    var n := |chain|;
    SharedPrefix(t, root, home, chain, b);
    assert VerifiedAt(r, s, store, home, files, n);
    RejoinsState(r, s, store, home, files, st, n);
    if AllRight(r, s, store, home) { RejoinsCommit(r, s, store, home, snaps, n); }
  }

  lemma RejoinsState(r: Rules, s: Network, store: Store, home: seq<Hash>, files: Files, st: State, n: nat)
    requires s.Ok() && Stored(store, home) && n < |home| && VerifiedAt(r, s, store, home, files, n)
    requires Stored(store, home[..n]) && Replays(r, BlocksOf(store, home[..n]), st)
    ensures Connectable(r, st, store, files, home[n], n)
  {
    hide Connectable, HashAt, Replays;
    var st' :| Replays(r, BlocksOf(store, home)[..n], st') && Connectable(r, st', store, files, home[n], n);
    assert BlocksOf(store, home)[..n] == BlocksOf(store, home[..n]);
    ReplaysIff(r, BlocksOf(store, home[..n]), st);
    ReplaysIff(r, BlocksOf(store, home[..n]), st');
  }

  lemma RejoinsCommit(r: Rules, s: Network, store: Store, home: seq<Hash>, snaps: Snaps, n: nat)
    requires s.Ok() && Stored(store, home) && n < |home| && CommitRight(r, s, store, home, n)
    requires SnapsOk(r, s, store, home[..n], snaps)
    ensures Commits(s, home[..n], snaps.hashes, home[n])
  {
    hide HashAt, PeaksOk, HeldIff, Unchecked;
    var chain := home[..n];
    if s.CommitHeight(n) && chain[n - s.delay] in snaps.hashes {
      var k := n - s.delay;
      assert HashAt(r, s, store, chain, k, snaps.hashes[chain[k]]);
      assert home[..k + 1] == chain[..k + 1];
      HashUnique(r, s, store, home, chain, k, s.commitOf(home[n]), snaps.hashes[chain[k]]);
    }
  }

  // ---------------------------------------------------------------- blocks that failed

  /** Witness files hold what the header commits to. */
  ghost predicate FilesOk(s: Network, store: Store, files: Files)
  {
    forall x :: x in files ==> x in store && s.witnessOk(x, files[x])
  }

  /** On top of `c`, the replay of its own ancestors, `b` breaks its commitment or does not connect. */
  ghost predicate BadOn(r: Rules, s: Network, store: Store, c: seq<Hash>, b: Hash) {
    && s.Ok() && Stored(store, c) && b in store
    && exists st :: Replays(r, BlocksOf(store, c), st)
        && (CommitWrong(r, s, store, c, b) || NoConnect(r, s, st, store[b], b, |c|))
  }

  ghost predicate CommitWrong(r: Rules, s: Network, store: Store, c: seq<Hash>, b: Hash)
    requires s.Ok() && Stored(store, c)
  {
    s.CommitHeight(|c|) && OtherHash(r, s, store, c, |c| - s.delay, s.commitOf(b))
  }

  /** The replayed state's hash is not `g`. */
  ghost predicate OtherHash(r: Rules, s: Network, store: Store, c: seq<Hash>, k: nat, g: Hash)
    requires Stored(store, c) && k < |c|
  {
    exists h :: HashAt(r, s, store, c, k, h) && h != g
  }

  /** Block `x` does not connect even unsigned, or not with the witnesses its header commits to. */
  ghost predicate NoConnect(r: Rules, s: Network, st: State, b: Block, x: Hash, height: nat) {
    b.txs != [] && (ConnectState(r, st, b, height, false).Err? || exists ws :: BadlySigned(r, s, st, b, x, height, ws))
  }

  ghost predicate BadlySigned(r: Rules, s: Network, st: State, b: Block, x: Hash, height: nat, ws: seq<seq<Witness>>) {
    b.txs != [] && |b.txs| <= |ws| && s.witnessOk(x, ws) && ConnectState(r, st, WithWitnesses(b, ws), height, true).Err?
  }

  /** A block that connects with the only witnesses its header can commit to is not one of these. */
  lemma GoodConnects(r: Rules, s: Network, st: State, b: Block, x: Hash, height: nat, ws: seq<seq<Witness>>)
    requires b.txs != [] && |b.txs| <= |ws| && ConnectState(r, st, WithWitnesses(b, ws), height, true).Ok?
    requires forall other :: s.witnessOk(x, other) ==> other == ws
    ensures !NoConnect(r, s, st, b, x, height)
  {
    hide ConnectState;
    SameCoresConnect(r, st, b, WithWitnesses(b, ws), height, true);
  }

  ghost predicate Unsound(r: Rules, s: Network, t: Tree, root: Hash, store: Store, b: Hash) {
    exists c :: ChainOk(t, root, c + [b]) && BadOn(r, s, store, c, b)
  }

  /** No block is marked failed unless it, or a block below it, does not connect where it stands. */
  ghost predicate FailedOk(r: Rules, s: Network, t: Tree, root: Hash, store: Store, failed: set<Hash>) {
    TreeOk(t, root) && forall x :: x in failed ==> Blamed(r, s, t, root, store, x)
  }

  ghost predicate Blamed(r: Rules, s: Network, t: Tree, root: Hash, store: Store, x: Hash)
    requires TreeOk(t, root)
  {
    exists b :: IsAncestor(t, root, b, x) && Unsound(r, s, t, root, store, b)
  }

  /** What `connect_block` refuses is bad on top of the chain. */
  lemma RefusedIsBad(r: Rules, s: Network, store: Store, chain: seq<Hash>, files: Files, snaps: Snaps, st: State,
                     b: Hash)
    requires SnapsOk(r, s, store, chain, snaps) && Replays(r, BlocksOf(store, chain), st)
    requires b in store && store[b].txs != [] && ReadAs(store, files, b).Some? && FilesOk(s, store, files)
    requires !Commits(s, chain, snaps.hashes, b) || !Connectable(r, st, store, files, b, |chain|)
    ensures BadOn(r, s, store, chain, b)
  {
    hide HashAt, Replays, PeaksOk, HeldIff, Unchecked, CommitRight, Connectable, NoConnect;
    if !Commits(s, chain, snaps.hashes, b) {
      var k := |chain| - s.delay;
      assert HashAt(r, s, store, chain, k, snaps.hashes[chain[k]]);
      assert OtherHash(r, s, store, chain, k, s.commitOf(b));
      assert CommitWrong(r, s, store, chain, b);
    } else {
      NotConnectable(r, s, st, store, files, b, |chain|);
    }
  }

  lemma NotConnectable(r: Rules, s: Network, st: State, store: Store, files: Files, b: Hash, h: nat)
    requires b in store && store[b].txs != [] && ReadAs(store, files, b).Some? && FilesOk(s, store, files)
    requires !Connectable(r, st, store, files, b, h)
    ensures NoConnect(r, s, st, store[b], b, h)
  {
    hide ConnectState;
    if b in files {
      var blk := WithWitnesses(store[b], files[b]);
      if h > 0 {
        assert BadlySigned(r, s, st, store[b], b, h, files[b]);
      } else if ConnectState(r, st, store[b], h, false).Ok? {
        SameCoresConnect(r, st, blk, store[b], h, false);
      }
    }
  }

  lemma BadOnStable(r: Rules, s: Network, store: Store, store': Store, c: seq<Hash>, b: Hash)
    requires BadOn(r, s, store, c, b) && forall x :: x in store ==> x in store' && store'[x] == store[x]
    ensures BadOn(r, s, store', c, b)
  {
    hide HashAt, ConnectState, Replays, NoConnect;
    assert BlocksOf(store', c) == BlocksOf(store, c);
    if CommitWrong(r, s, store, c, b) {
      var k := |c| - s.delay;
      var h :| HashAt(r, s, store, c, k, h) && h != s.commitOf(b);
      HashAtSame(r, s, store, store', c, c, k, h);
      assert OtherHash(r, s, store', c, k, s.commitOf(b));
      assert CommitWrong(r, s, store', c, b);
    }
  }

  ghost predicate TreeGrows(t: Tree, t': Tree) { forall y :: y in t ==> y in t' && t'[y] == t[y] }

  /** Blame outlives new headers and new block data. */
  lemma FailedStable(r: Rules, s: Network, t: Tree, t': Tree, root: Hash, store: Store, store': Store,
                     failed: set<Hash>)
    requires FailedOk(r, s, t, root, store, failed) && TreeOk(t', root) && TreeGrows(t, t')
    requires forall x :: x in store ==> x in store' && store'[x] == store[x]
    ensures FailedOk(r, s, t', root, store', failed)
  {
    hide BadOn, TreeOk, ChainOk;
    forall x | x in failed ensures Blamed(r, s, t', root, store', x) {
      assert Blamed(r, s, t, root, store, x);
      var b :| IsAncestor(t, root, b, x) && Unsound(r, s, t, root, store, b);
      var c :| ChainOk(t, root, c + [b]) && BadOn(r, s, store, c, b);
      ChainGrows(t, t', root, c + [b]);
      BadOnStable(r, s, store, store', c, b);
      UpStable(t, t', root, x, t[b].height);
      assert IsAncestor(t', root, b, x) && Unsound(r, s, t', root, store', b);
    }
  }

  lemma ChainGrows(t: Tree, t': Tree, root: Hash, chain: seq<Hash>)
    requires ChainOk(t, root, chain) && TreeGrows(t, t')
    ensures ChainOk(t', root, chain)
  {}

  /** Failing a bad block and everything above it. */
  lemma FailedMore(r: Rules, s: Network, t: Tree, root: Hash, store: Store, failed: set<Hash>, c: seq<Hash>, b: Hash)
    requires FailedOk(r, s, t, root, store, failed) && ChainOk(t, root, c + [b]) && BadOn(r, s, store, c, b)
    ensures FailedOk(r, s, t, root, store, failed + Descendants(t, root, b))
  {
    hide BadOn, TreeOk, ChainOk, IsAncestor;
    assert Unsound(r, s, t, root, store, b);
    forall x | x in failed + Descendants(t, root, b) ensures Blamed(r, s, t, root, store, x) {
      if x in failed { assert Blamed(r, s, t, root, store, x); }
    }
  }

  /** A branch whose commitments are right, and whose blocks connect unsigned and with every list of witnesses that
      their headers commit to. */
  ghost predicate SoundBranch(r: Rules, s: Network, store: Store, c: seq<Hash>) {
    AllRight(r, s, store, c) && forall i :: 0 <= i < |c| ==> SoundAt(r, s, store, c, i)
  }

  ghost predicate SoundAt(r: Rules, s: Network, store: Store, c: seq<Hash>, i: nat)
    requires Stored(store, c) && i < |c|
  {
    exists st :: Replays(r, BlocksOf(store, c)[..i], st) && !NoConnect(r, s, st, store[c[i]], c[i], i)
  }

  /** Is never failed. */
  lemma SoundNeverFails(r: Rules, s: Network, t: Tree, root: Hash, store: Store, failed: set<Hash>, c: seq<Hash>,
                        i: nat)
    requires FailedOk(r, s, t, root, store, failed) && ChainOk(t, root, c) && SoundBranch(r, s, store, c) && i < |c|
    ensures c[i] !in failed
  {
    hide BadOn, SoundAt, AllRight, TreeOk, ChainOk;
    if c[i] in failed {
      assert Blamed(r, s, t, root, store, c[i]);
      var b :| IsAncestor(t, root, b, c[i]) && Unsound(r, s, t, root, store, b);
      var d :| ChainOk(t, root, d + [b]) && BadOn(r, s, store, d, b);
      OnBranch(t, root, c, i, b);
      SharedPrefix(t, root, c, d, b);
      SoundIsNotBad(r, s, store, c, |d|);
    }
  }

  lemma OnBranch(t: Tree, root: Hash, c: seq<Hash>, i: nat, b: Hash)
    requires TreeOk(t, root) && ChainOk(t, root, c) && i < |c| && IsAncestor(t, root, b, c[i])
    ensures b in c
  {
    ChainUp(t, root, c, i, t[b].height);
  }

  lemma SoundIsNotBad(r: Rules, s: Network, store: Store, c: seq<Hash>, j: nat)
    requires SoundBranch(r, s, store, c) && j < |c|
    ensures !BadOn(r, s, store, c[..j], c[j])
  {
    hide Replays, NoConnect, CommitWrong, CommitRight;
    assert SoundAt(r, s, store, c, j);
    var st :| Replays(r, BlocksOf(store, c)[..j], st) && !NoConnect(r, s, st, store[c[j]], c[j], j);
    assert BlocksOf(store, c[..j]) == BlocksOf(store, c)[..j] && CommitRight(r, s, store, c, j);
    RightIsNotWrong(r, s, store, c, j);
    forall at | Replays(r, BlocksOf(store, c[..j]), at) ensures at == st {
      ReplaysIff(r, BlocksOf(store, c[..j]), st);
      ReplaysIff(r, BlocksOf(store, c[..j]), at);
    }
  }

  lemma RightIsNotWrong(r: Rules, s: Network, store: Store, c: seq<Hash>, j: nat)
    requires s.Ok() && Stored(store, c) && j < |c| && CommitRight(r, s, store, c, j)
    ensures !CommitWrong(r, s, store, c[..j], c[j])
  {
    hide HashAt;
    if CommitWrong(r, s, store, c[..j], c[j]) {
      var k := j - s.delay;
      var h :| HashAt(r, s, store, c[..j], k, h) && h != s.commitOf(c[j]);
      assert c[..j][..k + 1] == c[..k + 1];
      HashUnique(r, s, store, c, c[..j], k, s.commitOf(c[j]), h);
    }
  }

  // ---------------------------------------------------------------- the chain a switch starts from

  /** A verified chain; if its commitments are right, none of its blocks has failed. */
  ghost predicate HomeOk(r: Rules, s: Network, t: Tree, root: Hash, store: Store, home: seq<Hash>, files: Files,
                         failed: set<Hash>) {
    && ChainOk(t, root, home) && Verified(r, s, store, home, files)
    && (AllRight(r, s, store, home) ==> forall i :: 0 <= i < |home| ==> home[i] !in failed)
  }

  /** Pruning leaves it alone. */
  lemma HomeShrinks(r: Rules, s: Network, t: Tree, root: Hash, store: Store, home: seq<Hash>, files: Files,
                    gone: set<Hash>, failed: set<Hash>)
    requires HomeOk(r, s, t, root, store, home, files, failed)
    ensures HomeOk(r, s, t, root, store, home, files - gone, failed)
  {
    hide ChainOk;
    FilesShrink(r, s, store, home, files, gone);
  }

  lemma FilesShrink(r: Rules, s: Network, store: Store, chain: seq<Hash>, files: Files, gone: set<Hash>)
    requires Verified(r, s, store, chain, files)
    ensures Verified(r, s, store, chain, files - gone)
  {
    hide VerifiedAt;
    VerifiedLess(r, s, store, store, chain, chain, files, files - gone);
  }

  /** A block refused on the way is not one of `home`, nor below one of it, if its commitments are right. */
  lemma HomeSpared(r: Rules, s: Network, t: Tree, root: Hash, store: Store, home: seq<Hash>, chain: seq<Hash>,
                   files: Files, snaps: Snaps, st: State, failed: set<Hash>, b: Hash)
    requires TreeOk(t, root) && HomeOk(r, s, t, root, store, home, files, failed) && chain != []
               && ChainOk(t, root, chain + [b])
    requires SnapsOk(r, s, store, chain, snaps) && Replays(r, BlocksOf(store, chain), st)
    requires !Commits(s, chain, snaps.hashes, b) || !Connectable(r, st, store, files, b, |chain|)
    ensures HomeOk(r, s, t, root, store, home, files, failed + Descendants(t, root, b))
  {
    hide Verified, SnapsOk, Commits, Connectable, Replays, AllRight;
    assert (chain + [b])[|chain|] == b;
    NotAtHome(r, s, t, root, store, home, chain, files, snaps, st, b);
    forall i | 0 <= i < |home| && AllRight(r, s, store, home) ensures home[i] !in Descendants(t, root, b) {
      if t[b].height <= i { ChainUp(t, root, home, i, t[b].height); }
    }
  }

  lemma NotAtHome(r: Rules, s: Network, t: Tree, root: Hash, store: Store, home: seq<Hash>, chain: seq<Hash>,
                  files: Files, snaps: Snaps, st: State, b: Hash)
    requires TreeOk(t, root) && ChainOk(t, root, home) && Verified(r, s, store, home, files) && chain != []
               && ChainOk(t, root, chain + [b])
    requires SnapsOk(r, s, store, chain, snaps) && Replays(r, BlocksOf(store, chain), st)
    ensures b in home && AllRight(r, s, store, home) ==>
              Commits(s, chain, snaps.hashes, b) && Connectable(r, st, store, files, b, |chain|)
  {
    hide Verified, SnapsOk, Commits, Connectable, Replays, TreeOk, ChainOk, AllRight;
    if b in home { Rejoining(r, s, t, root, store, home, chain, files, snaps, st, b); }
  }
}
