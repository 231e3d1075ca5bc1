/** Starting from a snapshot (src/chain/chainstate.cpp:252, 352-359, 374-406): a node that has only headers finds the
    hash that its best header chain commits to, and whatever it then accepts is the state of the nodes that replayed
    everything. */
module SnapshotSyncs {
  import opened Types
  import opened Replay
  import opened BlockTree
  import opened ChainLedger
  import opened Commitments
  import opened Codecs
  import opened TxCodecs
  import opened Snapshots
  import opened Sorting
  import opened SnapshotLimits
  import opened ChainSteps
  import opened Chainstates
  import SnapshotLoads

  // ---------------------------------------------------------------- any bytes with the committed hash

  ghost predicate Injective(hash: Codecs.Bytes -> Hash) { forall x, y :: hash(x) == hash(y) ==> x == y }

  /** The state hash of the network is the hash of the snapshot's bytes. */
  ghost predicate HashesSnapshots(s: Network, hash: Codecs.Bytes -> Hash) {
    forall st, snap :: Lists(st, snap) ==> s.stateHash(snap.block, snap.height, st) == hash(SnapshotBytes(snap))
  }

  /** Bytes with the hash of a replayed state's snapshot parse to that snapshot, and connecting later blocks to what
      they hold ends where full replay ends. */
  lemma FastSync(r: Rules, hash: Codecs.Bytes -> Hash, front: seq<Block>, later: seq<Block>, s: Snapshot,
                 got: Codecs.Bytes)
    requires Injective(hash) && InLimits(r, front) && Replayed(r, front).Some? && Lists(Replayed(r, front).value, s)
    requires s.block < Limit(32) && s.height < TWO64 && hash(got) == hash(SnapshotBytes(s))
    ensures ParseBytes(got) == Some(s) && StateOf(s) == Replayed(r, front).value
    ensures ReplayFrom(r, StateOf(s), |front|, later) == Replayed(r, front + later)
  {
    hide *;
    assert Injective(hash) ==> got == SnapshotBytes(s) by { SameBytes(hash, got, SnapshotBytes(s)); }
    ReplayEncodable(r, front, s);
    SnapshotExact(Replayed(r, front).value, s);
    ReplayJoins(r, front, later);
  }

  lemma SameBytes(hash: Codecs.Bytes -> Hash, a: Codecs.Bytes, b: Codecs.Bytes)
    requires hash(a) == hash(b)
    ensures Injective(hash) ==> a == b
  {}

  lemma {:induction false} CoresPrefix(blocks: seq<Block>, n: nat) returns (tail: seq<Core>)
    requires n <= |blocks|
    ensures AllCores(blocks) == AllCores(blocks[..n]) + tail
    decreases |blocks|
  {
    if n == |blocks| {
      assert blocks[..n] == blocks;
      tail := [];
      assert AllCores(blocks) + [] == AllCores(blocks);
    } else {
      var m := |blocks| - 1;
      var mid := CoresPrefix(blocks[..m], n);
      assert blocks[..m][..n] == blocks[..n];
      tail := mid + CoresOf(blocks[m].txs);
      assert AllCores(blocks) == AllCores(blocks[..m]) + CoresOf(blocks[m].txs);
      assert (AllCores(blocks[..n]) + mid) + CoresOf(blocks[m].txs) == AllCores(blocks[..n]) + tail;
    }
  }

  lemma LimitsPrefix(r: Rules, blocks: seq<Block>, n: nat)
    requires InLimits(r, blocks) && n <= |blocks|
    ensures InLimits(r, blocks[..n])
  {
    hide AllCores, CoreC, Limit;
    var tail := CoresPrefix(blocks, n);
    var front := AllCores(blocks[..n]);
    WeightSum(front, tail);
    forall i | 0 <= i < |front| ensures r.txid(front[i]) < Limit(32) && CoreC().ok(front[i]) {
      assert (front + tail)[i] == front[i];
    }
  }

  /** The snapshot of block `j` of a chain, and what any bytes with its hash are. */
  ghost predicate SyncsAt(r: Rules, store: Store, chain: seq<Hash>, st: State, j: nat, got: Codecs.Bytes)
    requires Stored(store, chain) && j < |chain|
  {
    var bs := BlocksOf(store, chain);
    var s := ParseBytes(got);
    && s.Some? && s.value.block == chain[j] && s.value.height == j
    && Replayed(r, bs[..j + 1]) == Some(StateOf(s.value)) && Lists(StateOf(s.value), s.value)
    && ReplayFrom(r, StateOf(s.value), j + 1, bs[j + 1..]) == Some(st)
  }

  lemma CommittedAt(r: Rules, sch: Network, hash: Codecs.Bytes -> Hash, store: Store, chain: seq<Hash>, st: State,
                    j: nat, got: Codecs.Bytes)
    requires Injective(hash) && HashesSnapshots(sch, hash) && Stored(store, chain) && j < |chain|
               && chain[j] < Limit(32)
    requires InLimits(r, BlocksOf(store, chain)) && Replayed(r, BlocksOf(store, chain)) == Some(st)
    requires HashAt(r, sch, store, chain, j, hash(got))
    ensures SyncsAt(r, store, chain, st, j, got)
  {
    hide InLimits, Lists, Replayed, Replays, ReplayFrom, ParseBytes, StateOf, SnapshotBytes, Keyed, Limit;
    var bs := BlocksOf(store, chain);
    var front, later := bs[..j + 1], bs[j + 1..];
    var at :| Replays(r, front, at) && hash(got) == sch.stateHash(chain[j], j, at);
    ReplaysIff(r, front, at);
    ReplayKeyed(r, front);
    var s := SnapshotExists(at, chain[j], j);
    LimitsPrefix(r, bs, j + 1);
    InLimitsLength(r, bs);
    FastSync(r, hash, front, later, s, got);
    assert front + later == bs;
  }

  lemma InLimitsLength(r: Rules, bs: seq<Block>)
    requires InLimits(r, bs)
    ensures |bs| < TWO64
  {}

  /** Whatever has the hash that a header of the active chain commits to parses to the snapshot of the committed block,
      whose state is that of replay there; and connecting the later blocks to it gives the node's own state. The
      snapshot must still be held, or the committing block never have gone unchecked, as on a pruned node with intervals
      that are long enough. */
  lemma CommittedBytes(cs: Chainstate, hash: Codecs.Bytes -> Hash, i: nat, got: Codecs.Bytes)
    requires cs.Valid() && cs.Vouched(i)
    requires Injective(hash) && HashesSnapshots(cs.env.net, hash) && hash(got) == cs.env.net.commitOf(cs.chain[i])
    requires Stored(cs.store, cs.chain) && InLimits(cs.rules, BlocksOf(cs.store, cs.chain))
               && cs.chain[i - cs.env.net.delay] < Limit(32)
    ensures SyncsAt(cs.rules, cs.store, cs.chain, cs.State(), i - cs.env.net.delay, got)
  {
    hide *;
    cs.HeadersCommit(i);
    cs.ValidMeans();
    CommitsToSnapshot(cs.env.net, i);
    CommittedAt(cs.rules, cs.env.net, hash, cs.store, cs.chain, cs.State(), i - cs.env.net.delay, got);
  }

  // ---------------------------------------------------------------- loading

  /** `committed_hash_for`: what the best header chain commits to for a block on it. */
  ghost function CommittedFor(t: Tree, root: Hash, s: Network, best: Hash, x: Hash): Option<Hash>
    requires TreeOk(t, root) && s.Ok()
  {
    if x !in t || best !in t || !s.CommitHeight(t[x].height + s.delay) || t[best].height < t[x].height + s.delay
        then None
    else
      var c := Up(t, root, best, t[x].height + s.delay);
      if Up(t, root, c, t[x].height) == x then Some(s.commitOf(c)) else None
  }

  method CommittedHashFor(cs: Chainstate, x: Hash) returns (c: Option<Hash>)
    requires cs.Valid() && cs.env.net.Ok()
    ensures TreeOk(cs.nodes, cs.genesis) && c == CommittedFor(cs.nodes, cs.genesis, cs.env.net, cs.bestHeader, x)
  {
    hide *;
    cs.BestKnown();
    TreeParts(cs.rules, cs.env.net, cs.nodes, cs.genesis, cs.children, cs.chain, cs.store, cs.chainData, cs.failed);
    CommittedIs(cs.nodes, cs.genesis, cs.env.net, cs.bestHeader, x);
    if x !in cs.nodes { return None; }
    var h := cs.nodes[x].height;
    if !cs.env.net.CommitHeight(h + cs.env.net.delay)
        || cs.nodes[cs.bestHeader].height < h + cs.env.net.delay { return None; }
    var top := Ancestor(cs.nodes, cs.genesis, cs.chain, cs.bestHeader, h + cs.env.net.delay);
    var low := Ancestor(cs.nodes, cs.genesis, cs.chain, top.value, h);
    c := if low == Some(x) then Some(cs.env.net.commitOf(top.value)) else None;
  }

  /** Along the branch of the best header: a block has a commitment exactly if it is on that branch, which goes on to a
      commitment height `delay` above it, and the header there makes it. */
  lemma CommittedForIff(t: Tree, root: Hash, s: Network, branch: seq<Hash>, x: Hash, c: Hash)
    requires ChainOk(t, root, branch) && TreeOk(t, root) && s.Ok()
    ensures CommittedFor(t, root, s, branch[|branch| - 1], x) == Some(c) <==>
            exists h: nat :: CommitsAt(s, branch, x, c, h)
  {
    hide Up, Network.CommitHeight, TreeOk;
    var best := branch[|branch| - 1];
    if x in t && t[x].height + s.delay < |branch| {
      var h := t[x].height;
      ChainUp(t, root, branch, |branch| - 1, h + s.delay);
      ChainUp(t, root, branch, h + s.delay, h);
      assert CommittedFor(t, root, s, best, x) == Some(c) <==> CommitsAt(s, branch, x, c, h);
    }
    forall h: nat | CommitsAt(s, branch, x, c, h) ensures x in t && t[x].height == h {}
  }

  /** Block `h` of the branch is `x`, and the header `delay` above it commits to `c`. */
  ghost predicate CommitsAt(s: Network, branch: seq<Hash>, x: Hash, c: Hash, h: nat)
    requires s.Ok()
  {
    h + s.delay < |branch| && branch[h] == x && s.CommitHeight(h + s.delay) && c == s.commitOf(branch[h + s.delay])
  }

  lemma CommittedIs(t: Tree, root: Hash, s: Network, best: Hash, x: Hash)
    requires TreeOk(t, root) && s.Ok() && best in t
    ensures CommittedFor(t, root, s, best, x) ==
            if x !in t || !s.CommitHeight(t[x].height + s.delay) || t[best].height < t[x].height + s.delay then None
            else
              var c := Up(t, root, best, t[x].height + s.delay);
              if Up(t, root, c, t[x].height) == x then Some(s.commitOf(c)) else None
  {}

  datatype LoadResult =
    | Loaded | NotFresh | TooShort | BadMagic
    | UnknownBlock | NoCommitment | HashMismatch | ParseFailed

  /** The tests of `load_snapshot_bytes`, in order. */
  ghost function LoadOutcome(t: Tree, root: Hash, s: Network, best: Hash, chain: seq<Hash>, hash: Codecs.Bytes -> Hash,
                             got: Codecs.Bytes): LoadResult
    requires TreeOk(t, root) && s.Ok()
  {
    if |chain| > 1 then NotFresh
    else if |got| < 4 + 32 + 1 then TooShort
    else if LittleEndianValue(got[..4]) != STATE_MAGIC then BadMagic
    else if BigEndianValue(got[4..36]) !in t then UnknownBlock
    else
      match CommittedFor(t, root, s, best, BigEndianValue(got[4..36]))
      case None => NoCommitment
      case Some(c) =>
        if c != hash(got) then HashMismatch
        else
          match ParseBytes(got)
          case None => ParseFailed
          case Some(snap) => if snap.height != t[BigEndianValue(got[4..36])].height then ParseFailed else Loaded
  }

  /** `load_snapshot_bytes`, up to the tables: a failed test leaves the node alone, except that a failed parse clears
      them. */
  method LoadSnapshotBytes(cs: Chainstate, hash: Codecs.Bytes -> Hash, got: Codecs.Bytes) returns (res: LoadResult)
    requires cs.Valid() && cs.env.net.Ok()
    modifies cs`utxo, cs`byAddr, cs`tokens, cs`pools, cs`supply
    ensures TreeOk(cs.nodes, cs.genesis) && res == LoadOutcome(cs.nodes, cs.genesis, cs.env.net, cs.bestHeader,
              cs.chain, hash, got)
    ensures res == Loaded ==> ParseBytes(got).Some? && cs.State() == StateOf(ParseBytes(got).value)
    ensures res == Loaded && Lists(cs.State(), ParseBytes(got).value) ==>
              BookOk(cs.utxo, cs.byAddr, cs.pools, cs.supply)
    ensures res == ParseFailed ==> cs.State() == EMPTY_STATE
    ensures res != Loaded && res != ParseFailed ==> cs.State() == old(cs.State())
  {
    hide *;
    TreeParts(cs.rules, cs.env.net, cs.nodes, cs.genesis, cs.children, cs.chain, cs.store, cs.chainData, cs.failed);
    OutcomeIs(cs.nodes, cs.genesis, cs.env.net, cs.bestHeader, cs.chain, hash, got);
    if |cs.chain| > 1 { return NotFresh; }
    if |got| < 4 + 32 + 1 { return TooShort; }
    if LittleEndianValue(got[..4]) != STATE_MAGIC { return BadMagic; }
    var x := BigEndianValue(got[4..36]);
    if x !in cs.nodes { return UnknownBlock; }
    var c := CommittedHashFor(cs, x);
    if c == None { return NoCommitment; }
    if c.value != hash(got) { return HashMismatch; }
    var height := cs.nodes[x].height;
    var s := ParseBytes(got);
    if s == None || s.value.height != height {
      SnapshotLoads.ClearState(cs);
      return ParseFailed;
    }
    SnapshotLoads.LoadState(cs, s.value);
    if Lists(cs.State(), s.value) { SnapshotLoads.ListsDistinct(cs.State(), s.value); }
    res := Loaded;
  }

  lemma OutcomeIs(t: Tree, root: Hash, s: Network, best: Hash, chain: seq<Hash>, hash: Codecs.Bytes -> Hash,
                  got: Codecs.Bytes)
    requires TreeOk(t, root) && s.Ok()
    ensures LoadOutcome(t, root, s, best, chain, hash, got) ==
            if |chain| > 1 then NotFresh
            else if |got| < 4 + 32 + 1 then TooShort
            else if LittleEndianValue(got[..4]) != STATE_MAGIC then BadMagic
            else if BigEndianValue(got[4..36]) !in t then UnknownBlock
            else
              var c := CommittedFor(t, root, s, best, BigEndianValue(got[4..36]));
              if c == None then NoCommitment
              else if c.value != hash(got) then HashMismatch
              else if ParseBytes(got) == None || ParseBytes(got).value.height != t[BigEndianValue(got[4..36])].height
                  then ParseFailed
              else Loaded
  {}

  /** Two nodes of one network: `full` replayed its chain, `node` has headers and was offered these bytes. If the header
      in which `node` found the commitment is on the chain of `full`, which checked it, then what `node` loads is the
      state of `full` at the snapshot, and connecting the later blocks of `full` to it gives the state of `full`. */
  lemma BootstrapAgrees(node: Chainstate, full: Chainstate, hash: Codecs.Bytes -> Hash, got: Codecs.Bytes, i: nat)
    requires node.Valid() && full.Valid() && full.env == node.env && full.env.net.Ok()
    requires Injective(hash) && HashesSnapshots(full.env.net, hash)
    requires TreeOk(node.nodes, node.genesis)
    requires LoadOutcome(node.nodes, node.genesis, node.env.net, node.bestHeader, node.chain, hash, got) == Loaded
    requires i < |full.chain| && |got| >= 37
               && CommitsIn(node.nodes, node.genesis, node.env.net, node.bestHeader, BigEndianValue(got[4..36]),
               full.chain, i)
    requires full.Vouched(i)
    requires Stored(full.store, full.chain) && InLimits(full.rules, BlocksOf(full.store, full.chain))
               && full.chain[i - full.env.net.delay] < Limit(32)
    ensures SyncsAt(full.rules, full.store, full.chain, full.State(), i - full.env.net.delay, got)
  {
    hide *;
    LoadedMeans(node.nodes, node.genesis, node.env.net, node.bestHeader, node.chain, hash, got, full.chain, i);
    CommittedBytes(full, hash, i, got);
  }

  /** The header of `best`'s chain that commits for block `x` is block `i` of `chain`. */
  ghost predicate CommitsIn(t: Tree, root: Hash, s: Network, best: Hash, x: Hash, chain: seq<Hash>, i: nat)
    requires s.Ok() && TreeOk(t, root)
  {
    && x in t && best in t && i == t[x].height + s.delay && s.delay <= i < |chain| && s.CommitHeight(i)
    && i <= t[best].height && chain[i] == Up(t, root, best, i)
  }

  lemma LoadedMeans(t: Tree, root: Hash, s: Network, best: Hash, nodeChain: seq<Hash>, hash: Codecs.Bytes -> Hash,
                    got: Codecs.Bytes, chain: seq<Hash>, i: nat)
    requires TreeOk(t, root) && s.Ok() && LoadOutcome(t, root, s, best, nodeChain, hash, got) == Loaded
    requires |got| >= 37 && CommitsIn(t, root, s, best, BigEndianValue(got[4..36]), chain, i)
    ensures i < |chain| && s.CommitHeight(i) && hash(got) == s.commitOf(chain[i])
  {
    hide ParseBytes, BigEndianValue, LittleEndianValue, Up;
  }
}
