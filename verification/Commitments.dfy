/** State commitments: every so many blocks the ledger state is hashed, and a later header must carry that hash, if the
    node still holds it (src/chain/chainstate.cpp:332-350, 757-764, 788; src/consensus/params.h:29-32). */
module Commitments {
  import opened Types
  import opened Arith
  import opened Sorting
  import opened Replay
  import opened BlockTree
  import opened ChainLedger

  const PRUNE_DEPTH: nat := 5040

  /** The parameters of the network, and what headers say, which are known by their hashes: snapshots every `interval`
      blocks, committed to `delay` blocks later; the commitment of a header; and whether witnesses have its witness
      root. */
  datatype Network = Network(interval: nat, delay: nat, stateHash: (Hash, nat, State) -> Hash, commitOf: Hash -> Hash,
                             witnessOk: (Hash, seq<seq<Witness>>) -> bool)
  {
    predicate Ok() { interval > 0 && delay > 0 }

    predicate CommitHeight(h: nat)
      requires Ok()
    {
      h >= interval + delay && h % interval == delay
    }

    predicate SnapshotHeight(h: nat)
      requires Ok()
    {
      h > 0 && h % interval == 0
    }
  }

  /** The snapshots a node holds: blocks and state hashes. */
  type Hashes = map<Hash, Hash>

  /** And how they came about: `peaks[i]` is the greatest height the chain has had since its block `i` was last
      connected; `deepest` is how far below its greatest height it has ever been; `skipped` are the blocks that were
      connected without a check of their commitment. */
  datatype Snaps = Snaps(hashes: Hashes, peaks: seq<nat>, deepest: nat, skipped: set<Hash>)

  /** `h` is the hash of the state after block `i` of the chain. */
  ghost predicate HashAt(r: Rules, s: Network, store: Store, chain: seq<Hash>, i: nat, h: Hash)
    requires Stored(store, chain) && i < |chain|
  {
    exists st :: Replays(r, BlocksOf(store, chain)[..i + 1], st) && h == s.stateHash(chain[i], i, st)
  }

  /** The check `connect_block` makes of a block on top of the chain, if the snapshot is still held. */
  predicate Commits(s: Network, chain: seq<Hash>, hashes: Hashes, x: Hash)
    requires s.Ok()
  {
    s.CommitHeight(|chain|) && chain[|chain| - s.delay] in hashes ==> hashes[chain[|chain| - s.delay]] == s.commitOf(x)
  }

  /** A commitment that cannot be checked. */
  predicate Skips(s: Network, chain: seq<Hash>, hashes: Hashes)
    requires s.Ok()
  {
    s.CommitHeight(|chain|) && chain[|chain| - s.delay] !in hashes
  }

  /** A node on such a network, if it prunes, never goes back so far that a snapshot it needs is gone. */
  function AlwaysChecks(s: Network, prune: bool): (ok: bool)
    ensures ok ==> prune && PRUNE_DEPTH + s.delay <= 3 * s.interval
  {
    prune && PRUNE_DEPTH + s.delay <= 3 * s.interval
  }

  // ---------------------------------------------------------------- keeping the newest three

  /** The height of a block of the chain, and -1 for any other. */
  function Place(chain: seq<Hash>, x: Hash): (h: int)
    ensures -1 <= h < |chain| && (h >= 0 ==> chain[h] == x) && (h == -1 ==> x !in chain)
  {
    if chain == [] then -1
    else if chain[|chain| - 1] == x then |chain| - 1
    else Place(chain[..|chain| - 1], x)
  }

  predicate Ahead(chain: seq<Hash>, a: Hash, b: Hash) {
    Place(chain, a) > Place(chain, b) || (Place(chain, a) == Place(chain, b) && a > b)
  }

  function AheadOf(chain: seq<Hash>, hashes: Hashes, x: Hash): set<Hash> { set y | y in hashes && Ahead(chain, y, x) }

  /** The newest three on the chain; where there are fewer, others fill up. */
  function Newest(chain: seq<Hash>, hashes: Hashes): Hashes {
    map x | x in hashes && |AheadOf(chain, hashes, x)| < 3 :: hashes[x]
  }

  /** The held snapshots once the last block of the chain is connected. */
  function HashesWith(s: Network, hashes: Hashes, chain: seq<Hash>, st: State): Hashes
    requires s.Ok() && chain != []
  {
    var n := |chain| - 1;
    if s.SnapshotHeight(n) then Newest(chain, hashes[chain[n] := s.stateHash(chain[n], n, st)]) else hashes
  }

  function Raised(peaks: seq<nat>, n: nat): (p: seq<nat>)
    ensures |p| == |peaks| + 1 && p[|peaks|] == n
    ensures forall i :: 0 <= i < |peaks| ==> p[i] == if peaks[i] < n then n else peaks[i]
  {
    seq(|peaks|, i requires 0 <= i < |peaks| => if peaks[i] < n then n else peaks[i]) + [n]
  }

  /** After `x` is connected on top of the chain. */
  function SnapsWith(s: Network, snaps: Snaps, chain: seq<Hash>, x: Hash, st: State): Snaps
    requires s.Ok()
  {
    Snaps(HashesWith(s, snaps.hashes, chain + [x], st), Raised(snaps.peaks, |chain|), snaps.deepest,
          if Skips(s, chain, snaps.hashes) then snaps.skipped + {x} else snaps.skipped)
  }

  /** After the tip is taken back. */
  function SnapsWithout(snaps: Snaps): Snaps {
    if |snaps.peaks| < 2 then snaps
    else
      var n := |snaps.peaks| - 1;
      var down := snaps.peaks[0] - (n - 1);
      Snaps(snaps.hashes, snaps.peaks[..n], if down > snaps.deepest then down else snaps.deepest, snaps.skipped)
  }

  /** A block's commitment, if it has one, is to the replayed state. */
  ghost predicate CommitRight(r: Rules, s: Network, store: Store, chain: seq<Hash>, i: nat)
    requires s.Ok() && Stored(store, chain) && i < |chain|
  {
    s.CommitHeight(i) ==> HashAt(r, s, store, chain, i - s.delay, s.commitOf(chain[i]))
  }

  /** Every commitment on the chain is right. */
  ghost predicate AllRight(r: Rules, s: Network, store: Store, chain: seq<Hash>) {
    s.Ok() && Stored(store, chain) && forall i :: 0 <= i < |chain| ==> CommitRight(r, s, store, chain, i)
  }

  /** Block `i` was connected without a check, after the chain had been three intervals above its snapshot block. */
  predicate Unchecked(s: Network, chain: seq<Hash>, snaps: Snaps, i: nat)
    requires s.Ok()
  {
    i < |chain| && |snaps.peaks| == |chain| && s.CommitHeight(i) && chain[i] in snaps.skipped
        && snaps.peaks[i - s.delay] >= i - s.delay + 3 * s.interval
  }

  /** Blocks further down have been there longer. */
  ghost predicate PeaksOk(chain: seq<Hash>, snaps: Snaps) {
    && |snaps.peaks| == |chain|
    && (forall i :: 0 <= i < |chain| ==> |chain| - 1 <= snaps.peaks[i])
    && (forall i, j :: 0 <= i <= j < |chain| ==> snaps.peaks[j] <= snaps.peaks[i])
    && (chain != [] ==> snaps.peaks[0] <= |chain| - 1 + snaps.deepest)
  }

  /** A snapshot of the chain is held exactly until the chain is three intervals higher. */
  ghost predicate HeldIff(s: Network, chain: seq<Hash>, snaps: Snaps)
    requires s.Ok()
  {
    |snaps.peaks| == |chain| && forall i :: 0 <= i < |chain| ==>
        (chain[i] in snaps.hashes <==> s.SnapshotHeight(i) && snaps.peaks[i] < i + 3 * s.interval)
  }

  predicate AtSnapshotHeight(s: Network, b: Block)
    requires s.Ok()
  {
    b.txs != [] && s.SnapshotHeight(b.txs[0].core.lockHeight)
  }

  /** Held snapshots are at snapshot heights, and on the active chain exactly the newest; there each is the hash of the
      replayed state; every commitment is right or was not checked; and none went unchecked unless the chain was ever
      more than three intervals less the delay below its greatest height. */
  ghost predicate SnapsOk(r: Rules, s: Network, store: Store, chain: seq<Hash>, snaps: Snaps) {
    && s.Ok() && Stored(store, chain) && NoRepeats(chain) && PeaksOk(chain, snaps)
    && (forall x :: x in snaps.hashes ==> x in store && AtSnapshotHeight(s, store[x]))
    && HeldIff(s, chain, snaps)
    && (forall i :: 0 <= i < |chain| && chain[i] in snaps.hashes ==>
        HashAt(r, s, store, chain, i, snaps.hashes[chain[i]]))
    && (forall i :: 0 <= i < |chain| ==> CommitRight(r, s, store, chain, i) || Unchecked(s, chain, snaps, i))
    && (snaps.skipped != {} ==> snaps.deepest + s.delay > 3 * s.interval)
  }

  // ---------------------------------------------------------------- heights

  /** What a header commits to is a snapshot. */
  lemma CommitsToSnapshot(s: Network, i: nat)
    requires s.Ok() && s.CommitHeight(i)
    ensures i >= s.delay && s.SnapshotHeight(i - s.delay)
  {
    var q := i / s.interval;
    assert i == s.interval * q + s.delay;
    QuotientUnique(s.interval * q, s.interval, q, 0);
  }

  /** Snapshots are taken at the multiples of the interval, and where the delay is shorter than the interval each of
      them is committed to, the delay later, and nothing else is. */
  lemma HeightsIff(s: Network, i: nat)
    requires s.Ok()
    ensures s.SnapshotHeight(i) <==> exists k: nat :: k > 0 && i == k * s.interval
    ensures s.delay < s.interval ==> (s.CommitHeight(i) <==> i >= s.delay && s.SnapshotHeight(i - s.delay))
  {
    MultipleIff(s.interval, i);
    if i >= s.delay && s.delay < s.interval { DelayedIff(s.interval, s.delay, i); }
    if s.CommitHeight(i) { CommitsToSnapshot(s, i); }
  }

  lemma MultipleIff(d: nat, i: nat)
    requires d > 0
    ensures i > 0 && i % d == 0 <==> exists k: nat :: k > 0 && i == k * d
  {
    if i > 0 && i % d == 0 { assert i == (i / d) * d; }
    if k: nat :| k > 0 && i == k * d {
      QuotientUnique(i, d, k, 0);
      MulMono(1, k, d);
    }
  }

  lemma DelayedIff(d: nat, delay: nat, i: nat)
    requires 0 < delay < d && delay <= i
    ensures i > delay && (i - delay) % d == 0 <==> i >= d + delay && i % d == delay
  {
    if i > delay && (i - delay) % d == 0 {
      QuotientUnique(i, d, (i - delay) / d, delay);
      assert (i - delay) / d >= 1 by { FloorIff(i - delay, d, 0); }
      MulMono(1, (i - delay) / d, d);
    }
    if i >= d + delay && i % d == delay { QuotientUnique(i - delay, d, i / d, 0); }
  }

  /** The snapshot heights less than three intervals above one. */
  lemma NextSnapshots(s: Network, i: nat, j: nat)
    requires s.Ok() && s.SnapshotHeight(i)
    ensures s.SnapshotHeight(i + s.interval) && s.SnapshotHeight(i + 2 * s.interval)
              && s.SnapshotHeight(i + 3 * s.interval)
    ensures s.SnapshotHeight(j) && i < j < i + 3 * s.interval ==> j == i + s.interval || j == i + 2 * s.interval
  {
    var d, q := s.interval, i / s.interval;
    assert i == d * q;
    Distribute(q, 1, d);
    Distribute(q, 2, d);
    Distribute(q, 3, d);
    QuotientUnique(i + d, d, q + 1, 0);
    QuotientUnique(i + 2 * d, d, q + 2, 0);
    QuotientUnique(i + 3 * d, d, q + 3, 0);
    if s.SnapshotHeight(j) && i < j < i + 3 * d {
      var p := j / d;
      assert j == d * p;
      BetweenMultiples(d, q, p);
    }
  }

  lemma BetweenMultiples(d: nat, q: nat, p: nat)
    requires d > 0 && d * q < d * p < d * q + 3 * d
    ensures p == q + 1 || p == q + 2
  {
    Distribute(q, 3, d);
    if p <= q { MulMono(p, q, d); }
    if p >= q + 3 { MulMono(q + 3, p, d); }
  }

  // ---------------------------------------------------------------- which snapshots are dropped

  lemma PlaceOf(chain: seq<Hash>, j: nat)
    requires NoRepeats(chain) && j < |chain|
    ensures Place(chain, chain[j]) == j
  {}

  /** Only later snapshots of the chain are ahead of one of its own. */
  lemma AheadOnChain(chain: seq<Hash>, hashes: Hashes, i: nat, y: Hash)
    requires NoRepeats(chain) && i < |chain|
    ensures y in AheadOf(chain, hashes, chain[i]) <==> y in hashes && Place(chain, y) > i
  {
    PlaceOf(chain, i);
    if Place(chain, y) == i { assert y == chain[i]; }
  }

  lemma FewAhead(s: Network, chain: seq<Hash>, hashes: Hashes, i: nat)
    requires s.Ok() && NoRepeats(chain) && i < |chain| <= i + 3 * s.interval && s.SnapshotHeight(i)
    requires forall j :: 0 <= j < |chain| && chain[j] in hashes ==> s.SnapshotHeight(j)
    ensures |AheadOf(chain, hashes, chain[i])| < 3
  {
    var a, b := i + s.interval, i + 2 * s.interval;
    var two := (if a < |chain| then {chain[a]} else {}) + (if b < |chain| then {chain[b]} else {});
    forall y | y in AheadOf(chain, hashes, chain[i]) ensures y in two {
      AheadOnChain(chain, hashes, i, y);
      NextSnapshots(s, i, Place(chain, y));
    }
    FewerThan(AheadOf(chain, hashes, chain[i]), two);
  }

  lemma FewerThan(a: set<Hash>, b: set<Hash>)
    requires a <= b
    ensures |a| <= |b|
  {
    assert b == a + (b - a);
  }

  lemma ManyAhead(s: Network, chain: seq<Hash>, hashes: Hashes, i: nat)
    requires s.Ok() && NoRepeats(chain) && i + 3 * s.interval < |chain|
    requires chain[i + s.interval] in hashes && chain[i + 2 * s.interval] in hashes
               && chain[i + 3 * s.interval] in hashes
    ensures |AheadOf(chain, hashes, chain[i])| >= 3
  {
    var a, b, c := i + s.interval, i + 2 * s.interval, i + 3 * s.interval;
    var three := {chain[a], chain[b], chain[c]};
    forall y | y in three ensures y in AheadOf(chain, hashes, chain[i]) {
      var j :| (j == a || j == b || j == c) && chain[j] == y;
      PlaceOf(chain, j);
      AheadOnChain(chain, hashes, i, y);
    }
    assert chain[a] != chain[b] && chain[b] != chain[c] && chain[a] != chain[c];
    FewerThan(three, AheadOf(chain, hashes, chain[i]));
  }

  /** Connecting keeps it so. */
  lemma HeldNext(s: Network, store: Store, chain: seq<Hash>, snaps: Snaps, x: Hash, st: State)
    requires s.Ok() && Stored(store, chain) && NoRepeats(chain) && PeaksOk(chain, snaps) && HeldIff(s, chain, snaps)
    requires forall y :: y in snaps.hashes ==> y in store && AtSnapshotHeight(s, store[y])
    requires x in store && x !in chain && ShapeOk(store[x], |chain|)
    ensures NoRepeats(chain + [x]) && HeldIff(s, chain + [x], SnapsWith(s, snaps, chain, x, st))
  {
    hide ShapeOk, Newest, PeaksOk;
    BlockHeight(store[x], |chain|);
    if s.SnapshotHeight(|chain|) {
      HeldAtSnapshot(s, chain, snaps, x, st);
    } else {
      HeldBetween(s, chain, snaps, x, st);
    }
  }

  lemma HeldAtSnapshot(s: Network, chain: seq<Hash>, snaps: Snaps, x: Hash, st: State)
    requires s.Ok() && NoRepeats(chain) && PeaksOk(chain, snaps) && HeldIff(s, chain, snaps) && x !in chain
               && s.SnapshotHeight(|chain|)
    ensures HeldIff(s, chain + [x], SnapsWith(s, snaps, chain, x, st))
  {
    hide Newest, Skips;
    var n, chain', snaps' := |chain|, chain + [x], SnapsWith(s, snaps, chain, x, st);
    var before := snaps.hashes[x := s.stateHash(x, n, st)];
    forall i | 0 <= i < n
      ensures chain'[i] in before <==> chain[i] in snaps.hashes
    {
      assert chain'[i] == chain[i] != x;
    }
    forall i | 0 <= i <= n
      ensures chain'[i] in snaps'.hashes <==> s.SnapshotHeight(i) && snaps'.peaks[i] < i + 3 * s.interval
    {
      KeptNext(s, chain', before, snaps.peaks, i);
    }
  }

  lemma HeldBetween(s: Network, chain: seq<Hash>, snaps: Snaps, x: Hash, st: State)
    requires s.Ok() && PeaksOk(chain, snaps) && HeldIff(s, chain, snaps) && x !in snaps.hashes
               && !s.SnapshotHeight(|chain|)
    ensures HeldIff(s, chain + [x], SnapsWith(s, snaps, chain, x, st))
  {
    hide Newest, Skips;
    forall i | 0 <= i < |chain| && s.SnapshotHeight(i) ensures |chain| != i + 3 * s.interval { NextSnapshots(s, i, i); }
  }

  lemma BlockHeight(b: Block, height: nat)
    requires ShapeOk(b, height)
    ensures b.txs != [] && b.txs[0].core.lockHeight == height
  {}

  /** One snapshot, when the chain reaches another: it stays unless that is the third above it. */
  lemma KeptNext(s: Network, chain: seq<Hash>, hashes: Hashes, peaks: seq<nat>, i: nat)
    requires s.Ok() && NoRepeats(chain) && i < |chain| == |peaks| + 1 && s.SnapshotHeight(|peaks|)
               && chain[|peaks|] in hashes
    requires forall j :: 0 <= j < |peaks| ==> |peaks| - 1 <= peaks[j]
    requires forall j, k :: 0 <= j <= k < |peaks| ==> peaks[k] <= peaks[j]
    requires forall j :: 0 <= j < |peaks| ==>
               (chain[j] in hashes <==> s.SnapshotHeight(j) && peaks[j] < j + 3 * s.interval)
    ensures chain[i] in Newest(chain, hashes) <==> s.SnapshotHeight(i) && Raised(peaks, |peaks|)[i] < i + 3 * s.interval
  {
    hide AheadOf;
    var n := |peaks|;
    if chain[i] in hashes {
      NextSnapshots(s, i, i);
      if n < i + 3 * s.interval {
        FewAhead(s, chain, hashes, i);
      } else {
        assert peaks[i] < i + 3 * s.interval && n == i + 3 * s.interval;
        ManyAhead(s, chain, hashes, i);
      }
    }
  }

  lemma PeaksNext(s: Network, chain: seq<Hash>, snaps: Snaps, x: Hash, st: State)
    requires s.Ok() && PeaksOk(chain, snaps)
    ensures PeaksOk(chain + [x], SnapsWith(s, snaps, chain, x, st))
  {
    hide HashesWith, Skips;
  }

  lemma PeaksBack(chain: seq<Hash>, snaps: Snaps)
    requires PeaksOk(chain, snaps) && |chain| > 1
    ensures PeaksOk(chain[..|chain| - 1], SnapsWithout(snaps)) && SnapsWithout(snaps).deepest >= snaps.deepest
  {}

  // ---------------------------------------------------------------- what the steps keep

  /** What it means for a header of the active chain to commit: its hash is that of the replayed state, if the snapshot
      is still held, or if this block never went unchecked. */
  lemma CommitmentsRight(r: Rules, s: Network, store: Store, chain: seq<Hash>, snaps: Snaps, i: nat)
    requires SnapsOk(r, s, store, chain, snaps) && i < |chain| && s.CommitHeight(i)
    requires chain[i] !in snaps.skipped || chain[i - s.delay] in snaps.hashes
    ensures HashAt(r, s, store, chain, i - s.delay, s.commitOf(chain[i]))
  {
    hide HashAt, PeaksOk;
    CommitsToSnapshot(s, i);
    UncheckedGone(s, chain, snaps, i);
    assert CommitRight(r, s, store, chain, i);
  }

  lemma UncheckedGone(s: Network, chain: seq<Hash>, snaps: Snaps, i: nat)
    requires s.Ok() && HeldIff(s, chain, snaps) && i < |chain| && s.CommitHeight(i)
    ensures Unchecked(s, chain, snaps, i) ==> i >= s.delay && chain[i - s.delay] !in snaps.hashes
  {
    CommitsToSnapshot(s, i);
  }

  /** No commitment goes unchecked, and all are right, unless the chain was ever that far below its greatest height. */
  lemma AllChecked(r: Rules, s: Network, store: Store, chain: seq<Hash>, snaps: Snaps)
    requires SnapsOk(r, s, store, chain, snaps)
    ensures snaps.deepest + s.delay <= 3 * s.interval ==> snaps.skipped == {}
    ensures snaps.skipped == {} ==> AllRight(r, s, store, chain)
  {
    hide HashAt, PeaksOk, HeldIff;
  }

  /** A hash belongs to the blocks up to it. */
  lemma HashAtSame(r: Rules, s: Network, store: Store, store': Store, chain: seq<Hash>, chain': seq<Hash>, i: nat,
                   h: Hash)
    requires Stored(store, chain) && Stored(store', chain') && i < |chain| && i < |chain'|
               && chain[..i + 1] == chain'[..i + 1]
    requires HashAt(r, s, store, chain, i, h) && forall x :: x in store ==> x in store' && store'[x] == store[x]
    ensures HashAt(r, s, store', chain', i, h)
  {
    forall k | 0 <= k <= i ensures chain[k] == chain'[k] {
      assert chain[k] == chain[..i + 1][k] && chain'[k] == chain'[..i + 1][k];
    }
    assert BlocksOf(store, chain)[..i + 1] == BlocksOf(store', chain')[..i + 1];
  }

  /** And so does a commitment. */
  lemma CommitRightSame(r: Rules, s: Network, store: Store, store': Store, chain: seq<Hash>, chain': seq<Hash>, i: nat)
    requires s.Ok() && Stored(store, chain) && Stored(store', chain') && i < |chain| && i < |chain'|
               && chain[..i + 1] == chain'[..i + 1]
    requires CommitRight(r, s, store, chain, i) && forall x :: x in store ==> x in store' && store'[x] == store[x]
    ensures CommitRight(r, s, store', chain', i)
  {
    hide HashAt;
    assert chain[i] == chain[..i + 1][i] && chain'[i] == chain'[..i + 1][i];
    if s.CommitHeight(i) {
      var k := i - s.delay;
      assert chain[..i + 1][..k + 1] == chain[..k + 1] && chain'[..i + 1][..k + 1] == chain'[..k + 1];
      HashAtSame(r, s, store, store', chain, chain', k, s.commitOf(chain[i]));
    }
  }

  lemma SnapsBack(r: Rules, s: Network, store: Store, chain: seq<Hash>, snaps: Snaps)
    requires SnapsOk(r, s, store, chain, snaps) && |chain| > 1
    ensures SnapsOk(r, s, store, chain[..|chain| - 1], SnapsWithout(snaps))
  {
    hide HashAt, CommitRight;
    var front, snaps' := chain[..|chain| - 1], SnapsWithout(snaps);
    PeaksBack(chain, snaps);
    hide PeaksOk;
    forall i | 0 <= i < |front| && front[i] in snaps'.hashes
      ensures HashAt(r, s, store, front, i, snaps'.hashes[front[i]])
    {
      HashAtSame(r, s, store, store, chain, front, i, snaps.hashes[chain[i]]);
    }
    forall i | 0 <= i < |front| ensures CommitRight(r, s, store, front, i) || Unchecked(s, front, snaps', i) {
      assert CommitRight(r, s, store, chain, i) || Unchecked(s, chain, snaps, i);
      if CommitRight(r, s, store, chain, i) { CommitRightSame(r, s, store, store, chain, front, i); }
    }
  }

  /** New block data changes nothing. */
  lemma SnapsStable(r: Rules, s: Network, store: Store, store': Store, chain: seq<Hash>, snaps: Snaps)
    requires SnapsOk(r, s, store, chain, snaps) && forall x :: x in store ==> x in store' && store'[x] == store[x]
    ensures SnapsOk(r, s, store', chain, snaps)
  {
    hide HashAt, CommitRight, PeaksOk, HeldIff;
    forall i | 0 <= i < |chain| && chain[i] in snaps.hashes
      ensures HashAt(r, s, store', chain, i, snaps.hashes[chain[i]])
    {
      HashAtSame(r, s, store, store', chain, chain, i, snaps.hashes[chain[i]]);
    }
    forall i | 0 <= i < |chain| ensures CommitRight(r, s, store', chain, i) || Unchecked(s, chain, snaps, i) {
      if CommitRight(r, s, store, chain, i) { CommitRightSame(r, s, store, store', chain, chain, i); }
    }
  }

  lemma HashOfLast(r: Rules, s: Network, store: Store, chain: seq<Hash>, st: State)
    requires chain != [] && Stored(store, chain) && Replays(r, BlocksOf(store, chain), st)
    ensures HashAt(r, s, store, chain, |chain| - 1, s.stateHash(chain[|chain| - 1], |chain| - 1, st))
  {
    assert BlocksOf(store, chain)[..|chain|] == BlocksOf(store, chain);
  }

  /** Connecting a block whose commitment passed, or could not be checked. */
  lemma SnapsNext(r: Rules, s: Network, store: Store, chain: seq<Hash>, snaps: Snaps, x: Hash, st: State)
    requires SnapsOk(r, s, store, chain, snaps) && x in store && x !in chain && ShapeOk(store[x], |chain|)
    requires Stored(store, chain + [x]) && Replays(r, BlocksOf(store, chain + [x]), st)
               && Commits(s, chain, snaps.hashes, x)
    ensures SnapsOk(r, s, store, chain + [x], SnapsWith(s, snaps, chain, x, st))
  {
    hide HashAt, Replays, PeaksOk, HeldIff, CommitRight, Unchecked, HashesWith, Skips, NoRepeats;
    var chain', snaps' := chain + [x], SnapsWith(s, snaps, chain, x, st);
    PeaksNext(s, chain, snaps, x, st);
    HeldNext(s, store, chain, snaps, x, st);
    HashesNext(r, s, store, chain, snaps, x, st);
    forall i | 0 <= i < |chain'| ensures CommitRight(r, s, store, chain', i) || Unchecked(s, chain', snaps', i) {
      if i < |chain| {
        assert CommitRight(r, s, store, chain, i) || Unchecked(s, chain, snaps, i);
        RightNext(r, s, store, chain, snaps, x, st, i);
      } else {
        RightLast(r, s, store, chain, snaps, x, st);
      }
    }
    SkippedDeep(r, s, store, chain, snaps, x, st);
  }

  /** The hashes on the longer chain are right. */
  lemma HashesNext(r: Rules, s: Network, store: Store, chain: seq<Hash>, snaps: Snaps, x: Hash, st: State)
    requires SnapsOk(r, s, store, chain, snaps) && x in store && x !in chain && ShapeOk(store[x], |chain|)
    requires Stored(store, chain + [x]) && Replays(r, BlocksOf(store, chain + [x]), st)
    ensures var chain', hashes := chain + [x], HashesWith(s, snaps.hashes, chain + [x], st);
            && (forall y :: y in hashes ==> y in store && AtSnapshotHeight(s, store[y]))
            && (forall i :: 0 <= i < |chain'| && chain'[i] in hashes ==>
                HashAt(r, s, store, chain', i, hashes[chain'[i]]))
  {
    hide HashAt, Replays, PeaksOk, HeldIff, CommitRight, Unchecked, ShapeOk, AheadOf;
    var n, chain', hashes := |chain|, chain + [x], HashesWith(s, snaps.hashes, chain + [x], st);
    BlockHeight(store[x], n);
    forall i | 0 <= i < |chain'| && chain'[i] in hashes ensures HashAt(r, s, store, chain', i, hashes[chain'[i]]) {
      if i < n {
        assert chain'[i] == chain[i] != x;
        assert chain'[..i + 1] == chain[..i + 1];
        HashAtSame(r, s, store, store, chain, chain', i, snaps.hashes[chain[i]]);
      } else {
        HashOfLast(r, s, store, chain', st);
      }
    }
  }

  lemma RightNext(r: Rules, s: Network, store: Store, chain: seq<Hash>, snaps: Snaps, x: Hash, st: State, i: nat)
    requires s.Ok() && Stored(store, chain) && Stored(store, chain + [x]) && i < |chain|
    requires CommitRight(r, s, store, chain, i) || Unchecked(s, chain, snaps, i)
    ensures CommitRight(r, s, store, chain + [x], i) || Unchecked(s, chain + [x], SnapsWith(s, snaps, chain, x, st), i)
  {
    hide CommitRight, HashesWith, Skips;
    assert (chain + [x])[..i + 1] == chain[..i + 1];
    if CommitRight(r, s, store, chain, i) { CommitRightSame(r, s, store, store, chain, chain + [x], i); }
  }

  lemma RightLast(r: Rules, s: Network, store: Store, chain: seq<Hash>, snaps: Snaps, x: Hash, st: State)
    requires SnapsOk(r, s, store, chain, snaps) && Stored(store, chain + [x]) && Commits(s, chain, snaps.hashes, x)
    ensures CommitRight(r, s, store, chain + [x], |chain|)
              || Unchecked(s, chain + [x], SnapsWith(s, snaps, chain, x, st), |chain|)
  {
    hide HashAt, HashesWith;
    var n, chain' := |chain|, chain + [x];
    if s.CommitHeight(n) {
      CommitsToSnapshot(s, n);
      var k := n - s.delay;
      if chain[k] in snaps.hashes {
        assert chain[..k + 1] == chain'[..k + 1];
        HashAtSame(r, s, store, store, chain, chain', k, snaps.hashes[chain[k]]);
      }
    }
  }

  /** A commitment goes unchecked only that far down. */
  lemma SkippedDeep(r: Rules, s: Network, store: Store, chain: seq<Hash>, snaps: Snaps, x: Hash, st: State)
    requires SnapsOk(r, s, store, chain, snaps)
    ensures SnapsWith(s, snaps, chain, x, st).skipped != {} ==> snaps.deepest + s.delay > 3 * s.interval
  {
    hide HashAt, HashesWith, CommitRight, Unchecked;
    if Skips(s, chain, snaps.hashes) { CommitsToSnapshot(s, |chain|); }
  }

  /** Exactly when a commitment cannot be checked. */
  lemma SkipsIff(r: Rules, s: Network, store: Store, chain: seq<Hash>, snaps: Snaps)
    requires SnapsOk(r, s, store, chain, snaps)
    ensures Skips(s, chain, snaps.hashes) <==>
            s.CommitHeight(|chain|) && snaps.peaks[|chain| - s.delay] >= |chain| - s.delay + 3 * s.interval
  {
    hide HashAt, CommitRight, Unchecked;
    if s.CommitHeight(|chain|) { CommitsToSnapshot(s, |chain|); }
  }

  // ---------------------------------------------------------------- pruned nodes

  /** A pruned node: a block has its undo data exactly until the chain is `PRUNE_DEPTH` above it, and from then on it
      stays; so the chain is never further below its greatest height. */
  ghost predicate Anchored(prune: bool, chain: seq<Hash>, undone: set<Hash>, snaps: Snaps) {
    prune ==>
      && |snaps.peaks| == |chain| && snaps.deepest <= PRUNE_DEPTH
      && (forall i :: 0 < i < |chain| ==> (chain[i] in undone <==> snaps.peaks[i] < i + PRUNE_DEPTH))
      && (forall i, j :: 0 <= i < j < |chain| ==> snaps.peaks[i] < j + PRUNE_DEPTH || snaps.peaks[i] <= snaps.peaks[j])
  }

  lemma AnchoredNext(s: Network, prune: bool, chain: seq<Hash>, undone: set<Hash>, snaps: Snaps, x: Hash, st: State,
                     undone': set<Hash>)
    requires s.Ok() && Anchored(prune, chain, undone, snaps) && PeaksOk(chain, snaps) && x !in chain && chain != []
    requires NoRepeats(chain)
    requires prune ==> undone' == undone + {x} - Deep(chain)
    ensures Anchored(prune, chain + [x], undone', SnapsWith(s, snaps, chain, x, st))
  {
    hide HashesWith, Skips, NoRepeats;
    var n, peaks := |chain|, Raised(snaps.peaks, |chain|);
    if prune {
      forall i | 0 < i < n ensures chain[i] in undone' <==> peaks[i] < i + PRUNE_DEPTH {
        if n > PRUNE_DEPTH { NoTwoPlaces(chain, i, n - PRUNE_DEPTH); }
      }
    }
  }

  /** The block that a new one on top of the chain is `PRUNE_DEPTH` above. */
  function Deep(chain: seq<Hash>): set<Hash> {
    if 0 < |chain| - PRUNE_DEPTH then {chain[|chain| - PRUNE_DEPTH]} else {}
  }

  lemma NoTwoPlaces(chain: seq<Hash>, i: nat, j: nat)
    requires NoRepeats(chain) && i < |chain| && j < |chain|
    ensures chain[i] == chain[j] <==> i == j
  {}

  lemma AnchoredBack(prune: bool, chain: seq<Hash>, undone: set<Hash>, snaps: Snaps)
    requires Anchored(prune, chain, undone, snaps) && PeaksOk(chain, snaps) && |chain| > 1
               && chain[|chain| - 1] in undone
    ensures Anchored(prune, chain[..|chain| - 1], undone, SnapsWithout(snaps))
  {}
}
