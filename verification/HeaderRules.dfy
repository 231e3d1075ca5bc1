/** The rules on a header's target and time (src/chain/chainstate.cpp:437-449, 591-594), over the whole header tree. */
module HeaderRules {
  import opened Types
  import opened Arith
  import opened BlockTree
  import opened Pow

  const MEDIAN_TIME_SPAN: nat := 11
  const MAX_FUTURE_DRIFT: int := 360

  type Infos = map<Hash, HeaderInfo>

  // ---------------------------------------------------------------- medians

  function Below(ts: seq<int>, m: int): nat { if ts == [] then 0 else Below(ts[1..], m) + if ts[0] < m then 1 else 0 }

  /** The middle element: at most half are below it, and not half are at most one less. */
  ghost predicate IsMedian(ts: seq<int>, m: int) { Below(ts, m) <= |ts| / 2 < Below(ts, m + 1) }

  ghost predicate Ascending(s: seq<int>) { forall i, j :: 0 <= i < j < |s| ==> s[i] <= s[j] }

  lemma {:induction false} BelowConcat(a: seq<int>, b: seq<int>, m: int)
    ensures Below(a + b, m) == Below(a, m) + Below(b, m)
  {
    if a == [] {
      assert a + b == b;
    } else {
      assert (a + b)[1..] == a[1..] + b;
      BelowConcat(a[1..], b, m);
    }
  }

  lemma {:induction false} BelowBounds(ts: seq<int>, m: int)
    ensures Below(ts, m) <= |ts|
    ensures (forall i :: 0 <= i < |ts| ==> ts[i] >= m) ==> Below(ts, m) == 0
    ensures (forall i :: 0 <= i < |ts| ==> ts[i] < m) ==> Below(ts, m) == |ts|
  {
    if ts != [] {
      BelowBounds(ts[1..], m);
      assert forall i :: 0 <= i < |ts| - 1 ==> ts[1..][i] == ts[i + 1];
    }
  }

  lemma {:induction false} BelowMono(ts: seq<int>, m: int, n: int)
    requires m <= n
    ensures Below(ts, m) <= Below(ts, n)
  {
    if ts != [] { BelowMono(ts[1..], m, n); }
  }

  lemma TakeOut(a: seq<int>, k: nat)
    requires k < |a|
    ensures multiset(a[..k] + a[k + 1..]) == multiset(a) - multiset{a[k]}
  {
    assert a == (a[..k] + [a[k]]) + a[k + 1..];
  }

  lemma BelowLess(ts: seq<int>, m: int, n: int)
    requires Below(ts, m) < Below(ts, n)
    ensures m < n
  {
    if n <= m { BelowMono(ts, n, m); }
  }

  lemma BelowAt(b: seq<int>, k: nat, m: int)
    requires k < |b|
    ensures Below(b, m) == Below(b[..k] + b[k + 1..], m) + if b[k] < m then 1 else 0
  {
    assert b == b[..k] + b[k..] && b[k..][1..] == b[k + 1..];
    BelowConcat(b[..k], b[k..], m);
    BelowConcat(b[..k], b[k + 1..], m);
  }

  lemma SameRest(a: seq<int>, b: seq<int>) returns (k: nat)
    requires multiset(a) == multiset(b) && a != []
    ensures k < |b| && b[k] == a[0] && multiset(a[1..]) == multiset(b[..k] + b[k + 1..])
  {
    k := IndexOf(b, a[0]) by { assert a[0] in multiset(a); }
    TakeFirst(a);
    TakeOut(b, k);
  }

  lemma IndexOf(b: seq<int>, x: int) returns (k: nat)
    requires x in multiset(b)
    ensures k < |b| && b[k] == x
  {
    k :| 0 <= k < |b| && b[k] == x;
  }

  lemma TakeFirst(a: seq<int>)
    requires a != []
    ensures multiset(a[1..]) == multiset(a) - multiset{a[0]}
  {
    assert a == [a[0]] + a[1..];
  }

  /** Order does not matter. */
  lemma {:induction false} BelowSame(a: seq<int>, b: seq<int>, m: int)
    requires multiset(a) == multiset(b)
    ensures |a| == |b| && Below(a, m) == Below(b, m)
  {
    assert |multiset(a)| == |a| && |multiset(b)| == |b|;
    if a != [] {
      var k := SameRest(a, b);
      BelowSame(a[1..], b[..k] + b[k + 1..], m);
      BelowAt(b, k, m);
    }
  }

  /** Sorting and taking the middle, as `median_time_past` does, gives the median. */
  lemma SortedMiddle(ts: seq<int>, s: seq<int>)
    requires ts != [] && multiset(s) == multiset(ts) && Ascending(s)
    ensures |s| == |ts| && IsMedian(ts, s[|s| / 2])
  {
    var k := |s| / 2;
    BelowSame(s, ts, 0);
    var m := s[k];
    BelowSame(s, ts, m);
    BelowSame(s, ts, m + 1);
    MiddleBelow(s, k);
  }

  lemma MiddleBelow(s: seq<int>, k: nat)
    requires k < |s| && Ascending(s)
    ensures Below(s, s[k]) <= k < Below(s, s[k] + 1)
  {
    LowerPart(s, k, s[k]);
    UpperPart(s, k, s[k] + 1);
  }

  lemma LowerPart(s: seq<int>, k: nat, m: int)
    requires k < |s| && forall i :: k <= i < |s| ==> s[i] >= m
    ensures Below(s, m) <= k
  {
    assert s == s[..k] + s[k..];
    BelowConcat(s[..k], s[k..], m);
    BelowBounds(s[..k], m);
    BelowBounds(s[k..], m);
  }

  lemma UpperPart(s: seq<int>, k: nat, m: int)
    requires k < |s| && forall i :: 0 <= i <= k ==> s[i] < m
    ensures k < Below(s, m)
  {
    assert s == s[..k + 1] + s[k + 1..];
    BelowConcat(s[..k + 1], s[k + 1..], m);
    BelowBounds(s[..k + 1], m);
  }

  lemma MedianUnique(ts: seq<int>, m: int, n: int)
    requires IsMedian(ts, m) && IsMedian(ts, n)
    ensures m == n
  {
    if m < n { BelowMono(ts, m + 1, n); }
    if n < m { BelowMono(ts, n + 1, m); }
  }

  /** A window that loses old entries and gains one after its median: the median does not fall. */
  lemma MedianGrows(ts: seq<int>, k: nat, t: int, m: int, m': int)
    requires k <= |ts| && IsMedian(ts, m) && t > m && IsMedian([t] + ts[..k], m') && |ts| <= k + 1
    ensures m <= m'
  {
    assert ts == ts[..k] + ts[k..];
    BelowConcat(ts[..k], ts[k..], m);
    var grown := [t] + ts[..k];
    assert grown[1..] == ts[..k];
    BelowLess(grown, m, m' + 1);
  }

  // ---------------------------------------------------------------- the tree

  /** The headers from `x` back to genesis. */
  ghost function Back(t: Tree, root: Hash, infos: Infos, x: Hash): (b: seq<HeaderInfo>)
    requires TreeOk(t, root) && infos.Keys == t.Keys && x in t
    ensures |b| == t[x].height + 1 && b[0] == infos[x]
    ensures x != root ==> b[1..] == Back(t, root, infos, t[x].prev.value)
    decreases t[x].height
  {
    if x == root then [infos[x]] else [infos[x]] + Back(t, root, infos, t[x].prev.value)
  }

  function Recent(b: seq<HeaderInfo>, n: nat): seq<HeaderInfo> { if |b| <= n then b else b[..n] }

  function Times(b: seq<HeaderInfo>): seq<int> { seq(|b|, i requires 0 <= i < |b| => b[i].time) }

  /** `next_bits_for`. */
  ghost function NextBitsAfter(b: seq<HeaderInfo>, limit: nat): nat
    requires b != []
  {
    NextBitsOf(Recent(b, LWMA_WINDOW + 2), |b| - 1, limit)
  }

  ghost predicate TimeIsLater(b: seq<HeaderInfo>, time: int) {
    exists m :: IsMedian(Times(Recent(b, MEDIAN_TIME_SPAN)), m) && m < time
  }

  /** What `accept_header` asks of target and time on top of the headers `b`. */
  ghost predicate HeaderOk(b: seq<HeaderInfo>, h: HeaderInfo, limit: nat, now: int)
    requires b != []
  {
    && h.bits < 0x1_0000_0000 && InRange(h.bits, limit) && h.bits == NextBitsAfter(b, limit)
    && TimeIsLater(b, h.time) && h.time <= now + MAX_FUTURE_DRIFT
  }

  ghost predicate InfoOk(h: HeaderInfo, limit: nat) {
    0 <= h.time < 0x8000_0000_0000_0000 && h.bits < 0x1_0000_0000 && InRange(h.bits, limit)
  }

  /** Every header of the tree is in range, has the target that its ancestors give, and is later than their median. */
  ghost predicate HeadersOk(t: Tree, root: Hash, infos: Infos, limit: nat) {
    && TreeOk(t, root) && infos.Keys == t.Keys && (forall x :: x in t ==> InfoOk(infos[x], limit))
    && (forall x {:trigger infos[x]} :: x in t && x != root ==>
        Ruled(Back(t, root, infos, t[x].prev.value), infos[x], limit))
  }

  ghost predicate Ruled(b: seq<HeaderInfo>, h: HeaderInfo, limit: nat)
    requires b != []
  {
    h.bits == NextBitsAfter(b, limit) && TimeIsLater(b, h.time)
  }

  lemma {:induction false} BackStable(t: Tree, t': Tree, root: Hash, infos: Infos, infos': Infos, x: Hash)
    requires TreeOk(t, root) && TreeOk(t', root) && infos.Keys == t.Keys && infos'.Keys == t'.Keys && x in t
    requires forall y :: y in t ==> y in t' && t'[y] == t[y] && infos'[y] == infos[y]
    ensures Back(t', root, infos', x) == Back(t, root, infos, x)
    decreases t[x].height
  {
    if x != root { BackStable(t, t', root, infos, infos', t[x].prev.value); }
  }

  lemma {:induction false} BackOk(t: Tree, root: Hash, infos: Infos, limit: nat, x: Hash)
    requires TreeOk(t, root) && infos.Keys == t.Keys && x in t && forall y :: y in t ==> InfoOk(infos[y], limit)
    ensures forall i :: 0 <= i < t[x].height + 1 ==> InfoOk(Back(t, root, infos, x)[i], limit)
    decreases t[x].height
  {
    hide InfoOk;
    var b := Back(t, root, infos, x);
    if x != root {
      BackOk(t, root, infos, limit, t[x].prev.value);
      forall i | 0 < i < |b| ensures InfoOk(b[i], limit) { assert b[i] == b[1..][i - 1]; }
    }
  }

  /** So retargeting may count on the headers it looks back on. */
  lemma HistoryHolds(t: Tree, root: Hash, infos: Infos, limit: nat, x: Hash, n: nat)
    requires HeadersOk(t, root, infos, limit) && x in t
    ensures History(Recent(Back(t, root, infos, x), n), limit)
  {
    hide InfoOk, Ruled, History;
    BackOk(t, root, infos, limit, x);
    RecentOk(Back(t, root, infos, x), n, limit);
  }

  lemma RecentOk(b: seq<HeaderInfo>, n: nat, limit: nat)
    requires forall i :: 0 <= i < |b| ==> InfoOk(b[i], limit)
    ensures History(Recent(b, n), limit)
  {
    hide InRange;
  }

  /** The two tests on the target never exclude each other: the target that a block's ancestors give is in range, on
      every branch. */
  lemma CanExtend(t: Tree, root: Hash, infos: Infos, limit: nat, p: Hash)
    requires HeadersOk(t, root, infos, limit) && p in t && 0 < limit < U256s.TWO256
    ensures InRange(NextBitsAfter(Back(t, root, infos, p), limit), limit)
  {
    HistoryHolds(t, root, infos, limit, p, LWMA_WINDOW + 2);
    NextInRange(Back(t, root, infos, p), limit);
  }

  lemma NextInRange(b: seq<HeaderInfo>, limit: nat)
    requires b != [] && History(Recent(b, LWMA_WINDOW + 2), limit) && 0 < limit < U256s.TWO256
    ensures InRange(NextBitsAfter(b, limit), limit)
  {
    hide InRange, History, NextBitsOf;
    NextBitsInRange(Recent(b, LWMA_WINDOW + 2), |b| - 1, limit);
  }

  lemma MedianNonNegative(ts: seq<int>, m: int)
    requires IsMedian(ts, m) && forall i :: 0 <= i < |ts| ==> ts[i] >= 0
    ensures m >= 0
  {
    BelowBounds(ts, m + 1);
  }

  /** Accepting a header keeps all of it. */
  lemma HeaderAdded(t: Tree, root: Hash, infos: Infos, limit: nat, p: Hash, x: Hash, n: Node, h: HeaderInfo, now: int)
    requires HeadersOk(t, root, infos, limit) && p in t && x !in t && n.prev == Some(p) && n.height == t[p].height + 1
    requires HeaderOk(Back(t, root, infos, p), h, limit, now) && now + MAX_FUTURE_DRIFT < 0x8000_0000_0000_0000
    ensures HeadersOk(t[x := n], root, infos[x := h], limit)
  {
    hide InfoOk, Ruled, HeaderOk, Back;
    var t', infos' := t[x := n], infos[x := h];
    AddNodeTree(t, root, p, x, n);
    NewInfoOk(t, root, infos, limit, p, h, now);
    RuledNow(Back(t, root, infos, p), h, limit, now);
    forall y | y in t' && y != root ensures Ruled(Back(t', root, infos', t'[y].prev.value), infos'[y], limit) {
      RuledStill(t, t', root, infos, infos', limit, if y == x then p else t[y].prev.value, infos'[y]);
    }
  }

  lemma RuledStill(t: Tree, t': Tree, root: Hash, infos: Infos, infos': Infos, limit: nat, q: Hash, h: HeaderInfo)
    requires TreeOk(t, root) && TreeOk(t', root) && infos.Keys == t.Keys && infos'.Keys == t'.Keys && q in t
    requires forall y :: y in t ==> y in t' && t'[y] == t[y] && infos'[y] == infos[y]
    requires Ruled(Back(t, root, infos, q), h, limit)
    ensures Ruled(Back(t', root, infos', q), h, limit)
  {
    hide Ruled, Back;
    BackStable(t, t', root, infos, infos', q);
  }

  lemma RuledNow(b: seq<HeaderInfo>, h: HeaderInfo, limit: nat, now: int)
    requires b != [] && HeaderOk(b, h, limit, now)
    ensures Ruled(b, h, limit)
  {
    hide InRange, NextBitsAfter, TimeIsLater;
  }

  lemma NewInfoOk(t: Tree, root: Hash, infos: Infos, limit: nat, p: Hash, h: HeaderInfo, now: int)
    requires HeadersOk(t, root, infos, limit) && p in t
    requires HeaderOk(Back(t, root, infos, p), h, limit, now) && now + MAX_FUTURE_DRIFT < 0x8000_0000_0000_0000
    ensures InfoOk(h, limit)
  {
    hide InRange, NextBitsAfter, Ruled, IsMedian;
    var b := Back(t, root, infos, p);
    BackOk(t, root, infos, limit, p);
    var ts := Times(Recent(b, MEDIAN_TIME_SPAN));
    var m :| IsMedian(ts, m) && m < h.time;
    MedianNonNegative(ts, m);
  }

  /** The median time of a block is at least that of its parent. */
  lemma MedianNeverFalls(t: Tree, root: Hash, infos: Infos, limit: nat, x: Hash, m: int, m': int)
    requires HeadersOk(t, root, infos, limit) && x in t && x != root
    requires IsMedian(Times(Recent(Back(t, root, infos, t[x].prev.value), MEDIAN_TIME_SPAN)), m)
    requires IsMedian(Times(Recent(Back(t, root, infos, x), MEDIAN_TIME_SPAN)), m')
    ensures m <= m'
  {
    hide InRange, NextBitsAfter, IsMedian, InfoOk, Recent, Times;
    var b, b' := Back(t, root, infos, t[x].prev.value), Back(t, root, infos, x);
    var ts := Times(Recent(b, MEDIAN_TIME_SPAN));
    var k := if |b| < MEDIAN_TIME_SPAN then |b| else MEDIAN_TIME_SPAN - 1;
    assert Ruled(b, infos[x], limit);
    var m0 :| IsMedian(ts, m0) && m0 < infos[x].time;
    MedianUnique(ts, m, m0);
    assert b' == [infos[x]] + b;
    WindowMoves(b, infos[x], k);
    MedianGrows(ts, k, infos[x].time, m, m');
  }

  /** The window of a new header. */
  lemma WindowMoves(b: seq<HeaderInfo>, h: HeaderInfo, k: nat)
    requires k == if |b| < MEDIAN_TIME_SPAN then |b| else MEDIAN_TIME_SPAN - 1
    ensures k <= |Times(Recent(b, MEDIAN_TIME_SPAN))| <= k + 1
    ensures Times(Recent([h] + b, MEDIAN_TIME_SPAN)) == [h.time] + Times(Recent(b, MEDIAN_TIME_SPAN))[..k]
  {}

  /** And so at least that of every ancestor. */
  lemma {:induction false} MedianAlong(t: Tree, root: Hash, infos: Infos, limit: nat, a: Hash, x: Hash, m: int, m': int)
    requires HeadersOk(t, root, infos, limit) && IsAncestor(t, root, a, x)
    requires IsMedian(Times(Recent(Back(t, root, infos, a), MEDIAN_TIME_SPAN)), m)
    requires IsMedian(Times(Recent(Back(t, root, infos, x), MEDIAN_TIME_SPAN)), m')
    ensures m <= m'
    decreases t[x].height
  {
    hide InRange, NextBitsAfter, IsMedian, InfoOk, Recent, Times;
    if a == x {
      MedianUnique(Times(Recent(Back(t, root, infos, a), MEDIAN_TIME_SPAN)), m, m');
    } else {
      AncestorOfParent(t, root, a, x);
      var b := Back(t, root, infos, t[x].prev.value);
      assert Ruled(b, infos[x], limit);
      var mid :| IsMedian(Times(Recent(b, MEDIAN_TIME_SPAN)), mid) && mid < infos[x].time;
      MedianAlong(t, root, infos, limit, a, t[x].prev.value, m, mid);
      MedianNeverFalls(t, root, infos, limit, x, mid, m');
    }
  }
}
