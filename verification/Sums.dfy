/** Sums over finite maps, independent of the order in which the entries are visited. */
module Sums {

  ghost function MapSum<K(!new), V>(m: map<K, V>, f: (K, V) -> int): int
    decreases |m|
  {
    if m == map[] then 0
    else
      var k :| k in m;
      f(k, m[k]) + MapSum(m - {k}, f)
  }

  /** Any entry may be taken out first. */
  lemma {:induction false} MapSumTake<K(!new), V>(m: map<K, V>, f: (K, V) -> int, k: K)
    requires k in m
    ensures MapSum(m, f) == f(k, m[k]) + MapSum(m - {k}, f)
    decreases |m|
  {
    var j :| j in m && MapSum(m, f) == f(j, m[j]) + MapSum(m - {j}, f);
    if j != k {
      MapSumTake(m - {j}, f, k);
      MapSumTake(m - {k}, f, j);
      assert m - {j} - {k} == m - {k} - {j};
    }
  }

  lemma MapSumPut<K(!new), V>(m: map<K, V>, f: (K, V) -> int, k: K, v: V)
    ensures MapSum(m[k := v], f) == MapSum(m, f) + f(k, v) - (if k in m then f(k, m[k]) else 0)
  {
    MapSumTake(m[k := v], f, k);
    assert m[k := v] - {k} == m - {k};
    if k in m {
      MapSumTake(m, f, k);
    } else {
      assert m - {k} == m;
    }
  }

  lemma {:induction false} MapSumZero<K(!new), V>(m: map<K, V>, f: (K, V) -> int)
    requires forall k :: k in m ==> f(k, m[k]) == 0
    ensures MapSum(m, f) == 0
    decreases |m|
  {
    if m != map[] {
      var k :| k in m;
      MapSumTake(m, f, k);
      MapSumZero(m - {k}, f);
    }
  }

  /** Only the entry at `k` contributes. */
  lemma MapSumAt<K(!new), V>(m: map<K, V>, f: (K, V) -> int, k: K)
    requires forall j :: j in m && j != k ==> f(j, m[j]) == 0
    ensures MapSum(m, f) == if k in m then f(k, m[k]) else 0
  {
    if k in m {
      MapSumTake(m, f, k);
      MapSumZero(m - {k}, f);
    } else {
      MapSumZero(m, f);
    }
  }

  lemma {:induction false} MapSumSame<K(!new), V>(m: map<K, V>, f: (K, V) -> int, g: (K, V) -> int)
    requires forall k :: k in m ==> f(k, m[k]) == g(k, m[k])
    ensures MapSum(m, f) == MapSum(m, g)
    decreases |m|
  {
    if m != map[] {
      var k :| k in m;
      MapSumTake(m, f, k);
      MapSumTake(m, g, k);
      MapSumSame(m - {k}, f, g);
    }
  }

  lemma {:induction false} MapSumNonNegative<K(!new), V>(m: map<K, V>, f: (K, V) -> int)
    requires forall k :: k in m ==> f(k, m[k]) >= 0
    ensures MapSum(m, f) >= 0
    ensures forall k :: k in m ==> f(k, m[k]) <= MapSum(m, f)
    decreases |m|
  {
    forall k | k in m
      ensures 0 <= f(k, m[k]) <= MapSum(m, f)
    {
      MapSumTake(m, f, k);
      MapSumNonNegative(m - {k}, f);
    }
  }

  lemma MergePut<K, V>(m: map<K, V>, n: map<K, V>, k: K, v: V)
    ensures m + n[k := v] == (m + n)[k := v]
  {}

  lemma MergeAssoc<K, V>(m: map<K, V>, n: map<K, V>, p: map<K, V>)
    ensures m + (n + p) == (m + n) + p
  {}
}
