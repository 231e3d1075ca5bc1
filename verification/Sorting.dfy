/** Sorted listings of sets: each set of keys has exactly one, whatever order the keys come in. */
module Sorting {
  /** A strict total order. */
  ghost predicate Ordering<K(!new)>(less: (K, K) -> bool) {
    && (forall a, b :: less(a, b) ==> !less(b, a))
    && (forall a, b, c {:trigger less(a, b), less(b, c)} :: less(a, b) && less(b, c) ==> less(a, c))
    && (forall a, b :: a != b ==> less(a, b) || less(b, a))
  }

  ghost predicate Sorted<K(!new)>(less: (K, K) -> bool, s: seq<K>)
  {
    forall i, j :: 0 <= i < j < |s| ==> less(s[i], s[j])
  }

  function Elements<K>(s: seq<K>): set<K> { set x | x in s }

  /** A set has at most one sorted listing. */
  lemma {:induction false} SortedUnique<K(!new)>(less: (K, K) -> bool, a: seq<K>, b: seq<K>)
    requires Ordering(less) && Sorted(less, a) && Sorted(less, b) && Elements(a) == Elements(b)
    ensures a == b
  {
    NoElements(a);
    NoElements(b);
    if a != [] {
      FirstIsLeast(less, a, b[0]);
      FirstIsLeast(less, b, a[0]);
      RestElements(less, a);
      RestElements(less, b);
      SortedUnique(less, a[1..], b[1..]);
    }
  }

  lemma NoElements<K>(a: seq<K>)
    ensures a == [] <==> Elements(a) == {}
    ensures a != [] ==> a[0] in Elements(a)
  {
    if a != [] { assert a[0] in Elements(a); }
  }

  lemma FirstIsLeast<K(!new)>(less: (K, K) -> bool, a: seq<K>, x: K)
    requires Sorted(less, a) && x in Elements(a)
    ensures a != [] && (x == a[0] || less(a[0], x))
  {}

  lemma RestElements<K(!new)>(less: (K, K) -> bool, a: seq<K>)
    requires Ordering(less) && Sorted(less, a) && a != []
    ensures Sorted(less, a[1..]) && Elements(a[1..]) == Elements(a) - {a[0]}
  {
    forall x | x in Elements(a[1..]) ensures x in Elements(a) - {a[0]} {
      var i :| 0 <= i < |a| - 1 && a[1..][i] == x;
      assert less(a[0], a[i + 1]);
    }
    forall x | x in Elements(a) - {a[0]} ensures x in Elements(a[1..]) {
      var i :| 0 <= i < |a| && a[i] == x;
      assert a[1..][i - 1] == x;
    }
  }

  /** Put a new key into a sorted listing. */
  method Insert<K(!new)>(less: (K, K) -> bool, s: seq<K>, x: K) returns (r: seq<K>)
    requires Ordering(less) && Sorted(less, s) && x !in s
    ensures Sorted(less, r) && Elements(r) == Elements(s) + {x}
  {
    var i := 0;
    while i < |s| && less(s[i], x)
      invariant 0 <= i <= |s| && forall k :: 0 <= k < i ==> less(s[k], x)
    {
      i := i + 1;
    }
    r := s[..i] + [x] + s[i..];
    forall k | i <= k < |s| ensures less(x, s[k]) {
      assert s[k] != x && s[i] != x;
      if k > i { assert less(s[i], s[k]); }
    }
    InsertedElements(s, i, x);
  }

  lemma InsertedElements<K>(s: seq<K>, i: nat, x: K)
    requires i <= |s|
    ensures Elements(s[..i] + [x] + s[i..]) == Elements(s) + {x}
  {
    var r := s[..i] + [x] + s[i..];
    assert s == s[..i] + s[i..];
    assert forall y :: y in r <==> y in s[..i] || y == x || y in s[i..];
    assert forall y :: y in s <==> y in s[..i] || y in s[i..];
  }

  /** Keys in whatever order the hash map yields them, sorted: the result depends on the keys alone. */
  method SortKeys<K(!new)>(less: (K, K) -> bool, keys: set<K>) returns (s: seq<K>)
    requires Ordering(less)
    ensures Sorted(less, s) && Elements(s) == keys
    ensures forall t :: Sorted(less, t) && Elements(t) == keys ==> t == s
  {
    s := [];
    var todo := keys;
    while todo != {}
      invariant todo <= keys && Sorted(less, s) && Elements(s) == keys - todo
      decreases todo
    {
      var x :| x in todo;
      assert x in s ==> x in Elements(s);
      s := Insert(less, s, x);
      todo := todo - {x};
    }
    forall t | Sorted(less, t) && Elements(t) == keys ensures t == s { SortedUnique(less, t, s); }
  }

  /** Every set of keys has a sorted listing. */
  lemma {:induction false} SortedExists<K(!new)>(less: (K, K) -> bool, keys: set<K>) returns (s: seq<K>)
    requires Ordering(less)
    ensures Sorted(less, s) && Elements(s) == keys
  {
    s := [];
    if keys != {} {
      var x :| x in keys;
      var rest := SortedExists(less, keys - {x});
      assert x in rest ==> x in Elements(rest);
      s := SortedWith(less, rest, x);
    }
  }

  lemma {:induction false} SortedWith<K(!new)>(less: (K, K) -> bool, s: seq<K>, x: K) returns (r: seq<K>)
    requires Ordering(less) && Sorted(less, s) && x !in s
    ensures Sorted(less, r) && Elements(r) == Elements(s) + {x}
  {
    if s == [] || less(x, s[0]) {
      r := [x] + s;
      InsertedElements(s, 0, x);
      assert s[..0] + [x] + s[0..] == r;
    } else {
      var rest := SortedWith(less, s[1..], x);
      r := [s[0]] + rest;
      assert s[0] != x;
      forall k | 0 <= k < |rest| ensures less(s[0], rest[k]) {
        assert rest[k] in Elements(rest);
        if rest[k] != x { assert rest[k] in Elements(s[1..]); }
      }
      assert forall y :: y in r <==> y == s[0] || y in rest;
      assert forall y :: y in rest <==> y in Elements(rest);
      assert forall y :: y in s <==> y == s[0] || y in s[1..];
    }
  }

  /** A sorted listing repeats nothing, so it is as long as there are keys. */
  lemma {:induction false} SortedLength<K(!new)>(less: (K, K) -> bool, ks: seq<K>)
    requires Ordering(less) && Sorted(less, ks)
    ensures |ks| == |Elements(ks)|
  {
    NoElements(ks);
    if ks != [] {
      RestElements(less, ks);
      SortedLength(less, ks[1..]);
    }
  }

  lemma ComesBefore<K(!new)>(less: (K, K) -> bool, s: seq<K>, i: nat, j: nat)
    requires Ordering(less) && Sorted(less, s) && i < |s| && j < |s| && less(s[j], s[i])
    ensures j < i
  {}

  /** As many elements come before the `i`-th of a sorted listing. */
  lemma SortedRank<K(!new)>(less: (K, K) -> bool, s: seq<K>, i: nat)
    requires Ordering(less) && Sorted(less, s) && i < |s|
    ensures (set y | y in s && less(y, s[i])) == Elements(s[..i]) && |Elements(s[..i])| == i
  {
    forall y | y in s && less(y, s[i]) ensures y in s[..i] {
      var j :| 0 <= j < |s| && s[j] == y;
      ComesBefore(less, s, i, j);
      assert s[..i][j] == y;
    }
    SortedLength(less, s[..i]);
  }
}
