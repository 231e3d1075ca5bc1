/** 256-bit unsigned arithmetic on four 64-bit limbs (src/util/u256.cpp:10-101, 124-128): every operation
    refines arithmetic modulo 2^256. */
module U256s {
  import opened Types
  import opened Arith
  import opened Limbs

  const TWO128: int := TWO64 * TWO64

  ghost const TWO256: nat := Base(4)

  // ---------------------------------------------------------------- steps of the limb loops

  /** One limb of a loop that carries: `t` joins the carry `c`, `x` stays, `c'` goes on. */
  lemma CarryStep(pre: seq<Amount>, c: int, t: int, x: Amount, c': int, total: int, total': int)
    requires Val(pre) + Base(|pre|) * c == total && total' == total + Base(|pre|) * t
    requires c + t == x + TWO64 * c'
    ensures Val(pre + [x]) + Base(|pre| + 1) * c' == total'
  {
    var b := Base(|pre|);
    ValConcat(pre, [x]);
    assert Val([x]) == x by { assert [x][1..] == []; }
    Distribute(c, t, b);
    Distribute(x, TWO64 * c', b);
    MulAssoc(b, TWO64, c');
  }

  /** The carry out of the last limb is what the modulus drops. */
  lemma CarryOut(s: seq<Amount>, c: int, total: int)
    requires |s| == 4 && Val(s) + TWO256 * c == total
    ensures Val(s) == total % TWO256
  {
    ValBound(s);
    QuotientUnique(total, TWO256, c, Val(s));
  }

  lemma DivStep(a: seq<Amount>, q: seq<Amount>, i: nat, rem: nat, d: nat, cur: nat)
    requires |a| == |q| && i < |a| && d > 0 && rem < d
    requires Val(a[i + 1..]) == Val(q[i + 1..]) * d + rem
    requires cur == rem * TWO64 + a[i] && q[i] == cur / d
    ensures Val(a[i..]) == Val(q[i..]) * d + cur % d
  {
    hide Val;
    ValCons(a, i);
    ValCons(q, i);
    var hi := Val(q[i + 1..]);
    assert cur == q[i] * d + cur % d;
    Distribute(q[i], TWO64 * hi, d);
    MulAssoc(TWO64, hi, d);
    Distribute(hi * d, rem, TWO64);
  }

  /** One limb of the long division by a word fits a word. */
  lemma QuotientFits(rem: nat, x: Amount, d: nat)
    requires 0 < d && rem < d
    ensures (rem * TWO64 + x) / d < TWO64
    ensures d < TWO64 ==> rem * TWO64 + x < TWO128
  {
    MulMono(rem + 1, d, TWO64);
    FloorIff(rem * TWO64 + x, d, TWO64);
  }

  // ---------------------------------------------------------------- shifts

  /** Limb `k` of a left shift by `bit < 64`. */
  function ShlAt(s: seq<Amount>, bit: nat, k: nat): (x: Amount)
    requires k < |s| && bit < 64
  {
    ShlFits(s[k], if bit > 0 && k > 0 then s[k - 1] else 0, bit);
    var low := (s[k] * Pow2(bit)) % TWO64;
    if bit > 0 && k > 0 then Or(low, s[k - 1] / Pow2(64 - bit)) else low
  }

  lemma ShlFits(x: Amount, below: Amount, bit: nat)
    requires bit < 64
    ensures 0 <= (x * Pow2(bit)) % TWO64 + below / Pow2(64 - bit) < TWO64
    ensures below / Pow2(64 - bit) >= 0 && Or((x * Pow2(bit)) % TWO64,
              below / Pow2(64 - bit)) == (x * Pow2(bit)) % TWO64 + below / Pow2(64 - bit)
  {
    hide Pow2, Or;
    var p, c := Pow2(bit), Pow2(64 - bit);
    LimbPow(bit);
    LimbShl(below, bit);
    FloorIff(below, c, 0);
    // the low limb is a multiple of p
    LowPart(x, c, p, TWO64);
    var r := x % c;
    MulMono(r, c - 1, p);
    Distribute(c, 1, p);
    MulNonNegative(r, p);
    QuotientUnique(r * p, p, r, 0);
    OrIsAdd(r * p, below / c, bit);
  }

  /** Low limbs of a left shift, with what they push out. */
  ghost function Shl(s: seq<Amount>, bit: nat, n: nat): (r: seq<Amount>)
    requires n <= |s| && bit < 64
    ensures |r| == n
  {
    seq(n, k requires 0 <= k < n => ShlAt(s, bit, k))
  }

  lemma {:induction false} ShlVal(s: seq<Amount>, bit: nat, n: nat)
    requires n <= |s| && bit < 64
    ensures Val(Shl(s, bit, n)) + Base(n) * (if n > 0 then s[n - 1] / Pow2(64 - bit) else 0) == Val(s[..n]) * Pow2(bit)
  {
    if n > 0 {
      var m, p := n - 1, Pow2(bit);
      ShlVal(s, bit, m);
      var c := if m > 0 then s[m - 1] / Pow2(64 - bit) else 0;
      assert ShlAt(s, bit, m) == (s[m] * p) % TWO64 + c by {
        if bit == 0 { LimbShl(s[if m > 0 then m - 1 else 0], 0); }
        if m > 0 { ShlFits(s[m], s[m - 1], bit); }
      }
      LimbShl(s[m], bit);
      ValSnoc(s, m);
      Distribute(Val(s[..m]), Base(m) * s[m], p);
      MulAssoc(Base(m), s[m], p);
      CarryStep(Shl(s, bit, m), c, s[m] * p, ShlAt(s, bit, m), s[m] / Pow2(64 - bit), Val(s[..m]) * p, Val(s[..n]) * p);
      assert Shl(s, bit, n) == Shl(s, bit, m) + [ShlAt(s, bit, m)];
    }
  }

  ghost function Zeros(n: nat): seq<Amount> { seq(n, k requires 0 <= k < n => 0) }

  lemma ShlWhole(s: seq<Amount>, limb: nat, bit: nat)
    requires |s| == 4 && limb < 4 && bit < 64
    ensures Val(Zeros(limb) + Shl(s, bit, 4 - limb)) == (Val(s) * Pow2(64 * limb + bit)) % TWO256
  {
    hide Val, Base, Pow2, Shl;
    var n, p, b := 4 - limb, Pow2(bit), Base(limb);
    var low, high := Val(s[..n]), Val(s[n..]);
    var out := s[n - 1] / Pow2(64 - bit);
    ShlVal(s, bit, n);
    ValZero(Zeros(limb));
    ValConcat(Zeros(limb), Shl(s, bit, n));
    ValSplit(s, n);
    BaseIsPow2(limb);
    Pow2Add(64 * limb, bit);
    BaseAdd(limb, n);
    var t, c := Val(Shl(s, bit, n)), out + high * p;
    ShlRegroup(Val(s), low, high, t, Base(n), b, p, out);
    assert b * Base(n) == TWO256 && b * p == Pow2(64 * limb + bit);
    assert b * t + TWO256 * c == Val(s) * Pow2(64 * limb + bit);
    CarryOut(Zeros(limb) + Shl(s, bit, n), c, Val(s) * Pow2(64 * limb + bit));
  }

  lemma ShlRegroup(v: int, low: int, high: int, t: int, bn: int, b: int, p: int, out: int)
    requires v == low + bn * high && t + bn * out == low * p
    ensures b * t + (b * bn) * (out + high * p) == v * (b * p)
  {
    assert v * (b * p) == b * (v * p) by { MulAssoc(v, b, p); }
    assert v * p == low * p + bn * (high * p) by { Distribute(low, bn * high, p); MulAssoc(bn, high, p); }
    assert v * p == t + bn * (out + high * p) by { Distribute(out, high * p, bn); }
    Distribute(t, bn * (out + high * p), b);
    MulAssoc(b, bn, out + high * p);
  }

  /** Limb `k` of a right shift by `bit < 64`. */
  function ShrAt(s: seq<Amount>, bit: nat, k: nat): (x: Amount)
    requires k < |s| && bit < 64
  {
    ShrFits(s[k], if bit > 0 && k + 1 < |s| then s[k + 1] else 0, bit);
    if bit > 0 && k + 1 < |s| then Or(s[k] / Pow2(bit), (s[k + 1] * Pow2(64 - bit)) % TWO64) else s[k] / Pow2(bit)
  }

  lemma ShrFits(x: Amount, above: Amount, bit: nat)
    requires bit < 64
    ensures x / Pow2(bit) + (if bit > 0 then (above * Pow2(64 - bit)) % TWO64 else 0) < TWO64
    ensures x / Pow2(bit) >= 0
    ensures bit > 0 ==>
              Or(x / Pow2(bit), (above * Pow2(64 - bit)) % TWO64) == x / Pow2(bit) + (above * Pow2(64 - bit)) % TWO64
  {
    var p, c := Pow2(bit), Pow2(64 - bit);
    LimbPow(bit);
    FloorIff(x, p, c);
    FloorIff(x, p, 0);
    if bit > 0 {
      LimbShr(above, bit);
      MulMono(above % p, p - 1, c);
      Distribute(p, 1, c);
      MulNonNegative(above % p, c);
      QuotientUnique((above % p) * c, c, above % p, 0);
      OrIsAdd((above % p) * c, x / p, 64 - bit);
    } else {
      assert x / 1 == x;
    }
  }

  ghost function Shr(s: seq<Amount>, bit: nat): seq<Amount>
    requires bit < 64
  {
    seq(|s|, k requires 0 <= k < |s| => ShrAt(s, bit, k))
  }

  lemma ShrRest(s: seq<Amount>, bit: nat)
    requires s != [] && bit < 64
    ensures |Shr(s, bit)| == |s| && Shr(s, bit)[0] == ShrAt(s, bit, 0) && Shr(s, bit)[1..] == Shr(s[1..], bit)
  {
    forall k | 0 <= k < |s| - 1 ensures ShrAt(s, bit, k + 1) == ShrAt(s[1..], bit, k) {}
  }

  lemma ShrFirst(s: seq<Amount>, bit: nat)
    requires s != [] && bit < 64
    ensures ShrAt(s, bit, 0) == s[0] / Pow2(bit) + (if |s| > 1 then s[1] % Pow2(bit) else 0) * Pow2(64 - bit)
  {
    if bit == 0 {
      assert Pow2(bit) == 1;
    } else if |s| > 1 {
      LimbShr(s[1], bit);
      ShrFits(s[0], s[1], bit);
    }
  }

  lemma {:induction false} ShrVal(s: seq<Amount>, bit: nat)
    requires bit < 64
    ensures Val(s) == Val(Shr(s, bit)) * Pow2(bit) + (if s == [] then 0 else s[0] % Pow2(bit))
  {
    if s != [] {
      hide Pow2, Or, ShrAt, Shr;
      var p, c := Pow2(bit), Pow2(64 - bit);
      var up := if |s| > 1 then s[1] % p else 0;
      ShrVal(s[1..], bit);
      ShrRest(s, bit);
      ShrFirst(s, bit);
      LimbPow(bit);
      LimbShr(s[0], bit);
      ShrJoin(s[0], Val(s[1..]), ShrAt(s, bit, 0), Val(Shr(s[1..], bit)), up, p, c);
    }
  }

  lemma ShrJoin(s0: int, v: int, x: int, t: int, up: int, p: int, c: int)
    requires p > 0 && p * c == TWO64 && s0 == (s0 / p) * p + s0 % p && x == s0 / p + up * c && v == t * p + up
    ensures s0 + TWO64 * v == (x + TWO64 * t) * p + s0 % p
  {
    ShrRegroup(s0, s0 / p, s0 % p, up, c, p, t, x);
  }

  lemma ShrRegroup(s0: int, q: int, r: int, up: int, c: int, p: int, t: int, x: int)
    requires s0 == q * p + r && p * c == TWO64 && x == q + up * c
    ensures s0 + TWO64 * (t * p + up) == (x + TWO64 * t) * p + r
  {
    Distribute(x, TWO64 * t, p);
    Distribute(q, up * c, p);
    MulAssoc(up, c, p);
    MulAssoc(TWO64, t, p);
    Distribute(t * p, up, TWO64);
  }

  lemma ShrWhole(s: seq<Amount>, limb: nat, bit: nat)
    requires |s| == 4 && limb < 4 && bit < 64
    ensures Val(Shr(s[limb..], bit) + Zeros(limb)) == Val(s) / Pow2(64 * limb + bit)
  {
    hide Val, Base, Pow2, Shr;
    var up := s[limb..];
    ShrVal(up, bit);
    ValZero(Zeros(limb));
    ValConcat(Shr(up, bit), Zeros(limb));
    DivByBase(s, limb);
    QuotientUnique(Val(up), Pow2(bit), Val(Shr(up, bit)), up[0] % Pow2(bit));
    BaseIsPow2(limb);
    DivDiv(Val(s), Base(limb), Pow2(bit));
    Pow2Add(64 * limb, bit);
  }

  // ---------------------------------------------------------------- bits

  lemma {:induction false} BitLengthIs(n: nat, b: nat)
    requires n < Pow2(b) && (b == 0 || Pow2(b - 1) <= n)
    ensures BitLength(n) == b
  {
    var c := BitLength(n);
    if c < b { Pow2Mono(c, b - 1); }
    if b < c { Pow2Mono(b, c - 1); }
  }

  /** The length of a number is that of its highest nonzero limb, above the limbs below it. */
  lemma BitLengthTop(s: seq<Amount>, i: nat)
    requires i < |s| && s[i] != 0 && forall k :: i < k < |s| ==> s[k] == 0
    ensures BitLength(Val(s)) == 64 * i + BitLength(s[i])
  {
    hide Val, Base, Pow2, BitLength;
    var j, b := BitLength(s[i]), Base(i);
    ValSplit(s, i);
    ValCons(s, i);
    ValZero(s[i + 1..]);
    BaseIsPow2(i);
    Pow2Add(64 * i, j);
    Pow2Add(64 * i, j - 1);
    var top: int := s[i];
    MulMono(Pow2(j - 1), top, b);
    MulMono(top + 1, Pow2(j), b);
    Distribute(top, 1, b);
    BitLengthIs(Val(s), 64 * i + j);
  }

  /** Bit `i` of a number is a bit of one limb. */
  lemma BitOfLimb(s: seq<Amount>, i: nat)
    requires i / 64 < |s|
    ensures (Val(s) / Pow2(i)) % 2 == (s[i / 64] / Pow2(i % 64)) % 2
  {
    hide Val, Base, Pow2;
    var k, j := i / 64, i % 64;
    DivByBase(s, k);
    BaseIsPow2(k);
    Pow2Add(64 * k, j);
    DivDiv(Val(s), Base(k), Pow2(j));
    ValCons(s, k);
    LimbBit(s[k], Val(s[k + 1..]), j);
  }

  lemma LimbBit(x: int, hi: int, j: nat)
    requires j < 64
    ensures ((x + TWO64 * hi) / Pow2(j)) % 2 == (x / Pow2(j)) % 2
  {
    hide Pow2;
    LimbPow(j);
    Pow2Next(63 - j);
    EvenAbove(x, hi, Pow2(j), Pow2(63 - j), TWO64);
  }

  lemma EvenAbove(x: int, hi: int, p: nat, c: nat, top: int)
    requires p > 0 && p * (2 * c) == top
    ensures ((x + top * hi) / p) % 2 == (x / p) % 2
  {
    var q, r, e := x / p, x % p, c * hi;
    assert x == q * p + r;
    MulAssoc(p, 2 * c, hi);
    MulAssoc(2, c, hi);
    assert top * hi == p * (2 * e);
    Distribute(q, 2 * e, p);
    QuotientUnique(x + top * hi, p, q + 2 * e, r);
    EvenPart(q, e);
  }

  lemma EvenPart(q: int, h: int)
    ensures (q + 2 * h) % 2 == q % 2
  {}

  lemma Pow2Next(n: nat)
    ensures Pow2(n + 1) == 2 * Pow2(n)
  {}

  /** Setting a bit below all set bits stays within its limb and adds its weight. */
  lemma SetBit(s: seq<Amount>, i: nat, m: nat)
    requires i / 64 < |s| && Val(s) == m * Pow2(i + 1)
    ensures s[i / 64] + Pow2(i % 64) < TWO64 && Or(s[i / 64], Pow2(i % 64)) == s[i / 64] + Pow2(i % 64)
    ensures Val(s[i / 64 := s[i / 64] + Pow2(i % 64)]) == Val(s) + Pow2(i)
  {
    hide Val, Base, Pow2;
    var k, j := i / 64, i % 64;
    var p, c := Pow2(j + 1), Pow2(63 - j);
    BaseIsPow2(k);
    Pow2Add(64 * k, j + 1);
    Pow2Add(64 * k, j);
    LimbPow(j + 1);
    Pow2Next(j);
    DivByBase(s, k);
    MulAssoc(m, Base(k), p);
    QuotientUnique(Val(s), Base(k), m * p, 0);
    ValCons(s, k);
    var hi := Val(s[k + 1..]);
    MulAssoc(p, c, hi);
    Distribute(m, c * hi, p);
    assert s[k] == (m - c * hi) * p;
    MultipleFits(s[k], m - c * hi, p, c);
    QuotientUnique(s[k], p, m - c * hi, 0);
    OrIsAdd(s[k], Pow2(j), j + 1);
    var s' := s[k := s[k] + Pow2(j)];
    ValSplit(s, k);
    ValSplit(s', k);
    ValCons(s', k);
    assert s'[..k] == s[..k] && s'[k + 1..] == s[k + 1..];
    Distribute(Val(s[k..]), Pow2(j), Base(k));
  }

  lemma MultipleFits(x: Amount, u: int, p: nat, c: nat)
    requires x == u * p && p * c == TWO64 && p > 0
    ensures x + p <= TWO64
  {
    if u >= c { MulMono(c, u, p); } else { MulMono(u + 1, c, p); Distribute(u, 1, p); }
  }

  // ---------------------------------------------------------------- long division

  /** One bit of long division: the remainder is at most the bits read so far, so doubling it cannot overflow. */
  lemma DivideStep(a: nat, b: nat, i: nat, q: nat, r: nat, bit: nat)
    requires b > 0 && a / Pow2(i + 1) == q * b + r && r < b && bit == (a / Pow2(i)) % 2
    ensures 2 * r + bit <= a
    ensures if 2 * r + bit >= b then a / Pow2(i) == (2 * q + 1) * b + (2 * r + bit - b) && 2 * r + bit - b < b
            else a / Pow2(i) == (2 * q) * b + (2 * r + bit)
  {
    hide Pow2;
    Pow2Next(i);
    DivDiv(a, Pow2(i), 2);
    var t := a / Pow2(i);
    assert t == 2 * (t / 2) + bit;
    Distribute(2 * q, 1, b);
    assert (2 * q) * b == 2 * (q * b);
    MulNonNegative(q, b);
    FloorIff(a, Pow2(i), t);
    MulMono(1, Pow2(i), t);
    FloorIff(a, Pow2(i), 0);
  }

  class U256 {
    const w: array<Amount>

    ghost predicate Valid() { w.Length == 4 }

    ghost function Value(): (v: nat)
      requires Valid()
      reads w
      ensures v < TWO256
    {
      ValBound(w[..]);
      Val(w[..])
    }

    constructor (v: Amount)
      ensures Valid() && fresh(w) && Value() == v
    {
      w := new Amount[4](i => if i == 0 then v else 0);
      new;
      ValCons(w[..], 0);
      assert w[..][0..] == w[..];
      ValZero(w[..][1..]);
    }

    method Copy() returns (r: U256)
      requires Valid()
      ensures r.Valid() && fresh(r) && fresh(r.w) && r.w[..] == w[..]
    {
      r := new U256(0);
      for i := 0 to 4
        invariant r.Valid() && fresh(r.w) && w[..] == old(w[..])
        invariant forall k :: 0 <= k < i ==> r.w[k] == w[k]
      {
        r.w[i] := w[i];
      }
    }

    /** `operator+=`. */
    method Add(o: U256)
      requires Valid() && o.Valid()
      modifies w
      ensures Value() == (old(Value()) + old(o.Value())) % TWO256
    {
      hide Val, Base;
      var c: int := 0;
      ghost var a, b := w[..], o.w[..];
      SumStart(a, b);
      for i := 0 to 4
        invariant 0 <= c <= 1 && forall k :: i <= k < 4 ==> w[k] == a[k] && o.w[k] == b[k]
        invariant Val(w[..i]) + Base(i) * c == Val(a[..i]) + Val(b[..i])
      {
        ghost var pre := w[..i];
        var cur := c + w[i] + o.w[i];
        SumStep(a, b, i);
        CarryStep(pre, c, (a[i] as int) + b[i], cur % TWO64, cur / TWO64, Val(a[..i]) + Val(b[..i]),
                  Val(a[..i + 1]) + Val(b[..i + 1]));
        w[i] := cur % TWO64;
        assert w[..i + 1] == pre + [cur % TWO64];
        c := cur / TWO64;
      }
      assert w[..4] == w[..] && a[..4] == a && b[..4] == b;
      CarryOut(w[..], c, Val(a) + Val(b));
    }

    /** `operator-=`, with the borrow as the code computes it. */
    method Subtract(o: U256)
      requires Valid() && o.Valid()
      modifies w
      ensures Value() == (old(Value()) - old(o.Value())) % TWO256
    {
      hide Val, Base;
      var borrow: int := 0;
      ghost var a, b := w[..], o.w[..];
      SumStart(a, b);
      for i := 0 to 4
        invariant 0 <= borrow <= 1 && forall k :: i <= k < 4 ==> w[k] == a[k] && o.w[k] == b[k]
        invariant Val(w[..i]) + Base(i) * (-borrow) == Val(a[..i]) - Val(b[..i])
      {
        ghost var pre := w[..i];
        var x, y := w[i], o.w[i];
        var d := Sub64(Sub64(x, y), borrow);
        var next: int := if x < y || Sub64(x, y) < borrow then 1 else 0;
        BorrowStep(x, y, borrow);
        SumStep(a, b, i);
        CarryStep(pre, -borrow, (a[i] as int) - b[i], d, -next, Val(a[..i]) - Val(b[..i]),
                  Val(a[..i + 1]) - Val(b[..i + 1]));
        borrow := next;
        w[i] := d;
        assert w[..i + 1] == pre + [d];
      }
      assert w[..4] == w[..] && a[..4] == a && b[..4] == b;
      CarryOut(w[..], -borrow, Val(a) - Val(b));
    }

    /** `mul64`; the 128-bit accumulator never overflows. */
    method Mul64(m: Amount)
      requires Valid()
      modifies w
      ensures Value() == (old(Value()) * m) % TWO256
    {
      hide Val, Base;
      var c: int := 0;
      ghost var a := w[..];
      SumStart(a, a);
      for i := 0 to 4
        invariant 0 <= c < TWO64 && forall k :: i <= k < 4 ==> w[k] == a[k]
        invariant Val(w[..i]) + Base(i) * c == Val(a[..i]) * m
      {
        ghost var pre := w[..i];
        var cur := c + w[i] * m;
        AccumulatorFits(c, w[i], m);
        assert 0 <= cur < TWO128;
        ProductStep(a, i, m);
        CarryStep(pre, c, a[i] * m, cur % TWO64, cur / TWO64, Val(a[..i]) * m, Val(a[..i + 1]) * m);
        w[i] := cur % TWO64;
        assert w[..i + 1] == pre + [cur % TWO64];
        c := cur / TWO64;
      }
      assert w[..4] == w[..] && a[..4] == a;
      CarryOut(w[..], c, Val(a) * m);
    }

    /** `div64`. */
    method Div64(d: Amount)
      requires Valid() && d > 0
      modifies w
      ensures Value() == old(Value()) / d
    {
      hide Val, Base;
      var rem: int := 0;
      ghost var a := w[..];
      SuffixEnd(a, w[..]);
      for i := 4 downto 0
        invariant 0 <= rem < d && forall k :: 0 <= k < i ==> w[k] == a[k]
        invariant Val(a[i..]) == Val(w[i..]) * d + rem
      {
        var cur := rem * TWO64 + w[i];
        QuotientFits(rem, w[i], d);
        assert 0 <= cur < TWO128;
        ghost var post := w[i + 1..];
        FloorIff(cur, d, 0);
        w[i] := cur / d;
        assert w[..][i + 1..] == post;
        DivStep(a, w[..], i, rem, d, cur);
        assert w[..][i..] == w[i..];
        rem := cur % d;
      }
      assert w[0..] == w[..] && a[0..] == a;
      QuotientUnique(Val(a), d, Val(w[..]), rem);
    }

    /** `operator<<=`. */
    method ShiftLeft(s: nat)
      requires Valid()
      modifies w
      ensures Value() == (old(Value()) * Pow2(s)) % TWO256
    {
      hide Val, Base, Pow2;
      ghost var a := w[..];
      if s >= 256 {
        Clear();
        ShiftedOut(Val(a), s);
        return;
      }
      var limb, bit := s / 64, s % 64;
      var r := new U256(0);
      for i := 4 downto 0
        invariant r.Valid() && fresh(r.w) && w[..] == a
        invariant forall k :: i <= k < 4 ==> r.w[k] == if k < limb then 0 else ShlAt(a, bit, k - limb)
      {
        var src := i - limb;
        r.w[i] := if src < 0 then 0 else ShlAt(w[..], bit, src);
      }
      CopyFrom(r);
      assert w[..] == Zeros(limb) + Shl(a, bit, 4 - limb);
      ShlWhole(a, limb, bit);
    }

    /** `operator>>=`. */
    method ShiftRight(s: nat)
      requires Valid()
      modifies w
      ensures Value() == old(Value()) / Pow2(s)
    {
      hide Val, Base, Pow2;
      ghost var a := w[..];
      if s >= 256 {
        Clear();
        ShiftedAway(a, s);
        return;
      }
      var limb, bit := s / 64, s % 64;
      var r := new U256(0);
      for i := 0 to 4
        invariant r.Valid() && fresh(r.w) && w[..] == a
        invariant forall k :: 0 <= k < i ==> r.w[k] == if k + limb > 3 then 0 else ShrAt(a, bit, k + limb)
      {
        var src := i + limb;
        r.w[i] := if src > 3 then 0 else ShrAt(w[..], bit, src);
      }
      CopyFrom(r);
      ShrSuffix(a, limb, bit);
      assert w[..] == Shr(a[limb..], bit) + Zeros(limb);
      ShrWhole(a, limb, bit);
    }

    method Clear()
      requires Valid()
      modifies w
      ensures Value() == 0
    {
      for i := 0 to 4
        invariant forall k :: 0 <= k < i ==> w[k] == 0
      {
        w[i] := 0;
      }
      ValZero(w[..]);
    }

    method CopyFrom(r: U256)
      requires Valid() && r.Valid()
      modifies w
      ensures w[..] == old(r.w[..])
    {
      ghost var a := r.w[..];
      for i := 0 to 4
        invariant forall k :: 0 <= k < i ==> w[k] == a[k]
        invariant forall k :: i <= k < 4 ==> r.w[k] == a[k]
      {
        w[i] := r.w[i];
      }
    }

    /** `cmp`. */
    method Cmp(o: U256) returns (c: int)
      requires Valid() && o.Valid()
      ensures c == if Value() < o.Value() then -1 else if Value() > o.Value() then 1 else 0
    {
      for i := 4 downto 0
        invariant w[i..] == o.w[i..]
      {
        if w[i] != o.w[i] {
          assert w[..][i + 1..] == w[i + 1..] && o.w[..][i + 1..] == o.w[i + 1..];
          if w[i] < o.w[i] { ValLess(w[..], o.w[..], i); return -1; } else { ValLess(o.w[..], w[..], i); return 1; }
        }
        assert w[i..] == [w[i]] + w[i + 1..] && o.w[i..] == [o.w[i]] + o.w[i + 1..];
      }
      assert w[..] == w[0..] && o.w[..] == o.w[0..];
      c := 0;
    }

    /** `bits`: the number of significant bits. */
    method Bits() returns (n: nat)
      requires Valid()
      ensures n == BitLength(Value())
    {
      hide Val, BitLength;
      for i := 4 downto 0
        invariant forall k :: i <= k < 4 ==> w[k] == 0
      {
        if w[i] != 0 {
          BitLengthTop(w[..], i);
          return i * 64 + BitLength(w[i]);
        }
      }
      ValZero(w[..]);
      BitLengthIs(0, 0);
      n := 0;
    }

    /** `operator~`. */
    method Not() returns (r: U256)
      requires Valid()
      ensures r.Valid() && fresh(r) && fresh(r.w) && r.Value() == TWO256 - 1 - Value()
    {
      hide Val, Base;
      r := new U256(0);
      for i := 0 to 4
        invariant r.Valid() && fresh(r.w) && w[..] == old(w[..])
        invariant forall k :: 0 <= k < i ==> r.w[k] == TWO64 - 1 - w[k]
      {
        r.w[i] := TWO64 - 1 - w[i];
      }
      Complement(w[..], r.w[..]);
    }

    method IsZero() returns (zero: bool)
      requires Valid()
      ensures zero <==> Value() == 0
    {
      ValZero(w[..]);
      zero := w[0] == 0 && w[1] == 0 && w[2] == 0 && w[3] == 0;
    }

    /** `r.w[0] |= bit`, after a left shift. */
    method PutLowBit(bit: Amount)
      requires Valid() && bit <= 1 && Value() % 2 == 0
      modifies w
      ensures Value() == old(Value()) + bit
    {
      hide Val;
      LowBit(w[..], bit);
      ghost var a := w[..];
      w[0] := Or(w[0], bit);
      assert w[..] == a[0 := a[0] + bit];
    }

    /** `q.w[i / 64] |= 1 << (i % 64)`, when only higher bits are set. */
    method PutBit(i: nat, ghost m: nat)
      requires Valid() && i < 256 && Value() == m * Pow2(i + 1)
      modifies w
      ensures Value() == old(Value()) + Pow2(i)
    {
      hide Val, Pow2;
      SetBit(w[..], i, m);
      ghost var a := w[..];
      w[i / 64] := Or(w[i / 64], Pow2(i % 64));
      assert w[..] == a[i / 64 := a[i / 64] + Pow2(i % 64)];
    }

    /** One bit of long division of `a`: bring it down into the remainder and compare. */
    method BringDown(a: U256, b: U256, i: nat, ghost q: nat) returns (over: bool)
      requires Valid() && a.Valid() && b.Valid() && w != a.w && w != b.w && i < 256
      requires b.Value() > 0 && Divided(a.Value(), b.Value(), i + 1, q, Value())
      modifies w
      ensures Divided(a.Value(), b.Value(), i, if over then 2 * q + 1 else 2 * q, Value())
    {
      hide Val, Pow2, Base;
      ghost var r, x := Value(), a.Value();
      var bit := (a.w[i / 64] / Pow2(i % 64)) % 2;
      BitOfLimb(a.w[..], i);
      DivideStep(x, b.Value(), i, q, r, bit);
      PowOne();
      ShiftLeft(1);
      Small(2 * r, TWO256);
      assert Value() == 2 * r;
      PutLowBit(bit);
      var c := Cmp(b);
      over := c >= 0;
      if over {
        Small(2 * r + bit - b.Value(), TWO256);
        Subtract(b);
      }
    }

    /** `operator/`: schoolbook division, one bit at a time; dividing by zero gives zero. */
    static method Divide(a: U256, b: U256) returns (q: U256)
      requires a.Valid() && b.Valid()
      ensures q.Valid() && fresh(q) && fresh(q.w)
      ensures q.Value() == if b.Value() == 0 then 0 else a.Value() / b.Value()
    {
      hide Val, Pow2, Base, BitLength, LongDivision, Divided;
      q := new U256(0);
      var zero := b.IsZero();
      if zero { return; }
      var r := new U256(0);
      var n := a.Bits();
      ghost var x, y := a.Value(), b.Value();
      ghost var quot: nat := 0;
      LongDivisionStart(x, y);
      for i := n downto 0
        invariant q.Valid() && r.Valid() && fresh(q) && fresh(q.w) && fresh(r.w) && q.w != r.w
        invariant a.Value() == x && b.Value() == y && LongDivision(x, y, i, quot, r.Value(), q.Value())
      {
        LongDivisionMeans(x, y, i + 1, quot, r.Value(), q.Value());
        ghost var before := q.Value();
        var over := r.BringDown(a, b, i, quot);
        if over { q.PutBit(i, quot); }
        LongDivisionStep(x, y, i, quot, r.Value(), before, over);
        quot := if over then 2 * quot + 1 else 2 * quot;
      }
      LongDivisionDone(x, y, quot, r.Value(), q.Value());
    }

    /** `work_from_target`: `floor(2^256 / (t + 1))`. For the largest target the code divides by zero, and
        still gets 1; only for target 0 does the result, 2^256, not fit. */
    static method WorkFromTarget(t: U256) returns (r: U256)
      requires t.Valid()
      ensures r.Valid() && fresh(r)
      ensures r.Value() == (TWO256 / (t.Value() + 1)) % TWO256
      ensures t.Value() >= 1 ==> r.Value() == TWO256 / (t.Value() + 1)
    {
      hide Val, Base;
      var one := new U256(1);
      var inv := t.Not();
      var next := t.Copy();
      next.Add(one);
      r := Divide(inv, next);
      r.Add(one);
      WorkIs(t.Value(), TWO256);
    }
  }

  /** The bits of `x` from `i` up, divided by `y`. */
  ghost predicate Divided(x: nat, y: nat, i: nat, quot: nat, r: nat) {
    x / Pow2(i) == quot * y + r && r < y
  }

  /** Long division with bits `i` and up done: quotient limbs `q`, remainder `r`. */
  ghost predicate LongDivision(x: nat, y: nat, i: nat, quot: nat, r: nat, q: nat) {
    Divided(x, y, i, quot, r) && q == quot * Pow2(i)
  }

  lemma LongDivisionStart(x: nat, y: nat)
    requires x < TWO256 && y > 0
    ensures BitLength(x) <= 256 && LongDivision(x, y, BitLength(x), 0, 0, 0)
  {
    LengthFits(x);
    Small(x, Pow2(BitLength(x)));
  }

  lemma LongDivisionMeans(x: nat, y: nat, i: nat, quot: nat, r: nat, q: nat)
    requires LongDivision(x, y, i, quot, r, q)
    ensures Divided(x, y, i, quot, r) && q == quot * Pow2(i)
  {}

  lemma LongDivisionStep(x: nat, y: nat, i: nat, quot: nat, r: nat, q: nat, over: bool)
    requires q == quot * Pow2(i + 1) && Divided(x, y, i, if over then 2 * quot + 1 else 2 * quot, r)
    ensures if over then LongDivision(x, y, i, 2 * quot + 1, r, q + Pow2(i)) else LongDivision(x, y, i, 2 * quot, r, q)
  {
    hide Divided;
    Doubled(quot, i);
  }

  lemma LongDivisionDone(x: nat, y: nat, quot: nat, r: nat, q: nat)
    requires y > 0 && LongDivision(x, y, 0, quot, r, q)
    ensures q == x / y
  {
    PowOne();
    assert x / 1 == x;
    QuotientUnique(x, y, quot, r);
  }

  lemma PowOne()
    ensures Pow2(0) == 1 && Pow2(1) == 2
  {}

  lemma Small(x: int, m: int)
    requires 0 <= x < m
    ensures x % m == x && x / m == 0
  {}

  lemma LengthFits(x: nat)
    requires x < TWO256
    ensures BitLength(x) <= 256
  {
    hide Pow2, Base, BitLength;
    BaseIsPow2(4);
    if BitLength(x) > 256 { Pow2Mono(256, BitLength(x) - 1); }
  }

  lemma Doubled(q: nat, i: nat)
    ensures q * Pow2(i + 1) == (2 * q) * Pow2(i)
    ensures q * Pow2(i + 1) + Pow2(i) == (2 * q + 1) * Pow2(i)
  {
    MulAssoc(q, 2, Pow2(i));
    Distribute(2 * q, 1, Pow2(i));
  }

  lemma LowBit(s: seq<Amount>, bit: Amount)
    requires s != [] && bit <= 1 && Val(s) % 2 == 0
    ensures s[0] + bit < TWO64 && Val(s[0 := s[0] + bit]) == Val(s) + bit
    ensures Or(s[0], bit) == s[0] + bit
  {
    EvenPart(s[0], (TWO64 / 2) * Val(s[1..]));
    assert s[0] % 2 == 0;
    assert Pow2(1) == 2 * Pow2(0);
    OrIsAdd(s[0], bit, 1);
    assert s[0 := s[0] + bit][1..] == s[1..];
  }

  /** `~t / (t + 1) + 1`, with both wraps. */
  lemma WorkIs(t: nat, m: nat)
    requires t < m && m > 1
    ensures var q := if (t + 1) % m == 0 then 0 else (m - 1 - t) / ((t + 1) % m);
            (q + 1) % m == (m / (t + 1)) % m
    ensures t >= 1 ==> (m / (t + 1)) % m == m / (t + 1)
  {
    if t + 1 == m {
      QuotientUnique(m, m, 1, 0);
    } else {
      Small(t + 1, m);
      var d := t + 1;
      var q := (m - d) / d;
      assert m - d == q * d + (m - d) % d;
      Distribute(q, 1, d);
      QuotientUnique(m, d, q + 1, (m - d) % d);
    }
    if t >= 1 {
      FloorIff(m, t + 1, m);
      FloorIff(m, t + 1, 0);
      MulMono(2, t + 1, m);
      Small(m / (t + 1), m);
    }
  }

  lemma {:induction false} Complement(a: seq<Amount>, b: seq<Amount>)
    requires |a| == |b| && forall k :: 0 <= k < |a| ==> b[k] == TWO64 - 1 - a[k]
    ensures Val(a) + Val(b) == Base(|a|) - 1
  {
    if a != [] { Complement(a[1..], b[1..]); }
  }

  lemma SumStart(a: seq<Amount>, b: seq<Amount>)
    ensures Val(a[..0]) == 0 == Val(b[..0]) && Val([]) == 0 && Base(0) == 1
  {
    assert a[..0] == [] && b[..0] == [];
  }

  lemma SumStep(a: seq<Amount>, b: seq<Amount>, i: nat)
    requires |a| == |b| && i < |a|
    ensures Val(a[..i + 1]) + Val(b[..i + 1]) == Val(a[..i]) + Val(b[..i]) + Base(i) * ((a[i] as int) + b[i])
    ensures Val(a[..i + 1]) - Val(b[..i + 1]) == Val(a[..i]) - Val(b[..i]) + Base(i) * ((a[i] as int) - b[i])
  {
    ValSnoc(a, i);
    ValSnoc(b, i);
    Distribute(a[i], b[i], Base(i));
  }

  lemma ProductStep(a: seq<Amount>, i: nat, m: Amount)
    requires i < |a|
    ensures Val(a[..i + 1]) * m == Val(a[..i]) * m + Base(i) * (a[i] * m)
  {
    ValSnoc(a, i);
    Distribute(Val(a[..i]), Base(i) * a[i], m);
    MulAssoc(Base(i), a[i], m);
  }

  lemma BorrowStep(x: Amount, y: Amount, borrow: int)
    requires 0 <= borrow <= 1
    ensures var next := if x < y || Sub64(x, y) < borrow then 1 else 0;
            -borrow + ((x as int) - y) == Sub64(Sub64(x, y), borrow) + TWO64 * (-next)
  {}

  lemma AccumulatorFits(c: int, x: Amount, m: Amount)
    requires 0 <= c < TWO64
    ensures 0 <= c + x * m < TWO128 && (c + x * m) / TWO64 < TWO64
  {
    ProductMono(x, TWO64 - 1, m, TWO64 - 1);
    MulNonNegative(x, m);
  }

  lemma SuffixEnd(a: seq<Amount>, b: seq<Amount>)
    ensures Val(a[|a|..]) == 0 == Val(b[|b|..])
  {
    assert a[|a|..] == [] && b[|b|..] == [];
  }

  lemma ShiftedOut(v: nat, s: nat)
    requires s >= 256
    ensures (v * Pow2(s)) % TWO256 == 0
  {
    hide Pow2, Base;
    BaseIsPow2(4);
    Pow2Add(256, s - 256);
    MulAssoc(v, Pow2(256), Pow2(s - 256));
    QuotientUnique(v * Pow2(s), TWO256, v * Pow2(s - 256), 0);
  }

  lemma ShiftedAway(a: seq<Amount>, s: nat)
    requires |a| == 4 && s >= 256
    ensures Val(a) / Pow2(s) == 0
  {
    hide Pow2, Base;
    BaseIsPow2(4);
    Pow2Mono(256, s);
    ValBound(a);
    QuotientUnique(Val(a), Pow2(s), 0, Val(a));
  }

  lemma ShrSuffix(a: seq<Amount>, limb: nat, bit: nat)
    requires |a| == 4 && limb < 4 && bit < 64
    ensures forall k :: 0 <= k < 4 - limb ==> Shr(a[limb..], bit)[k] == ShrAt(a, bit, k + limb)
  {}
}
