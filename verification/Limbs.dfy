/** Little-endian sequences of 64-bit limbs as numbers, for any number of limbs. */
module Limbs {
  import opened Types
  import opened Arith

  function Val(s: seq<Amount>): nat { if s == [] then 0 else s[0] + TWO64 * Val(s[1..]) }

  /** `2^(64 n)`. */
  function Base(n: nat): (p: nat)
    ensures p >= 1
  {
    if n == 0 then 1 else TWO64 * Base(n - 1)
  }

  lemma MulAssoc(a: int, b: int, c: int)
    ensures a * (b * c) == (a * b) * c
    ensures a * (b * c) == b * (a * c)
  {}

  lemma {:induction false} BaseIsPow2(n: nat)
    ensures Base(n) == Pow2(64 * n)
  {
    if n > 0 {
      BaseIsPow2(n - 1);
      Pow2Of64();
      Pow2Add(64, 64 * (n - 1));
    }
  }

  lemma {:induction false} BaseAdd(m: nat, n: nat)
    ensures Base(m + n) == Base(m) * Base(n)
  {
    if m > 0 {
      BaseAdd(m - 1, n);
      MulAssoc(TWO64, Base(m - 1), Base(n));
    }
  }

  lemma {:induction false} ValConcat(a: seq<Amount>, b: seq<Amount>)
    ensures Val(a + b) == Val(a) + Base(|a|) * Val(b)
  {
    if a == [] {
      assert a + b == b;
    } else {
      assert (a + b)[1..] == a[1..] + b;
      ValConcat(a[1..], b);
      MulAssoc(TWO64, Base(|a| - 1), Val(b));
    }
  }

  lemma {:induction false} ValBound(s: seq<Amount>)
    ensures Val(s) < Base(|s|)
  {
    if s != [] { ValBound(s[1..]); }
  }

  lemma ValSplit(s: seq<Amount>, i: nat)
    requires i <= |s|
    ensures Val(s) == Val(s[..i]) + Base(i) * Val(s[i..])
    ensures Val(s[..i]) < Base(i)
  {
    assert s == s[..i] + s[i..];
    ValConcat(s[..i], s[i..]);
    ValBound(s[..i]);
  }

  lemma ValSnoc(s: seq<Amount>, i: nat)
    requires i < |s|
    ensures Val(s[..i + 1]) == Val(s[..i]) + Base(i) * s[i]
  {
    assert s[..i + 1] == s[..i] + [s[i]];
    ValConcat(s[..i], [s[i]]);
    assert Val([s[i]]) == s[i] by { assert [s[i]][1..] == []; }
  }

  lemma ValCons(s: seq<Amount>, i: nat)
    requires i < |s|
    ensures Val(s[i..]) == s[i] + TWO64 * Val(s[i + 1..])
  {
    assert s[i..][1..] == s[i + 1..];
  }

  lemma {:induction false} ValZero(s: seq<Amount>)
    ensures Val(s) == 0 <==> forall i :: 0 <= i < |s| ==> s[i] == 0
  {
    if s != [] {
      ValZero(s[1..]);
      if forall i :: 0 <= i < |s| ==> s[i] == 0 {
        forall i | 0 <= i < |s[1..]| ensures s[1..][i] == 0 { assert s[1..][i] == s[i + 1]; }
      }
      if Val(s) == 0 {
        forall i | 0 <= i < |s| ensures s[i] == 0 {
          if i > 0 { assert s[i] == s[1..][i - 1]; }
        }
      }
    }
  }

  /** Numbers compare as their highest differing limb does. */
  lemma ValLess(a: seq<Amount>, b: seq<Amount>, i: nat)
    requires |a| == |b| && i < |a| && a[i + 1..] == b[i + 1..] && a[i] < b[i]
    ensures Val(a) < Val(b)
  {
    ValSplit(a, i);
    ValSplit(b, i);
    ValCons(a, i);
    ValCons(b, i);
    var x, y := Val(a[i..]), Val(b[i..]);
    MulMono(x + 1, y, Base(i));
    Distribute(x, 1, Base(i));
  }

  /** A number and the limb above it. */
  lemma DivByBase(s: seq<Amount>, i: nat)
    requires i <= |s|
    ensures Val(s) / Base(i) == Val(s[i..])
  {
    ValSplit(s, i);
    QuotientUnique(Val(s), Base(i), Val(s[i..]), Val(s[..i]));
  }

  lemma DivDiv(n: nat, a: nat, b: nat)
    requires a > 0 && b > 0
    ensures a * b > 0 && (n / a) / b == n / (a * b)
  {
    var q := n / a;
    var f := q / b;
    assert n == q * a + n % a && q == f * b + q % b;
    MulStrict(0, a, b);
    var r := n % a + a * (q % b);
    Distribute(f * b, q % b, a);
    MulAssoc(a, b, f);
    MulMono(q % b, b - 1, a);
    Distribute(b, 1, a);
    MulNonNegative(a, q % b);
    assert n == r + (a * b) * f;
    QuotientUnique(n, a * b, f, r);
  }

  // ---------------------------------------------------------------- bits of a limb

  /** `2^j` for a bit position in a limb, and the rest of the limb. */
  lemma LimbPow(j: nat)
    requires j <= 64
    ensures Pow2(j) * Pow2(64 - j) == TWO64 && 1 <= Pow2(j) <= TWO64
  {
    Pow2Of64();
    Pow2Add(j, 64 - j);
    Pow2Mono(j, 64);
  }

  /** `(x << j) mod 2^64` and the bits `x >> (64 - j)` that leave. */
  lemma LimbShl(x: Amount, j: nat)
    requires j < 64
    ensures x * Pow2(j) == (x * Pow2(j)) % TWO64 + TWO64 * (x / Pow2(64 - j))
    ensures x / Pow2(64 - j) < Pow2(j)
  {
    hide Pow2;
    var p, c := Pow2(j), Pow2(64 - j);
    LimbPow(j);
    HighPart(x, p, c, TWO64);
  }

  lemma HighPart(x: int, p: nat, c: nat, top: int)
    requires p > 0 && c > 0 && p * c == top
    ensures x * p == (x * p) % top + top * (x / c)
    ensures x < top ==> x / c < p
  {
    var q, r := x / c, x % c;
    assert x == q * c + r;
    Distribute(q * c, r, p);
    MulAssoc(q, c, p);
    MulStrict(r, c, p);
    MulNonNegative(r, p);
    MulStrict(0, p, c);
    QuotientUnique(x * p, top, q, r * p);
    FloorIff(x, c, p);
  }

  /** `x >> j` and the low bits, moved to the top of the limb below. */
  lemma LimbShr(x: Amount, j: nat)
    requires j < 64
    ensures (x * Pow2(64 - j)) % TWO64 == (x % Pow2(j)) * Pow2(64 - j)
    ensures x == (x / Pow2(j)) * Pow2(j) + x % Pow2(j)
  {
    hide Pow2;
    LimbPow(j);
    LowPart(x, Pow2(j), Pow2(64 - j), TWO64);
  }

  lemma LowPart(x: int, p: nat, c: nat, top: int)
    requires p > 0 && c > 0 && p * c == top
    ensures (x * c) % top == (x % p) * c
    ensures x == (x / p) * p + x % p
  {
    var q, r := x / p, x % p;
    assert x == q * p + r;
    Distribute(q * p, r, c);
    MulAssoc(q, p, c);
    MulStrict(r, p, c);
    MulNonNegative(r, c);
    MulStrict(0, p, c);
    QuotientUnique(x * c, top, q, r * c);
  }

  // ---------------------------------------------------------------- bitwise or

  /** `x | y`, bit by bit. */
  function Or(x: nat, y: nat): (z: nat)
    decreases x + y
  {
    if x == 0 && y == 0 then 0
    else 2 * Or(x / 2, y / 2) + if x % 2 == 1 || y % 2 == 1 then 1 else 0
  }

  /** The same recurrence holds of the machine operation. */
  lemma OrBits(x: bv64, y: bv64)
    ensures (x | y) & 1 == if x & 1 == 1 || y & 1 == 1 then 1 else 0
    ensures (x | y) >> 1 == (x >> 1) | (y >> 1)
  {}

  lemma {:induction false} OrZero(x: nat)
    ensures Or(x, 0) == x && Or(0, x) == x
  {
    if x > 0 { OrZero(x / 2); }
  }

  lemma Halves(x: nat, p: nat)
    requires p > 0 && x % (2 * p) == 0
    ensures x % 2 == 0 && (x / 2) % p == 0
  {
    var q := x / (2 * p);
    assert x == 2 * (p * q) by { MulAssoc(2, p, q); }
    QuotientUnique(x / 2, p, q, 0);
  }

  /** Or-ing words whose bits do not meet adds them. */
  lemma {:induction false} OrIsAdd(x: nat, y: nat, j: nat)
    requires x % Pow2(j) == 0 && y < Pow2(j)
    ensures Or(x, y) == x + y && Or(y, x) == x + y
  {
    if j == 0 {
      OrZero(x);
    } else {
      Halves(x, Pow2(j - 1));
      OrIsAdd(x / 2, y / 2, j - 1);
    }
  }
}
