/** Integer inequalities the other modules share, and powers of two. */
module Arith {

  lemma MulNonNegative(x: int, y: int)
    requires x >= 0 && y >= 0
    ensures x * y >= 0
  {}

  lemma MulMono(x: int, y: int, z: int)
    requires x <= y && z >= 0
    ensures x * z <= y * z
    ensures z * x <= z * y
  {
    MulNonNegative(y - x, z);
    assert (y - x) * z == y * z - x * z;
  }

  lemma MulStrict(x: int, y: int, z: int)
    requires x < y && z > 0
    ensures x * z < y * z
  {
    assert (y - x - 1) * z >= 0 by { MulNonNegative(y - x - 1, z); }
    assert (y - x - 1) * z == y * z - x * z - z;
  }

  /** Cancelling a positive factor. */
  lemma MulCancel(x: int, y: int, z: int)
    requires z > 0 && x * z <= y * z
    ensures x <= y
  {
    if x > y { MulStrict(y, x, z); }
  }

  lemma ProductMono(a: int, b: int, c: int, d: int)
    requires 0 <= a <= b && 0 <= c <= d
    ensures a * c <= b * d
  {
    MulMono(a, b, c);
    MulMono(c, d, b);
  }

  lemma Distribute(a: int, b: int, c: int)
    ensures (a + b) * c == a * c + b * c
    ensures (a - b) * c == a * c - b * c
    ensures c * (a + b) == c * a + c * b
    ensures c * (a - b) == c * a - c * b
    ensures a * c == c * a && b * c == c * b
  {}

  lemma SquareNonNegative(d: int)
    ensures d * d >= 0
  {
    if d < 0 { MulNonNegative(-d, -d); } else { MulNonNegative(d, d); }
  }

  /** The arithmetic mean is at least the geometric mean. */
  lemma MeanInequality(x: int, t: int)
    ensures 4 * (x * t) <= (x + t) * (x + t)
  {
    SquareNonNegative(x - t);
    Distribute(x, t, x + t);
    Distribute(x, t, x);
    Distribute(x, t, t);
    Distribute(x, t, x - t);
  }

  lemma QuotientUnique(n: int, d: int, q: int, r: int)
    requires d > 0 && n == r + d * q && 0 <= r < d
    ensures n / d == q && n % d == r
  {
    FloorIff(n, d, q);
    FloorIff(n, d, q + 1);
    Distribute(q, 1, d);
    assert d * q == q * d;
    assert n == (n / d) * d + n % d;
  }

  /** `q <= floor(n / d)` exactly when `q * d <= n`. */
  lemma FloorIff(n: int, d: int, q: int)
    requires d > 0
    ensures q <= n / d <==> q * d <= n
    ensures (n / d) * d <= n < (n / d + 1) * d
  {
    var f := n / d;
    assert n == f * d + n % d;
    assert (f + 1) * d == f * d + d;
    if q <= f { MulMono(q, f, d); } else { MulMono(f + 1, q, d); }
  }

  function Pow2(n: nat): (p: nat)
    ensures p >= 1
  {
    if n == 0 then 1 else 2 * Pow2(n - 1)
  }

  lemma {:induction false} Pow2Add(m: nat, n: nat)
    ensures Pow2(m + n) == Pow2(m) * Pow2(n)
  {
    if n != 0 {
      Pow2Add(m, n - 1);
      assert Pow2(m) * (2 * Pow2(n - 1)) == 2 * (Pow2(m) * Pow2(n - 1));
    }
  }

  lemma {:induction false} Pow2Mono(m: nat, n: nat)
    requires m <= n
    ensures Pow2(m) <= Pow2(n)
    decreases n - m
  {
    if m < n { Pow2Mono(m, n - 1); }
  }

  lemma Pow2Square(n: nat, p: nat)
    requires Pow2(n) == p
    ensures Pow2(2 * n) == p * p
  {
    Pow2Add(n, n);
  }

  lemma Pow2Of64()
    ensures Pow2(64) == 0x1_0000_0000_0000_0000
  {
    Pow2Square(4, 0x10);
    Pow2Square(8, 0x100);
    Pow2Square(16, 0x1_0000);
    Pow2Square(32, 0x1_0000_0000);
  }

  /** Number of significant bits. */
  function BitLength(n: nat): (b: nat)
    ensures n < Pow2(b)
    ensures n > 0 ==> b > 0 && Pow2(b - 1) <= n
    ensures n == 0 ==> b == 0
  {
    if n == 0 then 0 else 1 + BitLength(n / 2)
  }
}
