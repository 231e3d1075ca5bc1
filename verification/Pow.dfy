/** Compact targets, the proof-of-work check and LWMA-1 retargeting (src/util/u256.cpp:104-122,
    src/consensus/pow.cpp:9-41). */
module Pow {
  import opened Types
  import opened Arith
  import opened Limbs
  import opened U256s

  const TARGET_SPACING: int := 120
  const LWMA_WINDOW: nat := 60

  // ---------------------------------------------------------------- compact encoding

  datatype Target = Target(value: nat, negative: bool, overflow: bool)

  function Up(v: nat, k: nat): nat {
    MulNonNegative(v, Pow2(k));
    v * Pow2(k)
  }

  function Down(v: nat, k: nat): nat {
    FloorIff(v, Pow2(k), 0);
    v / Pow2(k)
  }

  /** One byte of size, a sign bit, 23 bits of mantissa. */
  ghost function FromCompact(bits: nat): Target {
    var size, word0 := bits / 0x100_0000, bits % 0x80_0000;
    var word := if size <= 3 then Down(word0, 8 * (3 - size)) else word0;
    var value := if size <= 3 then word else Up(word, 8 * (size - 3)) % TWO256;
    Target(value, word != 0 && (bits / 0x80_0000) % 2 == 1,
           word != 0 && (size > 34 || (word > 0xff && size > 33) || (word > 0xffff && size > 32)))
  }

  function ToCompact(v: nat): nat {
    var size := (BitLength(v) + 7) / 8;
    var c := if size <= 3 then Up(v, 8 * (3 - size)) else Down(v, 8 * (size - 3));
    if (c / 0x80_0000) % 2 == 1 then c / 256 + (size + 1) * 0x100_0000 else c + size * 0x100_0000
  }

  /** The size byte of a nonzero number: its top bit never falls on the sign bit. */
  function Size(v: nat): nat { BitLength(v) / 8 + 1 }

  function Mantissa(v: nat): nat {
    if Size(v) <= 3 then Up(v, 8 * (3 - Size(v))) else Down(v, 8 * (Size(v) - 3))
  }

  /** What is left of a number after encoding: its top 16 to 23 bits. */
  function Rounded(v: nat): nat {
    if v == 0 || Size(v) <= 3 then v else Up(Down(v, 8 * (Size(v) - 3)), 8 * (Size(v) - 3))
  }

  lemma PowConsts()
    ensures Pow2(0) == 1 && Pow2(8) == 0x100 && Pow2(15) == 0x8000 && Pow2(16) == 0x1_0000 && Pow2(23) == 0x80_0000
              && Pow2(24) == 0x100_0000
  {
    Pow2Square(4, 0x10);
    Pow2Square(8, 0x100);
    Pow2Add(8, 16);
  }

  /** `v / 2^j` has `j` fewer bits. */
  lemma TopBits(v: nat, j: nat)
    requires v > 0 && j < BitLength(v)
    ensures Pow2(BitLength(v) - j - 1) <= v / Pow2(j) < Pow2(BitLength(v) - j)
  {
    hide Pow2, BitLength;
    var b := BitLength(v);
    Pow2Add(j, b - j - 1);
    Pow2Add(j, b - j);
    FloorIff(v, Pow2(j), Pow2(b - j - 1));
    FloorIff(v, Pow2(j), Pow2(b - j));
  }

  /** `v * 2^j` has `j` more. */
  lemma MoreBits(v: nat, j: nat)
    requires v > 0
    ensures Pow2(BitLength(v) + j - 1) <= v * Pow2(j) < Pow2(BitLength(v) + j)
  {
    hide Pow2, BitLength;
    var b := BitLength(v);
    Pow2Add(b - 1, j);
    Pow2Add(b, j);
    MulMono(Pow2(b - 1), v, Pow2(j));
    MulStrict(v, Pow2(b), Pow2(j));
  }

  lemma MantissaRange(v: nat)
    requires v > 0
    ensures 0x8000 <= Mantissa(v) < 0x80_0000
  {
    hide Pow2, BitLength;
    var b, e := BitLength(v), Size(v);
    PowConsts();
    if e <= 3 {
      var k := b + 8 * (3 - e);
      MoreBits(v, 8 * (3 - e));
      Pow2Mono(15, k - 1);
      Pow2Mono(k, 23);
    } else {
      var k := b - 8 * (e - 3);
      TopBits(v, 8 * (e - 3));
      Pow2Mono(15, k - 1);
      Pow2Mono(k, 23);
    }
  }

  /** The encoder's two steps come to size and mantissa. */
  lemma CompactForm(v: nat)
    requires v > 0
    ensures ToCompact(v) == Mantissa(v) + Size(v) * 0x100_0000
  {
    hide Pow2, BitLength, Up, Down;
    var b, e := BitLength(v), Size(v);
    var size := (b + 7) / 8;
    var c := if size <= 3 then Up(v, 8 * (3 - size)) else Down(v, 8 * (size - 3));
    MantissaRange(v);
    if b % 8 == 0 {
      assert size == e - 1;
      TopByteFull(v, size, c);
      OneByteLess(v, size, c);
    } else {
      assert size == e && c == Mantissa(v);
    }
  }

  /** With a whole number of bytes the sign bit is hit. */
  lemma TopByteFull(v: nat, size: nat, c: nat)
    requires v > 0 && BitLength(v) == 8 * size && c == if size <= 3 then Up(v, 8 * (3 - size))
               else Down(v, 8 * (size - 3))
    ensures 0x80_0000 <= c < 0x100_0000
  {
    hide Pow2, BitLength;
    PowConsts();
    if size <= 3 { MoreBits(v, 8 * (3 - size)); } else { TopBits(v, 8 * (size - 3)); }
  }

  lemma OneByteLess(v: nat, size: nat, c: nat)
    requires c == if size <= 3 then Up(v, 8 * (3 - size)) else Down(v, 8 * (size - 3))
    ensures c / 256 == if size + 1 <= 3 then Up(v, 8 * (3 - (size + 1))) else Down(v, 8 * (size + 1 - 3))
  {
    hide Pow2;
    PowConsts();
    if size < 3 {
      var p := Pow2(8 * (2 - size));
      Pow2Add(8 * (2 - size), 8);
      MulAssoc(v, p, 256);
      QuotientUnique(c, 256, v * p, 0);
    } else if size == 3 {
      assert c == v;
    } else {
      Pow2Add(8 * (size - 3), 8);
      DivDiv(v, Pow2(8 * (size - 3)), 256);
    }
  }

  /** Decoding an encoded number rounds it down to its leading bits, and raises no flag. */
  lemma CompactRoundsDown(v: nat)
    requires 0 < v < TWO256
    ensures FromCompact(ToCompact(v)) == Target(Rounded(v), false, false)
    ensures 0 < Rounded(v) <= v
    ensures Size(v) > 3 ==> v - Rounded(v) < Pow2(8 * (Size(v) - 3))
  {
    hide Pow2, BitLength, Mantissa, Base;
    var m, e, bits := Mantissa(v), Size(v), ToCompact(v);
    MantissaRange(v);
    CompactForm(v);
    assert bits / 0x100_0000 == e && bits % 0x80_0000 == m && (bits / 0x80_0000) % 2 == 0 by { SplitBits(m, e); }
    MantissaBack(v);
    LengthFits(v);
    if e > 3 {
      var p := Pow2(8 * (e - 3));
      assert m * p == Rounded(v);
      FloorIff(v, p, v / p);
      Distribute(v / p, 1, p);
      MulMono(1, m, p);
      Small(Rounded(v), TWO256);
      if e > 32 { TopOfAll(v); }
    }
  }

  lemma SplitBits(m: nat, e: nat)
    requires m < 0x80_0000
    ensures var bits := m + e * 0x100_0000;
              bits / 0x100_0000 == e && bits % 0x80_0000 == m && (bits / 0x80_0000) % 2 == 0
  {
    QuotientUnique(m + e * 0x100_0000, 0x100_0000, e, m);
    QuotientUnique(m + e * 0x100_0000, 0x80_0000, 2 * e, m);
  }

  lemma MantissaBack(v: nat)
    requires v > 0
    ensures if Size(v) <= 3 then Mantissa(v) / Pow2(8 * (3 - Size(v))) == v
            else Mantissa(v) == v / Pow2(8 * (Size(v) - 3))
  {
    hide Pow2, BitLength;
    if Size(v) <= 3 { QuotientUnique(Mantissa(v), Pow2(8 * (3 - Size(v))), v, 0); }
  }

  /** A 256-bit number needs at most 33 bytes, and then its mantissa is short. */
  lemma TopOfAll(v: nat)
    requires 0 < v < TWO256 && Size(v) > 32
    ensures Size(v) == 33 && Mantissa(v) <= 0xffff
  {
    hide Pow2, BitLength, Base;
    LengthFits(v);
    PowConsts();
    TopBits(v, 240);
  }

  /** The encoding keeps the order. */
  lemma CompactMonotone(u: nat, v: nat)
    requires u <= v < TWO256
    ensures Rounded(u) <= Rounded(v)
  {
    hide Pow2, BitLength, Base;
    if 0 < u {
      var d, e := Size(u), Size(v);
      LengthMono(u, v);
      if d == e {
        if e > 3 {
          var p := Pow2(8 * (e - 3));
          FloorIff(u, p, u / p);
          FloorIff(v, p, u / p);
          MulMono(u / p, v / p, p);
        }
      } else {
        SmallerSize(u, v);
      }
    }
  }

  lemma LengthMono(u: nat, v: nat)
    requires u <= v
    ensures BitLength(u) <= BitLength(v) && Size(u) <= Size(v)
  {
    LongerIsLarger(u, v);
  }

  lemma LongerIsLarger(u: nat, v: nat)
    ensures BitLength(u) > BitLength(v) ==> u > v
  {
    if BitLength(u) > BitLength(v) { Pow2Mono(BitLength(v), BitLength(u) - 1); }
  }

  lemma SmallerSize(u: nat, v: nat)
    requires 0 < u <= v && Size(u) < Size(v)
    ensures Rounded(u) <= u <= Rounded(v)
  {
    hide Pow2, BitLength;
    var d, e := Size(u), Size(v);
    if d > 3 { FloorIff(u, Pow2(8 * (d - 3)), u / Pow2(8 * (d - 3))); }
    if e > 3 {
      var p, m := Pow2(8 * (e - 3)), v / Pow2(8 * (e - 3));
      MantissaRange(v);
      PowConsts();
      Pow2Add(15, 8 * (e - 3));
      MulMono(0x8000, m, p);
      Pow2Mono(BitLength(u), 15 + 8 * (e - 3));
    }
  }

  /** Encoding what was decoded gives the same bits. */
  lemma CompactIdempotent(v: nat)
    requires 0 < v < TWO256
    ensures Rounded(v) > 0 && ToCompact(Rounded(v)) == ToCompact(v) && Rounded(Rounded(v)) == Rounded(v)
  {
    hide Pow2, BitLength, Base, ToCompact, FromCompact;
    CompactRoundsDown(v);
    var e, u := Size(v), Rounded(v);
    if e > 3 {
      var p := Pow2(8 * (e - 3));
      SameLength(v);
      QuotientUnique(u, p, Down(v, 8 * (e - 3)), 0);
      assert Down(u, 8 * (e - 3)) == Down(v, 8 * (e - 3));
      CompactForm(v);
      CompactForm(u);
    }
  }

  lemma SameLength(v: nat)
    requires v > 0 && Size(v) > 3 && Rounded(v) <= v
    ensures BitLength(Rounded(v)) == BitLength(v)
  {
    hide Pow2, BitLength;
    var b, j := BitLength(v), 8 * (Size(v) - 3);
    TopBits(v, j);
    Pow2Add(b - j - 1, j);
    MulMono(Pow2(b - j - 1), v / Pow2(j), Pow2(j));
    BitLengthIs(Rounded(v), b);
  }

  // ---------------------------------------------------------------- proof of work

  /** A target `check_pow` treats as in range. */
  ghost predicate InRange(bits: nat, limit: nat) {
    var t := FromCompact(bits);
    !t.negative && !t.overflow && 0 < t.value <= limit
  }

  ghost predicate CheckPow(hash: nat, bits: nat, limit: nat) {
    InRange(bits, limit) && hash <= FromCompact(bits).value
  }

  /** What an encoder makes of a target within the limit is in range, and asks for at least as much work. */
  lemma EncodedInRange(v: nat, limit: nat, hash: nat)
    requires 0 < v <= limit < TWO256
    ensures InRange(ToCompact(v), limit)
    ensures CheckPow(hash, ToCompact(v), limit) ==> hash <= v
  {
    CompactRoundsDown(v);
  }

  /** `from_compact` on limbs. */
  method DecodeCompact(bits: nat) returns (r: U256, negative: bool, overflow: bool)
    requires bits < 0x1_0000_0000
    ensures r.Valid() && fresh(r) && fresh(r.w) && Target(r.Value(), negative, overflow) == FromCompact(bits)
  {
    hide Pow2, Base, Val;
    var size, word := bits / 0x100_0000, bits % 0x80_0000;
    if size <= 3 {
      DownShrinks(word, 8 * (3 - size));
      word := Down(word, 8 * (3 - size));
      r := new U256(word);
    } else {
      r := new U256(word);
      r.ShiftLeft(8 * (size - 3));
    }
    negative := word != 0 && (bits / 0x80_0000) % 2 == 1;
    overflow := word != 0 && (size > 34 || (word > 0xff && size > 33) || (word > 0xffff && size > 32));
  }

  lemma DownShrinks(v: nat, k: nat)
    ensures Down(v, k) <= v
  {
    FloorIff(v, Pow2(k), Down(v, k));
    MulMono(1, Pow2(k), Down(v, k));
  }

  /** `to_compact` on limbs. */
  method EncodeCompact(v: U256) returns (bits: nat)
    requires v.Valid()
    ensures bits == ToCompact(v.Value())
  {
    hide Pow2, Base, Val, BitLength;
    var n := v.Bits();
    var size := (n + 7) / 8;
    var c: nat;
    if size <= 3 {
      ShortNumber(v.w[..], size);
      c := Up(v.w[0], 8 * (3 - size));
    } else {
      var t := v.Copy();
      t.ShiftRight(8 * (size - 3));
      ShortTop(v.Value(), t.w[..], 8 * (size - 3));
      c := t.w[0];
    }
    TopBytes(v.Value(), size, c);
    OrSize(c / 256, size + 1);
    OrSize(c, size);
    bits := if (c / 0x80_0000) % 2 == 1 then Or(c / 256, (size + 1) * 0x100_0000) else Or(c, size * 0x100_0000);
  }

  /** At most three bytes go below the size byte. */
  lemma TopBytes(v: nat, size: nat, c: nat)
    requires size == (BitLength(v) + 7) / 8
    requires c == if size <= 3 then Up(v, 8 * (3 - size)) else Down(v, 8 * (size - 3))
    ensures c < 0x100_0000
  {
    hide Pow2, BitLength;
    PowConsts();
    var b := BitLength(v);
    if v == 0 {
      assert c == 0;
    } else if size <= 3 {
      MoreBits(v, 8 * (3 - size));
      Pow2Mono(b + 8 * (3 - size), 24);
    } else {
      TopBits(v, 8 * (size - 3));
      Pow2Mono(b - 8 * (size - 3), 24);
    }
  }

  lemma OrSize(c: nat, size: nat)
    requires c < 0x100_0000
    ensures Or(c, size * 0x100_0000) == c + size * 0x100_0000
  {
    PowConsts();
    OrIsAdd(size * 0x100_0000, c, 24);
  }

  lemma LowLimb(s: seq<Amount>)
    requires s != [] && Val(s) < TWO64
    ensures s[0] == Val(s)
  {}

  lemma ShortNumber(s: seq<Amount>, size: nat)
    requires s != [] && size <= 3 && BitLength(Val(s)) <= 8 * size
    ensures s[0] == Val(s)
  {
    hide Val, Pow2, BitLength;
    PowConsts();
    Pow2Mono(BitLength(Val(s)), 24);
    LowLimb(s);
  }

  lemma ShortTop(v: nat, s: seq<Amount>, j: nat)
    requires s != [] && Val(s) == v / Pow2(j) && j < BitLength(v) <= j + 24
    ensures s[0] == Down(v, j)
  {
    hide Val, Pow2, BitLength;
    PowConsts();
    TopBits(v, j);
    Pow2Mono(BitLength(v) - j, 24);
    LowLimb(s);
  }

  // ---------------------------------------------------------------- retargeting

  datatype HeaderInfo = HeaderInfo(time: int, bits: nat)

  /** `back[0]` is the tip; the times are those of the code's signed arithmetic. */
  predicate Headers(back: seq<HeaderInfo>) {
    forall i :: 0 <= i < |back| ==> 0 <= back[i].time < 0x8000_0000_0000_0000 && back[i].bits < 0x1_0000_0000
  }

  /** And every target was in range, as `accept_header` demands. */
  ghost predicate History(back: seq<HeaderInfo>, limit: nat) {
    Headers(back) && forall i :: 0 <= i < |back| ==> InRange(back[i].bits, limit)
  }

  function Clamp(x: int, lo: int, hi: int): int { if x < lo then lo else if hi < x then hi else x }

  function SolveTime(back: seq<HeaderInfo>, i: nat): int
    requires i + 1 < |back|
  {
    Clamp(back[i].time - back[i + 1].time, -6 * TARGET_SPACING, 6 * TARGET_SPACING)
  }

  /** Solve times of the last `n` blocks, oldest first, the `j`-th with weight `j`. */
  function WeightedTo(back: seq<HeaderInfo>, n: nat, j: nat): int
    requires j <= n < |back|
  {
    if j == 0 then 0 else WeightedTo(back, n, j - 1) + SolveTime(back, n - j) * j
  }

  ghost function SumTo(back: seq<HeaderInfo>, n: nat, j: nat): nat
    requires j <= n < |back|
  {
    if j == 0 then 0 else SumTo(back, n, j - 1) + FromCompact(back[n - j].bits).value
  }

  function Weights(n: nat): nat { n * (n + 1) * TARGET_SPACING / 2 }

  function Weighted(back: seq<HeaderInfo>, n: nat): nat
    requires n < |back|
  {
    var w, least := WeightedTo(back, n, n), Weights(n) / 10;
    if w < least then least else w
  }

  /** `sum / d * w`, rounding before the product. */
  function Scale(sum: nat, d: nat, w: nat): nat {
    if d == 0 then 0
    else
      FloorIff(sum, d, 0);
      MulNonNegative(sum / d, w);
      sum / d * w
  }

  /** The average target, scaled by weighted over expected solve time, with the code's order of rounding. */
  ghost function Raw(back: seq<HeaderInfo>, n: nat): nat
    requires 0 < n < |back|
  {
    Scale(SumTo(back, n, n), n * Weights(n), Weighted(back, n))
  }

  ghost function NextTarget(back: seq<HeaderInfo>, n: nat, limit: nat): nat
    requires 0 < n < |back|
  {
    if Raw(back, n) > limit || Raw(back, n) == 0 then limit else Raw(back, n)
  }

  function Window(tipHeight: nat): nat { if tipHeight < LWMA_WINDOW then tipHeight else LWMA_WINDOW }

  ghost function NextBitsOf(back: seq<HeaderInfo>, tipHeight: nat, limit: nat): nat
    requires Window(tipHeight) < |back|
  {
    if Window(tipHeight) < 3 then back[0].bits else ToCompact(NextTarget(back, Window(tipHeight), limit))
  }

  /** The same in 256 bits, as the code computes it for any headers and any limit. */
  ghost function WrappedBits(back: seq<HeaderInfo>, tipHeight: nat, limit: nat): nat
    requires Window(tipHeight) < |back|
  {
    var n := Window(tipHeight);
    if n < 3 then back[0].bits
    else
      var raw := Scale(SumTo(back, n, n) % TWO256, n * Weights(n), Weighted(back, n)) % TWO256;
      ToCompact(if raw > limit || raw == 0 then limit else raw)
  }

  /** On a network whose limit leaves room for the window nothing wraps. */
  lemma NothingWraps(back: seq<HeaderInfo>, tipHeight: nat, limit: nat)
    requires Window(tipHeight) < |back| && History(back, limit) && limit < Pow2(240)
    ensures WrappedBits(back, tipHeight, limit) == NextBitsOf(back, tipHeight, limit)
  {
    hide Pow2, Base, SumTo, Weighted, Weights, ToCompact, Scale, FromCompact, InRange;
    var n := Window(tipHeight);
    if n >= 3 {
      NoOverflow(back, n, limit);
      Small(SumTo(back, n, n), TWO256);
      Small(Raw(back, n), TWO256);
    }
  }

  lemma {:induction false} WeightedBound(back: seq<HeaderInfo>, n: nat, j: nat)
    requires j <= n < |back|
    ensures -6 * Weights(j) <= WeightedTo(back, n, j) <= 6 * Weights(j)
    ensures Weights(j) == 60 * (j * (j + 1))
  {
    if j > 0 {
      WeightedBound(back, n, j - 1);
      var st := SolveTime(back, n - j);
      MulMono(st, 720, j);
      MulMono(-720, st, j);
      Distribute(j - 1, 2, j);
      assert (j + 1) * j == (j - 1) * j + 2 * j;
      assert Weights(j) == Weights(j - 1) + 120 * j;
    }
  }

  lemma {:induction false} SumBound(back: seq<HeaderInfo>, n: nat, j: nat, limit: nat)
    requires j <= n < |back| && History(back, limit)
    ensures j <= SumTo(back, n, j) <= j * limit
  {
    hide FromCompact;
    if j > 0 {
      SumBound(back, n, j - 1, limit);
      assert InRange(back[n - j].bits, limit);
      Distribute(j - 1, 1, limit);
    }
  }

  /** Before it is limited, the new target is at most six times the average of the window; and when the
      window's sum reaches `n * k` it is at least a tenth of the average, up to the two roundings. Below
      that sum it is zero, and the limit takes its place. */
  lemma RetargetBounds(back: seq<HeaderInfo>, n: nat, limit: nat)
    requires 3 <= n <= LWMA_WINDOW && n < |back| && History(back, limit)
    ensures var sum, k := SumTo(back, n, n), Weights(n);
            && Raw(back, n) * n <= 6 * sum
            && (Raw(back, n) == 0 <==> sum < n * k)
            && (sum / (n * k)) * (k / 10) <= Raw(back, n)
            && (sum < n * k ==> NextTarget(back, n, limit) == limit)
            && (sum >= n * k ==> NextTarget(back, n, limit) <= Raw(back, n))
  {
    hide FromCompact, InRange;
    var sum, k, w := SumTo(back, n, n), Weights(n), Weighted(back, n);
    WeightedBound(back, n, n);
    MulMono(3, n, n + 1);
    assert k >= 720;
    MulStrict(0, n, k);
    var q := sum / (n * k);
    FloorIff(sum, n * k, q);
    FloorIff(sum, n * k, 1);
    FloorIff(sum, n * k, 0);
    RawAtMost(sum, q, n, k, w);
    MulMono(k / 10, w, q);
    if q > 0 { MulStrict(0, q, w); }
  }

  lemma RawAtMost(sum: nat, q: nat, n: nat, k: nat, w: nat)
    requires q * (n * k) <= sum && w <= 6 * k
    ensures (q * w) * n <= 6 * sum
  {
    MulMono(w, 6 * k, q * n);
    MulNonNegative(q, n);
    assert (q * w) * n == w * (q * n) by { MulAssoc(w, q, n); }
    assert (6 * k) * (q * n) == 6 * (q * (n * k)) by {
      MulAssoc(6, k, q * n);
      MulAssoc(k, q, n);
      assert n * k == k * n;
    }
  }

  /** No step of the computation leaves 256 bits on a network whose limit leaves room for the window. */
  lemma NoOverflow(back: seq<HeaderInfo>, n: nat, limit: nat)
    requires 3 <= n <= LWMA_WINDOW && n < |back| && History(back, limit) && limit < Pow2(240)
    ensures forall j :: 0 <= j <= n ==> SumTo(back, n, j) < TWO256
    ensures Raw(back, n) < TWO256 && n * Weights(n) < TWO64 && Weighted(back, n) < TWO64
  {
    hide FromCompact, InRange, Raw;
    RoomAbove(limit);
    forall j | 0 <= j <= n ensures SumTo(back, n, j) <= 60 * limit {
      SumBound(back, n, j, limit);
      MulMono(j, 60, limit);
    }
    RetargetBounds(back, n, limit);
    MulMono(3, n, Raw(back, n));
    WordsFit(back, n);
  }

  lemma RoomAbove(limit: nat)
    requires limit < Pow2(240)
    ensures 360 * limit < TWO256
  {
    hide Pow2, Base;
    BaseIsPow2(4);
    Pow2Add(240, 16);
    PowConsts();
    MulMono(360, 0x1_0000, limit);
    MulMono(limit, Pow2(240), 0x1_0000);
  }

  /** Retargeting always yields a target `check_pow` treats as in range. */
  lemma NextBitsInRange(back: seq<HeaderInfo>, tipHeight: nat, limit: nat)
    requires Window(tipHeight) < |back| && History(back, limit) && 0 < limit < TWO256
    ensures InRange(NextBitsOf(back, tipHeight, limit), limit)
  {
    var n := Window(tipHeight);
    if n < 3 {
      assert InRange(back[0].bits, limit);
    } else {
      EncodedInRange(NextTarget(back, n, limit), limit, 0);
    }
  }

  /** "At least a tenth of the average": the two roundings cost less than `k` and `9 q / 10`. */
  lemma TenthOfAverage(back: seq<HeaderInfo>, n: nat, limit: nat)
    requires 3 <= n <= LWMA_WINDOW && n < |back| && History(back, limit)
    ensures var sum, k := SumTo(back, n, n), Weights(n);
            n * k > 0 && sum < 10 * (Raw(back, n) * n) + 9 * (sum / (n * k) * n) + n * k
  {
    hide FromCompact, InRange, Raw;
    var sum, k, raw := SumTo(back, n, n), Weights(n), Raw(back, n);
    WeightedBound(back, n, n);
    MulMono(3, n, n + 1);
    MulStrict(0, n, k);
    var q := sum / (n * k);
    FloorIff(sum, n * k, q);
    FloorIff(sum, n * k, 0);
    Distribute(q, 1, n * k);
    RetargetBounds(back, n, limit);
    TenthOf(q, n, k, raw);
  }

  lemma TenthOf(q: nat, n: nat, k: nat, raw: nat)
    requires q * (k / 10) <= raw
    ensures q * (n * k) <= 10 * (raw * n) + 9 * (q * n)
  {
    var t, m := k / 10, q * n;
    MulNonNegative(q, n);
    MulMono(k, 10 * t + 9, m);
    MulAssoc(q, n, k);
    assert q * (n * k) == k * m;
    Distribute(10 * t, 9, m);
    MulMono(q * t, raw, n);
    MulAssoc(t, q, n);
    assert (10 * t) * m == 10 * (t * m);
    assert t * m == (q * t) * n;
  }

  /** `next_bits`, on limbs. */
  method NextBits(tipHeight: nat, back: seq<HeaderInfo>, limit: U256, genesisBits: nat,
                  noRetarget: bool) returns (bits: nat)
    requires limit.Valid() && Window(tipHeight) < |back| && Headers(back)
    ensures noRetarget ==> bits == genesisBits
    ensures !noRetarget ==> bits == WrappedBits(back, tipHeight, limit.Value())
    ensures !noRetarget && History(back, limit.Value()) && 0 < limit.Value() < Pow2(240) ==>
              bits == NextBitsOf(back, tipHeight, limit.Value()) && InRange(bits, limit.Value())
  {
    hide Pow2, Base, Val, FromCompact, ToCompact, InRange, Weights, SumTo, WeightedTo, WrappedBits, NextBitsOf,
         Weighted, Scale;
    if noRetarget { return genesisBits; }
    var n := if tipHeight < LWMA_WINDOW then tipHeight else LWMA_WINDOW;
    InRangeThen(back, tipHeight, limit.Value());
    if n < 3 {
      WrappedShort(back, tipHeight, limit.Value());
      return back[0].bits;
    }
    WordsFit(back, n);
    var next, weighted := Accumulate(back, n);
    var k := Weights(n);
    if weighted < k / 10 { weighted := k / 10; }
    WeightedIs(back, n, weighted);
    next.Div64(n * k);
    next.Mul64(weighted);
    ScaleIs(SumTo(back, n, n) % TWO256, n * k, weighted);
    WrappedLong(back, tipHeight, limit.Value(), next.Value());
    var over := next.Cmp(limit);
    var zero := next.IsZero();
    if over > 0 || zero {
      next := limit.Copy();
    }
    bits := EncodeCompact(next);
  }

  lemma InRangeThen(back: seq<HeaderInfo>, tipHeight: nat, limit: nat)
    requires Window(tipHeight) < |back|
    ensures History(back, limit) && 0 < limit < Pow2(240) ==>
              WrappedBits(back, tipHeight, limit) == NextBitsOf(back, tipHeight, limit)
                          && InRange(NextBitsOf(back, tipHeight, limit), limit)
  {
    hide Pow2, Base, WrappedBits, NextBitsOf, InRange, History;
    if History(back, limit) && 0 < limit < Pow2(240) {
      LimitFits(limit);
      NothingWraps(back, tipHeight, limit);
      NextBitsInRange(back, tipHeight, limit);
    }
  }

  lemma LimitFits(limit: nat)
    requires limit < Pow2(240)
    ensures limit < TWO256
  {
    hide Pow2;
    RoomAbove(limit);
  }

  lemma WrappedShort(back: seq<HeaderInfo>, tipHeight: nat, limit: nat)
    requires Window(tipHeight) < |back| && Window(tipHeight) < 3
    ensures WrappedBits(back, tipHeight, limit) == back[0].bits
  {}

  lemma WrappedLong(back: seq<HeaderInfo>, tipHeight: nat, limit: nat, raw: nat)
    requires 3 <= Window(tipHeight) < |back|
    requires var n := Window(tipHeight);
               raw == Scale(SumTo(back, n, n) % TWO256, n * Weights(n), Weighted(back, n)) % TWO256
    ensures WrappedBits(back, tipHeight, limit) == ToCompact(if raw > limit || raw == 0 then limit else raw)
  {
    hide SumTo, Weighted, Weights, ToCompact, Scale, Base;
  }

  lemma WeightedIs(back: seq<HeaderInfo>, n: nat, w: int)
    requires n < |back| && w == if WeightedTo(back, n, n) < Weights(n) / 10 then Weights(n) / 10
               else WeightedTo(back, n, n)
    ensures w == Weighted(back, n)
  {}

  lemma ScaleIs(sum: nat, d: nat, w: nat)
    requires d > 0
    ensures Scale(sum, d, w) == sum / d * w
  {}

  /** The divisor and the factor are words. */
  lemma WordsFit(back: seq<HeaderInfo>, n: nat)
    requires 3 <= n <= LWMA_WINDOW && n < |back|
    ensures 0 < n * Weights(n) < TWO64 && Weighted(back, n) < TWO64
  {
    WeightedBound(back, n, n);
    MulMono(3, n, n + 1);
    MulStrict(0, n, Weights(n));
    ProductMono(n, 60, n + 1, 61);
    ProductMono(n, 60, Weights(n), 219600);
  }

  /** The loop over the window, oldest to newest. */
  method Accumulate(back: seq<HeaderInfo>, n: nat) returns (sum: U256, weighted: int)
    requires 3 <= n < |back| && Headers(back)
    ensures sum.Valid() && fresh(sum) && fresh(sum.w) && sum.Value() == SumTo(back, n, n) % TWO256
              && weighted == WeightedTo(back, n, n)
  {
    hide Base, Val, FromCompact;
    weighted := 0;
    sum := new U256(0);
    Small(0, TWO256);
    for j := 1 to n + 1
      invariant sum.Valid() && fresh(sum) && fresh(sum.w)
      invariant sum.Value() == SumTo(back, n, j - 1) % TWO256 && weighted == WeightedTo(back, n, j - 1)
    {
      var cur, before := back[n - j], back[n - j + 1];
      weighted := weighted + Clamp(cur.time - before.time, -6 * TARGET_SPACING, 6 * TARGET_SPACING) * j;
      var target, neg, ovf := DecodeCompact(cur.bits);
      assert SumTo(back, n, j) == SumTo(back, n, j - 1) + target.Value();
      ModAdd(SumTo(back, n, j - 1), target.Value(), TWO256);
      sum.Add(target);
    }
  }

  lemma ModAdd(a: nat, b: nat, m: nat)
    requires m > 0
    ensures (a % m + b) % m == (a + b) % m
  {
    var q := a / m;
    var t := a % m + b;
    assert a + b == q * m + t;
    Distribute(q, t / m, m);
    QuotientUnique(a + b, m, q + t / m, t % m);
  }
}
