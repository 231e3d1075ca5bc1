/** What retargeting does to the difficulty, and what compact bits stand for: the meaning of the computations of
    src/consensus/pow.cpp:16-41 and src/util/u256.cpp:104-122, told without following their steps. */
module Retargets {
  import opened Types
  import opened Arith
  import opened Limbs
  import opened U256s
  import opened Pow

  // ---------------------------------------------------------------- the timeline

  /** `step` is the difference `d` of two times, held within six target spacings either way. */
  predicate Held(step: int, d: int) {
    -720 <= step <= 720 && (step == d || (step == 720 && d > 720) || (step == -720 && d < -720))
  }

  /** `a[0]` is the tip's time and `a[n]` the oldest, with every step between neighbours held. */
  ghost predicate Timeline(a: seq<int>, back: seq<HeaderInfo>, n: nat) {
    && n < |back| && |a| == n + 1
    && forall i :: 0 <= i < n ==> Held(a[i] - a[i + 1], back[i].time - back[i + 1].time)
  }

  function Total(a: seq<int>): int { if a == [] then 0 else a[0] + Total(a[1..]) }

  /** The targets of the `n` newest headers. */
  ghost function Targets(back: seq<HeaderInfo>, n: nat): nat
    requires n <= |back|
  {
    if n == 0 then 0 else Targets(back, n - 1) + FromCompact(back[n - 1].bits).value
  }

  /** The weighted solve times are how much later the tip is than the headers of the window, one by one. */
  lemma {:induction false} WeightedIsLateness(a: seq<int>, back: seq<HeaderInfo>, n: nat, j: nat)
    requires Timeline(a, back, n) && j <= n
    ensures WeightedTo(back, n, j) == j * a[n - j] - Total(a[n - j + 1..])
  {
    if j > 0 {
      WeightedIsLateness(a, back, n, j - 1);
      var i := n - j;
      assert Held(a[i] - a[i + 1], back[i].time - back[i + 1].time);
      assert SolveTime(back, i) == a[i] - a[i + 1];
      assert a[i + 1..][0] == a[i + 1] && a[i + 1..][1..] == a[i + 2..];
      Lateness(a[i], a[i + 1], j);
    } else {
      assert a[n + 1..] == [];
    }
  }

  lemma Lateness(x: int, y: int, j: int)
    ensures (j - 1) * y + (x - y) * j == j * x - y
  {
    Distribute(x, y, j);
    Distribute(j, 1, y);
  }

  lemma {:induction false} TargetsOfWindow(back: seq<HeaderInfo>, n: nat, j: nat)
    requires j <= n < |back|
    ensures SumTo(back, n, j) + Targets(back, n - j) == Targets(back, n)
  {
    hide FromCompact;
    if j > 0 { TargetsOfWindow(back, n, j - 1); }
  }

  /** The targets of the window, times how much later the tip is than the window's headers, a tenth of what is expected
      at least. */
  ghost function Formula(a: seq<int>, back: seq<HeaderInfo>, n: nat): nat
    requires 3 <= n && Timeline(a, back, n)
  {
    var k := 60 * (n * (n + 1));
    var late := n * a[0] - Total(a[1..]);
    RawFormula(a, back, n);
    Targets(back, n) / (n * k) * (if late < k / 10 then k / 10 else late)
  }

  lemma RawFormula(a: seq<int>, back: seq<HeaderInfo>, n: nat)
    requires 3 <= n && Timeline(a, back, n)
    ensures var k := 60 * (n * (n + 1)); var late := n * a[0] - Total(a[1..]);
            k > 0 && n * k > 0 && Raw(back, n) == Targets(back, n) / (n * k) * (if late < k / 10 then k / 10 else late)
  {
    hide FromCompact, SumTo, Targets, WeightedTo, Total;
    WeightedIsLateness(a, back, n, n);
    TargetsOfWindow(back, n, n);
    NoTargets(back);
    WeightedBound(back, n, n);
    MulMono(3, n, n + 1);
    MulStrict(0, n, Weights(n));
  }

  /** The next bits, for any history. */
  lemma RetargetFormula(a: seq<int>, back: seq<HeaderInfo>, tipHeight: nat, limit: nat)
    requires var n := if tipHeight < 60 then tipHeight else 60; 3 <= n && Timeline(a, back, n)
    ensures var next := Formula(a, back, if tipHeight < 60 then tipHeight else 60);
            NextBitsOf(back, tipHeight, limit) == ToCompact(if next == 0 || next > limit then limit else next)
  {
    hide FromCompact, ToCompact, Targets, Total, Raw;
    RawFormula(a, back, if tipHeight < 60 then tipHeight else 60);
  }

  lemma NoTargets(back: seq<HeaderInfo>)
    ensures Targets(back, 0) == 0
  {}

  // ---------------------------------------------------------------- direction

  lemma {:induction false} SteadyWeights(back: seq<HeaderInfo>, n: nat, j: nat)
    requires j <= n < |back|
    ensures (forall i :: 0 <= i < n ==> back[i].time - back[i + 1].time >= 120) ==> WeightedTo(back, n, j) >= Weights(j)
    ensures (forall i :: 0 <= i < n ==> back[i].time - back[i + 1].time <= 120) ==> WeightedTo(back, n, j) <= Weights(j)
  {
    WeightedBound(back, n, j);
    if j > 0 {
      SteadyWeights(back, n, j - 1);
      WeightedBound(back, n, j - 1);
      var st := SolveTime(back, n - j);
      assert n - j + 1 == (n - j) + 1;
      if st >= 120 { MulMono(120, st, j); }
      if st <= 120 { MulMono(st, 120, j); }
      Distribute(j - 1, 2, j);
      assert (j + 1) * j == (j - 1) * j + 2 * j;
    }
  }

  /** Blocks that take longer than the target spacing never make the target harder than the average, blocks that take
      less never make it easier; blocks exactly on time leave it there, up to the rounding of the average. */
  lemma Direction(back: seq<HeaderInfo>, n: nat, limit: nat)
    requires 3 <= n <= 60 && n < |back| && History(back, limit)
    ensures var k := 60 * (n * (n + 1)); var average := Targets(back, n) / (n * k) * k;
            && ((forall i :: 0 <= i < n ==> back[i].time - back[i + 1].time >= 120) ==> Raw(back, n) >= average)
            && ((forall i :: 0 <= i < n ==> back[i].time - back[i + 1].time <= 120) ==> Raw(back, n) <= average)
            && ((forall i :: 0 <= i < n ==> back[i].time - back[i + 1].time == 120) ==> Raw(back, n) == average)
            && average <= Targets(back, n) / n && Targets(back, n) / n < average + k
  {
    hide FromCompact, InRange, SumTo, Targets, WeightedTo, History;
    var k, sum := Weights(n), Targets(back, n);
    SteadyWeights(back, n, n);
    TargetsOfWindow(back, n, n);
    NoTargets(back);
    WeightedBound(back, n, n);
    MulMono(3, n, n + 1);
    MulStrict(0, n, k);
    var q, w := sum / (n * k), Weighted(back, n);
    FloorIff(sum, n * k, 0);
    if w <= k { MulMono(w, k, q); }
    if k <= w { MulMono(k, w, q); }
    assert Raw(back, n) == q * w;
    AverageIs(sum, n, k);
  }

  lemma AverageIs(sum: nat, n: nat, k: nat)
    requires n > 0 && k > 0
    ensures n * k > 0 && sum / (n * k) * k <= sum / n < sum / (n * k) * k + k
  {
    MulStrict(0, n, k);
    DivDiv(sum, n, k);
    FloorIff(sum / n, k, 0);
    Distribute(sum / n / k, 1, k);
  }

  /** On a chain that is on time, all at one target, the target stays, up to a rounding of less than `k`. */
  lemma SteadyKeeps(back: seq<HeaderInfo>, n: nat, limit: nat, target: nat)
    requires 3 <= n <= 60 && n < |back| && History(back, limit)
    requires forall i :: 0 <= i < n ==>
               back[i].time - back[i + 1].time == 120 && FromCompact(back[i].bits).value == target
    ensures Raw(back, n) <= target < Raw(back, n) + 60 * (n * (n + 1))
  {
    hide FromCompact, InRange, Raw, History;
    Direction(back, n, limit);
    SameTargets(back, n, target);
    QuotientUnique(n * target, n, target, 0);
  }

  lemma {:induction false} SameTargets(back: seq<HeaderInfo>, n: nat, target: nat)
    requires n <= |back| && forall i :: 0 <= i < n ==> FromCompact(back[i].bits).value == target
    ensures Targets(back, n) == n * target
  {
    hide FromCompact;
    if n > 0 {
      SameTargets(back, n - 1, target);
      Distribute(n - 1, 1, target);
    }
  }

  /** The later the tip, the easier the next target. */
  lemma LaterIsEasier(back: seq<HeaderInfo>, later: seq<HeaderInfo>, n: nat, limit: nat)
    requires 3 <= n <= 60 && n < |back| == |later| && History(back, limit) && History(later, limit)
    requires back[0].time <= later[0].time && back[0].bits == later[0].bits && back[1..] == later[1..]
    ensures Raw(back, n) <= Raw(later, n) && NextTarget(back, n, limit) <= NextTarget(later, n, limit)
  {
    hide FromCompact, InRange, History, WeightedTo;
    forall i | 0 < i < |back| ensures back[i] == later[i] { assert back[i] == back[1..][i - 1] == later[1..][i - 1]; }
    SameBelow(back, later, n, n - 1);
    SumsAgree(back, later, n, n);
    var st, st' := SolveTime(back, 0), SolveTime(later, 0);
    MulMono(st, st', n);
    WeightedLast(back, n);
    WeightedLast(later, n);
    WeightedBound(back, n, n);
    MulMono(3, n, n + 1);
    MulStrict(0, n, Weights(n));
    var q := SumTo(back, n, n) / (n * Weights(n));
    FloorIff(SumTo(back, n, n), n * Weights(n), 0);
    MulMono(Weighted(back, n), Weighted(later, n), q);
    RetargetBounds(back, n, limit);
    RetargetBounds(later, n, limit);
  }

  lemma WeightedLast(back: seq<HeaderInfo>, n: nat)
    requires 0 < n < |back|
    ensures WeightedTo(back, n, n) == WeightedTo(back, n, n - 1) + SolveTime(back, 0) * n
  {}

  lemma {:induction false} SameBelow(back: seq<HeaderInfo>, later: seq<HeaderInfo>, n: nat, j: nat)
    requires j < n < |back| == |later| && forall i :: 0 < i < |back| ==> back[i] == later[i]
    ensures WeightedTo(back, n, j) == WeightedTo(later, n, j)
  {
    if j > 0 { SameBelow(back, later, n, j - 1); }
  }

  lemma {:induction false} SumsAgree(back: seq<HeaderInfo>, later: seq<HeaderInfo>, n: nat, j: nat)
    requires j <= n < |back| == |later| && forall i :: 0 <= i < |back| ==> back[i].bits == later[i].bits
    ensures SumTo(back, n, j) == SumTo(later, n, j)
  {
    hide FromCompact;
    if j > 0 { SumsAgree(back, later, n, j - 1); }
  }

  // ---------------------------------------------------------------- compact bits

  /** What bits stand for: a size byte `e`, a sign and 23 bits `m`, for `m` times 256 to the power `e - 3`. The value is
      that number, rounded down and cut to 256 bits; it overflows exactly if it does not fit. */
  lemma CompactMeaning(e: nat, sign: bool, m: nat)
    requires m < 0x80_0000
    ensures var t := FromCompact(e * 0x100_0000 + (if sign then 0x80_0000 else 0) + m);
            && (e >= 3 ==>
                  t.value == m * Pow2(8 * (e - 3)) % TWO256 && (t.overflow <==> m * Pow2(8 * (e - 3)) >= TWO256))
            && (e < 3 ==> t.value == m / Pow2(8 * (3 - e)) && !t.overflow)
            && (t.negative <==> sign && (if e >= 3 then m else m / Pow2(8 * (3 - e))) > 0)
  {
    hide Pow2, Base, FromCompact, Up, Down;
    var s := if sign then 1 else 0;
    var bits := e * 0x100_0000 + s * 0x80_0000 + m;
    QuotientUnique(bits, 0x100_0000, e, s * 0x80_0000 + m);
    QuotientUnique(bits, 0x80_0000, 2 * e + s, m);
    Parts(bits, e, sign, m);
    if e >= 3 { OverflowIff(e, m); }
    if e == 3 { WholeMantissa(m); }
    ShiftsAre(m, if e >= 3 then 8 * (e - 3) else 8 * (3 - e));
  }

  lemma ShiftsAre(m: nat, k: nat)
    ensures Up(m, k) == m * Pow2(k) && Down(m, k) == m / Pow2(k)
  {}

  lemma WholeMantissa(m: nat)
    requires m < 0x80_0000
    ensures Down(m, 0) == m && m * Pow2(0) % TWO256 == m
  {
    hide Base;
    BaseIsPow2(4);
    Pow2Mono(24, 256);
    PowConsts();
    Small(m, TWO256);
  }

  lemma Parts(bits: nat, e: nat, sign: bool, m: nat)
    requires bits / 0x100_0000 == e && bits % 0x80_0000 == m && (bits / 0x80_0000) % 2 == (if sign then 1 else 0)
    ensures var t := FromCompact(bits); var word := if e <= 3 then Down(m, 8 * (3 - e)) else m;
            && t.value == (if e <= 3 then word else Up(m, 8 * (e - 3)) % TWO256)
            && (t.negative <==> word != 0 && sign)
            && (t.overflow <==> word != 0 && (e > 34 || (word > 0xff && e > 33) || (word > 0xffff && e > 32)))
  {
    hide Up, Down, Base;
  }

  lemma OverflowIff(e: nat, m: nat)
    requires e >= 3 && m < 0x80_0000
    ensures m * Pow2(8 * (e - 3)) >= TWO256 <==>
            m != 0 && (e > 34 || (m > 0xff && e > 33) || (m > 0xffff && e > 32))
  {
    hide Pow2, Base;
    PowConsts();
    BaseIsPow2(4);
    var p := Pow2(8 * (e - 3));
    if e <= 32 {
      Pow2Mono(8 * (e - 3), 232);
      Pow2Add(232, 24);
      ProductMono(m, 0x7f_ffff, p, Pow2(232));
      MulStrict(0x7f_ffff, 0x100_0000, Pow2(232));
    } else if e <= 34 {
      var c := Pow2(8 * (35 - e));
      Pow2Add(8 * (e - 3), 8 * (35 - e));
      if m < c { MulStrict(m, c, p); } else { MulMono(c, m, p); }
    } else {
      Pow2Mono(256, 8 * (e - 3));
      if m > 0 { MulMono(1, m, p); }
    }
  }

  /** What is encoded: 16 to 23 leading bits and the number of bytes, so that one unit more would be too much. */
  lemma EncodeMeaning(v: nat)
    requires v > 0
    ensures var m, e := ToCompact(v) % 0x100_0000, ToCompact(v) / 0x100_0000;
            && 0x8000 <= m < 0x80_0000
            && (e >= 3 ==> m * Pow2(8 * (e - 3)) <= v < (m + 1) * Pow2(8 * (e - 3)))
            && (e < 3 ==> m == v * Pow2(8 * (3 - e)))
  {
    hide Pow2, BitLength, ToCompact;
    MantissaRange(v);
    CompactForm(v);
    var m, e := Mantissa(v), Size(v);
    QuotientUnique(m + e * 0x100_0000, 0x100_0000, e, m);
    PowConsts();
    if e > 3 { FloorIff(v, Pow2(8 * (e - 3)), 0); }
  }
}
