/** The constant-product pool arithmetic of src/consensus/ledger.cpp:17-70. */
module Amm {
  import opened Types
  import opened Arith

  const FEE_BASE: int := 10_000
  const FEE_KEEP: int := 9_970      // 10'000 - POOL_FEE_BPS

  function MulDiv(a: Amount, b: Amount, c: Amount): Amount {
    if c == 0 then 0
    else
      DivNonNegative(a, b, c);
      var q := a * b / c;
      if q >= TWO64 then 0 else q
  }

  lemma DivNonNegative(a: Amount, b: Amount, c: Amount)
    requires c > 0
    ensures a * b >= 0 && a * b / c >= 0
  {}

  /** `floor(in * 9970 * rout / (rin * 10000 + in * 9970))`, or 0 for an empty side. */
  function Quote(amtIn: Amount, rin: Amount, rout: Amount): Amount {
    if amtIn == 0 || rin == 0 || rout == 0 then 0
    else
      var num := amtIn * FEE_KEEP * rout;
      var den := rin * FEE_BASE + amtIn * FEE_KEEP;
      QuotePositive(amtIn, rin, rout);
      var q := num / den;
      if q >= TWO64 then 0 else q
  }

  lemma QuotePositive(amtIn: Amount, rin: Amount, rout: Amount)
    requires amtIn > 0 && rin > 0
    ensures amtIn * FEE_KEEP * rout >= 0
    ensures rin * FEE_BASE + amtIn * FEE_KEEP > 0
    ensures amtIn * FEE_KEEP * rout / (rin * FEE_BASE + amtIn * FEE_KEEP) >= 0
  {
    var num, den := amtIn * FEE_KEEP * rout, rin * FEE_BASE + amtIn * FEE_KEEP;
    assert num >= 0 by { MulNonNegative(amtIn * FEE_KEEP, rout); }
    FloorIff(num, den, 0);
  }

  // ---------------------------------------------------------------- swaps

  /** The 64-bit guard never fires: a quote is the exact quotient, and leaves the reserve nonempty. */
  lemma QuoteExact(amtIn: Amount, rin: Amount, rout: Amount)
    requires amtIn > 0 && rin > 0 && rout > 0
    ensures Quote(amtIn, rin, rout) == amtIn * FEE_KEEP * rout / (rin * FEE_BASE + amtIn * FEE_KEEP)
    ensures Quote(amtIn, rin, rout) < rout
  {
    var num, den := amtIn * FEE_KEEP * rout, rin * FEE_BASE + amtIn * FEE_KEEP;
    QuotePositive(amtIn, rin, rout);
    assert rout * den == rout * (rin * FEE_BASE) + num;
    assert rout * (rin * FEE_BASE) > 0 by { MulStrict(0, rout, rin * FEE_BASE); }
    FloorIff(num, den, rout);
  }

  /** A quote reaches `out` exactly when the fee-reduced input pays for it. */
  lemma QuoteReaches(amtIn: Amount, rin: Amount, rout: Amount, out: Amount)
    requires 0 < out < rout && rin > 0
    ensures out <= Quote(amtIn, rin, rout) <==> rin * out * FEE_BASE <= amtIn * FEE_KEEP * (rout - out)
  {
    if amtIn == 0 {
      MulStrict(0, rin, out);
    } else {
      var num, den := amtIn * FEE_KEEP * rout, rin * FEE_BASE + amtIn * FEE_KEEP;
      QuoteExact(amtIn, rin, rout);
      QuotePositive(amtIn, rin, rout);
      FloorIff(num, den, out);
      assert out * den == rin * out * FEE_BASE + amtIn * FEE_KEEP * out by {
        assert out * (rin * FEE_BASE) == rin * out * FEE_BASE;
        assert out * (amtIn * FEE_KEEP) == amtIn * FEE_KEEP * out;
      }
      assert amtIn * FEE_KEEP * (rout - out) == num - amtIn * FEE_KEEP * out;
    }
  }

  lemma QuoteMonotone(a: Amount, b: Amount, rin: Amount, rout: Amount)
    requires a <= b
    ensures Quote(a, rin, rout) <= Quote(b, rin, rout)
  {
    var out := Quote(a, rin, rout);
    if out > 0 {
      QuoteExact(a, rin, rout);
      QuoteReaches(a, rin, rout, out);
      QuoteReaches(b, rin, rout, out);
      MulMono(a * FEE_KEEP, b * FEE_KEEP, rout - out);
    }
  }

  /** The product rule: even after discounting the 0.3% fee the reserves' product does not fall,
      for any output up to the quote. */
  lemma SwapProduct(amtIn: Amount, rin: Amount, rout: Amount, out: Amount)
    requires out <= Quote(amtIn, rin, rout) && out < rout
    ensures (rin * FEE_BASE + amtIn * FEE_KEEP) * (rout - out) >= rin * FEE_BASE * rout
    ensures (rin + amtIn) * (rout - out) >= rin * rout
  {
    if out == 0 {
      MulMono(rin * FEE_BASE, rin * FEE_BASE + amtIn * FEE_KEEP, rout);
      MulMono(rin, rin + amtIn, rout);
    } else {
      QuoteReaches(amtIn, rin, rout, out);
      var left := rout - out;
      assert (rin * FEE_BASE + amtIn * FEE_KEEP) * left == rin * FEE_BASE * left + amtIn * FEE_KEEP * left;
      assert rin * FEE_BASE * left == rin * FEE_BASE * rout - rin * out * FEE_BASE;
      assert amtIn * FEE_KEEP * left <= amtIn * left * FEE_BASE by {
        MulNonNegative(amtIn, left);
        assert amtIn * FEE_KEEP * left == amtIn * left * FEE_KEEP;
      }
      assert rin * out <= amtIn * left;
      assert (rin + amtIn) * left == rin * rout - rin * out + amtIn * left;
    }
  }

  /** `amm_quote_in`: the least input whose quote reaches `out`. It gives 0 when there is nothing
      to buy, and when the raw quotient does not leave room for its own `+ 1` in 64 bits. */
  method QuoteIn(out: Amount, rin: Amount, rout: Amount) returns (r: Amount)
    ensures out == 0 || out >= rout || rin == 0 ==> r == 0
    ensures 0 < out < rout && rin > 0 && RawIn(out, rin, rout) >= TWO64 - 1 ==> r == 0
    ensures 0 < out < rout && rin > 0 && RawIn(out, rin, rout) < TWO64 - 1 ==>
              r > 0 && forall x: Amount :: out <= Quote(x, rin, rout) <==> r <= x
  {
    if out == 0 || out >= rout || rin == 0 { return 0; }
    var q := RawIn(out, rin, rout);
    if q >= TWO64 { return 0; }
    var amt: Amount := Add64(q, 1);
    if q < TWO64 - 1 { RawInReaches(out, rin, rout); }
    while amt > 1 && Quote(amt - 1, rin, rout) >= out
      invariant if q == TWO64 - 1 then amt == 0 else 0 < amt && out <= Quote(amt, rin, rout)
    {
      amt := amt - 1;
    }
    if Quote(amt, rin, rout) < out { return 0; }
    forall x: Amount
      ensures out <= Quote(x, rin, rout) <==> amt <= x
    {
      if amt <= x {
        QuoteMonotone(amt, x, rin, rout);
      } else {
        QuoteMonotone(x, amt - 1, rin, rout);
      }
    }
    r := amt;
  }

  /** `floor(rin * out * 10000 / ((rout - out) * 9970))`. */
  function RawIn(out: Amount, rin: Amount, rout: Amount): (q: nat)
    requires 0 < out < rout && rin > 0
  {
    var num, den := rin * out * FEE_BASE, (rout - out) * FEE_KEEP;
    assert num >= 0 by { MulNonNegative(rin, out); }
    FloorIff(num, den, 0);
    num / den
  }

  lemma RawInReaches(out: Amount, rin: Amount, rout: Amount)
    requires 0 < out < rout && rin > 0
    requires RawIn(out, rin, rout) < TWO64 - 1
    ensures out <= Quote(RawIn(out, rin, rout) + 1, rin, rout)
  {
    var q := RawIn(out, rin, rout);
    FloorIff(rin * out * FEE_BASE, (rout - out) * FEE_KEEP, q);
    assert (q + 1) * ((rout - out) * FEE_KEEP) == (q + 1) * FEE_KEEP * (rout - out);
    QuoteReaches(q + 1, rin, rout, out);
  }

  // ---------------------------------------------------------------- initial shares

  /** `amm_initial_shares`: the integer square root by Newton's method. The start is strictly above
      the root and every intermediate value fits 128 bits. */
  method InitialShares(qnt: Amount, tok: Amount) returns (s: Amount)
    ensures s * s <= qnt * tok < (s + 1) * (s + 1)
    ensures s == RootShares(qnt, tok)
  {
    MulNonNegative(qnt, tok);
    var n: nat := qnt * tok;
    if n == 0 { return 0; }
    ProductMono(qnt, TWO64 - 1, tok, TWO64 - 1);
    StartAboveRoot(n);
    var x := NewtonRoot(n, Pow2((BitLength(n) + 1) / 2));
    while x * x > n
      invariant 0 <= x && n < (x + 1) * (x + 1)
      decreases x
    {
      x := x - 1;
    }
    RootFits(n, x);
    s := x;
    RootUnique(n, s, Root(n));
  }

  /** The integer square root, one base-4 digit at a time. */
  function Root(n: nat): (x: nat)
    ensures IsRoot(n, x)
  {
    if n == 0 then 0
    else
      var half := Root(n / 4);
      RootDigit(n, half);
      NextDigit(n, half)
  }

  function NextDigit(n: nat, half: nat): nat {
    if (2 * half + 1) * (2 * half + 1) <= n then 2 * half + 1 else 2 * half
  }

  lemma RootDigit(n: nat, half: nat)
    requires IsRoot(n / 4, half)
    ensures IsRoot(n, NextDigit(n, half))
  {
    assert (2 * half) * (2 * half) == 4 * (half * half);
    assert (2 * half + 2) * (2 * half + 2) == 4 * ((half + 1) * (half + 1));
  }

  lemma RootUnique(n: nat, x: nat, y: nat)
    requires IsRoot(n, x) && IsRoot(n, y)
    ensures x == y
  {
    if x < y { ProductMono(x + 1, y, x + 1, y); }
    if y < x { ProductMono(y + 1, x, y + 1, x); }
  }

  /** The value `InitialShares` computes. */
  function RootShares(qnt: Amount, tok: Amount): Amount {
    MulNonNegative(qnt, tok);
    ProductMono(qnt, TWO64 - 1, tok, TWO64 - 1);
    RootFits(qnt * tok, Root(qnt * tok));
    Root(qnt * tok)
  }

  ghost predicate IsRoot(n: nat, x: nat) { x * x <= n < (x + 1) * (x + 1) }

  lemma RootFits(n: nat, x: nat)
    requires IsRoot(n, x) && n < TWO64 * TWO64
    ensures x < TWO64
  {
    if x >= TWO64 { ProductMono(TWO64, x, TWO64, x); }
  }

  /** The descent from `start`. */
  method NewtonRoot(n: nat, start: nat) returns (x: nat)
    requires 0 < n < TWO64 * TWO64 && 0 < start <= TWO64 && n < (start + 1) * (start + 1)
    ensures IsRoot(n, x)
  {
    x := start;
    while true
      invariant 0 < x <= TWO64
      invariant n < (x + 1) * (x + 1)
      decreases x
    {
      NewtonStep(n, x);
      var y: nat := (x + n / x) / 2;
      if y >= x { return; }
      x := y;
    }
  }

  lemma StartAboveRoot(n: nat)
    requires 0 < n < TWO64 * TWO64
    ensures var x := Pow2((BitLength(n) + 1) / 2);
            0 < x <= TWO64 && n < x * x && n < (x + 1) * (x + 1)
  {
    var bits := BitLength(n);
    var half := (bits + 1) / 2;
    BitsWithin128(n);
    assert Pow2(half) <= TWO64 by { Pow2Of64(); Pow2Mono(half, 64); }
    Pow2Add(half, half);
    Pow2Mono(bits, half + half);
    var x := Pow2(half);
    ProductMono(x, x + 1, x, x + 1);
  }

  lemma BitsWithin128(n: nat)
    requires n < TWO64 * TWO64
    ensures BitLength(n) <= 128
  {
    if BitLength(n) > 128 {
      Pow2Of64();
      Pow2Add(64, 64);
      Pow2Mono(64 + 64, BitLength(n) - 1);
    }
  }

  /** One Newton step from at or above the root stays there, stops only on the root,
      and does not overflow. */
  lemma NewtonStep(n: nat, x: nat)
    requires 0 < n < TWO64 * TWO64 && 0 < x <= TWO64 && n < (x + 1) * (x + 1)
    ensures n / x >= 0 && x + n / x < TWO64 * TWO64
    ensures (x + n / x) / 2 > 0
    ensures var y := (x + n / x) / 2; n < (y + 1) * (y + 1)
    ensures (x + n / x) / 2 >= x ==> x * x <= n
  {
    FloorIff(n, x, 0);
    var q := n / x;
    var y := (x + q) / 2;
    FloorIff(n, x, x + 3);
    Distribute(x, 3, x);
    Distribute(x, 1, x + 1);
    Distribute(x, 1, x);
    NewtonAboveRoot(n, x, q, y);
    FloorIff(n, x, x);
  }

  lemma NewtonAboveRoot(n: nat, x: nat, q: nat, y: nat)
    requires 0 < n < (q + 1) * x && x + q <= 2 * y + 1
    ensures n < (y + 1) * (y + 1)
    ensures y > 0
  {
    MeanInequality(x, q + 1);
    ProductMono(x + (q + 1), 2 * (y + 1), x + (q + 1), 2 * (y + 1));
    assert (2 * (y + 1)) * (2 * (y + 1)) == 4 * ((y + 1) * (y + 1));
    assert x * (q + 1) == (q + 1) * x;
  }

  // ---------------------------------------------------------------- pools

  function AddShares(p: Pool, qnt: Amount, tok: Amount): Amount {
    if p.qnt == 0 || p.tok == 0 || p.shares == 0 then 0
    else
      var a := MulDiv(qnt, p.shares, p.qnt);
      var b := MulDiv(tok, p.shares, p.tok);
      if a < b then a else b
  }

  /** What `amm_remove_amounts` allows to take out for `shares`. */
  function RemoveQnt(p: Pool, shares: Amount): Amount { MulDiv(shares, p.qnt, p.shares) }

  function RemoveTok(p: Pool, shares: Amount): Amount { MulDiv(shares, p.tok, p.shares) }

  /** The floor of `a * b / c` seen from below. */
  lemma MulDivBound(a: Amount, b: Amount, c: Amount, r: Amount)
    requires r <= MulDiv(a, b, c) && c > 0
    ensures r * c <= a * b
  {
    FloorIff(a * b, c, r);
    MulNonNegative(a, b);
  }

  /** Exactly what may be asked for: the floor of `a * b / c`, unless that leaves 64 bits or there is none. */
  lemma MulDivIff(a: Amount, b: Amount, c: Amount, r: Amount)
    ensures r <= MulDiv(a, b, c) <==> r == 0 || (c > 0 && r * c <= a * b < TWO64 * c)
  {
    if c > 0 {
      FloorIff(a * b, c, r);
      FloorIff(a * b, c, TWO64);
      MulNonNegative(a, b);
    }
  }

  /** The shares offered for a deposit: as many as both sides pay for in proportion. */
  lemma AddSharesIff(p: Pool, qnt: Amount, tok: Amount, shares: Amount)
    ensures shares <= AddShares(p, qnt, tok) <==>
            || shares == 0
            || (&& p.qnt > 0 && p.tok > 0 && p.shares > 0
                && shares * p.qnt <= qnt * p.shares < TWO64 * p.qnt
                && shares * p.tok <= tok * p.shares < TWO64 * p.tok)
  {
    hide MulDiv;
    MulDivIff(qnt, p.shares, p.qnt, shares);
    MulDivIff(tok, p.shares, p.tok, shares);
  }

  /** What a share of the pool is worth on either side; the 64-bit guard does not fire. */
  lemma RemoveIff(p: Pool, shares: Amount, qnt: Amount, tok: Amount)
    requires 0 < p.shares && shares <= p.shares
    ensures qnt <= RemoveQnt(p, shares) <==> qnt * p.shares <= shares * p.qnt
    ensures tok <= RemoveTok(p, shares) <==> tok * p.shares <= shares * p.tok
  {
    ShareFits(shares, p.qnt, p.shares);
    ShareFits(shares, p.tok, p.shares);
    MulDivIff(shares, p.qnt, p.shares, qnt);
    MulDivIff(shares, p.tok, p.shares, tok);
  }

  lemma ShareFits(part: Amount, b: Amount, whole: Amount)
    requires 0 < whole && part <= whole
    ensures 0 <= part * b < TWO64 * whole
  {
    MulNonNegative(part, b);
    MulMono(part, whole, b);
    MulStrict(b, TWO64, whole);
  }

  /** Exactly the outputs a swap can ask for. */
  lemma QuoteIff(amtIn: Amount, rin: Amount, rout: Amount, out: Amount)
    ensures out < rout && out <= Quote(amtIn, rin, rout) <==>
            && out < rout
            && (out == 0 || (rin > 0 && rin * out * FEE_BASE <= amtIn * FEE_KEEP * (rout - out)))
  {
    if amtIn > 0 && rin > 0 && rout > 0 { QuoteExact(amtIn, rin, rout); QuotePositive(amtIn, rin, rout); }
    if 0 < out < rout && rin > 0 { QuoteReaches(amtIn, rin, rout, out); }
  }

  /** Every pool the ledger ever holds. */
  ghost predicate PoolOk(p: Pool) {
    && MIN_LIQUIDITY <= p.shares
    && p.shares * p.shares <= p.qnt * p.tok
  }

  /** Each share is backed by at least as much: `qnt * tok / shares^2` does not fall. */
  ghost predicate NoDilution(p: Pool, p': Pool) {
    (p.qnt * p.tok) * (p'.shares * p'.shares) <= (p'.qnt * p'.tok) * (p.shares * p.shares)
  }

  lemma ReservesPositive(p: Pool)
    requires PoolOk(p)
    ensures p.qnt > 0 && p.tok > 0
  {
    ProductMono(1, p.shares, 1, p.shares);
  }

  /** Undiluted pools with enough shares are sound again. */
  lemma NoDilutionKeepsPoolOk(p: Pool, p': Pool)
    requires PoolOk(p) && NoDilution(p, p') && MIN_LIQUIDITY <= p'.shares
    ensures PoolOk(p')
  {
    var s, s', k, k' := p.shares * p.shares, p'.shares * p'.shares, p.qnt * p.tok, p'.qnt * p'.tok;
    ProductMono(1, p.shares, 1, p.shares);
    MulNonNegative(p'.shares, p'.shares);
    MulMono(s, k, s');
    assert s' * s <= k' * s;
    MulCancel(s', k', s);
  }

  /** If both reserves grow at least in proportion to the shares, nobody is diluted. */
  lemma ProportionalNoDilution(p: Pool, p': Pool)
    requires p.qnt * p'.shares <= p'.qnt * p.shares
    requires p.tok * p'.shares <= p'.tok * p.shares
    ensures NoDilution(p, p')
  {
    MulNonNegative(p.qnt, p'.shares);
    MulNonNegative(p.tok, p'.shares);
    ProductMono(p.qnt * p'.shares, p'.qnt * p.shares, p.tok * p'.shares, p'.tok * p.shares);
    Regroup(p.qnt, p.tok, p'.shares);
    Regroup(p'.qnt, p'.tok, p.shares);
  }

  lemma Regroup(a: int, b: int, c: int)
    ensures (a * c) * (b * c) == (a * b) * (c * c)
  {
    assert (a * c) * (b * c) == a * (c * (b * c));
    assert c * (b * c) == b * (c * c);
    assert a * (b * (c * c)) == (a * b) * (c * c);
  }

  lemma AddNoDilution(p: Pool, qnt: Amount, tok: Amount, shares: Amount, p': Pool)
    requires PoolOk(p) && shares <= AddShares(p, qnt, tok)
    requires p'.qnt == p.qnt + qnt && p'.tok == p.tok + tok && p'.shares == p.shares + shares
    ensures NoDilution(p, p') && PoolOk(p')
  {
    ReservesPositive(p);
    MulDivBound(qnt, p.shares, p.qnt, shares);
    MulDivBound(tok, p.shares, p.tok, shares);
    Distribute(p.shares, shares, p.qnt);
    Distribute(p.qnt, qnt, p.shares);
    Distribute(p.shares, shares, p.tok);
    Distribute(p.tok, tok, p.shares);
    ProportionalNoDilution(p, p');
    NoDilutionKeepsPoolOk(p, p');
  }

  /** A withdrawal within the limits never underflows a reserve. */
  lemma RemoveNoDilution(p: Pool, shares: Amount, qnt: Amount, tok: Amount)
    requires PoolOk(p) && shares <= p.shares - MIN_LIQUIDITY
    requires qnt <= RemoveQnt(p, shares) && tok <= RemoveTok(p, shares)
    ensures qnt <= p.qnt && tok <= p.tok
    ensures var p' := p.(qnt := p.qnt - qnt, tok := p.tok - tok, shares := p.shares - shares);
            NoDilution(p, p') && PoolOk(p')
  {
    MulDivBound(shares, p.qnt, p.shares, qnt);
    MulDivBound(shares, p.tok, p.shares, tok);
    MulMono(shares, p.shares, p.qnt);
    MulMono(shares, p.shares, p.tok);
    MulCancel(qnt, p.qnt, p.shares);
    MulCancel(tok, p.tok, p.shares);
    var p' := p.(qnt := p.qnt - qnt, tok := p.tok - tok, shares := p.shares - shares);
    Distribute(p.shares, shares, p.qnt);
    Distribute(p.qnt, qnt, p.shares);
    Distribute(p.shares, shares, p.tok);
    Distribute(p.tok, tok, p.shares);
    ProportionalNoDilution(p, p');
    NoDilutionKeepsPoolOk(p, p');
  }

  lemma SwapNoDilution(p: Pool, p': Pool)
    requires PoolOk(p) && p'.shares == p.shares && p.qnt * p.tok <= p'.qnt * p'.tok
    ensures NoDilution(p, p') && PoolOk(p')
  {
    MulNonNegative(p.shares, p.shares);
    MulMono(p.qnt * p.tok, p'.qnt * p'.tok, p.shares * p.shares);
  }

  lemma BuyNoDilution(p: Pool, amtIn: Amount, amtOut: Amount, p': Pool)
    requires PoolOk(p) && amtOut < p.tok && amtOut <= Quote(amtIn, p.qnt, p.tok)
    requires p'.shares == p.shares && p'.qnt == p.qnt + amtIn && p'.tok == p.tok - amtOut
    ensures NoDilution(p, p') && PoolOk(p')
  {
    SwapProduct(amtIn, p.qnt, p.tok, amtOut);
    SwapNoDilution(p, p');
  }

  lemma SellNoDilution(p: Pool, amtIn: Amount, amtOut: Amount, p': Pool)
    requires PoolOk(p) && amtOut < p.qnt && amtOut <= Quote(amtIn, p.tok, p.qnt)
    requires p'.shares == p.shares && p'.tok == p.tok + amtIn && p'.qnt == p.qnt - amtOut
    ensures NoDilution(p, p') && PoolOk(p')
  {
    SwapProduct(amtIn, p.tok, p.qnt, amtOut);
    assert p.tok * p.qnt == p.qnt * p.tok && p'.tok * p'.qnt == p'.qnt * p'.tok;
    SwapNoDilution(p, p');
  }

  /** Non-dilution composes, so it holds across any mix of operations. */
  lemma NoDilutionTrans(p: Pool, q: Pool, r: Pool)
    requires PoolOk(p) && PoolOk(q) && NoDilution(p, q) && NoDilution(q, r)
    ensures NoDilution(p, r)
  {
    var kp, kq, kr := p.qnt * p.tok, q.qnt * q.tok, r.qnt * r.tok;
    var sp, sq, sr := p.shares * p.shares, q.shares * q.shares, r.shares * r.shares;
    ProductMono(1, q.shares, 1, q.shares);
    MulNonNegative(r.shares, r.shares);
    MulNonNegative(p.shares, p.shares);
    assert kp * sq <= kq * sp && kq * sr <= kr * sq;
    MulMono(kp * sq, kq * sp, sr);
    MulMono(kq * sr, kr * sq, sp);
    assert (kp * sr) * sq == (kp * sq) * sr;
    assert (kq * sp) * sr == (kq * sr) * sp;
    assert (kr * sq) * sp == (kr * sp) * sq;
    MulCancel(kp * sr, kr * sp, sq);
  }
}
