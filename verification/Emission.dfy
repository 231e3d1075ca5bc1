/** The emission curve: `subsidy_after`, and the checkpointed `issued_through`
    (src/consensus/limits.h:61-64, src/consensus/params.cpp:23-53). */
module Emission {
  import opened Types

  const EMISSION_CURVE: int := 75_000_000 * 10_000_000_000
  const TAIL_SUBSIDY: int := 35_000_000_000
  const STEP: int := 4096

  /** No more blocks than this pay above the tail. */
  const LAST_CURVE_BLOCK: int := 13_100_000

  function SubsidyAfter(issued: nat): (s: nat)
    ensures TAIL_SUBSIDY <= s
  {
    var r := if issued >= EMISSION_CURVE then 0 else (EMISSION_CURVE - issued) / 0x80_0000;
    if r < TAIL_SUBSIDY then TAIL_SUBSIDY else r
  }

  /** The one-step recurrence: units issued by the blocks up to `height`; genesis pays nothing. */
  function Issued(height: nat): nat {
    if height == 0 then 0 else Issued(height - 1) + SubsidyAfter(Issued(height - 1))
  }

  function BlockSubsidy(height: nat): nat {
    if height == 0 then 0 else SubsidyAfter(Issued(height - 1))
  }

  /** `block_subsidy`: the curve at the 64-bit total. */
  function Subsidy64(height: nat): (s: Amount) {
    if height == 0 then 0
    else
      SubsidyFits(Issued(height - 1) % TWO64);
      SubsidyAfter(Issued(height - 1) % TWO64)
  }

  lemma SubsidyFits(issued: nat)
    ensures SubsidyAfter(issued) <= EMISSION_CURVE
  {}

  // ---------------------------------------------------------------- the curve

  lemma SubsidyDecays(a: nat, b: nat)
    requires a <= b
    ensures SubsidyAfter(b) <= SubsidyAfter(a)
  {}

  lemma {:induction false} IssuedMonotone(g: nat, h: nat)
    requires g <= h
    ensures Issued(g) + (h - g) * TAIL_SUBSIDY <= Issued(h)
    decreases h
  {
    if g < h { IssuedMonotone(g, h - 1); }
  }

  /** After block 1 the reward never rises. */
  lemma SubsidyNeverRises(g: nat, h: nat)
    requires 1 <= g <= h
    ensures BlockSubsidy(h) <= BlockSubsidy(g)
  {
    IssuedMonotone(g - 1, h - 1);
    SubsidyDecays(Issued(g - 1), Issued(h - 1));
  }

  /** The tail is reached, by a fixed height. */
  lemma TailReached()
    ensures BlockSubsidy(LAST_CURVE_BLOCK) == TAIL_SUBSIDY
  {
    IssuedMonotone(0, LAST_CURVE_BLOCK - 1);
  }

  /** Once paid, the tail is paid for ever. */
  lemma TailForever(t: nat, h: nat)
    requires 1 <= t <= h && BlockSubsidy(t) == TAIL_SUBSIDY
    ensures BlockSubsidy(h) == TAIL_SUBSIDY
  {
    SubsidyNeverRises(t, h);
  }

  /** From the first tail block on, the total is linear. */
  lemma {:induction false} TailIsLinear(t: nat, h: nat)
    requires 1 <= t && t - 1 <= h && BlockSubsidy(t) == TAIL_SUBSIDY
    ensures Issued(h) == Issued(t - 1) + (h - t + 1) * TAIL_SUBSIDY
    decreases h
  {
    if h >= t {
      TailIsLinear(t, h - 1);
      TailForever(t, h);
    }
  }

  /** Everything issued before and within the curve fits 64 bits with room for a checkpoint. */
  lemma CurveFits(h: nat)
    requires h <= LAST_CURVE_BLOCK + 2 * STEP
    ensures Issued(h) < TWO64
  {
    IssuedBound(h);
  }

  lemma {:induction false} IssuedBound(h: nat)
    ensures Issued(h) <= EMISSION_CURVE + h * TAIL_SUBSIDY
  {
    if h > 0 { IssuedBound(h - 1); }
  }

  /** Above the tail the reward is the curve's remainder shifted right by 23, exactly; the tail is paid exactly once
      that shift would not exceed it; and the rewards add up to the total. */
  lemma SubsidyExact(h: nat)
    requires h >= 1
    ensures BlockSubsidy(h) > TAIL_SUBSIDY ==>
              BlockSubsidy(h) * 0x80_0000 <= EMISSION_CURVE - Issued(h - 1) < (BlockSubsidy(h) + 1) * 0x80_0000
    ensures BlockSubsidy(h) == TAIL_SUBSIDY <==> EMISSION_CURVE < Issued(h - 1) + (TAIL_SUBSIDY + 1) * 0x80_0000
    ensures BlockSubsidy(h) >= TAIL_SUBSIDY && Issued(0) == 0 && Issued(h) == Issued(h - 1) + BlockSubsidy(h)
  {}

  /** So block 1 pays 8.94 QNT and the first tail block comes when 29.36 million QNT of the curve are left. */
  lemma FirstSubsidy()
    ensures BlockSubsidy(0) == 0 && BlockSubsidy(1) == 89_406_967_163
  {
    assert Issued(0) == 0;
  }

  // ---------------------------------------------------------------- the cache

  /** The globals `g_issued_at`, `g_tail_height` and `g_tail_base`. */
  class IssuedCache {
    var issuedAt: seq<Amount>
    var tailHeight: nat
    var tailBase: Amount

    ghost predicate Valid()
      reads this
    {
      && (forall k :: 0 <= k < |issuedAt| ==> issuedAt[k] == Issued(k * STEP))
      && |issuedAt| * STEP <= LAST_CURVE_BLOCK + 2 * STEP
      && (tailHeight == 0 ==>
            forall h :: 1 <= h <= (|issuedAt| - 1) * STEP ==> BlockSubsidy(h) != TAIL_SUBSIDY)
      && (tailHeight != 0 ==>
            && 1 <= tailHeight <= (|issuedAt| - 1) * STEP
            && BlockSubsidy(tailHeight) == TAIL_SUBSIDY
            && tailBase == Issued(tailHeight - 1))
    }

    constructor ()
      ensures Valid()
    {
      issuedAt, tailHeight, tailBase := [], 0, 0;
    }

    /** One more checkpoint, looking for the first tail block on the way. */
    method Extend()
      requires Valid() && |issuedAt| > 0 && tailHeight == 0
      modifies this
      ensures Valid() && |issuedAt| == old(|issuedAt|) + 1
    {
      hide SubsidyAfter;
      var h := (|issuedAt| - 1) * STEP;
      assert h <= LAST_CURVE_BLOCK by {
        if h > LAST_CURVE_BLOCK { TailReached(); }
      }
      var iss: Amount := issuedAt[|issuedAt| - 1];
      var i := 1;
      while i <= STEP
        invariant 1 <= i <= STEP + 1
        invariant issuedAt == old(issuedAt)
        invariant iss == Issued(h + i - 1)
        invariant tailHeight == 0 ==> forall g :: h < g < h + i ==> BlockSubsidy(g) != TAIL_SUBSIDY
        invariant tailHeight != 0 ==>
                    && h < tailHeight < h + i
                    && BlockSubsidy(tailHeight) == TAIL_SUBSIDY
                    && tailBase == Issued(tailHeight - 1)
      {
        var s := SubsidyAfter(iss);
        assert BlockSubsidy(h + i) == s && Issued(h + i) == iss + s;
        if s == TAIL_SUBSIDY && tailHeight == 0 { tailHeight, tailBase := h + i, iss; }
        CurveFits(h + i);
        iss := iss + s;
        i := i + 1;
      }
      issuedAt := issuedAt + [iss];
    }

    /** The linear tail, in 64-bit arithmetic. */
    method FromTail(height: Amount) returns (r: Amount)
      requires Valid() && 1 <= tailHeight <= height
      ensures r == Issued(height) % TWO64
    {
      TailIsLinear(tailHeight, height);
      r := (tailBase + (height - tailHeight + 1) * TAIL_SUBSIDY) % TWO64;
    }

    /** At most one checkpoint distance of stepping. */
    method FromCheckpoint(height: Amount) returns (r: Amount)
      requires Valid() && |issuedAt| > 0 && height <= (|issuedAt| - 1) * STEP
      ensures r == Issued(height)
    {
      var k := height / STEP;
      r := issuedAt[k];
      var h := k * STEP + 1;
      while h <= height
        invariant k * STEP + 1 <= h <= height + 1
        invariant r == Issued(h - 1)
      {
        CurveFits(h);
        assert Issued(h) == r + SubsidyAfter(r);
        r := r + SubsidyAfter(r);
        h := h + 1;
      }
    }

    /** The cached lookup is the recurrence, for every height and in any order of calls;
        past 64 bits it is the recurrence modulo 2^64. */
    method IssuedThrough(height: Amount) returns (r: Amount)
      requires Valid()
      modifies this
      ensures Valid()
      ensures r == Issued(height) % TWO64
    {
      if issuedAt == [] { issuedAt := [0]; }
      if tailHeight != 0 && height >= tailHeight {
        r := FromTail(height);
        return;
      }
      while (|issuedAt| - 1) * STEP < height && tailHeight == 0
        invariant Valid() && |issuedAt| > 0
        decreases LAST_CURVE_BLOCK + 2 * STEP - |issuedAt| * STEP
      {
        Extend();
      }
      if tailHeight != 0 && height >= tailHeight {
        r := FromTail(height);
        return;
      }
      r := FromCheckpoint(height);
      CurveFits(height);
    }

    /** The reward read through the cache: the curve's own reward exactly while the earlier total fits 64 bits. */
    method Subsidy(height: Amount) returns (r: Amount)
      requires Valid()
      modifies this
      ensures Valid() && r == Subsidy64(height)
      ensures height == 0 || Issued(height - 1) < TWO64 ==> r == BlockSubsidy(height)
      ensures height > 0 && Issued(height - 1) < TWO64 && r > TAIL_SUBSIDY ==>
                r * 0x80_0000 <= EMISSION_CURVE - Issued(height - 1) < (r + 1) * 0x80_0000
      ensures height > 0 && Issued(height - 1) < TWO64 ==>
                (r == TAIL_SUBSIDY <==> EMISSION_CURVE < Issued(height - 1) + (TAIL_SUBSIDY + 1) * 0x80_0000)
    {
      if height == 0 { return 0; }
      SubsidyExact(height);
      var issued := IssuedThrough(height - 1);
      SubsidyFits(issued);
      r := SubsidyAfter(issued);
    }
  }
}
