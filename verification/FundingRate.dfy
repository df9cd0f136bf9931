/** The funding rate `imbalance * base / total`, whose product is checked against the
    `i128` range and, when it overflows, rescued by halving numerator and denominator
    together. The TypeScript mirror computes the same quotient on unbounded integers. */
module FundingRates {
  import opened FixedPoint

  /** The quotient without overflow handling, as the bigint mirror computes it. */
  function BigintFundingRate(longOi: int, shortOi: int, base: int): int {
    var total := longOi + shortOi;
    if total == 0 then 0 else TDiv((longOi - shortOi) * base, total)
  }

  /** The state in which the halving loop stops: either the denominator has run out or
      the halved product fits. */
  function Halve(im: int, tot: int, base: int): (r: (int, int))
    decreases Abs(tot)
  {
    var im', tot' := TDiv(im, 2), TDiv(tot, 2);
    if tot' == 0 || FitsI128(im' * base) then (im', tot') else Halve(im', tot', base)
  }

  function FundingRate(longOi: int, shortOi: int, base: int): int {
    var total := longOi + shortOi;
    var imbalance := longOi - shortOi;
    if total == 0 then
      0
    else if FitsI128(imbalance * base) then
      TDiv(imbalance * base, total)
    else
      var (im, tot) := Halve(imbalance, total, base);
      if tot == 0 then 0 else TDiv(im * base, tot)
  }

  /** The contract's loop. It terminates for every input and computes `FundingRate`. */
  method ComputeFundingRate(longOi: int, shortOi: int, base: int) returns (rate: int)
    ensures rate == FundingRate(longOi, shortOi, base)
  {
    var total := longOi + shortOi;
    if total == 0 {
      return 0;
    }
    var imbalance := longOi - shortOi;
    if FitsI128(imbalance * base) {
      return TDiv(imbalance * base, total);
    }
    var im, tot := imbalance, total;
    while true
      invariant tot != 0
      invariant Halve(im, tot, base) == Halve(imbalance, total, base)
      decreases Abs(tot)
    {
      im := TDiv(im, 2);
      tot := TDiv(tot, 2);
      if tot == 0 {
        return 0;
      }
      if FitsI128(im * base) {
        return TDiv(im * base, tot);
      }
    }
  }

  // ----- What the halving keeps -----

  /** One halving keeps the imbalance inside the total and the pair within a factor
      `2 * scale` of where it started. */
  predicate HalvedBy(im0: int, tot0: int, im: int, tot: int, scale: nat) {
    && scale > 0
    && Abs(im) <= tot
    && tot * scale <= tot0 < tot * scale + scale
    && Abs(im) * scale <= Abs(im0) < Abs(im) * scale + scale
    && (im0 >= 0 ==> im >= 0) && (im0 <= 0 ==> im <= 0)
  }

  lemma HalfProduct(n: nat, scale: nat)
    ensures (n / 2) * (2 * scale) <= n * scale <= (n / 2) * (2 * scale) + scale
  {
    var h := n / 2;
    Regroup(h, 2, scale);
    Distribute(2 * h, n % 2, scale);
    assert n == 2 * h + n % 2;
    assert (n % 2) * scale == if n % 2 == 0 then 0 else scale;
  }

  lemma HalvesMagnitude(x: int)
    ensures Abs(TDiv(x, 2)) == Abs(x) / 2
    ensures x >= 0 ==> TDiv(x, 2) >= 0
    ensures x <= 0 ==> TDiv(x, 2) <= 0
  {
  }

  lemma HalvingStep(im0: int, tot0: int, im: int, tot: int, scale: nat)
    requires HalvedBy(im0, tot0, im, tot, scale)
    ensures HalvedBy(im0, tot0, TDiv(im, 2), TDiv(tot, 2), 2 * scale)
  {
    hide TDiv;
    HalvesMagnitude(im);
    HalvesMagnitude(tot);
    HalfProduct(Abs(im), scale);
    HalfProduct(tot, scale);
  }

  /** A product that overflows has an imbalance of at least two in magnitude. */
  lemma OverflowNeedsTwo(im: int, base: int)
    requires 0 <= base <= I128_MAX
    requires !FitsI128(im * base)
    ensures Abs(im) >= 2
  {
  }

  /** The loop never reaches its zero-denominator return: the halved total stays
      positive, bounds the halved imbalance, and both are the originals divided by one
      power of two. */
  lemma {:induction false} HalveStaysPositive(im0: int, tot0: int, im: int, tot: int, base: int, scale: nat)
    returns (scale': nat)
    requires 0 <= base <= I128_MAX
    requires HalvedBy(im0, tot0, im, tot, scale)
    requires !FitsI128(im * base)
    ensures var (im', tot') := Halve(im, tot, base);
            tot' > 0 && FitsI128(im' * base) && HalvedBy(im0, tot0, im', tot', scale')
    decreases tot
  {
    OverflowNeedsTwo(im, base);
    HalvingStep(im0, tot0, im, tot, scale);
    var im', tot' := TDiv(im, 2), TDiv(tot, 2);
    if FitsI128(im' * base) {
      scale' := 2 * scale;
    } else {
      scale' := HalveStaysPositive(im0, tot0, im', tot', base, 2 * scale);
    }
  }

  // ----- The rate itself -----

  /** A quotient whose numerator share is at most the whole stays within the base. */
  lemma RateWithinBase(im: int, tot: int, base: int)
    requires base >= 0 && tot > 0 && Abs(im) <= tot
    ensures Abs(TDiv(im * base, tot)) <= base
    ensures im >= 0 ==> TDiv(im * base, tot) >= 0
    ensures im <= 0 ==> TDiv(im * base, tot) <= 0
  {
    hide TDiv;
    MulLe(im, tot, base);
    MulLe(-tot, im, base);
    if im >= 0 {
      MulLe(0, im, base);
    } else {
      MulLe(im, 0, base);
    }
    var q := TDiv(im * base, tot);
    TDivBounds(im * base, tot);
    assert (-tot) * base == tot * (-base);
    MultiplesOrdered(q, base, tot);
    MultiplesOrdered(-base, q, tot);
  }

  /** With non-negative open interest the rate never exceeds the base in magnitude and
      points from the larger side to the smaller. */
  lemma FundingRateBounded(longOi: nat, shortOi: nat, base: int)
    requires 0 <= base <= I128_MAX
    ensures Abs(FundingRate(longOi, shortOi, base)) <= base
    ensures longOi >= shortOi ==> FundingRate(longOi, shortOi, base) >= 0
    ensures longOi <= shortOi ==> FundingRate(longOi, shortOi, base) <= 0
  {
    hide TDiv, Halve;
    var im, tot := longOi - shortOi, longOi + shortOi;
    if tot != 0 {
      if FitsI128(im * base) {
        RateWithinBase(im, tot, base);
      } else {
        var scale := HalveStaysPositive(im, tot, im, tot, base, 1);
        var (im', tot') := Halve(im, tot, base);
        RateWithinBase(im', tot', base);
      }
    }
  }

  /** The contract agrees with the bigint mirror whenever the product fits. */
  lemma FundingRateMatchesBigint(longOi: int, shortOi: int, base: int)
    requires FitsI128((longOi - shortOi) * base)
    ensures FundingRate(longOi, shortOi, base) == BigintFundingRate(longOi, shortOi, base)
  {
  }

  /** The bigint rate is the imbalance's share of the base, and nothing in an empty market. */
  lemma BigintFundingRateExact(longOi: nat, shortOi: nat, base: int)
    ensures longOi + shortOi > 0 ==>
              Truncates((longOi - shortOi) * base, longOi + shortOi, BigintFundingRate(longOi, shortOi, base))
    ensures longOi + shortOi == 0 ==> BigintFundingRate(longOi, shortOi, base) == 0
  {
    hide TDiv;
    if longOi + shortOi > 0 {
      TDivBounds((longOi - shortOi) * base, longOi + shortOi);
    }
  }

  /** Up to a base rate of 100% a year the product fits whenever the utilization product
      over the same open interest does, so the contract never gets to halve. */
  lemma FundingProductFits(longOi: nat, shortOi: nat, base: int)
    requires 0 <= base <= BPS && FitsI128((longOi + shortOi) * BPS)
    ensures FitsI128((longOi - shortOi) * base)
  {
    MulLe(base, BPS, longOi + shortOi);
    MulLe(longOi - shortOi, longOi + shortOi, base);
    MulLe(-(longOi + shortOi), longOi - shortOi, base);
  }

  /** Two quotients by different positive denominators whose cross difference is small
      differ by little. */
  lemma CrossDifference(m: nat, t: int, m0: nat, t0: int, base: nat, scale: nat)
    requires t > 0 && scale > 0 && m <= t
    requires t * scale <= t0 < t * scale + scale
    requires m * scale <= m0 < m * scale + scale
    ensures Abs(TDiv(m * base, t) - TDiv(m0 * base, t0)) <= base / t + 1
  {
    hide TDiv;
    var a, b, c := TDiv(m * base, t), TDiv(m0 * base, t0), base / t + 1;
    MulLe(0, m, base);
    MulLe(0, m0, base);
    MulLe(1, t, scale);
    TDivBounds(m * base, t);
    TDivBounds(m0 * base, t0);
    QuotientPlusOne(base, t);
    UpperQuotient(a, b, c, m, t, m0, t0, base, scale);
    LowerQuotient(a, b, c, m, t, m0, t0, base, scale);
  }

  lemma QuotientPlusOne(base: nat, t: int)
    requires t > 0
    ensures base < t * (base / t + 1)
  {
    EuclideanQuotient(base, t);
    Distribute(base / t, 1, t);
  }

  lemma UpperQuotient(a: int, b: int, c: int, m: nat, t: int, m0: nat, t0: int, base: nat, scale: nat)
    requires t > 0 && scale > 0 && t0 > 0
    requires t * scale <= t0 && m0 < m * scale + scale
    requires m * base < t * a + t && t0 * b <= m0 * base && base < t * c && b >= 0
    ensures b <= a + c
  {
    // scale * (t * b) <= t0 * b <= m0 * base <= scale * ((m + 1) * base), hence t * b <= (m + 1) * base.
    MulLe(t * scale, t0, b);
    Regroup(t, scale, b);
    MulLe(m0, m * scale + scale, base);
    Distribute(m * scale, scale, base);
    Regroup(m, scale, base);
    Distribute(m * base, base, scale);
    MultiplesOrdered(t * b, m * base + base, scale);
    Distribute(a, c, t);
    MultiplesOrdered(b, a + c, t);
  }

  lemma LowerQuotient(a: int, b: int, c: int, m: nat, t: int, m0: nat, t0: int, base: nat, scale: nat)
    requires t > 0 && scale > 0 && t0 > 0 && m <= t
    requires t0 < t * scale + scale && m * scale <= m0
    requires t * a <= m * base && m0 * base < t0 * b + t0 && base < t * c && b >= 0
    ensures a <= b + c
  {
    // scale * (m * base) <= m0 * base < t0 * (b + 1) <= scale * ((t + 1) * (b + 1)).
    MulLe(m * scale, m0, base);
    Regroup(m, scale, base);
    Distribute(b, 1, t0);
    MulLe(t0, t * scale + scale, b + 1);
    Distribute(t * scale, scale, b + 1);
    Regroup(t, scale, b + 1);
    Distribute(b, 1, t);
    var x, y := m * base, t * (b + 1) + (b + 1);
    Distribute(t * (b + 1), b + 1, scale);
    Distribute(x, 1, scale);
    MultiplesOrdered(x + 1, y, scale);
    // a <= base because m <= t, so b + 1 <= base < t * c unless a <= b already.
    MulLe(m, t, base);
    MultiplesOrdered(a, base, t);
    Distribute(b, c, t);
    if b < a {
      MultiplesOrdered(a, b + c, t);
    } else if c <= 0 {
      MulLe(c, 0, t);
    }
  }

  /** When the product overflows, the halved rate is within `base / total + 1` of the
      bigint rate, where `total` is the denominator the loop stopped at. */
  lemma FundingRateNearBigint(longOi: nat, shortOi: nat, base: int)
    requires 0 <= base <= I128_MAX
    requires !FitsI128((longOi - shortOi) * base)
    ensures var (im, tot) := Halve(longOi - shortOi, longOi + shortOi, base);
            && tot > 0
            && Abs(FundingRate(longOi, shortOi, base) - BigintFundingRate(longOi, shortOi, base)) <= base / tot + 1
  {
    hide TDiv, Halve;
    var im0, tot0 := longOi - shortOi, longOi + shortOi;
    OverflowNeedsTwo(im0, base);
    var scale := HalveStaysPositive(im0, tot0, im0, tot0, base, 1);
    var (im, tot) := Halve(im0, tot0, base);
    CrossDifference(Abs(im), tot, Abs(im0), tot0, base, scale);
    if im0 < 0 {
      assert im * base == -(Abs(im) * base) && im0 * base == -(Abs(im0) * base);
      TDivNegate(Abs(im) * base, tot);
      TDivNegate(Abs(im0) * base, tot0);
    }
  }

  /** The two do differ once the product overflows: the halving loses the low bits of a
      small open interest when the base rate is huge. */
  lemma HalvedRateDiffers()
    ensures !FitsI128((4 - 1) * 0x4000_0000_0000_0000_0000_0000_0000_0000)
    ensures FundingRate(4, 1, 0x4000_0000_0000_0000_0000_0000_0000_0000)
            < BigintFundingRate(4, 1, 0x4000_0000_0000_0000_0000_0000_0000_0000)
  {
  }
}
