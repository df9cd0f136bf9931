/** The fixed-point risk formulas of the position manager. Each function follows the
    branches of its source; the lemmas state what the formulas promise together. */
module RiskMath {
  import opened FixedPoint

  function UnrealizedPnl(size: int, entryPrice: int, markPrice: int, isLong: bool): int {
    if entryPrice == 0 || size == 0 then
      0
    else
      TDiv(size * (if isLong then markPrice - entryPrice else entryPrice - markPrice), entryPrice)
  }

  function BorrowFee(size: int, entryIndex: int, currentIndex: int): int {
    TDiv((currentIndex - entryIndex) * size, INDEX_PRECISION)
  }

  function FundingFee(size: int, entryIndex: int, currentIndex: int, isLong: bool): int {
    var accrued := TDiv((currentIndex - entryIndex) * size, INDEX_PRECISION);
    if isLong then -accrued else accrued
  }

  function BorrowRate(utilizationBps: int, baseRate: int, slope1: int, slope2: int, optimalBps: int): int {
    if utilizationBps <= optimalBps then
      baseRate + TDiv(utilizationBps * slope1, BPS)
    else
      baseRate + TDiv(optimalBps * slope1, BPS) + TDiv((utilizationBps - optimalBps) * slope2, BPS)
  }

  function AccumulateIndex(currentIndex: int, rateBps: int, elapsed: nat): int {
    currentIndex + TDiv(rateBps * INDEX_PRECISION * elapsed, BPS * SECONDS_PER_YEAR)
  }

  /** Size-weighted mean of a running average and a new quote. */
  function WeightedAverage(currentAvg: int, currentSize: int, newPrice: int, newSize: int): int {
    if currentSize + newSize == 0 then
      0
    else if currentSize == 0 then
      newPrice
    else
      TDiv(currentAvg * currentSize + newPrice * newSize, currentSize + newSize)
  }

  /** Running average left after `removedSize` quoted at `removedPrice` is taken out. */
  function AverageAfterRemoval(currentAvg: int, currentOi: int, removedPrice: int, removedSize: int): int {
    var remaining := currentOi - removedSize;
    var numerator := currentAvg * currentOi - removedPrice * removedSize;
    if remaining <= 0 || numerator <= 0 then 0 else TDiv(numerator, remaining)
  }

  function MarketUnrealizedPnl(longOi: int, longAvg: int, shortOi: int, shortAvg: int, markPrice: int): int {
    (if longOi > 0 && longAvg > 0 then TDiv(longOi * (markPrice - longAvg), longAvg) else 0) +
    (if shortOi > 0 && shortAvg > 0 then TDiv(shortOi * (shortAvg - markPrice), shortAvg) else 0)
  }

  function UtilizationBps(reserved: int, basis: int): int {
    if basis <= 0 then 0 else TDiv(reserved * BPS, basis)
  }

  function OpenFee(size: int, feeBps: int): int {
    if size <= 0 then 0 else TDiv(size * feeBps, BPS)
  }

  function LiquidationBounty(collateral: int, bountyBps: int): int {
    if collateral <= 0 then 0 else TDiv(collateral * bountyBps, BPS)
  }

  predicate IsTakeProfitTriggered(takeProfit: int, markPrice: int, isLong: bool) {
    takeProfit > 0 && (if isLong then markPrice >= takeProfit else markPrice <= takeProfit)
  }

  predicate IsStopLossTriggered(stopLoss: int, markPrice: int, isLong: bool) {
    stopLoss > 0 && (if isLong then markPrice <= stopLoss else markPrice >= stopLoss)
  }

  // ----- What each formula amounts to, said without dividing -----

  lemma PositionPnlExact(size: int, entryPrice: int, markPrice: int, isLong: bool)
    requires entryPrice > 0
    ensures var gain := if isLong then markPrice - entryPrice else entryPrice - markPrice;
            Truncates(size * gain, entryPrice, UnrealizedPnl(size, entryPrice, markPrice, isLong))
  {
    hide TDiv;
    var gain := if isLong then markPrice - entryPrice else entryPrice - markPrice;
    TruncatesIff(size * gain, entryPrice, TDiv(size * gain, entryPrice));
    if size == 0 {
      assert size * gain == 0;
    }
  }

  lemma BorrowFeeExact(size: int, entryIndex: int, currentIndex: int)
    ensures Truncates((currentIndex - entryIndex) * size, INDEX_PRECISION, BorrowFee(size, entryIndex, currentIndex))
  {
    hide TDiv;
    TDivBounds((currentIndex - entryIndex) * size, INDEX_PRECISION);
  }

  /** Funding is what the index moved against the position: up against a long, down against
      a short. */
  lemma FundingFeeExact(size: int, entryIndex: int, currentIndex: int, isLong: bool)
    ensures var against := (currentIndex - entryIndex) * size;
            Truncates(if isLong then -against else against, INDEX_PRECISION,
                      FundingFee(size, entryIndex, currentIndex, isLong))
  {
    hide TDiv;
    TDivBounds((currentIndex - entryIndex) * size, INDEX_PRECISION);
  }

  /** The accrual of an index is the rate's share of a year's whole index, for the seconds
      billed. */
  lemma AccumulateIndexExact(index: int, rateBps: int, elapsed: nat)
    ensures Truncates(rateBps * INDEX_PRECISION * elapsed, BPS * SECONDS_PER_YEAR,
                      AccumulateIndex(index, rateBps, elapsed) - index)
  {
    hide TDiv;
    TDivBounds(rateBps * INDEX_PRECISION * elapsed, BPS * SECONDS_PER_YEAR);
  }

  lemma NothingAccrues(rate: int)
    ensures Truncates(rate * INDEX_PRECISION * 0, BPS * SECONDS_PER_YEAR, 0)
  {
  }

  lemma WeightedAverageExact(avg: int, size: int, price: int, added: int)
    requires size >= 0 && added > 0
    ensures Truncates(avg * size + price * added, size + added, WeightedAverage(avg, size, price, added))
  {
    hide TDiv;
    if size == 0 {
      assert avg * size == 0;
      assert added * price == price * added;
    } else {
      TDivBounds(avg * size + price * added, size + added);
    }
  }

  lemma UtilizationExact(reserved: int, basis: int)
    ensures basis > 0 ==> Truncates(reserved * BPS, basis, UtilizationBps(reserved, basis))
    ensures basis <= 0 ==> UtilizationBps(reserved, basis) == 0
  {
    hide TDiv;
    if basis > 0 {
      TDivBounds(reserved * BPS, basis);
    }
  }

  lemma OpenFeeExact(size: int, feeBps: int)
    requires size > 0
    ensures Truncates(size * feeBps, BPS, OpenFee(size, feeBps))
  {
    hide TDiv;
    TDivBounds(size * feeBps, BPS);
  }

  lemma LiquidationBountyExact(collateral: int, bountyBps: int)
    requires collateral > 0
    ensures Truncates(collateral * bountyBps, BPS, LiquidationBounty(collateral, bountyBps))
  {
    hide TDiv;
    TDivBounds(collateral * bountyBps, BPS);
  }

  // ----- Borrow accrual -----

  /** The kink rate is non-negative and never falls as utilization rises, below the
      kink, above it and across it. */
  lemma BorrowRateMonotone(u: int, u': int, base: int, slope1: int, slope2: int, optimal: int)
    requires 0 <= u <= u'
    requires 0 <= base && 0 <= slope1 && 0 <= slope2 && 0 <= optimal
    ensures base <= BorrowRate(u, base, slope1, slope2, optimal) <= BorrowRate(u', base, slope1, slope2, optimal)
  {
    hide TDiv;
    TDivBounds(0, BPS);
    MulLe(0, u, slope1);
    TDivMonotone(0, u * slope1, BPS);
    if u' <= optimal {
      MulLe(u, u', slope1);
      TDivMonotone(u * slope1, u' * slope1, BPS);
    } else {
      MulLe(Max(u, optimal) - optimal, u' - optimal, slope2);
      MulLe(0, Max(u, optimal) - optimal, slope2);
      MulLe(Min(u, optimal), optimal, slope1);
      MulLe(0, Min(u, optimal), slope1);
      TDivMonotone(0, Min(u, optimal) * slope1, BPS);
      TDivMonotone(Min(u, optimal) * slope1, optimal * slope1, BPS);
      TDivMonotone(0, (Max(u, optimal) - optimal) * slope2, BPS);
      TDivMonotone((Max(u, optimal) - optimal) * slope2, (u' - optimal) * slope2, BPS);
    }
  }

  /** An index accrued at a higher rate is never lower, and a non-negative rate never
      lowers the index. */
  lemma IndexMonotoneInRate(index: int, rate: int, rate': int, elapsed: nat)
    requires rate <= rate'
    ensures AccumulateIndex(index, rate, elapsed) <= AccumulateIndex(index, rate', elapsed)
    ensures rate >= 0 ==> index <= AccumulateIndex(index, rate, elapsed)
  {
    hide TDiv;
    MulLe(rate, rate', INDEX_PRECISION);
    MulLe(rate * INDEX_PRECISION, rate' * INDEX_PRECISION, elapsed);
    TDivMonotone(rate * INDEX_PRECISION * elapsed, rate' * INDEX_PRECISION * elapsed, BPS * SECONDS_PER_YEAR);
    if rate >= 0 {
      MulLe(0, rate * INDEX_PRECISION, elapsed);
      TDivBounds(rate * INDEX_PRECISION * elapsed, BPS * SECONDS_PER_YEAR);
    }
  }

  lemma BorrowFeeMonotone(size: int, entry: int, index: int, index': int)
    requires size >= 0 && index <= index'
    ensures BorrowFee(size, entry, index) <= BorrowFee(size, entry, index')
    ensures entry <= index ==> 0 <= BorrowFee(size, entry, index)
  {
    hide TDiv;
    MulLe(index - entry, index' - entry, size);
    TDivMonotone((index - entry) * size, (index' - entry) * size, INDEX_PRECISION);
    if entry <= index {
      MulLe(0, index - entry, size);
      TDivBounds((index - entry) * size, INDEX_PRECISION);
    }
  }

  lemma UtilizationMonotone(reserved: int, basis: int, basis': int)
    requires reserved >= 0 && basis <= basis'
    requires basis > 0 || reserved == 0 || basis' <= 0
    ensures 0 <= UtilizationBps(reserved, basis') <= UtilizationBps(reserved, basis)
  {
    hide TDiv;
    if basis > 0 {
      TDivBounds(reserved * BPS, basis');
      TDivAntitoneDivisor(reserved * BPS, basis, basis');
    } else if basis' > 0 {
      TDivBounds(0, basis');
      MultiplesOrdered(TDiv(0, basis'), 0, basis');
    }
  }

  /** The rate is the base plus the area under the two slopes, each part rounded down on its
      own. */
  lemma BorrowRateExact(u: int, base: int, slope1: int, slope2: int, optimal: int)
    requires 0 <= u && 0 <= slope1 && 0 <= slope2 && 0 <= optimal
    ensures var area := Min(u, optimal) * slope1 + Max(0, u - optimal) * slope2;
            area - 2 * BPS < BPS * (BorrowRate(u, base, slope1, slope2, optimal) - base) <= area
    ensures exists low ::
              && Truncates(Min(u, optimal) * slope1, BPS, low)
              && Truncates(Max(0, u - optimal) * slope2, BPS,
                           BorrowRate(u, base, slope1, slope2, optimal) - base - low)
  {
    hide TDiv;
    var low, high := TDiv(Min(u, optimal) * slope1, BPS), TDiv(Max(0, u - optimal) * slope2, BPS);
    TruncatesIff(Min(u, optimal) * slope1, BPS, low);
    TruncatesIff(Max(0, u - optimal) * slope2, BPS, high);
    MulLe(0, Min(u, optimal), slope1);
    MulLe(0, Max(0, u - optimal), slope2);
    TDivBounds(Min(u, optimal) * slope1, BPS);
    TDivBounds(Max(0, u - optimal) * slope2, BPS);
  }

  // ----- Unrealized PnL -----

  /** What a long gains a short at the same entry loses, and either is the price move's
      share of the size up to less than one unit. */
  lemma PnlTracksMove(size: int, entry: int, mark: int)
    requires size >= 0 && entry > 0
    ensures UnrealizedPnl(size, entry, mark, true) == -UnrealizedPnl(size, entry, mark, false)
    ensures Abs(entry * UnrealizedPnl(size, entry, mark, true) - size * (mark - entry)) < entry
    ensures mark >= entry ==> UnrealizedPnl(size, entry, mark, true) >= 0
    ensures mark <= entry ==> UnrealizedPnl(size, entry, mark, true) <= 0
  {
    hide TDiv;
    var move := size * (mark - entry);
    assert size * (entry - mark) == -move;
    TDivNegate(move, entry);
    TDivBounds(move, entry);
    if mark >= entry {
      MulLe(0, mark - entry, size);
    } else {
      MulLe(mark - entry, 0, size);
    }
  }

  /** A market's PnL is that of one long and one short position at the average prices. */
  lemma MarketPnlIsTwoPositions(longOi: nat, longAvg: nat, shortOi: nat, shortAvg: nat, mark: int)
    ensures MarketUnrealizedPnl(longOi, longAvg, shortOi, shortAvg, mark)
            == UnrealizedPnl(longOi, longAvg, mark, true) + UnrealizedPnl(shortOi, shortAvg, mark, false)
  {
    hide TDiv;
  }

  // ----- Weighted averages -----

  /** With non-negative quotes the average keeps the notional up to less than one unit
      per unit of size, rounding down, and is exact on an empty side. */
  lemma WeightedAverageNotional(avg: int, size: int, price: int, added: int)
    requires avg >= 0 && size >= 0 && price >= 0 && added > 0
    ensures var avg' := WeightedAverage(avg, size, price, added);
            && avg' >= 0
            && avg' * (size + added) <= avg * size + price * added
            && avg * size + price * added <= avg' * (size + added) + (size + added - 1)
            && (size == 0 ==> avg' * (size + added) == price * added)
  {
    hide TDiv;
    MulLe(0, avg, size);
    MulLe(0, price, added);
    if size != 0 {
      TDivBounds(avg * size + price * added, size + added);
    }
  }

  /** The average of two quotes lies between them. */
  lemma WeightedAverageBetween(avg: int, size: int, price: int, added: int)
    requires avg >= 0 && size >= 0 && price >= 0 && added > 0
    ensures var avg' := WeightedAverage(avg, size, price, added);
            && avg' <= Max(avg, price)
            && (size > 0 ==> Min(avg, price) <= avg')
  {
    hide TDiv;
    if size > 0 {
      var lo, hi, total := Min(avg, price), Max(avg, price), size + added;
      var avg' := WeightedAverage(avg, size, price, added);
      WeightedAverageNotional(avg, size, price, added);
      MulLe(lo, avg, size);
      MulLe(lo, price, added);
      MulLe(avg, hi, size);
      MulLe(price, hi, added);
      assert lo * size + lo * added == total * lo && hi * size + hi * added == total * hi;
      assert avg' * total == total * avg';
      MultiplesOrdered(lo, avg', total);
      MultiplesOrdered(avg', hi, total);
    }
  }

  /** What is left of a notional after a removal: clamped to zero, or within one unit per
      remaining unit of size. */
  lemma AverageAfterRemovalNotional(avg: int, oi: int, price: int, removed: int)
    requires 0 < removed <= oi
    ensures var avg' := AverageAfterRemoval(avg, oi, price, removed);
            var rest, left := avg * oi - price * removed, oi - removed;
            && avg' >= 0
            && (left == 0 || rest <= 0 ==> avg' == 0)
            && (left > 0 && rest > 0 ==> avg' * left <= rest <= avg' * left + (left - 1))
  {
    hide TDiv;
    if oi - removed > 0 && avg * oi - price * removed > 0 {
      TDivBounds(avg * oi - price * removed, oi - removed);
    }
  }

  /** Numbers less than `d` apart have index shares at most `d / INDEX_PRECISION + 1` apart. */
  lemma SharesNear(a: int, b: int, d: nat)
    requires Abs(a - b) < d
    ensures Abs(TDiv(a, INDEX_PRECISION) - TDiv(b, INDEX_PRECISION)) <= d / INDEX_PRECISION + 1
  {
    hide TDiv;
    TDivBounds(a, INDEX_PRECISION);
    TDivBounds(b, INDEX_PRECISION);
  }

  /** Adding to a position never forgives borrow that has already accrued, and raises it
      by at most the rounding of the entry index. */
  lemma AddingKeepsAccruedBorrow(entry: int, index: int, size: int, added: int)
    requires 0 <= entry <= index && size > 0 && added > 0
    ensures var entry' := WeightedAverage(entry, size, index, added);
            && entry <= entry' <= index
            && BorrowFee(size, entry, index) <= BorrowFee(size + added, entry', index)
            && BorrowFee(size + added, entry', index)
               <= BorrowFee(size, entry, index) + (size + added) / INDEX_PRECISION + 1
  {
    hide TDiv;
    var total := size + added;
    var entry' := WeightedAverage(entry, size, index, added);
    WeightedAverageNotional(entry, size, index, added);
    WeightedAverageBetween(entry, size, index, added);
    var before, after := (index - entry) * size, (index - entry') * total;
    assert after == index * total - entry' * total;
    assert before == index * total - (entry * size + index * added) by {
      assert index * total == index * size + index * added;
    }
    assert before <= after < before + total;
    TDivMonotone(before, after, INDEX_PRECISION);
    SharesNear(after, before, total);
  }

  /** Adding to a position moves its accrued funding by no more than the rounding of the
      entry index, whatever the sign of the indices. */
  lemma AddingKeepsAccruedFunding(entry: int, index: int, size: int, added: int, isLong: bool)
    requires size > 0 && added > 0
    ensures var entry' := WeightedAverage(entry, size, index, added);
            Abs(FundingFee(size + added, entry', index, isLong) - FundingFee(size, entry, index, isLong))
            <= (size + added) / INDEX_PRECISION + 1
  {
    hide TDiv;
    var total, notional := size + added, entry * size + index * added;
    var entry' := WeightedAverage(entry, size, index, added);
    TDivBounds(notional, total);
    Distribute(size, added, index);
    Distribute(index, entry', total);
    Distribute(index, entry, size);
    SharesNear((index - entry') * total, (index - entry) * size, total);
  }
}
