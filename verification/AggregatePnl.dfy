/** A market's PnL is computed from one size-weighted mean entry price per side, not from
    its positions. In exact arithmetic this misstates the sum of the positions' PnLs in a
    fixed direction. */
module AggregatePnl {

  /** A position's entry price and size. */
  datatype Leg = Leg(entry: real, size: real)

  predicate Sound(legs: seq<Leg>) {
    forall i :: 0 <= i < |legs| ==> legs[i].entry > 0.0 && legs[i].size > 0.0
  }

  function TotalSize(legs: seq<Leg>): real {
    if legs == [] then 0.0 else legs[0].size + TotalSize(legs[1..])
  }

  function Notional(leg: Leg): real {
    leg.entry * leg.size
  }

  function TotalNotional(legs: seq<Leg>): real {
    if legs == [] then 0.0 else Notional(legs[0]) + TotalNotional(legs[1..])
  }

  /** The PnL of `size` entered at `entry`: a long gains with the mark, a short loses. */
  function Pnl(size: real, entry: real, mark: real, isLong: bool): real
    requires entry > 0.0
  {
    if isLong then size * (mark - entry) / entry else size * (entry - mark) / entry
  }

  function IndividualPnl(legs: seq<Leg>, mark: real, isLong: bool): real
    requires Sound(legs)
  {
    if legs == [] then 0.0
    else Pnl(legs[0].size, legs[0].entry, mark, isLong) + IndividualPnl(legs[1..], mark, isLong)
  }

  function MeanEntry(legs: seq<Leg>): real
    requires TotalSize(legs) > 0.0
  {
    TotalNotional(legs) / TotalSize(legs)
  }

  // ----- The gap -----

  /** How far one leg's entry price lies from `c`, weighted: never negative, and zero only
      at `c` itself. */
  function Spread(leg: Leg, c: real): real
    requires leg.entry > 0.0 && c > 0.0
  {
    leg.size * Product(Distance(c, leg.entry), Distance(c, leg.entry)) / (c * leg.entry)
  }

  function Distance(a: real, b: real): real {
    if a < b then b - a else a - b
  }

  function Product(a: real, b: real): real {
    a * b
  }

  function TotalSpread(legs: seq<Leg>, c: real): real
    requires Sound(legs) && c > 0.0
  {
    if legs == [] then 0.0 else Spread(legs[0], c) + TotalSpread(legs[1..], c)
  }

  function Ratio(leg: Leg): real
    requires leg.entry > 0.0
  {
    leg.size / leg.entry
  }

  /** Total size over entry price: the mark's coefficient in the sum of the PnLs. */
  function TotalRatio(legs: seq<Leg>): real
    requires Sound(legs)
  {
    if legs == [] then 0.0 else Ratio(legs[0]) + TotalRatio(legs[1..])
  }

  lemma ProductPositive(a: real, b: real)
    requires a > 0.0 && b > 0.0
    ensures a * b > 0.0
  {
  }

  lemma QuotientPositive(a: real, b: real)
    requires a > 0.0 && b > 0.0
    ensures a / b > 0.0
  {
  }

  lemma QuotientTimes(a: real, b: real)
    requires b > 0.0
    ensures b * (a / b) == a
    ensures (a / b) * b == a
  {
  }

  /** The quotient is determined by the product. */
  lemma QuotientIs(a: real, b: real, q: real)
    requires b > 0.0 && b * q == a
    ensures a / b == q
  {
  }

  lemma Distribute(a: real, b: real, c: real)
    ensures c * (a + b) == c * a + c * b
    ensures c * (a - b) == c * a - c * b
  {
  }

  lemma SquareSign(d: real)
    requires d >= 0.0
    ensures Product(d, d) >= 0.0
    ensures Product(d, d) == 0.0 <==> d == 0.0
  {
    hide Product;
    if d > 0.0 {
      ProductSign(d, d);
    } else {
      ProductOfZero(d);
    }
  }

  lemma ProductSign(a: real, b: real)
    requires a > 0.0 && b > 0.0
    ensures Product(a, b) > 0.0
  {
  }

  lemma ProductOfZero(a: real)
    ensures Product(0.0, a) == 0.0
  {
  }

  lemma ScaledSign(size: real, square: real, divisor: real)
    requires size > 0.0 && square >= 0.0 && divisor > 0.0
    ensures size * square / divisor >= 0.0
    ensures size * square / divisor == 0.0 <==> square == 0.0
  {
    if square > 0.0 {
      ProductPositive(size, square);
      QuotientPositive(size * square, divisor);
    }
  }

  lemma SpreadSign(leg: Leg, c: real)
    requires leg.entry > 0.0 && leg.size > 0.0 && c > 0.0
    ensures Spread(leg, c) >= 0.0
    ensures Spread(leg, c) == 0.0 <==> leg.entry == c
  {
    hide Product;
    ProductPositive(c, leg.entry);
    SquareSign(Distance(c, leg.entry));
    ScaledSign(leg.size, Product(Distance(c, leg.entry), Distance(c, leg.entry)), c * leg.entry);
  }

  lemma {:induction false} TotalSpreadSign(legs: seq<Leg>, c: real)
    requires Sound(legs) && c > 0.0
    ensures TotalSpread(legs, c) >= 0.0
    ensures TotalSpread(legs, c) == 0.0 <==> forall i :: 0 <= i < |legs| ==> legs[i].entry == c
  {
    hide Spread;
    if legs != [] {
      SpreadSign(legs[0], c);
      TotalSpreadSign(legs[1..], c);
      if TotalSpread(legs, c) == 0.0 {
        forall i | 0 <= i < |legs|
          ensures legs[i].entry == c
        {
          if i > 0 {
            assert legs[1..][i - 1].entry == c;
          }
        }
      }
    }
  }

  lemma PnlIs(size: real, entry: real, mark: real)
    requires entry > 0.0
    ensures Pnl(size, entry, mark, true) == mark * (size / entry) - size
    ensures Pnl(size, entry, mark, false) == size - mark * (size / entry)
  {
    var q := size / entry;
    QuotientTimes(size, entry);
    assert entry * (mark * q) == mark * size;
    Distribute(mark * q, size, entry);
    Distribute(size, mark * q, entry);
    QuotientIs(size * (mark - entry), entry, mark * q - size);
    QuotientIs(size * (entry - mark), entry, size - mark * q);
  }

  lemma LegPnl(leg: Leg, mark: real)
    requires leg.entry > 0.0
    ensures Pnl(leg.size, leg.entry, mark, true) == mark * Ratio(leg) - leg.size
    ensures Pnl(leg.size, leg.entry, mark, false) == leg.size - mark * Ratio(leg)
  {
    PnlIs(leg.size, leg.entry, mark);
  }

  lemma {:induction false} PnlsAre(legs: seq<Leg>, mark: real)
    requires Sound(legs)
    ensures IndividualPnl(legs, mark, true) == mark * TotalRatio(legs) - TotalSize(legs)
    ensures IndividualPnl(legs, mark, false) == TotalSize(legs) - mark * TotalRatio(legs)
  {
    hide Pnl, Ratio;
    if legs != [] {
      PnlsAre(legs[1..], mark);
      LegPnl(legs[0], mark);
      Distribute(Ratio(legs[0]), TotalRatio(legs[1..]), mark);
    }
  }

  lemma SpreadIs(leg: Leg, c: real)
    requires leg.entry > 0.0 && c > 0.0
    ensures Spread(leg, c) == c * Ratio(leg) - 2.0 * leg.size + Notional(leg) / c
  {
    hide Product, Distance;
    var s, e := leg.size, leg.entry;
    ProductPositive(c, e);
    var q, r := s / e, s / c;
    QuotientTimes(s, e);
    QuotientTimes(s, c);
    QuotientIs(e * s, c, e * r) by {
      assert c * (e * r) == e * (c * r);
    }
    SquareOfDistance(c, e);
    QuotientIs(s * Product(Distance(c, e), Distance(c, e)), c * e, c * q - 2.0 * s + e * r) by {
      ExpandedSquare(s, e, c, q, r);
    }
  }

  lemma SquareOfDistance(c: real, e: real)
    ensures Product(Distance(c, e), Distance(c, e)) == c * c - 2.0 * (c * e) + e * e
  {
    assert (c - e) * (c - e) == c * c - 2.0 * (c * e) + e * e;
    assert (e - c) * (e - c) == c * c - 2.0 * (c * e) + e * e;
  }

  lemma ExpandedSquare(s: real, e: real, c: real, q: real, r: real)
    requires e * q == s && c * r == s
    ensures c * e * (c * q - 2.0 * s + e * r) == s * (c * c - 2.0 * (c * e) + e * e)
  {
    assert c * e * (c * q) == c * c * (e * q);
    assert c * e * (e * r) == e * e * (c * r);
    assert c * e * (c * q - 2.0 * s + e * r) == c * c * s - 2.0 * (c * e * s) + e * e * s;
    assert s * (c * c - 2.0 * (c * e) + e * e) == c * c * s - 2.0 * (c * e * s) + e * e * s;
  }

  lemma {:induction false} TotalSpreadIs(legs: seq<Leg>, c: real)
    requires Sound(legs) && c > 0.0
    ensures TotalSpread(legs, c) == c * TotalRatio(legs) - 2.0 * TotalSize(legs) + TotalNotional(legs) / c
  {
    hide Spread, Ratio, Notional;
    if legs != [] {
      TotalSpreadIs(legs[1..], c);
      SpreadIs(legs[0], c);
      Distribute(Ratio(legs[0]), TotalRatio(legs[1..]), c);
      QuotientSum(Notional(legs[0]), TotalNotional(legs[1..]), c);
    }
  }

  lemma QuotientSum(a: real, b: real, c: real)
    requires c > 0.0
    ensures (a + b) / c == a / c + b / c
  {
  }

  lemma {:induction false} TotalsPositive(legs: seq<Leg>)
    requires Sound(legs) && legs != []
    ensures TotalSize(legs) > 0.0 && TotalNotional(legs) > 0.0
  {
    ProductPositive(legs[0].entry, legs[0].size);
    if |legs| > 1 {
      TotalsPositive(legs[1..]);
    }
  }

  lemma MeanPositive(legs: seq<Leg>)
    requires Sound(legs) && legs != []
    ensures TotalSize(legs) > 0.0 && MeanEntry(legs) > 0.0
    ensures TotalNotional(legs) / MeanEntry(legs) == TotalSize(legs)
  {
    TotalsPositive(legs);
    QuotientPositive(TotalNotional(legs), TotalSize(legs));
    QuotientTimes(TotalNotional(legs), TotalSize(legs));
    QuotientIs(TotalNotional(legs), MeanEntry(legs), TotalSize(legs));
  }

  /** The harmonic part of the argument: size over the mean entry never exceeds the sum of
      size over entry, with equality exactly when all entries coincide. */
  lemma RatioAboveMean(legs: seq<Leg>)
    requires Sound(legs) && legs != []
    ensures TotalSize(legs) > 0.0 && MeanEntry(legs) > 0.0
    ensures TotalSize(legs) / MeanEntry(legs) <= TotalRatio(legs)
    ensures TotalSize(legs) / MeanEntry(legs) == TotalRatio(legs)
            <==> forall i :: 0 <= i < |legs| ==> legs[i].entry == legs[0].entry
  {
    hide TotalSize, TotalRatio, TotalNotional, TotalSpread, MeanEntry;
    MeanPositive(legs);
    var mean, size, ratio := MeanEntry(legs), TotalSize(legs), TotalRatio(legs);
    TotalSpreadIs(legs, mean);
    TotalSpreadSign(legs, mean);
    CompareRatios(size, ratio, mean, TotalSpread(legs, mean));
    EqualEntries(legs);
  }

  lemma CompareRatios(size: real, ratio: real, mean: real, spread: real)
    requires mean > 0.0 && spread >= 0.0 && spread == mean * ratio - size
    ensures size / mean <= ratio
    ensures size / mean == ratio <==> spread == 0.0
  {
    var least := size / mean;
    QuotientTimes(size, mean);
    Distribute(ratio, least, mean);
    if ratio < least {
      ProductPositive(mean, least - ratio);
      Distribute(least, ratio, mean);
    } else if least < ratio {
      ProductPositive(mean, ratio - least);
    }
  }

  lemma EqualEntries(legs: seq<Leg>)
    requires legs != [] && TotalSize(legs) > 0.0
    ensures (forall i :: 0 <= i < |legs| ==> legs[i].entry == MeanEntry(legs))
            <==> (forall i :: 0 <= i < |legs| ==> legs[i].entry == legs[0].entry)
  {
    hide TotalSize, TotalNotional;
    if forall i :: 0 <= i < |legs| ==> legs[i].entry == legs[0].entry {
      AllEqualMean(legs, legs[0].entry);
      QuotientIs(TotalNotional(legs), TotalSize(legs), legs[0].entry);
    }
  }

  lemma {:induction false} AllEqualMean(legs: seq<Leg>, entry: real)
    requires forall i :: 0 <= i < |legs| ==> legs[i].entry == entry
    ensures TotalNotional(legs) == entry * TotalSize(legs)
  {
    if legs != [] {
      AllEqualMean(legs[1..], entry);
      Distribute(legs[0].size, TotalSize(legs[1..]), entry);
    }
  }

  /** PnL from the mean entry is at most the sum of the positions' PnLs for longs and at
      least that sum for shorts, and equals it exactly when all entries coincide. */
  lemma MeanEntryMisstates(legs: seq<Leg>, mark: real)
    requires Sound(legs) && legs != [] && mark > 0.0
    ensures TotalSize(legs) > 0.0 && MeanEntry(legs) > 0.0
    ensures var size, mean := TotalSize(legs), MeanEntry(legs);
            var coincide := forall i :: 0 <= i < |legs| ==> legs[i].entry == legs[0].entry;
            && Pnl(size, mean, mark, true) <= IndividualPnl(legs, mark, true)
            && Pnl(size, mean, mark, false) >= IndividualPnl(legs, mark, false)
            && (Pnl(size, mean, mark, true) == IndividualPnl(legs, mark, true) <==> coincide)
            && (Pnl(size, mean, mark, false) == IndividualPnl(legs, mark, false) <==> coincide)
  {
    hide Pnl, IndividualPnl, TotalSize, TotalRatio, MeanEntry;
    RatioAboveMean(legs);
    PnlsAre(legs, mark);
    var size, mean := TotalSize(legs), MeanEntry(legs);
    PnlIs(size, mean, mark);
    Scale(size / mean, TotalRatio(legs), mark);
  }

  lemma Scale(a: real, b: real, c: real)
    requires c > 0.0 && a <= b
    ensures c * a <= c * b
    ensures c * a == c * b <==> a == b
  {
    if a < b {
      ProductPositive(c, b - a);
      Distribute(b, a, c);
    }
  }
}
