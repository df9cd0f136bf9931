/** What an open and a close do to the open positions and their markets: sums over the
    positions, side open interest, average prices, leverage and borrow indices. */
module BookSteps {
  import opened FixedPoint
  import opened Types
  import opened RiskMath
  import opened MapSums
  import opened Ledger
  import opened Invariants

  // ----- Sums after a close and after an open -----

  function Remaining(pos: Position, sizeDelta: int, collateralDelta: int): Position {
    pos.(collateral := pos.collateral - collateralDelta, size := pos.size - sizeDelta)
  }

  lemma SumAfterClose(positions: Positions, key: PositionKey, pos: Position, sizeDelta: int,
                      collateralDelta: int, weight: (PositionKey, Position) -> int)
    requires key in positions && positions[key] == pos
    ensures Sum(PositionsAfterClose(positions, key, pos, sizeDelta, collateralDelta), weight)
            == Sum(positions, weight) - weight(key, pos)
               + (if sizeDelta == pos.size then 0 else weight(key, Remaining(pos, sizeDelta, collateralDelta)))
  {
    hide Sum;
    SumRemove(positions, weight, key);
    SumUpdate(positions, weight, key, Remaining(pos, sizeDelta, collateralDelta));
  }

  // ----- Close -----

  /** A close of part or all of an open position at its current market. */
  ghost predicate Closes(positions: Positions, markets: Markets, key: PositionKey, pos: Position,
                         sizeDelta: int, collateralDelta: int)
  {
    && key in positions && positions[key] == pos && key.symbol in markets
    && 0 < sizeDelta <= pos.size
    && collateralDelta == CollateralSlice(pos, sizeDelta)
  }

  function MarketsAfterClose(markets: Markets, key: PositionKey, pos: Position, sizeDelta: int): Markets
    requires key.symbol in markets
  {
    markets[key.symbol := MarketAfterClose(markets[key.symbol], pos, sizeDelta)]
  }

  lemma CloseKeepsOi(positions: Positions, markets: Markets, key: PositionKey, pos: Position,
                     sizeDelta: int, collateralDelta: int)
    requires OiMatches(positions, markets)
    requires Closes(positions, markets, key, pos, sizeDelta, collateralDelta)
    ensures OiMatches(PositionsAfterClose(positions, key, pos, sizeDelta, collateralDelta),
                      MarketsAfterClose(markets, key, pos, sizeDelta))
  {
    hide Sum, TDiv, AverageAfterRemoval;
    var positions' := PositionsAfterClose(positions, key, pos, sizeDelta, collateralDelta);
    var markets' := MarketsAfterClose(markets, key, pos, sizeDelta);
    forall side: Side
      ensures SideOi(markets', side) == Sum(positions', SideSize(side))
    {
      assert SideOi(markets, side) == Sum(positions, SideSize(side));
      SumAfterClose(positions, key, pos, sizeDelta, collateralDelta, SideSize(side));
    }
  }

  lemma CloseKeepsReservation(positions: Positions, markets: Markets, key: PositionKey, pos: Position,
                              sizeDelta: int, collateralDelta: int, reserved: int)
    requires ReservationMatches(positions, markets, reserved)
    requires Closes(positions, markets, key, pos, sizeDelta, collateralDelta)
    ensures ReservationMatches(PositionsAfterClose(positions, key, pos, sizeDelta, collateralDelta),
                               MarketsAfterClose(markets, key, pos, sizeDelta), reserved - sizeDelta)
  {
    hide Sum, TDiv, AverageAfterRemoval;
    SumAfterClose(positions, key, pos, sizeDelta, collateralDelta, SizeWeight);
    SumUpdate(markets, OiWeight, key.symbol, MarketAfterClose(markets[key.symbol], pos, sizeDelta));
  }

  /** The proportional collateral of a partial close leaves some collateral behind and
      does not raise leverage. */
  lemma PartialCollateral(collateral: int, size: int, sizeDelta: int, cap: int)
    requires 0 < sizeDelta < size && collateral > 0
    requires cap >= 0 && size <= collateral * cap
    ensures var delta := TDiv(collateral * sizeDelta, size);
            && 0 <= delta < collateral
            && size - sizeDelta <= (collateral - delta) * cap
  {
    hide TDiv;
    var delta := TDiv(collateral * sizeDelta, size);
    MulLe(0, sizeDelta, collateral);
    TDivBounds(collateral * sizeDelta, size);
    RemainderKeepsRatio(collateral, size, sizeDelta, delta, cap);
  }

  lemma RemainderKeepsRatio(collateral: int, size: int, sizeDelta: int, delta: int, cap: int)
    requires 0 < sizeDelta < size && collateral > 0 && cap >= 0
    requires size <= collateral * cap && size * delta <= collateral * sizeDelta
    ensures delta < collateral
    ensures size - sizeDelta <= (collateral - delta) * cap
  {
    var left, rest := collateral - delta, size - sizeDelta;
    Distribute(collateral, delta, size);
    Distribute(size, sizeDelta, collateral);
    assert collateral * rest <= size * left;
    MulLe(1, rest, collateral);
    MultiplesOrdered(1, left, size);
    MulLe(collateral * rest, size * left, cap);
    MulLe(size, collateral * cap, rest);
    Regroup(collateral, rest, cap);
    Regroup(size, left, cap);
    MultiplesOrdered(rest, left * cap, size);
  }

  lemma CloseKeepsPositions(positions: Positions, markets: Markets, caps: map<PositionKey, int>,
                            key: PositionKey, pos: Position, sizeDelta: int, collateralDelta: int)
    requires PositionsSound(positions, markets, caps)
    requires Closes(positions, markets, key, pos, sizeDelta, collateralDelta)
    ensures PositionsSound(PositionsAfterClose(positions, key, pos, sizeDelta, collateralDelta),
                           MarketsAfterClose(markets, key, pos, sizeDelta), caps)
    ensures 0 <= collateralDelta <= pos.collateral
  {
    hide TDiv, AverageAfterRemoval;
    if sizeDelta < pos.size {
      PartialCollateral(pos.collateral, pos.size, sizeDelta, caps[key]);
    }
  }

  lemma CloseKeepsMarkets(positions: Positions, markets: Markets, key: PositionKey, pos: Position,
                          sizeDelta: int, collateralDelta: int)
    requires MarketsSound(markets)
    requires Closes(positions, markets, key, pos, sizeDelta, collateralDelta)
    requires sizeDelta <= OiOf(markets[key.symbol], pos.isLong)
    ensures MarketsSound(MarketsAfterClose(markets, key, pos, sizeDelta))
  {
  }

  /** The drift of a side grows by less than its remaining open interest. */
  lemma RemovalDrift(avg: int, oi: int, notional: int, price: int, removed: int)
    requires 0 < removed <= oi
    requires notional - price * removed >= 0
    requires removed == oi ==> notional == price * removed
    ensures var avg' := AverageAfterRemoval(avg, oi, price, removed);
            Abs(avg' * (oi - removed) - (notional - price * removed))
            <= Abs(avg * oi - notional) + (oi - removed)
  {
    hide TDiv, AverageAfterRemoval;
    AverageAfterRemovalNotional(avg, oi, price, removed);
  }

  lemma SideEmptied(positions: Positions, side: Side)
    requires Sum(positions, SideSize(side)) == 0
    requires forall k :: k in positions ==> positions[k].size > 0
    ensures Sum(positions, SideNotional(side)) == 0
  {
    hide Sum;
    forall k | k in positions
      ensures SideNotional(side)(k, positions[k]) == 0
    {
      if OnSide(k, positions[k], side) {
        SumBoundsEntry(positions, SideSize(side), k);
      }
    }
    SumAllZero(positions, SideNotional(side));
  }

  lemma NotionalNonNegative(positions: Positions, markets: Markets, caps: map<PositionKey, int>, side: Side)
    requires PositionsSound(positions, markets, caps)
    ensures Sum(positions, SideNotional(side)) >= 0
  {
  }

  /** One more trade pays for one more peak of drift. */
  lemma DriftBudget(drift: int, drift': int, trades: nat, peak: int, peak': int, oi': int)
    requires Abs(drift) <= trades * peak && 0 <= peak <= peak' && 0 <= oi' <= peak'
    requires Abs(drift') <= Abs(drift) + oi'
    ensures Abs(drift') <= (trades + 1) * peak'
  {
    MulLe(peak, peak', trades);
    assert (trades + 1) * peak' == trades * peak' + peak';
  }

  lemma CloseKeepsDrift(positions: Positions, markets: Markets, h: History, key: PositionKey, pos: Position,
                        sizeDelta: int, collateralDelta: int)
    requires PositionsSound(positions, markets, h.leverageCap) && MarketsSound(markets)
    requires OiMatches(positions, markets) && DriftBounded(positions, markets, h)
    requires Closes(positions, markets, key, pos, sizeDelta, collateralDelta)
    ensures DriftBounded(PositionsAfterClose(positions, key, pos, sizeDelta, collateralDelta),
                         MarketsAfterClose(markets, key, pos, sizeDelta),
                         Traded(h, MarketAfterClose(markets[key.symbol], pos, sizeDelta), Side(key.symbol, pos.isLong)))
  {
    hide Sum, TDiv, AverageAfterRemoval, PositionsSound;
    var traded := Side(key.symbol, pos.isLong);
    var positions' := PositionsAfterClose(positions, key, pos, sizeDelta, collateralDelta);
    var markets' := MarketsAfterClose(markets, key, pos, sizeDelta);
    var h' := Traded(h, markets'[key.symbol], traded);
    forall side: Side
      ensures SideDriftBounded(positions', markets', h', side)
    {
      assert SideDriftBounded(positions, markets, h, side);
      SumAfterClose(positions, key, pos, sizeDelta, collateralDelta, SideNotional(side));
      if side == traded {
        CloseDriftOnSide(positions, markets, h, key, pos, sizeDelta, collateralDelta);
      }
    }
  }

  lemma NotionalAfterClose(positions: Positions, key: PositionKey, pos: Position, sizeDelta: int, collateralDelta: int)
    requires key in positions && positions[key] == pos
    ensures var side := Side(key.symbol, pos.isLong);
            Sum(PositionsAfterClose(positions, key, pos, sizeDelta, collateralDelta), SideNotional(side))
            == Sum(positions, SideNotional(side)) - pos.entryPrice * sizeDelta
  {
    hide Sum, PositionsAfterClose;
    SumAfterClose(positions, key, pos, sizeDelta, collateralDelta, SideNotional(Side(key.symbol, pos.isLong)));
    Distribute(pos.size, sizeDelta, pos.entryPrice);
  }

  lemma CloseDriftOnSide(positions: Positions, markets: Markets, h: History, key: PositionKey, pos: Position,
                         sizeDelta: int, collateralDelta: int)
    requires PositionsSound(positions, markets, h.leverageCap)
    requires OiMatches(positions, markets) && SideDriftBounded(positions, markets, h, Side(key.symbol, pos.isLong))
    requires Closes(positions, markets, key, pos, sizeDelta, collateralDelta)
    ensures SideDriftBounded(PositionsAfterClose(positions, key, pos, sizeDelta, collateralDelta),
                             MarketsAfterClose(markets, key, pos, sizeDelta),
                             Traded(h, MarketAfterClose(markets[key.symbol], pos, sizeDelta),
                                    Side(key.symbol, pos.isLong)),
                             Side(key.symbol, pos.isLong))
  {
    hide Sum, TDiv, AverageAfterRemoval;
    var side := Side(key.symbol, pos.isLong);
    var positions' := PositionsAfterClose(positions, key, pos, sizeDelta, collateralDelta);
    var markets' := MarketsAfterClose(markets, key, pos, sizeDelta);
    var oi, avg := SideOi(markets, side), SideAvg(markets, side);
    var notional := Sum(positions, SideNotional(side));
    NotionalAfterClose(positions, key, pos, sizeDelta, collateralDelta);
    CloseKeepsPositions(positions, markets, h.leverageCap, key, pos, sizeDelta, collateralDelta);
    CloseKeepsOi(positions, markets, key, pos, sizeDelta, collateralDelta);
    NotionalNonNegative(positions', markets', h.leverageCap, side);
    assert SideOi(markets', side) == Sum(positions', SideSize(side));
    assert SideOi(markets', side) == oi - sizeDelta;
    SideOiNonNegative(positions', markets', h.leverageCap, side);
    if sizeDelta == oi {
      SideEmptied(positions', side);
    }
    RemovalDrift(avg, oi, notional, pos.entryPrice, sizeDelta);
    DriftBudget(avg * oi - notional, DriftOf(positions', markets', side), TradesOn(h, side), PeakOn(h, side),
                Max(PeakOn(h, side), oi - sizeDelta), oi - sizeDelta);
  }

  lemma SideOiNonNegative(positions: Positions, markets: Markets, caps: map<PositionKey, int>, side: Side)
    requires PositionsSound(positions, markets, caps)
    ensures Sum(positions, SideSize(side)) >= 0
  {
  }

  // ----- Open -----

  /** The position an open writes: the order on its own, or averaged into an existing
      position of the same direction. */
  ghost predicate Opens(positions: Positions, o: Order, market: Market, markPrice: int, pos: Position, now: nat,
                        escrowOwed: int)
  {
    var existing := LookUp(positions, o.key);
    && o.size > 0 && o.collateral > 0 && markPrice > 0 && escrowOwed >= 0
    && pos == IncreasedPosition(existing, o, market, markPrice, escrowOwed, now)
    && (existing.Some? ==> existing.value.isLong == o.isLong)
    && pos.takeProfit >= 0 && pos.stopLoss >= 0
  }

  lemma OpenKeepsOi(positions: Positions, markets: Markets, o: Order, market: Market, markPrice: int,
                    pos: Position, now: nat, escrowOwed: int)
    requires OiMatches(positions, markets)
    requires Opens(positions, o, market, markPrice, pos, now, escrowOwed)
    requires OiOf(market, true) == SideOi(markets, Side(o.key.symbol, true))
    requires OiOf(market, false) == SideOi(markets, Side(o.key.symbol, false))
    ensures OiMatches(positions[o.key := pos],
                      markets[o.key.symbol := MarketAfterOpen(market, o.isLong, markPrice, o.size)])
  {
    hide Sum, TDiv, WeightedAverage;
    var markets' := markets[o.key.symbol := MarketAfterOpen(market, o.isLong, markPrice, o.size)];
    forall side: Side
      ensures SideOi(markets', side) == Sum(positions[o.key := pos], SideSize(side))
    {
      assert SideOi(markets, side) == Sum(positions, SideSize(side));
      SumUpdate(positions, SideSize(side), o.key, pos);
      assert side == Side(o.key.symbol, side.isLong) || side.symbol != o.key.symbol;
    }
  }

  lemma OpenKeepsReservation(positions: Positions, markets: Markets, o: Order, market: Market, markPrice: int,
                             pos: Position, now: nat, escrowOwed: int, reserved: int)
    requires ReservationMatches(positions, markets, reserved)
    requires Opens(positions, o, market, markPrice, pos, now, escrowOwed)
    requires market.longOi + market.shortOi == At(markets, OiWeight, o.key.symbol)
    ensures ReservationMatches(positions[o.key := pos],
                               markets[o.key.symbol := MarketAfterOpen(market, o.isLong, markPrice, o.size)],
                               reserved + o.size)
  {
    hide Sum, TDiv, WeightedAverage;
    SumUpdate(positions, SizeWeight, o.key, pos);
    SumUpdate(markets, OiWeight, o.key.symbol, MarketAfterOpen(market, o.isLong, markPrice, o.size));
  }

  lemma OpenKeepsPositions(positions: Positions, markets: Markets, caps: map<PositionKey, int>, o: Order,
                           market: Market, markPrice: int, pos: Position, now: nat, escrowOwed: int, cap: int)
    requires PositionsSound(positions, markets, caps)
    requires Opens(positions, o, market, markPrice, pos, now, escrowOwed)
    requires SoundMarket(market) && (o.key.symbol in markets ==> markets[o.key.symbol] == market)
    requires 2 <= cap <= 200 && pos.size <= pos.collateral * cap
    requires pos.escrow > 0 ==> pos.takeProfit > 0 || pos.stopLoss > 0
    ensures PositionsSound(positions[o.key := pos],
                           markets[o.key.symbol := MarketAfterOpen(market, o.isLong, markPrice, o.size)],
                           caps[o.key := cap])
  {
    hide TDiv, WeightedAverage;
    if o.key in positions {
      var p := positions[o.key];
      WeightedAverageBetween(p.entryPrice, p.size, markPrice, o.size);
      WeightedAverageBetween(p.entryBorrowIndex, p.size, market.accBorrowIndex, o.size);
    }
  }

  lemma OpenKeepsMarkets(markets: Markets, o: Order, market: Market, markPrice: int)
    requires MarketsSound(markets) && SoundMarket(market) && o.size > 0 && markPrice > 0
    ensures MarketsSound(markets[o.key.symbol := MarketAfterOpen(market, o.isLong, markPrice, o.size)])
  {
    hide TDiv, WeightedAverage;
    WeightedAverageNotional(AvgOf(market, o.isLong), OiOf(market, o.isLong), markPrice, o.size);
  }

  /** Rounding down the side average and the position's own entry price cannot add up:
      the drift grows by less than the new open interest. */
  lemma AdditionDrift(avg: int, oi: int, notional: int, entry: int, size: int, price: int, added: int)
    requires avg >= 0 && price >= 0 && entry >= 0 && 0 <= size <= oi && added > 0
    requires oi == 0 ==> notional == 0
    ensures var avg', entry' := WeightedAverage(avg, oi, price, added), WeightedAverage(entry, size, price, added);
            Abs(avg' * (oi + added) - (notional - entry * size + entry' * (size + added)))
            <= Abs(avg * oi - notional) + (oi + added)
  {
    hide TDiv, WeightedAverage;
    WeightedAverageNotional(avg, oi, price, added);
    WeightedAverageNotional(entry, size, price, added);
  }

  lemma OpenKeepsDrift(positions: Positions, markets: Markets, h: History, o: Order, market: Market,
                       markPrice: int, pos: Position, now: nat, escrowOwed: int)
    requires PositionsSound(positions, markets, h.leverageCap)
    requires OiMatches(positions, markets) && DriftBounded(positions, markets, h)
    requires Opens(positions, o, market, markPrice, pos, now, escrowOwed) && SoundMarket(market)
    requires forall isLong ::
      && OiOf(market, isLong) == SideOi(markets, Side(o.key.symbol, isLong))
      && AvgOf(market, isLong) == SideAvg(markets, Side(o.key.symbol, isLong))
    ensures var market' := MarketAfterOpen(market, o.isLong, markPrice, o.size);
            DriftBounded(positions[o.key := pos], markets[o.key.symbol := market'],
                         Traded(h, market', Side(o.key.symbol, o.isLong)))
  {
    hide Sum, TDiv, WeightedAverage, PositionsSound, SoundMarket;
    var traded := Side(o.key.symbol, o.isLong);
    var market' := MarketAfterOpen(market, o.isLong, markPrice, o.size);
    var positions' := positions[o.key := pos];
    var markets' := markets[o.key.symbol := market'];
    var h' := Traded(h, market', traded);
    forall side: Side
      ensures SideDriftBounded(positions', markets', h', side)
    {
      assert SideDriftBounded(positions, markets, h, side);
      SumUpdate(positions, SideNotional(side), o.key, pos);
      if side == traded {
        OpenDriftOnSide(positions, markets, h, o, market, markPrice, pos, now, escrowOwed);
      } else {
        assert side == Side(o.key.symbol, side.isLong) || side.symbol != o.key.symbol;
      }
    }
  }

  lemma OpenDriftOnSide(positions: Positions, markets: Markets, h: History, o: Order, market: Market,
                        markPrice: int, pos: Position, now: nat, escrowOwed: int)
    requires PositionsSound(positions, markets, h.leverageCap)
    requires OiMatches(positions, markets) && SideDriftBounded(positions, markets, h, Side(o.key.symbol, o.isLong))
    requires Opens(positions, o, market, markPrice, pos, now, escrowOwed) && SoundMarket(market)
    requires OiOf(market, o.isLong) == SideOi(markets, Side(o.key.symbol, o.isLong))
    requires AvgOf(market, o.isLong) == SideAvg(markets, Side(o.key.symbol, o.isLong))
    ensures var market' := MarketAfterOpen(market, o.isLong, markPrice, o.size);
            SideDriftBounded(positions[o.key := pos], markets[o.key.symbol := market'],
                             Traded(h, market', Side(o.key.symbol, o.isLong)), Side(o.key.symbol, o.isLong))
  {
    hide Sum, TDiv, WeightedAverage;
    var side := Side(o.key.symbol, o.isLong);
    var oi, avg := OiOf(market, o.isLong), AvgOf(market, o.isLong);
    var notional := Sum(positions, SideNotional(side));
    var existing := LookUp(positions, o.key);
    var entry := if existing.Some? then existing.value.entryPrice else 0;
    var size := if existing.Some? then existing.value.size else 0;
    SumUpdate(positions, SideNotional(side), o.key, pos);
    assert oi == Sum(positions, SideSize(side));
    if existing.Some? {
      SumBoundsEntry(positions, SideSize(side), o.key);
    }
    if oi == 0 {
      SideEmptied(positions, side);
    }
    AdditionDrift(avg, oi, notional, entry, size, markPrice, o.size);
    var avg' := WeightedAverage(avg, oi, markPrice, o.size);
    if existing.None? {
      EntryOfNew(markPrice, o.size);
    }
    var markets' := markets[o.key.symbol := MarketAfterOpen(market, o.isLong, markPrice, o.size)];
    DriftBudget(avg * oi - notional, DriftOf(positions[o.key := pos], markets', side), TradesOn(h, side),
                PeakOn(h, side), Max(PeakOn(h, side), oi + o.size), oi + o.size);
  }

  lemma EntryOfNew(price: int, added: int)
    requires added > 0
    ensures WeightedAverage(0, 0, price, added) == price
  {
  }
}
