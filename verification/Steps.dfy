/** Every entrypoint keeps the invariant. */
module Steps {
  import opened FixedPoint
  import opened Types
  import opened RiskMath
  import opened FundingRates
  import opened MapSums
  import opened Evaluations
  import opened VaultLedger
  import opened Ledger
  import opened Settlement
  import opened Invariants
  import opened BookSteps

  // ----- Index accrual -----

  lemma AccruedMarketOf(w: World, symbol: Symbol, cfg: Config)
    ensures MarketOf(Accrued(w, symbol, cfg), symbol) == AccruedMarket(w, symbol, cfg)
  {
  }

  /** A billed window starts where the last one of its market ended and stops at a
      running pause; a market without a stored update has nothing to bill. */
  lemma AccrualBilling(w: World, symbol: Symbol, cfg: Config)
    requires Billing(w.now, w.pm, w.history)
    ensures var w' := Accrued(w, symbol, cfg); Billing(w'.now, w'.pm, w'.history)
    ensures BillingStart(w, symbol) < BillingEnd(w, symbol) ==> symbol in w.pm.markets
  {
    hide AccumulateIndex, BorrowRate, FundingRate, UtilizationBps;
    var start, end := BillingStart(w, symbol), BillingEnd(w, symbol);
    if start < end {
      var windows := w.history.windows;
      var window := Window(symbol, start, end);
      var windows' := windows + [window];
      assert symbol in w.pm.markets;
      forall j | 0 <= j < |w.history.pausedSpans|
        ensures Apart(window, w.history.pausedSpans[j])
      {
      }
      forall i, j | 0 <= i < |windows'| && 0 <= j < |w.history.pausedSpans|
        ensures Apart(windows'[i], w.history.pausedSpans[j])
      {
      }
    }
  }

  /** The borrow index never decreases, and nothing but the indices of one stored market
      changes. */
  lemma AccruedIndex(w: World, symbol: Symbol, cfg: Config)
    requires cfg.Valid() && Inv(w)
    ensures var m, m' := MarketOf(w, symbol), AccruedMarket(w, symbol, cfg);
            && m.accBorrowIndex <= m'.accBorrowIndex
            && m' == m.(accBorrowIndex := m'.accBorrowIndex, accFundingIndex := m'.accFundingIndex,
                        lastIndexUpdate := m'.lastIndexUpdate)
  {
    hide AccumulateIndex, BorrowRate, FundingRate, UtilizationBps, Inv;
    var elapsed := BillingEnd(w, symbol) - BillingStart(w, symbol);
    if elapsed > 0 {
      var view := ViewOf(w.funds);
      ReservedNonNegative(w);
      UtilizationNonNegative(view.reserved, view.safeBasis);
      BorrowRateMonotone(view.Utilization(), view.Utilization(), cfg.baseBorrowRate, cfg.slope1, cfg.slope2,
                         cfg.optimalUtilization);
      var rate := BorrowRate(view.Utilization(), cfg.baseBorrowRate, cfg.slope1, cfg.slope2, cfg.optimalUtilization);
      IndexMonotoneInRate(MarketOf(w, symbol).accBorrowIndex, rate, rate, elapsed);
    }
  }

  lemma UtilizationNonNegative(reserved: int, basis: int)
    requires reserved >= 0
    ensures UtilizationBps(reserved, basis) >= 0
  {
    hide TDiv;
    if basis > 0 {
      TDivBounds(reserved * BPS, basis);
    }
  }

  /** Writing a market that differs only in its indices keeps the book. */
  lemma BookAfterIndices(pm: ManagerState, h: History, h': History, symbol: Symbol, m': Market)
    requires Book(pm, h) && symbol in pm.markets
    requires var m := pm.markets[symbol];
             && m.accBorrowIndex <= m'.accBorrowIndex
             && m' == m.(accBorrowIndex := m'.accBorrowIndex, accFundingIndex := m'.accFundingIndex,
                         lastIndexUpdate := m'.lastIndexUpdate)
    requires h' == h.(windows := h'.windows)
    ensures Book(pm.(markets := pm.markets[symbol := m']), h')
  {
    hide Sum;
    var markets' := pm.markets[symbol := m'];
    forall side: Side
      ensures SideOi(markets', side) == SideOi(pm.markets, side)
      ensures SideAvg(markets', side) == SideAvg(pm.markets, side)
      ensures SideDriftBounded(pm.positions, markets', h', side)
    {
      assert SideDriftBounded(pm.positions, pm.markets, h, side);
    }
    forall side: Side
      ensures SideOi(markets', side) == Sum(pm.positions, SideSize(side))
    {
      assert SideOi(markets', side) == SideOi(pm.markets, side);
    }
  }

  lemma AccruedKeeps(w: World, symbol: Symbol, cfg: Config)
    requires cfg.Valid() && Inv(w)
    ensures Inv(Accrued(w, symbol, cfg))
    ensures MarketOf(w, symbol).accBorrowIndex <= AccruedMarket(w, symbol, cfg).accBorrowIndex
  {
    hide Sum, AccruedMarket, Book, Billing;
    AccruedIndex(w, symbol, cfg);
    AccrualBilling(w, symbol, cfg);
    if BillingStart(w, symbol) < BillingEnd(w, symbol) {
      var m' := AccruedMarket(w, symbol, cfg);
      BookAfterIndices(w.pm, w.history, Accrued(w, symbol, cfg).history, symbol, m');
      SumUpdate(w.pm.markets, OiWeight, symbol, m');
    }
  }

  // ----- Unrealized PnL -----

  lemma RefreshPnlKeeps(w: World, symbol: Symbol, markPrice: int)
    requires Inv(w)
    ensures Inv(RefreshPnl(w, symbol, markPrice))
    ensures Solvent(w.funds) ==> Solvent(RefreshPnl(w, symbol, markPrice).funds)
  {
    hide Sum, MarketUnrealizedPnl;
    var m := MarketOf(w, symbol);
    var pnl := MarketUnrealizedPnl(m.longOi, m.longAvg, m.shortOi, m.shortAvg, markPrice);
    SumUpdate(w.pm.cachedPnl, PnlWeight, symbol, pnl);
    RefreshPnlBook(w, symbol, markPrice);
  }

  lemma RefreshPnlBook(w: World, symbol: Symbol, markPrice: int)
    requires Book(w.pm, w.history)
    ensures Book(RefreshPnl(w, symbol, markPrice).pm, w.history)
  {
  }

  // ----- Storing a traded market -----

  /** A trade keeps the market's update time; only an unpaused manager stores a market
      for the first time. */
  lemma BillingAfterTrade(w: World, w': World, symbol: Symbol, m': Market)
    requires Billing(w.now, w.pm, w.history)
    requires symbol in w.pm.markets || !w.pm.paused
    requires m'.lastIndexUpdate == MarketOf(w, symbol).lastIndexUpdate
    requires w'.now == w.now && w'.pm.markets == w.pm.markets[symbol := m']
    requires w'.pm.paused == w.pm.paused && w'.pm.lastPause == w.pm.lastPause
    requires w'.pm.lastUnpause == w.pm.lastUnpause
    requires w'.history.windows == w.history.windows && w'.history.pausedSpans == w.history.pausedSpans
    ensures Billing(w'.now, w'.pm, w'.history)
  {
  }

  // ----- Close -----

  /** A tick is the world and market an accrual produced. */
  ghost predicate FreshTick(tick: Tick, symbol: Symbol) {
    && Inv(tick.world)
    && tick.market == MarketOf(tick.world, symbol)
    && tick.markPrice > 0
  }

  lemma RefreshKeeps(w: World, symbol: Symbol, env: Env)
    requires env.Valid() && Inv(w) && Refresh(w, symbol, env).Ok?
    ensures var tick := Refresh(w, symbol, env).value;
            && FreshTick(tick, symbol)
            && tick.world.pm == w.pm.(markets := tick.world.pm.markets)
            && tick.world.funds == w.funds && tick.world.now == w.now
            && (symbol in w.pm.markets ==> symbol in tick.world.pm.markets)
  {
    hide Inv;
    AccruedKeeps(w, symbol, env.cfg);
    AccruedMarketOf(w, symbol, env.cfg);
  }

  /** What the four close entrypoints pass on to settlement. */
  ghost predicate CloseCall(tick: Tick, key: PositionKey, pos: Position, sizeDelta: int, collateralDelta: int,
                            ev: Evaluation, kind: CloseKind, executor: Option<nat>, cfg: Config)
  {
    && FreshTick(tick, key.symbol)
    && Closes(tick.world.pm.positions, tick.world.pm.markets, key, pos, sizeDelta, collateralDelta)
    && ev == Evaluate(tick.market, tick.markPrice, pos, sizeDelta, collateralDelta, cfg.fundingCutBps)
    && ExecutorFits(kind, executor)
    && (sizeDelta < pos.size ==> kind == UserClose)
    && cfg.Valid()
  }

  lemma CloseKeepsBook(tick: Tick, key: PositionKey, pos: Position, sizeDelta: int, collateralDelta: int, h': History)
    requires FreshTick(tick, key.symbol)
    requires Closes(tick.world.pm.positions, tick.world.pm.markets, key, pos, sizeDelta, collateralDelta)
    requires var traded := Traded(tick.world.history, MarketAfterClose(tick.market, pos, sizeDelta),
                                  Side(key.symbol, pos.isLong));
             h'.trades == traded.trades && h'.peakOi == traded.peakOi && h'.leverageCap == traded.leverageCap
    ensures var pm := tick.world.pm;
            Book(pm.(positions := PositionsAfterClose(pm.positions, key, pos, sizeDelta, collateralDelta),
                     markets := MarketsAfterClose(pm.markets, key, pos, sizeDelta)), h')
  {
    hide Sum, MarketAfterClose, PositionsAfterClose, PositionsSound, MarketsSound, OiMatches, SideDriftBounded, Money,
         Billing;
    var pm, h := tick.world.pm, tick.world.history;
    PositionWithinOi(tick.world, key);
    CloseKeepsPositions(pm.positions, pm.markets, h.leverageCap, key, pos, sizeDelta, collateralDelta);
    CloseKeepsMarkets(pm.positions, pm.markets, key, pos, sizeDelta, collateralDelta);
    CloseKeepsOi(pm.positions, pm.markets, key, pos, sizeDelta, collateralDelta);
    CloseKeepsDrift(pm.positions, pm.markets, h, key, pos, sizeDelta, collateralDelta);
    var positions' := PositionsAfterClose(pm.positions, key, pos, sizeDelta, collateralDelta);
    var markets' := MarketsAfterClose(pm.markets, key, pos, sizeDelta);
    DriftFrame(positions', markets',
               Traded(h, MarketAfterClose(tick.market, pos, sizeDelta), Side(key.symbol, pos.isLong)), h');
  }

  lemma DriftFrame(positions: Positions, markets: Markets, h: History, h': History)
    requires DriftBounded(positions, markets, h)
    requires h'.trades == h.trades && h'.peakOi == h.peakOi
    ensures DriftBounded(positions, markets, h')
  {
    hide Sum;
    forall side: Side
      ensures SideDriftBounded(positions, markets, h', side)
    {
      assert SideDriftBounded(positions, markets, h, side);
    }
  }

  lemma CloseKeepsMoney(tick: Tick, key: PositionKey, pos: Position, sizeDelta: int, collateralDelta: int,
                        ev: Evaluation, kind: CloseKind, executor: Option<nat>, cfg: Config, funds: Funds)
    requires CloseCall(tick, key, pos, sizeDelta, collateralDelta, ev, kind, executor, cfg)
    requires SettleFunds(tick.world.funds, key.trader, pos, sizeDelta, collateralDelta, ev, kind, executor, cfg)
             == Ok(funds)
    ensures var w, market := tick.world, MarketAfterClose(tick.market, pos, sizeDelta);
            var pm' := w.pm.(positions := PositionsAfterClose(w.pm.positions, key, pos, sizeDelta, collateralDelta),
                             markets := w.pm.markets[key.symbol := market],
                             realizedPnl := w.pm.realizedPnl + (ev.pnl - ev.borrowFee + ev.effectiveFunding));
            Money(funds, pm', HistoryAfterClose(w.history, market, key, pos, sizeDelta < pos.size, ev,
                                                Route(ev, collateralDelta, kind, cfg), kind))
    ensures Solvent(tick.world.funds) ==> Solvent(funds)
  {
    hide Sum, SettleFunds, Route, Evaluate, MarketAfterClose, PositionsAfterClose, Book, Billing, BalancesNonNegative,
         Balance, TotalAssets, Solvent, ReservationMatches;
    var w := tick.world;
    assert SoundPosition(pos) && 0 <= collateralDelta <= pos.collateral by {
      CloseFacts(tick, key, pos, sizeDelta, collateralDelta);
    }
    CloseNet(w.funds, key.trader, pos, sizeDelta, collateralDelta, ev, kind, executor, cfg);
    CloseKeepsReservation(w.pm.positions, w.pm.markets, key, pos, sizeDelta, collateralDelta, w.funds.vault.reserved);
    SumAfterClose(w.pm.positions, key, pos, sizeDelta, collateralDelta, CustodyWeight);
    SumAfterClose(w.pm.positions, key, pos, sizeDelta, collateralDelta, EscrowWeight);
    assert ev.effectiveHealth == collateralDelta + ev.pnl - ev.borrowFee + ev.effectiveFunding by {
      HealthDecomposes(tick, pos, sizeDelta, collateralDelta, cfg);
    }
  }

  lemma HealthDecomposes(tick: Tick, pos: Position, sizeDelta: int, collateralDelta: int, cfg: Config)
    ensures var ev := Evaluate(tick.market, tick.markPrice, pos, sizeDelta, collateralDelta, cfg.fundingCutBps);
            ev.effectiveHealth == collateralDelta + ev.pnl - ev.borrowFee + ev.effectiveFunding
  {
  }

  lemma CloseFacts(tick: Tick, key: PositionKey, pos: Position, sizeDelta: int, collateralDelta: int)
    requires FreshTick(tick, key.symbol)
    requires Closes(tick.world.pm.positions, tick.world.pm.markets, key, pos, sizeDelta, collateralDelta)
    ensures SoundPosition(pos) && 0 <= collateralDelta <= pos.collateral
  {
    hide Sum, TDiv;
    CloseKeepsPositions(tick.world.pm.positions, tick.world.pm.markets, tick.world.history.leverageCap, key, pos,
                        sizeDelta, collateralDelta);
  }

  /** A close keeps the invariant, and keeps a solvent vault solvent. */
  lemma CloseKeeps(tick: Tick, key: PositionKey, pos: Position, sizeDelta: int, collateralDelta: int,
                   ev: Evaluation, kind: CloseKind, executor: Option<nat>, cfg: Config)
    requires CloseCall(tick, key, pos, sizeDelta, collateralDelta, ev, kind, executor, cfg)
    ensures ExecuteClose(tick, key, pos, sizeDelta, collateralDelta, ev, kind, executor, cfg).Ok? ==>
              var w' := ExecuteClose(tick, key, pos, sizeDelta, collateralDelta, ev, kind, executor, cfg).value;
              && Inv(w')
              && (Solvent(tick.world.funds) ==> Solvent(w'.funds))
  {
    hide Sum, SettleFunds, Route, Evaluate, MarketAfterClose, PositionsAfterClose, Book, Money, Billing, RefreshPnl;
    var w := tick.world;
    var settled := SettleFunds(w.funds, key.trader, pos, sizeDelta, collateralDelta, ev, kind, executor, cfg);
    if settled.Ok? {
      var market := MarketAfterClose(tick.market, pos, sizeDelta);
      var after := World(
        w.now, settled.value,
        w.pm.(positions := PositionsAfterClose(w.pm.positions, key, pos, sizeDelta, collateralDelta),
              markets := w.pm.markets[key.symbol := market],
              realizedPnl := w.pm.realizedPnl + (ev.pnl - ev.borrowFee + ev.effectiveFunding)),
        HistoryAfterClose(w.history, market, key, pos, sizeDelta < pos.size, ev,
                          Route(ev, collateralDelta, kind, cfg), kind));
      CloseKeepsMoney(tick, key, pos, sizeDelta, collateralDelta, ev, kind, executor, cfg, settled.value);
      CloseKeepsBook(tick, key, pos, sizeDelta, collateralDelta, after.history);
      BookIgnoresRealized(after.pm.(realizedPnl := w.pm.realizedPnl), after.history, after.pm.realizedPnl);
      assert market.lastIndexUpdate == tick.market.lastIndexUpdate by {
        UpdateTimeAfterClose(tick.market, pos, sizeDelta);
      }
      BillingAfterTrade(w, after, key.symbol, market);
      RefreshPnlKeeps(after, key.symbol, tick.markPrice);
    }
  }

  lemma BookIgnoresRealized(pm: ManagerState, h: History, realized: int)
    requires Book(pm, h)
    ensures Book(pm.(realizedPnl := realized), h)
  {
  }

  lemma UpdateTimeAfterClose(m: Market, pos: Position, sizeDelta: int)
    ensures MarketAfterClose(m, pos, sizeDelta).lastIndexUpdate == m.lastIndexUpdate
  {
  }

  // ----- Open -----

  lemma EscrowOwedFacts(w: World, o: Order, fee: int)
    requires Inv(w) && fee >= 0
    ensures var existing := LookUp(w.pm.positions, o.key);
            var escrow := if existing.Some? then existing.value.escrow else 0;
            var tp := if existing.Some? then existing.value.takeProfit else 0;
            var sl := if existing.Some? then existing.value.stopLoss else 0;
            && EscrowDelta(escrow, ResultingOrder(tp, o.takeProfit), ResultingOrder(sl, o.stopLoss), fee) >= 0
            && EscrowOwed(existing, o, fee)
               == EscrowDelta(escrow, ResultingOrder(tp, o.takeProfit), ResultingOrder(sl, o.stopLoss), fee)
            && (escrow + EscrowOwed(existing, o, fee) > 0 ==>
                  ResultingOrder(tp, o.takeProfit) != 0 || ResultingOrder(sl, o.stopLoss) != 0)
  {
  }

  lemma OpenFeeNonNegative(size: int, cfg: Config)
    requires cfg.Valid()
    ensures 0 <= OpenFee(size, cfg.openFeeBps)
    ensures size > 0 ==> OpenFee(size, cfg.openFeeBps) <= size
  {
    hide TDiv;
    if size > 0 {
      ShareBounds(size, cfg.openFeeBps);
    }
  }

  lemma MarketOfSound(w: World, symbol: Symbol)
    requires Inv(w)
    ensures SoundMarket(MarketOf(w, symbol))
    ensures forall isLong ::
      && OiOf(MarketOf(w, symbol), isLong) == SideOi(w.pm.markets, Side(symbol, isLong))
      && AvgOf(MarketOf(w, symbol), isLong) == SideAvg(w.pm.markets, Side(symbol, isLong))
    ensures MarketOf(w, symbol).longOi + MarketOf(w, symbol).shortOi == At(w.pm.markets, OiWeight, symbol)
  {
  }

  /** The state an open has passed every check in. */
  ghost predicate OpenCall(tick: Tick, o: Order, pos: Position, cap: int, cfg: Config) {
    var w := tick.world;
    && FreshTick(tick, o.key.symbol) && cfg.Valid() && !w.pm.paused
    && o.size > 0 && o.collateral > 0
    && Opens(w.pm.positions, o, tick.market, tick.markPrice, pos, w.now,
             EscrowOwed(LookUp(w.pm.positions, o.key), o, cfg.tpSlExecutionFee))
    && o.key.symbol in w.pm.maxLeverage && cap == w.pm.maxLeverage[o.key.symbol]
    && pos.size <= pos.collateral * cap
  }

  lemma OpenKeepsBook(tick: Tick, o: Order, pos: Position, cap: int, cfg: Config, h': History)
    requires OpenCall(tick, o, pos, cap, cfg)
    requires var traded := Traded(tick.world.history, MarketAfterOpen(tick.market, o.isLong, tick.markPrice, o.size),
                                  Side(o.key.symbol, o.isLong));
             && h'.trades == traded.trades && h'.peakOi == traded.peakOi
             && h'.leverageCap == tick.world.history.leverageCap[o.key := cap]
    ensures var pm := tick.world.pm;
            Book(pm.(positions := pm.positions[o.key := pos],
                     markets := pm.markets[o.key.symbol :=
                       MarketAfterOpen(tick.market, o.isLong, tick.markPrice, o.size)]), h')
  {
    hide Sum, MarketAfterOpen, PositionsSound, OiMatches, SideDriftBounded, Money, Billing, SoundMarket,
         WeightedAverage;
    var w := tick.world;
    var pm, h := w.pm, w.history;
    var escrowOwed := EscrowOwed(LookUp(pm.positions, o.key), o, cfg.tpSlExecutionFee);
    EscrowOwedFacts(w, o, cfg.tpSlExecutionFee);
    MarketOfSound(w, o.key.symbol);
    OpenKeepsPositions(pm.positions, pm.markets, h.leverageCap, o, tick.market, tick.markPrice, pos, w.now,
                       escrowOwed, cap);
    OpenKeepsMarkets(pm.markets, o, tick.market, tick.markPrice);
    OpenKeepsOi(pm.positions, pm.markets, o, tick.market, tick.markPrice, pos, w.now, escrowOwed);
    OpenKeepsDrift(pm.positions, pm.markets, h, o, tick.market, tick.markPrice, pos, w.now, escrowOwed);
    var market' := MarketAfterOpen(tick.market, o.isLong, tick.markPrice, o.size);
    DriftFrame(pm.positions[o.key := pos], pm.markets[o.key.symbol := market'],
               Traded(h, market', Side(o.key.symbol, o.isLong)), h');
  }

  lemma OpenKeepsMoney(tick: Tick, o: Order, pos: Position, cap: int, cfg: Config, funds: Funds)
    requires OpenCall(tick, o, pos, cap, cfg)
    requires OpenFunds(tick.world.funds, o.key.trader, o.collateral, OpenFee(o.size, cfg.openFeeBps),
                       EscrowOwed(LookUp(tick.world.pm.positions, o.key), o, cfg.tpSlExecutionFee), o.size, cfg)
             == Ok(funds)
    ensures var w, market := tick.world, MarketAfterOpen(tick.market, o.isLong, tick.markPrice, o.size);
            var escrowOwed := EscrowOwed(LookUp(w.pm.positions, o.key), o, cfg.tpSlExecutionFee);
            Money(funds,
                  w.pm.(positions := w.pm.positions[o.key := pos], markets := w.pm.markets[o.key.symbol := market]),
                  Traded(w.history, market, Side(o.key.symbol, o.isLong)).(
                    openFees := w.history.openFees + OpenFee(o.size, cfg.openFeeBps),
                    escrowCharged := w.history.escrowCharged + escrowOwed,
                    leverageCap := w.history.leverageCap[o.key := cap]))
  {
    hide Sum, OpenFunds, OpenFee, MarketAfterOpen, Book, Billing, WeightedAverage, EscrowDelta;
    var w := tick.world;
    var escrowOwed := EscrowOwed(LookUp(w.pm.positions, o.key), o, cfg.tpSlExecutionFee);
    OpenFeeNonNegative(o.size, cfg);
    OpenNet(w.funds, o.key.trader, o.collateral, OpenFee(o.size, cfg.openFeeBps), escrowOwed, o.size, cfg);
    MarketOfSound(w, o.key.symbol);
    OpenKeepsReservation(w.pm.positions, w.pm.markets, o, tick.market, tick.markPrice, pos, w.now, escrowOwed,
                         w.funds.vault.reserved);
    SumUpdate(w.pm.positions, CustodyWeight, o.key, pos);
    SumUpdate(w.pm.positions, EscrowWeight, o.key, pos);
  }

  lemma OpenKeeps(tick: Tick, o: Order, view: VaultView, cfg: Config)
    requires FreshTick(tick, o.key.symbol) && cfg.Valid() && !tick.world.pm.paused
    requires o.size > 0 && o.collateral > 0
    ensures OpenPosition(tick, o, view, cfg).Ok? ==> Inv(OpenPosition(tick, o, view, cfg).value)
  {
    hide Sum, OpenFunds, OpenFee, MarketAfterOpen, Book, Money, Billing, WeightedAverage, EscrowDelta, RefreshPnl,
         UtilizationBps;
    var result := OpenPosition(tick, o, view, cfg);
    if result.Ok? {
      var w := tick.world;
      var escrowOwed := EscrowOwed(LookUp(w.pm.positions, o.key), o, cfg.tpSlExecutionFee);
      var cap := w.pm.maxLeverage[o.key.symbol];
      var pos := IncreasedPosition(LookUp(w.pm.positions, o.key), o, tick.market, tick.markPrice, escrowOwed, w.now);
      var openFee := OpenFee(o.size, cfg.openFeeBps);
      var funds := OpenFunds(w.funds, o.key.trader, o.collateral, openFee, escrowOwed, o.size, cfg).value;
      var market := MarketAfterOpen(tick.market, o.isLong, tick.markPrice, o.size);
      var after := World(
        w.now, funds,
        w.pm.(positions := w.pm.positions[o.key := pos], markets := w.pm.markets[o.key.symbol := market]),
        Traded(w.history, market, Side(o.key.symbol, o.isLong)).(
          openFees := w.history.openFees + openFee,
          escrowCharged := w.history.escrowCharged + escrowOwed,
          leverageCap := w.history.leverageCap[o.key := cap]));
      OpenKeepsMoney(tick, o, pos, cap, cfg, funds);
      OpenKeepsBook(tick, o, pos, cap, cfg, after.history);
      assert market.lastIndexUpdate == tick.market.lastIndexUpdate by {
        UpdateTimeAfterOpen(tick.market, o.isLong, tick.markPrice, o.size);
      }
      BillingAfterTrade(w, after, o.key.symbol, market);
      RefreshPnlKeeps(after, o.key.symbol, tick.markPrice);
    }
  }

  lemma UpdateTimeAfterOpen(m: Market, isLong: bool, markPrice: int, size: int)
    ensures MarketAfterOpen(m, isLong, markPrice, size).lastIndexUpdate == m.lastIndexUpdate
  {
  }
}
