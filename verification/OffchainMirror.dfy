/** The TypeScript twin of the market tick: it projects cached rows forward to now and
    evaluates positions against them, without writing anything. */
module OffchainMirror {
  import opened FixedPoint
  import opened Types
  import opened RiskMath
  import opened FundingRates
  import opened MapSums
  import opened Evaluations
  import opened VaultLedger
  import opened Ledger
  import opened Settlement
  import opened Invariants

  datatype MarketRow = MarketRow(
    accBorrowIndex: int, accFundingIndex: int, lastIndexUpdate: int, longOi: int, shortOi: int)

  datatype PositionRow = PositionRow(
    isLong: bool, size: int, collateral: int, entryPrice: int, entryBorrowIndex: int, entryFundingIndex: int)

  datatype VaultRow = VaultRow(reserved: int, totalAssets: int)

  datatype MirrorTick = MirrorTick(market: MarketRow, markPrice: int)

  datatype MirrorEvaluation = MirrorEvaluation(
    pnl: int, borrowFee: int, fundingFee: int, effectiveFunding: int, protocolCut: int,
    health: int, effectiveHealth: int)

  /** Projects a market row to `now`. Its utilization divides by the vault's whole balance,
      fee buffer included. */
  function Project(market: MarketRow, markPrice: int, vault: VaultRow, cfg: Config, now: int,
                   lastUnpause: int): MirrorTick {
    var start := if market.lastIndexUpdate > lastUnpause then market.lastIndexUpdate else lastUnpause;
    var elapsed: nat := if now > start then now - start else 0;
    if elapsed == 0 then
      MirrorTick(market.(lastIndexUpdate := now), markPrice)
    else
      var utilization := UtilizationBps(vault.reserved, vault.totalAssets);
      var borrowRate := BorrowRate(utilization, cfg.baseBorrowRate, cfg.slope1, cfg.slope2, cfg.optimalUtilization);
      var fundingRate := BigintFundingRate(market.longOi, market.shortOi, cfg.baseFundingRate);
      MirrorTick(
        market.(accBorrowIndex := AccumulateIndex(market.accBorrowIndex, borrowRate, elapsed),
                accFundingIndex := AccumulateIndex(market.accFundingIndex, fundingRate, elapsed),
                lastIndexUpdate := now),
        markPrice)
  }

  function EvaluateRow(tick: MirrorTick, pos: PositionRow, cutBps: int): MirrorEvaluation {
    var m := tick.market;
    var pnl := UnrealizedPnl(pos.size, pos.entryPrice, tick.markPrice, pos.isLong);
    var borrowFee := BorrowFee(pos.size, pos.entryBorrowIndex, m.accBorrowIndex);
    var fundingFee := FundingFee(pos.size, pos.entryFundingIndex, m.accFundingIndex, pos.isLong);
    var payerOi := if pos.isLong then m.shortOi else m.longOi;
    var receiverOi := if pos.isLong then m.longOi else m.shortOi;
    var zeroSum :=
      if fundingFee > 0 && receiverOi <= 0 then 0
      else if fundingFee > 0 && payerOi < receiverOi then TDiv(fundingFee * payerOi, receiverOi)
      else fundingFee;
    var cut := if zeroSum > 0 then TDiv(zeroSum * cutBps, BPS) else 0;
    var effective := zeroSum - cut;
    MirrorEvaluation(pnl, borrowFee, fundingFee, effective, cut,
                     pos.collateral + pnl - borrowFee + fundingFee,
                     pos.collateral + pnl - borrowFee + effective)
  }

  // ----- Rows that mirror the contracts' storage -----

  function RowOfMarket(m: Market): MarketRow {
    MarketRow(m.accBorrowIndex, m.accFundingIndex, m.lastIndexUpdate, m.longOi, m.shortOi)
  }

  function RowOfPosition(p: Position): PositionRow {
    PositionRow(p.isLong, p.size, p.collateral, p.entryPrice, p.entryBorrowIndex, p.entryFundingIndex)
  }

  function RowOfVault(f: Funds): VaultRow {
    VaultRow(f.vault.reserved, TotalAssets(f))
  }

  /** On the same indices, open interest and mark, the mirror computes what the contract
      settles. */
  lemma EvaluationsAgree(m: Market, markPrice: int, p: Position, cutBps: int)
    ensures var ev := Evaluate(m, markPrice, p, p.size, p.collateral, cutBps);
            var row := EvaluateRow(MirrorTick(RowOfMarket(m), markPrice), RowOfPosition(p), cutBps);
            && row.pnl == ev.pnl && row.borrowFee == ev.borrowFee && row.fundingFee == ev.fundingFee
            && row.effectiveFunding == ev.effectiveFunding && row.protocolCut == ev.protocolCut
            && row.effectiveHealth == ev.effectiveHealth
            && row.health == ev.effectiveHealth - ev.effectiveFunding + ev.fundingFee
  {
    hide TDiv, UnrealizedPnl, BorrowFee, FundingFee;
  }

  // ----- Projection against the contract's refresh -----

  /** The projected tick of a stored market. */
  function Projected(w: World, symbol: Symbol, markPrice: int, cfg: Config): MirrorTick {
    Project(RowOfMarket(MarketOf(w, symbol)), markPrice, RowOfVault(w.funds), cfg, w.now, w.pm.lastUnpause)
  }

  /** The market accrued to now, as if a running pause did not stop the clock. For a manager
      that runs it is the contract's own refresh. */
  function UnclampedMarket(w: World, symbol: Symbol, cfg: Config): Market {
    AccruedMarket(w.(pm := w.pm.(paused := false)), symbol, cfg)
  }

  /** The seconds the mirror projects over. */
  function MirrorSeconds(w: World, symbol: Symbol): int {
    Max(0, w.now - BillingStart(w, symbol))
  }

  /** Nothing but a pause that began before now sets the two windows apart. */
  predicate WindowsAgree(w: World) {
    w.pm.paused ==> w.pm.lastPause == w.now
  }

  /** The mirror's window exceeds the contract's by exactly the time since a running pause
      began. */
  lemma PauseGap(w: World, symbol: Symbol, cfg: Config)
    requires Inv(w) && symbol in w.pm.markets
    ensures MirrorSeconds(w, symbol) - BilledSeconds(w, symbol) == if w.pm.paused then w.now - w.pm.lastPause else 0
    ensures WindowsAgree(w) <==> MirrorSeconds(w, symbol) == BilledSeconds(w, symbol)
    ensures WindowsAgree(w) ==> UnclampedMarket(w, symbol, cfg) == AccruedMarket(w, symbol, cfg)
  {
    hide Book, Money, FundingRate, BorrowRate, AccumulateIndex;
  }

  /** A snapshot on which the contract's utilization basis is positive or nothing is
      reserved, and whose funding product fits the contract's integers. */
  predicate Comparable(w: World, symbol: Symbol, cfg: Config) {
    var m := MarketOf(w, symbol);
    && (SafeBasis(w.funds) > 0 || w.funds.vault.reserved == 0)
    && FitsI128((m.longOi - m.shortOi) * cfg.baseFundingRate)
  }

  /** A solvent snapshot is comparable while the funding product fits, and for every base
      rate up to 100% a year that follows from the utilization product, which the contract
      computes on every open. */
  lemma SolventIsComparable(w: World, symbol: Symbol, cfg: Config)
    requires Inv(w) && Solvent(w.funds) && cfg.Valid()
    requires var m := MarketOf(w, symbol);
             || FitsI128((m.longOi - m.shortOi) * cfg.baseFundingRate)
             || (FitsI128(w.funds.vault.reserved * BPS) && cfg.baseFundingRate <= BPS)
    ensures Comparable(w, symbol, cfg)
  {
    hide Inv;
    ReservedNonNegative(w);
    var m := MarketOf(w, symbol);
    if !FitsI128((m.longOi - m.shortOi) * cfg.baseFundingRate) {
      OpenInterestReserved(w, symbol);
      MulLe(m.longOi + m.shortOi, w.funds.vault.reserved, BPS);
      FundingProductFits(m.longOi, m.shortOi, cfg.baseFundingRate);
    }
  }

  lemma OpenInterestReserved(w: World, symbol: Symbol)
    requires Inv(w)
    ensures MarketOf(w, symbol).longOi >= 0 && MarketOf(w, symbol).shortOi >= 0
    ensures MarketOf(w, symbol).longOi + MarketOf(w, symbol).shortOi <= w.funds.vault.reserved
  {
    hide Sum, Billing;
    ReservedNonNegative(w);
    if symbol in w.pm.markets {
      SumBoundsEntry(w.pm.markets, OiWeight, symbol);
    }
  }

  /** On a comparable snapshot the projection differs from the accrual to now in one number
      only: its borrow index may lag, because its utilization basis includes the fee
      buffer. */
  lemma ProjectionLags(w: World, symbol: Symbol, markPrice: int, cfg: Config)
    requires Inv(w) && cfg.Valid() && Comparable(w, symbol, cfg)
    ensures var onChain := RowOfMarket(UnclampedMarket(w, symbol, cfg));
            var projected := Projected(w, symbol, markPrice, cfg);
            && projected.markPrice == markPrice
            && projected.market == onChain.(accBorrowIndex := projected.market.accBorrowIndex,
                                            lastIndexUpdate := projected.market.lastIndexUpdate)
            && projected.market.accBorrowIndex <= onChain.accBorrowIndex
  {
    hide Inv, AccumulateIndex, BorrowRate, UtilizationBps, TDiv;
    var m := MarketOf(w, symbol);
    FundingRateMatchesBigint(m.longOi, m.shortOi, cfg.baseFundingRate);
    ReservedNonNegative(w);
    FeesNonNegative(w);
    var reserved, basis, total := w.funds.vault.reserved, SafeBasis(w.funds), TotalAssets(w.funds);
    UtilizationMonotone(reserved, basis, total);
    var low, high := UtilizationBps(reserved, total), UtilizationBps(reserved, basis);
    BorrowRateMonotone(low, high, cfg.baseBorrowRate, cfg.slope1, cfg.slope2, cfg.optimalUtilization);
    var elapsed := w.now - BillingStart(w, symbol);
    if elapsed > 0 {
      IndexMonotoneInRate(
        m.accBorrowIndex,
        BorrowRate(low, cfg.baseBorrowRate, cfg.slope1, cfg.slope2, cfg.optimalUtilization),
        BorrowRate(high, cfg.baseBorrowRate, cfg.slope1, cfg.slope2, cfg.optimalUtilization),
        elapsed);
    }
  }

  /** The projection bills every second since the last update or unpause, a running pause
      included, at the utilization of the vault's whole balance. */
  lemma ProjectionExact(w: World, symbol: Symbol, markPrice: int, cfg: Config)
    ensures var m, projected := MarketOf(w, symbol), Projected(w, symbol, markPrice, cfg);
            var seconds := Max(0, w.now - Max(m.lastIndexUpdate, w.pm.lastUnpause));
            var borrowRate := BorrowRate(UtilizationBps(w.funds.vault.reserved, TotalAssets(w.funds)),
                                         cfg.baseBorrowRate, cfg.slope1, cfg.slope2, cfg.optimalUtilization);
            var fundingRate := BigintFundingRate(m.longOi, m.shortOi, cfg.baseFundingRate);
            && projected.markPrice == markPrice
            && Truncates(borrowRate * INDEX_PRECISION * seconds, BPS * SECONDS_PER_YEAR,
                         projected.market.accBorrowIndex - m.accBorrowIndex)
            && Truncates(fundingRate * INDEX_PRECISION * seconds, BPS * SECONDS_PER_YEAR,
                         projected.market.accFundingIndex - m.accFundingIndex)
            && projected.market.longOi == m.longOi && projected.market.shortOi == m.shortOi
  {
    hide AccumulateIndex, BorrowRate, BigintFundingRate, UtilizationBps, Truncates;
    var m := MarketOf(w, symbol);
    var seconds := MirrorSeconds(w, symbol);
    var borrowRate := BorrowRate(UtilizationBps(w.funds.vault.reserved, TotalAssets(w.funds)), cfg.baseBorrowRate,
                                 cfg.slope1, cfg.slope2, cfg.optimalUtilization);
    var fundingRate := BigintFundingRate(m.longOi, m.shortOi, cfg.baseFundingRate);
    AccumulateIndexExact(m.accBorrowIndex, borrowRate, seconds);
    AccumulateIndexExact(m.accFundingIndex, fundingRate, seconds);
    if seconds == 0 {
      NothingAccrues(borrowRate);
      NothingAccrues(fundingRate);
    }
  }

  lemma FeesNonNegative(w: World)
    requires Inv(w)
    ensures w.funds.vault.unclaimedFees >= 0 && TotalAssets(w.funds) >= 0
  {
  }

  /** What the keeper flags. */
  predicate Flagged(tick: MirrorTick, pos: PositionRow, thresholdBps: int, cutBps: int) {
    EvaluateRow(tick, pos, cutBps).effectiveHealth < TDiv(pos.collateral * thresholdBps, BPS)
  }

  /** On one snapshot, price and configuration, every position the keeper flags is below its
      threshold once its market is accrued to now; while the windows agree it passes the
      contract's gate. */
  lemma FlaggedIsLiquidatable(w: World, key: PositionKey, markPrice: int, cfg: Config)
    requires Inv(w) && cfg.Valid() && Comparable(w, key.symbol, cfg) && key in w.pm.positions
    requires Flagged(Projected(w, key.symbol, markPrice, cfg), RowOfPosition(w.pm.positions[key]),
                     cfg.liquidationThresholdBps, cfg.fundingCutBps)
    ensures Liquidatable(UnclampedMarket(w, key.symbol, cfg), markPrice, w.pm.positions[key], cfg.fundingCutBps,
                         cfg.liquidationThresholdBps)
    ensures WindowsAgree(w) ==>
              Liquidatable(AccruedMarket(w, key.symbol, cfg), markPrice, w.pm.positions[key], cfg.fundingCutBps,
                           cfg.liquidationThresholdBps)
  {
    hide Inv, AccruedMarket, UnclampedMarket, Project, TDiv, Evaluate, EvaluateRow;
    var pos, market := w.pm.positions[key], UnclampedMarket(w, key.symbol, cfg);
    var projected := Projected(w, key.symbol, markPrice, cfg);
    ProjectionLags(w, key.symbol, markPrice, cfg);
    EvaluationsAgree(market, markPrice, pos, cfg.fundingCutBps);
    PositionListed(w, key);
    HealthFallsWithIndex(projected.market, RowOfMarket(market), markPrice, RowOfPosition(pos), cfg.fundingCutBps);
    PauseGap(w, key.symbol, cfg);
  }

  /** What the mirror's lower borrow index leaves out of a position's fee. */
  function MissingFee(w: World, key: PositionKey, markPrice: int, cfg: Config): int
    requires key in w.pm.positions
  {
    var pos := w.pm.positions[key];
    BorrowFee(pos.size, pos.entryBorrowIndex, UnclampedMarket(w, key.symbol, cfg).accBorrowIndex)
    - BorrowFee(pos.size, pos.entryBorrowIndex, Projected(w, key.symbol, markPrice, cfg).market.accBorrowIndex)
  }

  /** Exactly which positions the keeper flags: those whose health, once their market is
      accrued to now, stays below the threshold with the missing borrow fee added back. With no
      fees in the vault's buffer nothing is missing: the flagged are then exactly the
      liquidatable. */
  lemma FlaggedIff(w: World, key: PositionKey, markPrice: int, cfg: Config)
    requires Inv(w) && cfg.Valid() && Comparable(w, key.symbol, cfg) && key in w.pm.positions
    ensures var pos, market := w.pm.positions[key], UnclampedMarket(w, key.symbol, cfg);
            var health := Evaluate(market, markPrice, pos, pos.size, pos.collateral, cfg.fundingCutBps).effectiveHealth;
            var missing := MissingFee(w, key, markPrice, cfg);
            && (Flagged(Projected(w, key.symbol, markPrice, cfg), RowOfPosition(pos), cfg.liquidationThresholdBps,
                        cfg.fundingCutBps)
                <==> health + missing < LiquidationThreshold(pos.collateral, cfg.liquidationThresholdBps))
            && missing >= 0
            && (w.funds.vault.unclaimedFees == 0 ==> missing == 0)
  {
    hide Inv, AccruedMarket, UnclampedMarket, Project, TDiv, Evaluate, EvaluateRow, BorrowFee;
    var pos, market := w.pm.positions[key], UnclampedMarket(w, key.symbol, cfg);
    var projected := Projected(w, key.symbol, markPrice, cfg);
    ProjectionLags(w, key.symbol, markPrice, cfg);
    EvaluationsAgree(market, markPrice, pos, cfg.fundingCutBps);
    PositionListed(w, key);
    BorrowFeeMonotone(pos.size, pos.entryBorrowIndex, projected.market.accBorrowIndex, market.accBorrowIndex);
    HealthByIndex(projected.market, RowOfMarket(market), markPrice, RowOfPosition(pos), cfg.fundingCutBps);
    if w.funds.vault.unclaimedFees == 0 {
      NothingMissing(w, key.symbol, markPrice, cfg);
    }
  }

  lemma HealthByIndex(low: MarketRow, high: MarketRow, markPrice: int, pos: PositionRow, cutBps: int)
    requires low.accFundingIndex == high.accFundingIndex && low.longOi == high.longOi && low.shortOi == high.shortOi
    ensures EvaluateRow(MirrorTick(low, markPrice), pos, cutBps).effectiveHealth
            == EvaluateRow(MirrorTick(high, markPrice), pos, cutBps).effectiveHealth
               + BorrowFee(pos.size, pos.entryBorrowIndex, high.accBorrowIndex)
               - BorrowFee(pos.size, pos.entryBorrowIndex, low.accBorrowIndex)
  {
    hide TDiv, UnrealizedPnl, FundingFee, BorrowFee;
  }

  lemma NothingMissing(w: World, symbol: Symbol, markPrice: int, cfg: Config)
    requires Inv(w) && w.funds.vault.unclaimedFees == 0
    ensures Projected(w, symbol, markPrice, cfg).market.accBorrowIndex == UnclampedMarket(w, symbol, cfg).accBorrowIndex
  {
    hide Inv, AccumulateIndex, BorrowRate, FundingRate, BigintFundingRate, UtilizationBps;
    FeesNonNegative(w);
  }

  lemma PositionListed(w: World, key: PositionKey)
    requires Inv(w) && key in w.pm.positions
    ensures w.pm.positions[key].size > 0 && key.symbol in w.pm.markets
  {
    hide Money, Billing;
  }

  /** A higher borrow index lowers effective health and changes nothing else. */
  lemma HealthFallsWithIndex(low: MarketRow, high: MarketRow, markPrice: int, pos: PositionRow, cutBps: int)
    requires pos.size >= 0 && low.accBorrowIndex <= high.accBorrowIndex
    requires low.accFundingIndex == high.accFundingIndex && low.longOi == high.longOi && low.shortOi == high.shortOi
    ensures EvaluateRow(MirrorTick(high, markPrice), pos, cutBps).effectiveHealth
            <= EvaluateRow(MirrorTick(low, markPrice), pos, cutBps).effectiveHealth
  {
    hide TDiv, UnrealizedPnl, FundingFee, BorrowFee;
    BorrowFeeMonotone(pos.size, pos.entryBorrowIndex, low.accBorrowIndex, high.accBorrowIndex);
  }

  // ----- Liquidation price -----

  /** The PnL at which the gate would trip, given the fees accrued so far. */
  function RequiredPnl(pos: PositionRow, ev: MirrorEvaluation, thresholdBps: int): int {
    TDiv(pos.collateral * thresholdBps, BPS) - pos.collateral + ev.borrowFee - ev.effectiveFunding
  }

  function LiquidationPrice(pos: PositionRow, tick: MirrorTick, thresholdBps: int, cutBps: int): Option<int> {
    if pos.size == 0 || pos.collateral == 0 || pos.entryPrice == 0 then
      None
    else
      var adjustment := TDiv(pos.entryPrice * RequiredPnl(pos, EvaluateRow(tick, pos, cutBps), thresholdBps), pos.size);
      Some(if pos.isLong then pos.entryPrice + adjustment else pos.entryPrice - adjustment)
  }

  /** How far a mark lies on the winning side of the entry price. */
  function Gain(pos: PositionRow, markPrice: int): int {
    if pos.isLong then markPrice - pos.entryPrice else pos.entryPrice - markPrice
  }

  /** Fees do not depend on the mark, so the gate at any mark is a bound on PnL alone. */
  lemma GateAtMark(market: Market, p: Position, tickMark: int, markPrice: int, thresholdBps: int, cutBps: int)
    requires p.size > 0 && p.entryPrice > 0
    ensures var row := RowOfPosition(p);
            var ev := EvaluateRow(MirrorTick(RowOfMarket(market), tickMark), row, cutBps);
            Liquidatable(market, markPrice, p, cutBps, thresholdBps)
            <==> TDiv(p.size * Gain(row, markPrice), p.entryPrice) < RequiredPnl(row, ev, thresholdBps)
  {
    hide TDiv, BorrowFee, FundingFee;
  }

  /** Inverting the gate: `distance` is what the mirror adds to the entry price. */
  lemma InvertGate(size: int, entry: int, required: int, gain: int)
    requires size > 0 && entry > 0
    ensures var distance := TDiv(entry * required, size);
            var trips := TDiv(size * gain, entry) < required;
            && (required <= 0 && gain >= distance ==> !trips)
            && (required <= 0 && gain <= distance - (entry + size - 1) / size - 1 ==> trips)
            && (required > 0 && gain > distance ==> !trips)
            && (required > 0 && gain < distance ==> trips)
            && (required > 0 && gain == distance ==> (trips <==> size * distance != entry * required))
  {
    hide TDiv;
    var distance := TDiv(entry * required, size);
    TDivBounds(entry * required, size);
    TDivBelow(size * gain, entry, required);
    Distribute(required, 1, entry);
    if required <= 0 {
      MulLe(required, 0, entry);
      var margin := (entry + size - 1) / size;
      EuclideanQuotient(entry + size - 1, size);
      Distribute(distance - margin, 1, size);
      Distribute(distance, margin, size);
      if gain >= distance {
        MulLe(distance, gain, size);
      } else if gain <= distance - margin - 1 {
        MulLe(gain, distance - margin - 1, size);
      }
    } else {
      MulLe(0, required, entry);
      Distribute(distance, 1, size);
      if gain > distance {
        MulLe(distance + 1, gain, size);
      } else if gain < distance {
        MulLe(gain, distance - 1, size);
      }
    }
  }

  /** The displayed price is safe for a position that is not already liquidatable by its
      fees: no mark at or better than it passes the gate, and every mark worse by more
      than one rounding step of the entry price does. */
  lemma LiquidationPriceSound(market: Market, p: Position, tickMark: int, markPrice: int, thresholdBps: int,
                              cutBps: int)
    requires p.size > 0 && p.entryPrice > 0 && p.collateral > 0
    requires RequiredPnl(RowOfPosition(p), EvaluateRow(MirrorTick(RowOfMarket(market), tickMark), RowOfPosition(p),
                                                       cutBps),
                         thresholdBps) <= 0
    ensures var tick := MirrorTick(RowOfMarket(market), tickMark);
            var price := LiquidationPrice(RowOfPosition(p), tick, thresholdBps, cutBps);
            var margin := (p.entryPrice + p.size - 1) / p.size + 1;
            && price.Some?
            && ((if p.isLong then markPrice >= price.value else markPrice <= price.value) ==>
                  !Liquidatable(market, markPrice, p, cutBps, thresholdBps))
            && ((if p.isLong then markPrice <= price.value - margin else markPrice >= price.value + margin) ==>
                  Liquidatable(market, markPrice, p, cutBps, thresholdBps))
  {
    hide TDiv, EvaluateRow, Liquidatable;
    var row := RowOfPosition(p);
    var ev := EvaluateRow(MirrorTick(RowOfMarket(market), tickMark), row, cutBps);
    GateAtMark(market, p, tickMark, markPrice, thresholdBps, cutBps);
    InvertGate(p.size, p.entryPrice, RequiredPnl(row, ev, thresholdBps), Gain(row, markPrice));
  }

  /** Once fees require a profit, the displayed price is exact up to one tick: better marks
      are safe, worse marks liquidatable. */
  lemma LiquidationPriceTight(market: Market, p: Position, tickMark: int, markPrice: int, thresholdBps: int,
                              cutBps: int)
    requires p.size > 0 && p.entryPrice > 0 && p.collateral > 0
    requires RequiredPnl(RowOfPosition(p), EvaluateRow(MirrorTick(RowOfMarket(market), tickMark), RowOfPosition(p),
                                                       cutBps),
                         thresholdBps) > 0
    ensures var tick := MirrorTick(RowOfMarket(market), tickMark);
            var price := LiquidationPrice(RowOfPosition(p), tick, thresholdBps, cutBps);
            && price.Some?
            && ((if p.isLong then markPrice > price.value else markPrice < price.value) ==>
                  !Liquidatable(market, markPrice, p, cutBps, thresholdBps))
            && ((if p.isLong then markPrice < price.value else markPrice > price.value) ==>
                  Liquidatable(market, markPrice, p, cutBps, thresholdBps))
  {
    hide TDiv, EvaluateRow, Liquidatable;
    var row := RowOfPosition(p);
    var ev := EvaluateRow(MirrorTick(RowOfMarket(market), tickMark), row, cutBps);
    GateAtMark(market, p, tickMark, markPrice, thresholdBps, cutBps);
    InvertGate(p.size, p.entryPrice, RequiredPnl(row, ev, thresholdBps), Gain(row, markPrice));
  }

  /** The displayed price itself passes the gate exactly when fees already require a
      profit and the size does not divide the rounded product. */
  lemma DisplayedPriceLiquidatable(market: Market, p: Position, tickMark: int, thresholdBps: int, cutBps: int)
    requires p.size > 0 && p.entryPrice > 0 && p.collateral > 0
    ensures var row := RowOfPosition(p);
            var tick := MirrorTick(RowOfMarket(market), tickMark);
            var required := RequiredPnl(row, EvaluateRow(tick, row, cutBps), thresholdBps);
            Liquidatable(market, LiquidationPrice(row, tick, thresholdBps, cutBps).value, p, cutBps, thresholdBps)
            <==> required > 0 && (p.entryPrice * required) % p.size != 0
  {
    hide TDiv, EvaluateRow, Liquidatable;
    var row := RowOfPosition(p);
    var tick := MirrorTick(RowOfMarket(market), tickMark);
    var required := RequiredPnl(row, EvaluateRow(tick, row, cutBps), thresholdBps);
    var price := LiquidationPrice(row, tick, thresholdBps, cutBps).value;
    GateAtMark(market, p, tickMark, price, thresholdBps, cutBps);
    InvertGate(p.size, p.entryPrice, required, Gain(row, price));
    if required > 0 {
      MulLe(0, required, p.entryPrice);
      TDivOfNonNegative(p.entryPrice * required, p.size);
      DividesIffExact(p.entryPrice * required, p.size);
    }
  }

  lemma DividesIffExact(x: nat, y: int)
    requires y > 0
    ensures x % y == 0 <==> y * (x / y) == x
  {
    assert x == y * (x / y) + x % y;
  }

  /** The gate is monotone: a mark that is no better for the position is no safer. */
  lemma GateMonotoneInMark(market: Market, p: Position, better: int, worse: int, thresholdBps: int, cutBps: int)
    requires p.size > 0 && p.entryPrice > 0
    requires if p.isLong then worse <= better else better <= worse
    ensures Liquidatable(market, better, p, cutBps, thresholdBps) ==>
              Liquidatable(market, worse, p, cutBps, thresholdBps)
  {
    hide TDiv, EvaluateRow, Liquidatable;
    var row := RowOfPosition(p);
    GateAtMark(market, p, 0, better, thresholdBps, cutBps);
    GateAtMark(market, p, 0, worse, thresholdBps, cutBps);
    MulLe(Gain(row, worse), Gain(row, better), p.size);
    TDivMonotone(p.size * Gain(row, worse), p.size * Gain(row, better), p.entryPrice);
  }
}
