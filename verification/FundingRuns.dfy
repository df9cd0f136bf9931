/** Funding over whole runs: what traders have been paid at closes and what the open
    positions have accrued is, together, never more than the roundings of the trades. */
module FundingRuns {
  import opened FixedPoint
  import opened Types
  import opened RiskMath
  import opened FundingRates
  import opened MapSums
  import opened Evaluations
  import opened VaultLedger
  import opened Ledger
  import opened Settlement
  import opened Invariants
  import opened BookSteps
  import opened Steps
  import opened Entrypoints
  import opened Runs

  // ----- The funding account of one market -----

  /** A position's raw accrual at an index, in units of the index precision: positive when
      it is to receive. */
  function RawAccrual(p: Position, index: int): int {
    (if p.isLong then -1 else 1) * ((index - p.entryFundingIndex) * p.size)
  }

  function AccruedOn(symbol: Symbol, index: int): (PositionKey, Position) -> int {
    (k: PositionKey, p: Position) => if k.symbol == symbol then RawAccrual(p, index) else 0
  }

  function FundingIndex(markets: Markets, symbol: Symbol): int {
    if symbol in markets then markets[symbol].accFundingIndex else INDEX_PRECISION
  }

  /** A trade rounds in the traders' favour by less than one unit at a close, and by
      less than the position's size, which the open interest bounds, at an open. */
  function Rounding(h: History, side: Side): int {
    Max(INDEX_PRECISION, PeakOn(h, side))
  }

  function RoundingBudget(h: History, side: Side): int {
    TradesOn(h, side) * Rounding(h, side)
  }

  ghost predicate FundingBounded(positions: Positions, markets: Markets, h: History, symbol: Symbol) {
    INDEX_PRECISION * SettledFunding(h, symbol) + Sum(positions, AccruedOn(symbol, FundingIndex(markets, symbol)))
    <= RoundingBudget(h, Side(symbol, true)) + RoundingBudget(h, Side(symbol, false))
  }

  ghost predicate FundingBook(w: World) {
    forall symbol :: FundingBounded(w.pm.positions, w.pm.markets, w.history, symbol)
  }

  /** A trade adds one rounding to the budget of its side. */
  lemma BudgetGrows(h: History, h': History, m: Market, traded: Side, side: Side)
    requires h'.trades == Traded(h, m, traded).trades && h'.peakOi == Traded(h, m, traded).peakOi
    ensures RoundingBudget(h', side)
            >= RoundingBudget(h, side) + (if side == traded then Rounding(h', side) else 0)
  {
    if side == traded {
      MulLe(Rounding(h, side), Rounding(h', side), TradesOn(h, side));
      Distribute(TradesOn(h, side), 1, Rounding(h', side));
    }
  }

  /** Only positions, funding indices and the trades' part of the history matter. */
  lemma FundingFrame(positions: Positions, markets: Markets, markets': Markets, h: History, h': History, symbol: Symbol)
    requires FundingBounded(positions, markets, h, symbol)
    requires FundingIndex(markets', symbol) == FundingIndex(markets, symbol)
    requires h'.trades == h.trades && h'.peakOi == h.peakOi && h'.settledFunding == h.settledFunding
    ensures FundingBounded(positions, markets', h', symbol)
  {
    hide Sum, AccruedOn;
  }

  // ----- Accrual -----

  lemma ShiftOfOne(p: Position, index: int, shift: int)
    ensures RawAccrual(p, index + shift) == RawAccrual(p, index) - shift * (if p.isLong then p.size else -p.size)
  {
    Distribute(index - p.entryFundingIndex, shift, p.size);
  }

  lemma {:induction false} AccrualShift(m: Positions, symbol: Symbol, index: int, shift: int)
    ensures Sum(m, AccruedOn(symbol, index + shift))
            == Sum(m, AccruedOn(symbol, index))
               - shift * (Sum(m, SideSize(Side(symbol, true))) - Sum(m, SideSize(Side(symbol, false))))
    decreases |m|
  {
    hide Sum, AccruedOn, SideSize;
    var long, short := SideSize(Side(symbol, true)), SideSize(Side(symbol, false));
    if m == map[] {
      SumEmpty(m, AccruedOn(symbol, index + shift));
      SumEmpty(m, AccruedOn(symbol, index));
      SumEmpty(m, long);
      SumEmpty(m, short);
    } else {
      var k :| k in m;
      AccrualShift(m - {k}, symbol, index, shift);
      OneMoreShifts(m, symbol, index, shift, k);
    }
  }

  lemma OneMoreShifts(m: Positions, symbol: Symbol, index: int, shift: int, k: PositionKey)
    requires k in m
    requires var long, short := SideSize(Side(symbol, true)), SideSize(Side(symbol, false));
             Sum(m - {k}, AccruedOn(symbol, index + shift))
             == Sum(m - {k}, AccruedOn(symbol, index)) - shift * (Sum(m - {k}, long) - Sum(m - {k}, short))
    ensures var long, short := SideSize(Side(symbol, true)), SideSize(Side(symbol, false));
            Sum(m, AccruedOn(symbol, index + shift))
            == Sum(m, AccruedOn(symbol, index)) - shift * (Sum(m, long) - Sum(m, short))
  {
    hide Sum, RawAccrual;
    var long, short := SideSize(Side(symbol, true)), SideSize(Side(symbol, false));
    SumPick(m, AccruedOn(symbol, index + shift), k);
    SumPick(m, AccruedOn(symbol, index), k);
    SumPick(m, long, k);
    SumPick(m, short, k);
    ShiftOfOne(m[k], index, shift);
    Distribute(long(k, m[k]) - short(k, m[k]), Sum(m - {k}, long) - Sum(m - {k}, short), shift);
  }

  lemma AccrualSign(index: int, rate: int, elapsed: nat)
    ensures rate >= 0 ==> AccumulateIndex(index, rate, elapsed) >= index
    ensures rate <= 0 ==> AccumulateIndex(index, rate, elapsed) <= index
  {
    hide TDiv;
    if rate >= 0 {
      MulLe(0, rate * INDEX_PRECISION, elapsed);
    }
    if rate <= 0 {
      MulLe(rate * INDEX_PRECISION, 0, elapsed);
    }
    TDivBounds(rate * INDEX_PRECISION * elapsed, BPS * SECONDS_PER_YEAR);
  }

  /** An accrual never pays out on balance: the index moves against the larger side. */
  lemma IndexMovesAgainstTheCrowd(w: World, symbol: Symbol, cfg: Config)
    requires Inv(w) && cfg.Valid()
    ensures var m := MarketOf(w, symbol);
            (AccruedMarket(w, symbol, cfg).accFundingIndex - m.accFundingIndex) * (m.longOi - m.shortOi) >= 0
  {
    hide Inv, FundingRate, BorrowRate, TDiv, AccumulateIndex, BillingStart, BillingEnd;
    var m := MarketOf(w, symbol);
    StoredOi(w, symbol);
    FundingRateBounded(m.longOi, m.shortOi, cfg.baseFundingRate);
    var rate, elapsed := FundingRate(m.longOi, m.shortOi, cfg.baseFundingRate),
                         BillingEnd(w, symbol) - BillingStart(w, symbol);
    if elapsed > 0 {
      AccrualSign(m.accFundingIndex, rate, elapsed);
      var shift := AccumulateIndex(m.accFundingIndex, rate, elapsed) - m.accFundingIndex;
      if m.longOi >= m.shortOi {
        MulLe(0, shift, m.longOi - m.shortOi);
      } else {
        MulLe(shift, 0, m.shortOi - m.longOi);
        assert shift * (m.longOi - m.shortOi) == -(shift * (m.shortOi - m.longOi));
      }
    }
  }

  lemma StoredOi(w: World, symbol: Symbol)
    requires Inv(w)
    ensures MarketOf(w, symbol).longOi >= 0 && MarketOf(w, symbol).shortOi >= 0
    ensures Sum(w.pm.positions, SideSize(Side(symbol, true))) == MarketOf(w, symbol).longOi
    ensures Sum(w.pm.positions, SideSize(Side(symbol, false))) == MarketOf(w, symbol).shortOi
  {
    hide Sum, Money, Billing, DriftBounded;
    assert SideOi(w.pm.markets, Side(symbol, true)) == Sum(w.pm.positions, SideSize(Side(symbol, true)));
    assert SideOi(w.pm.markets, Side(symbol, false)) == Sum(w.pm.positions, SideSize(Side(symbol, false)));
  }

  lemma AccrualKeepsFunding(w: World, symbol: Symbol, cfg: Config)
    requires Inv(w) && FundingBook(w) && cfg.Valid()
    ensures FundingBook(Accrued(w, symbol, cfg))
  {
    hide Sum, Inv, AccruedMarket, BillingStart, BillingEnd, FundingBounded;
    var w' := Accrued(w, symbol, cfg);
    forall s: Symbol
      ensures FundingBounded(w'.pm.positions, w'.pm.markets, w'.history, s)
    {
      assert FundingBounded(w.pm.positions, w.pm.markets, w.history, s);
      if s == symbol && w' != w {
        AccrualOnMarket(w, s, cfg);
      } else {
        FundingFrame(w.pm.positions, w.pm.markets, w'.pm.markets, w.history, w'.history, s);
      }
    }
  }

  lemma AccrualOnMarket(w: World, symbol: Symbol, cfg: Config)
    requires Inv(w) && cfg.Valid() && Accrued(w, symbol, cfg) != w
    requires FundingBounded(w.pm.positions, w.pm.markets, w.history, symbol)
    ensures var w' := Accrued(w, symbol, cfg);
            FundingBounded(w'.pm.positions, w'.pm.markets, w'.history, symbol)
  {
    hide Sum, Inv, AccruedMarket, BillingStart, BillingEnd, AccruedOn;
    var m := MarketOf(w, symbol);
    var index, index' := m.accFundingIndex, AccruedMarket(w, symbol, cfg).accFundingIndex;
    AccrualShift(w.pm.positions, symbol, index, index' - index);
    IndexMovesAgainstTheCrowd(w, symbol, cfg);
    StoredOi(w, symbol);
    assert index + (index' - index) == index';
    assert FundingIndex(w.pm.markets, symbol) == index;
    assert FundingIndex(Accrued(w, symbol, cfg).pm.markets, symbol) == index';
  }

  // ----- Close -----

  /** What leaves with a slice and what stays add up to what had accrued. */
  lemma SliceAccrual(pos: Position, index: int, sizeDelta: int, collateralDelta: int)
    ensures RawAccrual(pos, index)
            == RawAccrual(pos.(size := sizeDelta), index)
               + RawAccrual(Remaining(pos, sizeDelta, collateralDelta), index)
  {
    Distribute(pos.size, sizeDelta, index - pos.entryFundingIndex);
  }

  /** A close pays no more than the slice accrued, up to its rounding. */
  lemma SettledWithinAccrual(market: Market, markPrice: int, pos: Position, size: int, collateral: int, cutBps: int)
    requires market.longOi >= 0 && market.shortOi >= 0 && 0 <= cutBps <= BPS
    ensures INDEX_PRECISION * Evaluate(market, markPrice, pos, size, collateral, cutBps).effectiveFunding
            < RawAccrual(pos.(size := size), market.accFundingIndex) + INDEX_PRECISION
  {
    hide TDiv, Evaluate;
    EvaluationFacts(market, markPrice, pos, size, collateral, cutBps);
    assert Evaluate(market, markPrice, pos, size, collateral, cutBps).fundingFee
           == FundingFee(size, pos.entryFundingIndex, market.accFundingIndex, pos.isLong) by {
      FeeOf(market, markPrice, pos, size, collateral, cutBps);
    }
    TDivBounds((market.accFundingIndex - pos.entryFundingIndex) * size, INDEX_PRECISION);
  }

  lemma FeeOf(market: Market, markPrice: int, pos: Position, size: int, collateral: int, cutBps: int)
    ensures Evaluate(market, markPrice, pos, size, collateral, cutBps).fundingFee
            == FundingFee(size, pos.entryFundingIndex, market.accFundingIndex, pos.isLong)
  {
    hide TDiv;
  }

  lemma CloseOnMarket(positions: Positions, markets: Markets, h: History, h': History, key: PositionKey, pos: Position,
                      sizeDelta: int, collateralDelta: int, paid: int, symbol: Symbol)
    requires FundingBounded(positions, markets, h, symbol)
    requires Closes(positions, markets, key, pos, sizeDelta, collateralDelta)
    requires INDEX_PRECISION * paid
             < RawAccrual(pos.(size := sizeDelta), markets[key.symbol].accFundingIndex) + INDEX_PRECISION
    requires var traded := Traded(h, MarketAfterClose(markets[key.symbol], pos, sizeDelta),
                                  Side(key.symbol, pos.isLong));
             h'.trades == traded.trades && h'.peakOi == traded.peakOi
    requires h'.settledFunding == h.settledFunding[key.symbol := SettledFunding(h, key.symbol) + paid]
    ensures FundingBounded(PositionsAfterClose(positions, key, pos, sizeDelta, collateralDelta),
                           MarketsAfterClose(markets, key, pos, sizeDelta), h', symbol)
  {
    hide Sum, RawAccrual, PositionsAfterClose, Traded, AverageAfterRemoval, RoundingBudget, CollateralSlice;
    var index, traded := FundingIndex(markets, symbol), Side(key.symbol, pos.isLong);
    assert FundingIndex(MarketsAfterClose(markets, key, pos, sizeDelta), symbol) == index;
    SumAfterClose(positions, key, pos, sizeDelta, collateralDelta, AccruedOn(symbol, index));
    BudgetGrows(h, h', MarketAfterClose(markets[key.symbol], pos, sizeDelta), traded, Side(symbol, true));
    BudgetGrows(h, h', MarketAfterClose(markets[key.symbol], pos, sizeDelta), traded, Side(symbol, false));
    if symbol == key.symbol {
      SliceAccrual(pos, index, sizeDelta, collateralDelta);
      assert Rounding(h', traded) >= INDEX_PRECISION;
    }
  }

  lemma CloseKeepsFunding(tick: Tick, key: PositionKey, pos: Position, sizeDelta: int, collateralDelta: int,
                          ev: Evaluation, kind: CloseKind, executor: Option<nat>, cfg: Config)
    requires CloseCall(tick, key, pos, sizeDelta, collateralDelta, ev, kind, executor, cfg)
    requires FundingBook(tick.world)
    ensures var result := ExecuteClose(tick, key, pos, sizeDelta, collateralDelta, ev, kind, executor, cfg);
            result.Ok? ==> FundingBook(result.value)
  {
    hide Sum, SettleFunds, Route, Evaluate, MarketAfterClose, PositionsAfterClose, Inv, FundingBounded, RawAccrual,
         MarketUnrealizedPnl, Traded;
    var result := ExecuteClose(tick, key, pos, sizeDelta, collateralDelta, ev, kind, executor, cfg);
    if result.Ok? {
      var w, w' := tick.world, result.value;
      StoredOi(w, key.symbol);
      SettledWithinAccrual(tick.market, tick.markPrice, pos, sizeDelta, collateralDelta, cfg.fundingCutBps);
      forall s: Symbol
        ensures FundingBounded(w'.pm.positions, w'.pm.markets, w'.history, s)
      {
        assert FundingBounded(w.pm.positions, w.pm.markets, w.history, s);
        CloseOnMarket(w.pm.positions, w.pm.markets, w.history, w'.history, key, pos, sizeDelta, collateralDelta,
                      ev.effectiveFunding, s);
      }
    }
  }

  // ----- Open -----

  lemma PositionWithinPeak(w: World, key: PositionKey)
    requires Inv(w) && key in w.pm.positions
    ensures w.pm.positions[key].size <= PeakOn(w.history, Side(key.symbol, w.pm.positions[key].isLong))
  {
    hide Sum, Money, Billing, OiMatches;
    var side := Side(key.symbol, w.pm.positions[key].isLong);
    PositionWithinOi(w, key);
    assert SideDriftBounded(w.pm.positions, w.pm.markets, w.history, side);
  }

  /** Rounding the entry index moves what has accrued by less than the size. */
  lemma AddingMovesAccrual(p: Position, p': Position, index: int, added: int)
    requires p.size > 0 && added > 0 && p'.size == p.size + added && p'.isLong == p.isLong
    requires p'.entryFundingIndex == WeightedAverage(p.entryFundingIndex, p.size, index, added)
    ensures Abs(RawAccrual(p', index) - RawAccrual(p, index)) < p'.size
  {
    hide TDiv;
    TDivBounds(p.entryFundingIndex * p.size + index * added, p'.size);
    Distribute(index, p'.entryFundingIndex, p'.size);
    Distribute(index, p.entryFundingIndex, p.size);
    Distribute(p.size, added, index);
  }

  lemma OpenOnMarket(positions: Positions, markets: Markets, h: History, h': History, o: Order, market: Market,
                     markPrice: int, pos: Position, now: nat, escrowOwed: int, symbol: Symbol)
    requires FundingBounded(positions, markets, h, symbol)
    requires Opens(positions, o, market, markPrice, pos, now, escrowOwed)
    requires o.key in positions ==> positions[o.key].size > 0
    requires market.accFundingIndex == FundingIndex(markets, o.key.symbol)
    requires var traded := Traded(h, MarketAfterOpen(market, o.isLong, markPrice, o.size),
                                  Side(o.key.symbol, o.isLong));
             h'.trades == traded.trades && h'.peakOi == traded.peakOi
    requires h'.settledFunding == h.settledFunding
    requires pos.size <= PeakOn(h', Side(o.key.symbol, o.isLong))
    ensures FundingBounded(positions[o.key := pos],
                           markets[o.key.symbol := MarketAfterOpen(market, o.isLong, markPrice, o.size)], h', symbol)
  {
    hide Sum, RawAccrual, Traded, WeightedAverage, RoundingBudget;
    var index, traded := FundingIndex(markets, symbol), Side(o.key.symbol, o.isLong);
    var market' := MarketAfterOpen(market, o.isLong, markPrice, o.size);
    assert FundingIndex(markets[o.key.symbol := market'], symbol) == index;
    SumUpdate(positions, AccruedOn(symbol, index), o.key, pos);
    BudgetGrows(h, h', market', traded, Side(symbol, true));
    BudgetGrows(h, h', market', traded, Side(symbol, false));
    if symbol == o.key.symbol {
      if o.key in positions {
        AddingMovesAccrual(positions[o.key], pos, index, o.size);
      } else {
        NothingAccruedYet(pos);
      }
    }
  }

  lemma NothingAccruedYet(p: Position)
    ensures RawAccrual(p, p.entryFundingIndex) == 0
  {
  }

  lemma OpenKeepsFunding(tick: Tick, o: Order, view: VaultView, cfg: Config)
    requires FreshTick(tick, o.key.symbol) && cfg.Valid() && !tick.world.pm.paused
    requires o.size > 0 && o.collateral > 0
    requires FundingBook(tick.world)
    ensures OpenPosition(tick, o, view, cfg).Ok? ==> FundingBook(OpenPosition(tick, o, view, cfg).value)
  {
    hide Sum, OpenFunds, OpenFee, MarketAfterOpen, Inv, WeightedAverage, EscrowDelta, UtilizationBps,
         MarketUnrealizedPnl, FundingBounded;
    var result := OpenPosition(tick, o, view, cfg);
    if result.Ok? {
      var w, w' := tick.world, result.value;
      var escrowOwed := EscrowOwed(LookUp(w.pm.positions, o.key), o, cfg.tpSlExecutionFee);
      var pos := w'.pm.positions[o.key];
      OpenKeeps(tick, o, view, cfg);
      PositionWithinPeak(w', o.key);
      PositionSizePositive(w, o.key);
      forall s: Symbol
        ensures FundingBounded(w'.pm.positions, w'.pm.markets, w'.history, s)
      {
        assert FundingBounded(w.pm.positions, w.pm.markets, w.history, s);
        OpenOnMarket(w.pm.positions, w.pm.markets, w.history, w'.history, o, tick.market, tick.markPrice, pos, w.now,
                     escrowOwed, s);
      }
    }
  }

  lemma PositionSizePositive(w: World, key: PositionKey)
    requires Inv(w)
    ensures key in w.pm.positions ==> w.pm.positions[key].size > 0
  {
    hide Sum, Money, Billing, DriftBounded;
  }

  // ----- Every call -----

  lemma ClosesKeepFunding(w: World, a: Action)
    requires Inv(w) && FundingBook(w) && a.Valid()
    requires a.DoDecrease? || a.DoLiquidate? || a.DoDeleverage? || a.DoExecuteOrder?
    ensures FundingBook(Step(w, a))
  {
    hide Inv, FundingBook, Evaluate, ExecuteClose, TDiv, Accrued, AccruedMarket;
    if a.key in w.pm.positions && a.env.quote.Some? {
      var pos := w.pm.positions[a.key];
      var tick := Refresh(w, a.key.symbol, a.env).value;
      RefreshKeeps(w, a.key.symbol, a.env);
      AccrualKeepsFunding(w, a.key.symbol, a.env.cfg);
      if a.DoDecrease? {
        if 0 < a.sizeDelta <= pos.size {
          SliceKeepsFunding(tick, a.key, a.sizeDelta, CollateralSlice(pos, a.sizeDelta), UserClose, None, a.env.cfg);
        }
      } else {
        PositionSizePositive(w, a.key);
        var kind := if a.DoLiquidate? then Liquidation else if a.DoDeleverage? then Deleverage else OrderExecution;
        SliceKeepsFunding(tick, a.key, pos.size, pos.collateral, kind,
                          if a.DoDeleverage? then None else Some(a.executor), a.env.cfg);
      }
    }
  }

  lemma SliceKeepsFunding(tick: Tick, key: PositionKey, sizeDelta: int, collateralDelta: int, kind: CloseKind,
                          executor: Option<nat>, cfg: Config)
    requires FreshTick(tick, key.symbol) && FundingBook(tick.world) && cfg.Valid()
    requires key in tick.world.pm.positions && ExecutorFits(kind, executor)
    requires var pos := tick.world.pm.positions[key];
             && 0 < sizeDelta <= pos.size && collateralDelta == CollateralSlice(pos, sizeDelta)
             && (sizeDelta < pos.size ==> kind == UserClose)
    ensures var pos := tick.world.pm.positions[key];
            var ev := Evaluate(tick.market, tick.markPrice, pos, sizeDelta, collateralDelta, cfg.fundingCutBps);
            var result := ExecuteClose(tick, key, pos, sizeDelta, collateralDelta, ev, kind, executor, cfg);
            result.Ok? ==> FundingBook(result.value)
  {
    hide FundingBook, Evaluate, ExecuteClose, CollateralSlice, Sum, Money, Billing, OiMatches, DriftBounded;
    var pos := tick.world.pm.positions[key];
    CloseKeepsFunding(tick, key, pos, sizeDelta, collateralDelta,
                      Evaluate(tick.market, tick.markPrice, pos, sizeDelta, collateralDelta, cfg.fundingCutBps), kind,
                      executor, cfg);
  }

  lemma IncreaseKeepsFunding(w: World, o: Order, env: Env)
    requires Inv(w) && FundingBook(w) && env.Valid()
    ensures FundingBook(Step(w, DoIncrease(o, env)))
  {
    hide Inv, FundingBook, OpenPosition, Accrued, AccruedMarket;
    if Increase(w, o, env).Ok? {
      RefreshKeeps(w, o.key.symbol, env);
      AccrualKeepsFunding(w, o.key.symbol, env.cfg);
      OpenKeepsFunding(Refresh(w, o.key.symbol, env).value, o, ViewOf(w.funds), env.cfg);
    }
  }

  lemma OthersKeepFunding(w: World, a: Action)
    requires Inv(w) && FundingBook(w) && a.Valid() && !a.DoIncrease?
    requires !a.DoDecrease? && !a.DoLiquidate? && !a.DoDeleverage? && !a.DoExecuteOrder?
    ensures FundingBook(Step(w, a))
  {
    hide Inv, Accrued, AccruedMarket, MarketUnrealizedPnl, Deposit, Withdraw, ClaimFees, ClaimFeesTo,
         PropagateLockup, Transfer, ApplyEscrowDelta, EscrowDelta, FundingBounded;
    var refreshed := a.DoUpdateIndices? && !w.pm.paused && a.env.quote.Some?;
    var before := if refreshed then Accrued(w, a.symbol, a.env.cfg) else w;
    if before != w {
      AccrualKeepsFunding(w, a.symbol, a.env.cfg);
    }
    var w' := Step(w, a);
    forall s: Symbol
      ensures FundingBounded(w'.pm.positions, w'.pm.markets, w'.history, s)
    {
      assert FundingBounded(before.pm.positions, before.pm.markets, before.history, s);
      if a.DoSetTpSl? && w' != w {
        OrdersKeepFunding(w, a.key, w'.pm.positions[a.key], w'.history, s);
      } else {
        FundingFrame(before.pm.positions, before.pm.markets, w'.pm.markets, before.history, w'.history, s);
      }
    }
  }

  lemma OrdersKeepFunding(w: World, key: PositionKey, pos': Position, h': History, symbol: Symbol)
    requires FundingBounded(w.pm.positions, w.pm.markets, w.history, symbol) && key in w.pm.positions
    requires var pos := w.pm.positions[key];
             pos' == pos.(escrow := pos'.escrow, takeProfit := pos'.takeProfit, stopLoss := pos'.stopLoss)
    requires h'.trades == w.history.trades && h'.peakOi == w.history.peakOi
    requires h'.settledFunding == w.history.settledFunding
    ensures FundingBounded(w.pm.positions[key := pos'], w.pm.markets, h', symbol)
  {
    hide Sum;
    SumUpdate(w.pm.positions, AccruedOn(symbol, FundingIndex(w.pm.markets, symbol)), key, pos');
  }

  lemma StepKeepsFunding(w: World, a: Action)
    requires Inv(w) && FundingBook(w) && a.Valid()
    ensures FundingBook(Step(w, a))
  {
    hide Inv, FundingBook, Step;
    if a.DoDecrease? || a.DoLiquidate? || a.DoDeleverage? || a.DoExecuteOrder? {
      ClosesKeepFunding(w, a);
    } else if a.DoIncrease? {
      IncreaseKeepsFunding(w, a.order, a.env);
    } else {
      OthersKeepFunding(w, a);
    }
  }

  lemma {:induction false} RunKeepsFunding(w: World, actions: seq<Action>)
    requires Inv(w) && FundingBook(w) && Legal(actions)
    ensures FundingBook(Run(w, actions))
    decreases |actions|
  {
    hide Inv, FundingBook, Step, Action.Valid;
    if actions != [] {
      StepKeeps(w, actions[0]);
      StepKeepsFunding(w, actions[0]);
      RunKeepsFunding(Step(w, actions[0]), actions[1..]);
    }
  }

  lemma NothingTradedYet(w: World)
    requires Initial(w)
    ensures FundingBook(w)
  {
    hide Sum;
    forall s: Symbol
      ensures FundingBounded(w.pm.positions, w.pm.markets, w.history, s)
    {
      SumEmpty(w.pm.positions, AccruedOn(s, FundingIndex(w.pm.markets, s)));
    }
  }

  /** After any run, whatever the entry indices of the open positions: what the closes of a
      market paid in effective funding, less what they collected, together with what its
      open positions have accrued, is at most the roundings of the market's trades. */
  lemma FundingNeverCreated(w: World, symbol: Symbol)
    requires Reachable(w)
    ensures INDEX_PRECISION * SettledFunding(w.history, symbol)
            + Sum(w.pm.positions, AccruedOn(symbol, FundingIndex(w.pm.markets, symbol)))
            <= RoundingBudget(w.history, Side(symbol, true)) + RoundingBudget(w.history, Side(symbol, false))
  {
    hide Inv, Run, Legal, Sum, Rounding, AccruedOn;
    var w0, actions :| Initial(w0) && Legal(actions) && w == Run(w0, actions);
    InitialInv(w0);
    assert FundingBook(w0) by {
      NothingTradedYet(w0);
    }
    RunKeepsFunding(w0, actions);
    assert FundingBounded(w.pm.positions, w.pm.markets, w.history, symbol);
  }

  /** A market nobody holds any more has paid out at most its roundings: at most one
      unit a trade while its open interest stayed within the index precision. */
  lemma FundingOfEmptiedMarket(w: World, symbol: Symbol)
    requires Reachable(w)
    requires forall k :: k in w.pm.positions ==> k.symbol != symbol
    ensures var long, short := Side(symbol, true), Side(symbol, false);
            && INDEX_PRECISION * SettledFunding(w.history, symbol)
               <= RoundingBudget(w.history, long) + RoundingBudget(w.history, short)
            && (PeakOn(w.history, long) <= INDEX_PRECISION && PeakOn(w.history, short) <= INDEX_PRECISION ==>
                  SettledFunding(w.history, symbol) <= TradesOn(w.history, long) + TradesOn(w.history, short))
  {
    hide Reachable, Sum;
    FundingNeverCreated(w, symbol);
    SumAllZero(w.pm.positions, AccruedOn(symbol, FundingIndex(w.pm.markets, symbol)));
  }
}
