/** The position manager as a contract with storage. Its methods follow the contract's
    steps: read storage, update the local copies, move tokens through the vault and the
    token, write storage back. Each is proved against the value-level operation. */
module PositionManagerContracts {
  import opened FixedPoint
  import opened Types
  import opened RiskMath
  import opened FundingRates
  import opened Evaluations
  import opened VaultLedger
  import opened VaultContracts
  import opened Settlement
  import opened Ledger

  datatype MarketTick = MarketTick(market: Market, markPrice: int)

  class PositionManager {
    const vault: Vault
    var positions: map<PositionKey, Position>
    var markets: map<Symbol, Market>
    var cachedPnl: map<Symbol, int>
    var realizedPnl: int
    var totalUnrealizedPnl: int
    var paused: bool
    var lastPause: nat
    var lastUnpause: nat
    var maxLeverage: map<Symbol, int>
    var disabled: set<Symbol>

    /** The observer's record; no method reads it. */
    ghost var history: History

    constructor (vault: Vault)
      ensures this.vault == vault && history == EMPTY_HISTORY
      ensures State() == ManagerState(map[], map[], map[], 0, 0, false, 0, 0, map[], {})
    {
      this.vault := vault;
      positions, markets, cachedPnl := map[], map[], map[];
      realizedPnl, totalUnrealizedPnl := 0, 0;
      paused, lastPause, lastUnpause := false, 0, 0;
      maxLeverage, disabled := map[], {};
      history := EMPTY_HISTORY;
    }

    function State(): ManagerState
      reads this
    {
      ManagerState(positions, markets, cachedPnl, realizedPnl, totalUnrealizedPnl, paused, lastPause, lastUnpause,
                   maxLeverage, disabled)
    }

    ghost function WorldAt(now: nat): World
      reads this, vault, vault.token
    {
      World(now, vault.Books(), State(), history)
    }

    /** The outcome and the storage are those of `spec`. */
    ghost predicate Matches(now: nat, spec: Result<World>, r: Result<()>)
      reads this, vault, vault.token
    {
      match spec
      case Ok(w) => r.Ok? && WorldAt(now) == w
      case Err(e) => r == Err(e)
    }

    // ----- Vault snapshot, index refresh, unrealized PnL -----

    method ViewVault() returns (view: VaultView)
      ensures view == ViewOf(vault.Books())
    {
      var basis := vault.TotalAssetsExclPnl();
      view := VaultView(vault.reserved, basis);
    }

    function GetMarket(symbol: Symbol, now: nat): Market
      reads this
    {
      if symbol in markets then markets[symbol]
      else Market(0, 0, 0, 0, INDEX_PRECISION, INDEX_PRECISION, now)
    }

    /** Brings the indices of `symbol` up to the billing boundary and fetches the price. */
    method RefreshTick(symbol: Symbol, view: VaultView, now: nat, env: Env) returns (r: Result<MarketTick>)
      requires view == ViewOf(vault.Books())
      modifies this`markets, this`history
      ensures match Refresh(old(WorldAt(now)), symbol, env)
              case Ok(t) => r == Ok(MarketTick(t.market, t.markPrice)) && WorldAt(now) == t.world
              case Err(e) => r == Err(e)
    {
      hide BorrowRate, FundingRate, AccumulateIndex;
      var market := GetMarket(symbol, now);
      var effectiveStart := if market.lastIndexUpdate > lastUnpause then market.lastIndexUpdate else lastUnpause;
      var effectiveNow := now;
      if paused {
        if lastPause > 0 {
          effectiveNow := Min(now, lastPause);
        } else {
          effectiveNow := effectiveStart;
        }
      }
      var timeDelta := effectiveNow - effectiveStart;
      if timeDelta > 0 {
        var cfg := env.cfg;
        var borrowRate := BorrowRate(view.Utilization(), cfg.baseBorrowRate, cfg.slope1, cfg.slope2,
                                     cfg.optimalUtilization);
        var fundingRate := ComputeFundingRate(market.longOi, market.shortOi, cfg.baseFundingRate);
        market := market.(accBorrowIndex := AccumulateIndex(market.accBorrowIndex, borrowRate, timeDelta));
        market := market.(accFundingIndex := AccumulateIndex(market.accFundingIndex, fundingRate, timeDelta));
        market := market.(lastIndexUpdate := effectiveNow);
        markets := markets[symbol := market];
        history := history.(windows := history.windows + [Window(symbol, effectiveStart, effectiveNow)]);
      }
      if env.quote.None? {
        return Err(OracleFailed);
      }
      r := Ok(MarketTick(market, env.quote.value));
    }

    method RefreshMarketPnl(symbol: Symbol, markPrice: int, now: nat)
      modifies this`cachedPnl, this`totalUnrealizedPnl, vault
      ensures WorldAt(now) == RefreshPnl(old(WorldAt(now)), symbol, markPrice)
    {
      hide MarketUnrealizedPnl;
      var market := GetMarket(symbol, now);
      var newPnl := MarketUnrealizedPnl(market.longOi, market.longAvg, market.shortOi, market.shortAvg, markPrice);
      var oldPnl := if symbol in cachedPnl then cachedPnl[symbol] else 0;
      var delta := newPnl - oldPnl;
      cachedPnl := cachedPnl[symbol := newPnl];
      totalUnrealizedPnl := totalUnrealizedPnl + delta;
      vault.UpdateNetPnl(totalUnrealizedPnl);
    }

    // ----- Revenue and escrow -----

    method AccrueNonLpSlice(amount: int, cfg: Config) returns (r: Result<()>)
      requires amount > 0
      modifies vault
      ensures vault.Matches(ResliceRevenue(old(vault.Books()), amount, cfg), r)
    {
      var nonLp := NonLpSlice(amount, cfg);
      if nonLp > 0 {
        r := vault.AccrueFees(nonLp);
      } else {
        r := Ok(());
      }
    }

    /** Dollars that are in the vault already: only the tag changes. */
    method Reslice(amount: int, cfg: Config) returns (r: Result<()>)
      modifies vault
      ensures vault.Matches(ResliceRevenue(old(vault.Books()), amount, cfg), r)
    {
      if amount <= 0 {
        return Ok(());
      }
      r := AccrueNonLpSlice(amount, cfg);
    }

    /** New dollars: they move from the manager into the vault first. */
    method ReceiveNewRevenue(amount: int, cfg: Config) returns (r: Result<()>)
      modifies vault, vault.token
      ensures vault.Matches(ReceiveRevenue(old(vault.Books()), amount, cfg), r)
    {
      hide NonLpSlice;
      if amount <= 0 {
        return Ok(());
      }
      var _ :- vault.MoveAsset(ManagerAccount, VaultAccount, amount);
      r := AccrueNonLpSlice(amount, cfg);
    }

    method ApplyEscrow(trader: nat, delta: int) returns (r: Result<()>)
      modifies vault.token
      ensures vault.Matches(ApplyEscrowDelta(old(vault.Books()), trader, delta), r)
    {
      if delta == 0 {
        return Ok(());
      }
      if delta > 0 {
        r := vault.MoveAsset(User(trader), ManagerAccount, delta);
      } else {
        r := vault.MoveAsset(ManagerAccount, User(trader), -delta);
      }
    }

    method SettleEscrowOnClose(trader: nat, kind: CloseKind, escrow: int, executor: Option<nat>, isPartial: bool,
                               cfg: Config) returns (r: Result<()>)
      modifies vault, vault.token
      ensures vault.Matches(SettleEscrow(old(vault.Books()), trader, kind, escrow, executor, isPartial, cfg), r)
    {
      hide ReceiveRevenue, VaultLedger.Transfer;
      r := Ok(());
      if escrow <= 0 {
        return;
      }
      match kind {
        case UserClose =>
          if !isPartial {
            r := vault.MoveAsset(ManagerAccount, User(trader), escrow);
          }
        case Deleverage =>
          r := vault.MoveAsset(ManagerAccount, User(trader), escrow);
        case OrderExecution =>
          if executor.Some? {
            r := vault.MoveAsset(ManagerAccount, User(executor.value), escrow);
          }
        case Liquidation =>
          r := ReceiveNewRevenue(escrow, cfg);
      }
    }

    // ----- Close -----

    /** Release, profit and absorbed collateral: the payments that touch the vault. */
    method SettleVaultSide(trader: nat, sizeDelta: int, vaultToTrader: int, vaultAbsorbed: int, ghost route: Routing)
      returns (r: Result<()>)
      requires vaultToTrader == route.vaultToTrader && vaultAbsorbed == route.absorbed
      modifies vault, vault.token
      ensures vault.Matches(SettleWithVault(old(vault.Books()), trader, sizeDelta, route), r)
    {
      hide VaultLedger.ReleaseLiquidity, VaultLedger.PayProfit, VaultLedger.Transfer,
           VaultLedger.RecordAbsorbedCollateral;
      if sizeDelta > 0 {
        var _ :- vault.ReleaseLiquidity(sizeDelta);
      }
      if vaultToTrader > 0 {
        var _ :- vault.PayProfit(trader, vaultToTrader);
      }
      if vaultAbsorbed > 0 {
        var preBalance := vault.TotalAssets();
        var _ :- vault.MoveAsset(ManagerAccount, VaultAccount, vaultAbsorbed);
        var _ :- vault.RecordAbsorbedCollateral(vaultAbsorbed, preBalance);
      }
      r := Ok(());
    }

    /** Every payment of a close and the realized PnL, in the contract's order. */
    method SettleClose(trader: nat, pos: Position, sizeDelta: int, collateralDelta: int, ev: Evaluation,
                       kind: CloseKind, executor: Option<nat>, cfg: Config) returns (r: Result<()>)
      modifies this`realizedPnl, vault, vault.token
      ensures vault.Matches(SettleFunds(old(vault.Books()), trader, pos, sizeDelta, collateralDelta, ev, kind,
                                        executor, cfg), r)
      ensures r.Ok? ==> realizedPnl == old(realizedPnl) + (ev.pnl - ev.borrowFee + ev.effectiveFunding)
    {
      hide SettleWithVault, VaultLedger.Transfer, ResliceRevenue, SettleEscrow, LiquidationBounty, SettleFunds;
      ghost var before := vault.Books();
      ghost var route := Route(ev, collateralDelta, kind, cfg);
      SettleFundsInTwo(before, trader, pos, sizeDelta, collateralDelta, ev, kind, executor, cfg);

      var traderPayout := if ev.effectiveHealth > 0 then ev.effectiveHealth else 0;
      var pmToTrader := if traderPayout <= collateralDelta then traderPayout else collateralDelta;
      var vaultToTrader := traderPayout - collateralDelta;
      var pmToVault := collateralDelta - traderPayout;
      var bounty := 0;
      if kind == Liquidation {
        bounty := Min(LiquidationBounty(collateralDelta, cfg.liquidationBountyBps), pmToVault);
      }
      var vaultAbsorbed := pmToVault - bounty;

      var _ :- SettleVaultSide(trader, sizeDelta, vaultToTrader, vaultAbsorbed, route);
      if pmToTrader > 0 {
        var _ :- vault.MoveAsset(ManagerAccount, User(trader), pmToTrader);
      }
      if bounty > 0 {
        if executor.Some? {
          var _ :- vault.MoveAsset(ManagerAccount, User(executor.value), bounty);
        }
      }
      realizedPnl := realizedPnl + (ev.pnl - ev.borrowFee + ev.effectiveFunding);

      var totalFees := ev.borrowFee + ev.protocolCut;
      var distributable := if traderPayout > 0 then totalFees else Min(totalFees, vaultAbsorbed);
      var _ :- Reslice(distributable, cfg);
      r := SettleEscrowOnClose(trader, kind, pos.escrow, executor, sizeDelta < pos.size, cfg);
    }

    /** Open interest and average price, then position and market. */
    method StoreClose(key: PositionKey, pos: Position, before: Market, sizeDelta: int, collateralDelta: int)
      returns (market: Market)
      modifies this`positions, this`markets
      ensures market == MarketAfterClose(before, pos, sizeDelta)
      ensures markets == old(markets)[key.symbol := market]
      ensures positions == PositionsAfterClose(old(positions), key, pos, sizeDelta, collateralDelta)
    {
      hide AverageAfterRemoval;
      market := before;
      if pos.isLong {
        market := market.(longAvg := AverageAfterRemoval(market.longAvg, market.longOi, pos.entryPrice, sizeDelta));
        market := market.(longOi := market.longOi - sizeDelta);
      } else {
        market := market.(shortAvg := AverageAfterRemoval(market.shortAvg, market.shortOi, pos.entryPrice, sizeDelta));
        market := market.(shortOi := market.shortOi - sizeDelta);
      }
      if sizeDelta == pos.size {
        positions := positions - {key};
      } else {
        var updated := pos.(collateral := pos.collateral - collateralDelta, size := pos.size - sizeDelta);
        positions := positions[key := updated];
      }
      markets := markets[key.symbol := market];
    }

    /** Settlement, state finalization and the PnL refresh. */
    method ExecuteCloseOf(key: PositionKey, pos: Position, tick: MarketTick, sizeDelta: int, collateralDelta: int,
                          ev: Evaluation, kind: CloseKind, executor: Option<nat>, now: nat, cfg: Config)
      returns (r: Result<()>)
      modifies this, vault, vault.token
      ensures Matches(now, ExecuteClose(Tick(old(WorldAt(now)), tick.market, tick.markPrice), key, pos, sizeDelta,
                                        collateralDelta, ev, kind, executor, cfg), r)
    {
      hide SettleFunds, HistoryAfterClose, Route, MarketAfterClose, PositionsAfterClose, RefreshPnl;
      var _ :- SettleClose(key.trader, pos, sizeDelta, collateralDelta, ev, kind, executor, cfg);
      var market := StoreClose(key, pos, tick.market, sizeDelta, collateralDelta);
      history := HistoryAfterClose(history, market, key, pos, sizeDelta < pos.size, ev,
                                   Route(ev, collateralDelta, kind, cfg), kind);
      RefreshMarketPnl(key.symbol, tick.markPrice, now);
      r := Ok(());
    }

    method DecreasePosition(key: PositionKey, sizeDelta: int, acceptable: int, now: nat, env: Env)
      returns (r: Result<()>)
      modifies this, vault, vault.token
      ensures Matches(now, Ledger.Decrease(old(WorldAt(now)), key, sizeDelta, acceptable, env), r)
    {
      hide Evaluate, ExecuteClose, Accrued, AccruedMarket, CollateralSlice;
      if sizeDelta <= 0 {
        return Err(ZeroAmount);
      }
      if key !in positions {
        return Err(PositionNotFound);
      }
      var pos := positions[key];
      if now < pos.lastIncreasedTime + env.cfg.minPositionLifetime {
        return Err(PositionNotOldEnough);
      }
      var view := ViewVault();
      var tick :- RefreshTick(key.symbol, view, now, env);
      if acceptable > 0 {
        if pos.isLong && tick.markPrice < acceptable {
          return Err(SlippageExceeded);
        }
        if !pos.isLong && tick.markPrice > acceptable {
          return Err(SlippageExceeded);
        }
      }
      if sizeDelta > pos.size {
        return Err(SizeDeltaExceedsPosition);
      }
      var collateralDelta := CollateralSlice(pos, sizeDelta);
      var ev := Evaluate(tick.market, tick.markPrice, pos, sizeDelta, collateralDelta, env.cfg.fundingCutBps);
      r := ExecuteCloseOf(key, pos, tick, sizeDelta, collateralDelta, ev, UserClose, None, now, env.cfg);
    }

    method LiquidatePosition(key: PositionKey, executor: nat, now: nat, env: Env) returns (r: Result<()>)
      modifies this, vault, vault.token
      ensures Matches(now, Ledger.Liquidate(old(WorldAt(now)), key, executor, env), r)
    {
      hide Evaluate, ExecuteClose, Accrued, AccruedMarket, LiquidationThreshold;
      var view := ViewVault();
      var tick :- RefreshTick(key.symbol, view, now, env);
      if key !in positions {
        return Err(PositionNotFound);
      }
      var pos := positions[key];
      var ev := Evaluate(tick.market, tick.markPrice, pos, pos.size, pos.collateral, env.cfg.fundingCutBps);
      if ev.effectiveHealth >= LiquidationThreshold(pos.collateral, env.cfg.liquidationThresholdBps) {
        return Err(HealthFactorOk);
      }
      r := ExecuteCloseOf(key, pos, tick, pos.size, pos.collateral, ev, Liquidation, Some(executor), now, env.cfg);
    }

    method DeleverageTarget(key: PositionKey, now: nat, env: Env) returns (r: Result<()>)
      modifies this, vault, vault.token
      ensures Matches(now, Ledger.DeleveragePosition(old(WorldAt(now)), key, env), r)
    {
      hide Evaluate, ExecuteClose, Accrued, AccruedMarket;
      var view := ViewVault();
      var tick :- RefreshTick(key.symbol, view, now, env);
      var combinedPnl := realizedPnl + totalUnrealizedPnl;
      var pnlRatio := view.AdlPnlRatio(combinedPnl);
      var utilization := view.Utilization();
      if pnlRatio <= env.cfg.adlPnlBps && utilization <= env.cfg.adlUtilizationBps {
        return Err(AdlNotTriggered);
      }
      if key !in positions {
        return Err(PositionNotFound);
      }
      var pos := positions[key];
      var ev := Evaluate(tick.market, tick.markPrice, pos, pos.size, pos.collateral, env.cfg.fundingCutBps);
      if ev.pnl <= 0 {
        return Err(AdlTargetNotProfitable);
      }
      r := ExecuteCloseOf(key, pos, tick, pos.size, pos.collateral, ev, Deleverage, None, now, env.cfg);
    }

    method ExecuteTriggeredOrder(key: PositionKey, executor: nat, now: nat, env: Env) returns (r: Result<()>)
      modifies this, vault, vault.token
      ensures Matches(now, Ledger.ExecuteOrder(old(WorldAt(now)), key, executor, env), r)
    {
      hide Evaluate, ExecuteClose, Accrued, AccruedMarket, IsTakeProfitTriggered, IsStopLossTriggered;
      if key !in positions {
        return Err(PositionNotFound);
      }
      var pos := positions[key];
      if now < pos.lastIncreasedTime + env.cfg.minPositionLifetime {
        return Err(PositionNotOldEnough);
      }
      var view := ViewVault();
      var tick :- RefreshTick(key.symbol, view, now, env);
      var tpHit := IsTakeProfitTriggered(pos.takeProfit, tick.markPrice, pos.isLong);
      var slHit := IsStopLossTriggered(pos.stopLoss, tick.markPrice, pos.isLong);
      if !tpHit && !slHit {
        return Err(OrderNotTriggered);
      }
      var ev := Evaluate(tick.market, tick.markPrice, pos, pos.size, pos.collateral, env.cfg.fundingCutBps);
      r := ExecuteCloseOf(key, pos, tick, pos.size, pos.collateral, ev, OrderExecution, Some(executor), now, env.cfg);
    }

    // ----- Increase -----

    /** The position after the increase, field by field as the contract updates it. */
    method PositionAfterIncrease(o: Order, existing: Option<Position>, market: Market, markPrice: int,
                                 escrowOwed: int, now: nat) returns (r: Result<Position>)
      ensures existing.Some? && existing.value.isLong != o.isLong ==> r == Err(DirectionMismatch)
      ensures !(existing.Some? && existing.value.isLong != o.isLong) ==>
                r == Ok(IncreasedPosition(existing, o, market, markPrice, escrowOwed, now))
    {
      hide WeightedAverage;
      match existing {
        case None =>
          r := Ok(Position(o.collateral, o.size, markPrice, market.accBorrowIndex, market.accFundingIndex, o.isLong,
                           now, o.takeProfit, o.stopLoss, escrowOwed));
        case Some(prior) =>
          var pos := prior;
          if o.isLong != pos.isLong {
            return Err(DirectionMismatch);
          }
          pos := pos.(entryPrice := WeightedAverage(pos.entryPrice, pos.size, markPrice, o.size));
          pos := pos.(entryBorrowIndex :=
            WeightedAverage(pos.entryBorrowIndex, pos.size, market.accBorrowIndex, o.size));
          pos := pos.(entryFundingIndex :=
            WeightedAverage(pos.entryFundingIndex, pos.size, market.accFundingIndex, o.size));
          pos := pos.(size := pos.size + o.size);
          pos := pos.(collateral := pos.collateral + o.collateral);
          pos := pos.(lastIncreasedTime := now);
          if o.takeProfit > 0 {
            pos := pos.(takeProfit := o.takeProfit);
          }
          if o.stopLoss > 0 {
            pos := pos.(stopLoss := o.stopLoss);
          }
          pos := pos.(escrow := pos.escrow + escrowOwed);
          r := Ok(pos);
      }
    }

    method AddToMarket(before: Market, isLong: bool, markPrice: int, size: int) returns (market: Market)
      ensures market == MarketAfterOpen(before, isLong, markPrice, size)
    {
      hide WeightedAverage;
      market := before;
      if isLong {
        market := market.(longAvg := WeightedAverage(market.longAvg, market.longOi, markPrice, size));
        market := market.(longOi := market.longOi + size);
      } else {
        market := market.(shortAvg := WeightedAverage(market.shortAvg, market.shortOi, markPrice, size));
        market := market.(shortOi := market.shortOi + size);
      }
    }

    /** The bundled transfer, the open fee and the reservation. */
    method FundOpen(trader: nat, collateral: int, openFee: int, escrowOwed: int, size: int, cfg: Config)
      returns (r: Result<()>)
      modifies vault, vault.token
      ensures vault.Matches(OpenFunds(old(vault.Books()), trader, collateral, openFee, escrowOwed, size, cfg), r)
    {
      hide VaultLedger.Transfer, ReceiveRevenue, VaultLedger.ReserveLiquidity;
      var traderOwed := collateral + openFee + escrowOwed;
      var _ :- vault.MoveAsset(User(trader), ManagerAccount, traderOwed);
      var _ :- ReceiveNewRevenue(openFee, cfg);
      r := vault.ReserveLiquidity(size);
    }

    method OpenOrAdd(o: Order, tick: MarketTick, view: VaultView, now: nat, cfg: Config) returns (r: Result<()>)
      modifies this, vault, vault.token
      ensures Matches(now, OpenPosition(Tick(old(WorldAt(now)), tick.market, tick.markPrice), o, view, cfg), r)
    {
      hide OpenFunds, IncreasedPosition, MarketAfterOpen, EscrowDelta, ResultingOrder, OpenFee, UtilizationBps,
           RefreshPnl, Traded;
      var market, markPrice := tick.market, tick.markPrice;
      var existing := LookUp(positions, o.key);
      if o.collateral < cfg.minCollateral {
        return Err(BelowMinCollateral);
      }
      var openFee := OpenFee(o.size, cfg.openFeeBps);
      var priorEscrow := if existing.Some? then existing.value.escrow else 0;
      var priorTp := if existing.Some? then existing.value.takeProfit else 0;
      var priorSl := if existing.Some? then existing.value.stopLoss else 0;
      var resultingTp, resultingSl := ResultingOrder(priorTp, o.takeProfit), ResultingOrder(priorSl, o.stopLoss);
      var escrowOwed := Max(0, EscrowDelta(priorEscrow, resultingTp, resultingSl, cfg.tpSlExecutionFee));
      var pos :- PositionAfterIncrease(o, existing, market, markPrice, escrowOwed, now);
      if o.key.symbol !in maxLeverage {
        return Err(MarketNotConfigured);
      }
      var cap := maxLeverage[o.key.symbol];
      var maxSize := pos.collateral * cap;
      if maxSize > I128_MAX || pos.size > maxSize {
        return Err(ExcessiveLeverage);
      }
      if pos.takeProfit < 0 || pos.stopLoss < 0 {
        return Err(InvalidTpSl);
      }
      market := AddToMarket(market, o.isLong, markPrice, o.size);
      var newReserved := view.reserved + o.size;
      if UtilizationBps(newReserved, view.safeBasis) > cfg.maxUtilization {
        return Err(UtilizationCapBreached);
      }
      var _ :- FundOpen(o.key.trader, o.collateral, openFee, escrowOwed, o.size, cfg);
      StoreOpen(o, pos, market, markPrice, openFee, escrowOwed, cap, now);
      r := Ok(());
    }

    method StoreOpen(o: Order, pos: Position, market: Market, markPrice: int, ghost openFee: int,
                     ghost escrowOwed: int, ghost cap: int, now: nat)
      modifies this, vault
      ensures WorldAt(now) ==
              RefreshPnl(World(now, old(vault.Books()),
                               old(State()).(positions := old(positions)[o.key := pos],
                                             markets := old(markets)[o.key.symbol := market]),
                               Traded(old(history), market, Side(o.key.symbol, o.isLong)).(
                                 openFees := old(history).openFees + openFee,
                                 escrowCharged := old(history).escrowCharged + escrowOwed,
                                 leverageCap := old(history).leverageCap[o.key := cap])),
                         o.key.symbol, markPrice)
    {
      hide Traded, RefreshPnl;
      positions := positions[o.key := pos];
      markets := markets[o.key.symbol := market];
      history := Traded(history, market, Side(o.key.symbol, o.isLong)).(
        openFees := history.openFees + openFee,
        escrowCharged := history.escrowCharged + escrowOwed,
        leverageCap := history.leverageCap[o.key := cap]);
      RefreshMarketPnl(o.key.symbol, markPrice, now);
    }

    method IncreasePosition(o: Order, now: nat, env: Env) returns (r: Result<()>)
      modifies this, vault, vault.token
      ensures Matches(now, Ledger.Increase(old(WorldAt(now)), o, env), r)
    {
      hide OpenPosition, Accrued, AccruedMarket;
      if paused {
        return Err(Paused);
      }
      if o.key.symbol in disabled {
        return Err(MarketDisabled);
      }
      if o.size <= 0 || o.collateral <= 0 {
        return Err(ZeroAmount);
      }
      var view := ViewVault();
      var tick :- RefreshTick(o.key.symbol, view, now, env);
      if o.acceptable > 0 {
        if o.isLong && tick.markPrice > o.acceptable {
          return Err(SlippageExceeded);
        }
        if !o.isLong && tick.markPrice < o.acceptable {
          return Err(SlippageExceeded);
        }
      }
      r := OpenOrAdd(o, tick, view, now, env.cfg);
    }

    // ----- Orders, indices, pause, market settings -----

    method SetOrders(key: PositionKey, takeProfit: int, stopLoss: int, now: nat, env: Env) returns (r: Result<()>)
      modifies this, vault.token
      ensures Matches(now, Ledger.SetTpSl(old(WorldAt(now)), key, takeProfit, stopLoss, env), r)
    {
      hide ApplyEscrowDelta;
      if paused {
        return Err(Paused);
      }
      if key !in positions {
        return Err(PositionNotFound);
      }
      var pos := positions[key];
      if takeProfit < 0 || stopLoss < 0 {
        return Err(InvalidTpSl);
      }
      var delta := EscrowDelta(pos.escrow, takeProfit, stopLoss, env.cfg.tpSlExecutionFee);
      var _ :- ApplyEscrow(key.trader, delta);
      pos := pos.(escrow := pos.escrow + delta);
      pos := pos.(takeProfit := takeProfit);
      pos := pos.(stopLoss := stopLoss);
      positions := positions[key := pos];
      history := history.(escrowCharged := history.escrowCharged + Max(0, delta),
                          escrowRefunded := history.escrowRefunded + Max(0, -delta));
      r := Ok(());
    }

    method UpdateIndicesOf(symbol: Symbol, now: nat, env: Env) returns (r: Result<()>)
      modifies this, vault
      ensures Matches(now, Ledger.UpdateIndices(old(WorldAt(now)), symbol, env), r)
    {
      hide Accrued, AccruedMarket, RefreshPnl;
      if paused {
        return Err(Paused);
      }
      var view := ViewVault();
      var tick :- RefreshTick(symbol, view, now, env);
      RefreshMarketPnl(symbol, tick.markPrice, now);
      r := Ok(());
    }

    method PauseTrading(now: nat)
      modifies this
      ensures WorldAt(now) == Ledger.Pause(old(WorldAt(now)))
    {
      if paused {
        return;
      }
      paused := true;
      lastPause := now;
    }

    method UnpauseTrading(now: nat)
      modifies this
      ensures WorldAt(now) == Ledger.Unpause(old(WorldAt(now)))
    {
      if !paused {
        return;
      }
      paused := false;
      lastUnpause := now;
    }

    method ConfigureLeverage(symbol: Symbol, leverage: int, now: nat) returns (r: Result<()>)
      modifies this
      ensures Matches(now, Ledger.SetMaxLeverage(old(WorldAt(now)), symbol, leverage), r)
    {
      if leverage < 2 {
        return Err(LeverageBelowFloor);
      }
      if leverage > 200 {
        return Err(LeverageCapExceeded);
      }
      maxLeverage := maxLeverage[symbol := leverage];
      r := Ok(());
    }

    method SetDisabled(symbol: Symbol, disable: bool, now: nat)
      modifies this
      ensures WorldAt(now) == Ledger.SetMarketDisabled(old(WorldAt(now)), symbol, disable)
    {
      disabled := if disable then disabled + {symbol} else disabled - {symbol};
    }

    /** Notes what another contract's call did; only the observer's record changes. */
    ghost method Record(record: History)
      modifies this`history
      ensures history == record
    {
      history := record;
    }

    method Restore(snapshot: ManagerState, ghost record: History)
      modifies this
      ensures State() == snapshot && history == record
    {
      positions, markets, cachedPnl := snapshot.positions, snapshot.markets, snapshot.cachedPnl;
      realizedPnl, totalUnrealizedPnl := snapshot.realizedPnl, snapshot.totalUnrealizedPnl;
      paused, lastPause, lastUnpause := snapshot.paused, snapshot.lastPause, snapshot.lastUnpause;
      maxLeverage, disabled := snapshot.maxLeverage, snapshot.disabled;
      history := record;
    }
  }
}
