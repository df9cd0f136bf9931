/** The position manager, the vault and the token as one state machine. Every entrypoint
    is a function from a world to the world after it, or to the error that reverts it. */
module Ledger {
  import opened FixedPoint
  import opened Types
  import opened RiskMath
  import opened FundingRates
  import opened Evaluations
  import opened VaultLedger

  datatype ManagerState = ManagerState(
    positions: map<PositionKey, Position>,
    markets: map<Symbol, Market>,
    cachedPnl: map<Symbol, int>,
    realizedPnl: int, totalUnrealizedPnl: int,
    paused: bool, lastPause: nat, lastUnpause: nat,
    maxLeverage: map<Symbol, int>, disabled: set<Symbol>)

  datatype Side = Side(symbol: Symbol, isLong: bool)

  /** Seconds `[start, end)` of index accrual charged to one market. */
  datatype Window = Window(symbol: Symbol, start: nat, end: nat)

  /** Seconds `[start, end)` that went by while the manager was paused. */
  datatype Span = Span(start: nat, end: nat)

  /** What an observer records along a run. No entrypoint reads it. */
  datatype History = History(
    deposits: int, withdrawals: int, claimedFees: int, donatedToVault: int, donatedToManager: int,
    openFees: int, bounties: int, badDebt: int,
    escrowCharged: int, escrowRefunded: int, escrowPaidOut: int, escrowForfeited: int,
    windows: seq<Window>, pausedSpans: seq<Span>,
    trades: map<Side, nat>, peakOi: map<Side, int>, leverageCap: map<PositionKey, int>,
    settledFunding: map<Symbol, int>)

  datatype World = World(now: nat, funds: Funds, pm: ManagerState, history: History)

  /** What a call reads from other contracts: the configuration, and the oracle's answer. */
  datatype Env = Env(cfg: Config, quote: Option<int>) {
    predicate Valid() {
      cfg.Valid() && (quote.Some? ==> quote.value > 0)
    }
  }

  const EMPTY_HISTORY := History(0, 0, 0, 0, 0, 0, 0, 0, 0, 0, 0, 0, [], [], map[], map[], map[], map[])

  // ----- Vault snapshot -----

  datatype VaultView = VaultView(reserved: int, safeBasis: int) {
    function Utilization(): int {
      UtilizationBps(reserved, safeBasis)
    }

    function AdlPnlRatio(combinedPnl: int): int {
      if safeBasis > 0 && combinedPnl > 0 then TDiv(combinedPnl * BPS, safeBasis) else 0
    }
  }

  function ViewOf(f: Funds): VaultView {
    VaultView(f.vault.reserved, SafeBasis(f))
  }

  // ----- Market refresh -----

  function MarketOf(w: World, symbol: Symbol): Market {
    if symbol in w.pm.markets then w.pm.markets[symbol]
    else Market(0, 0, 0, 0, INDEX_PRECISION, INDEX_PRECISION, w.now)
  }

  function BillingStart(w: World, symbol: Symbol): nat {
    Max(MarketOf(w, symbol).lastIndexUpdate, w.pm.lastUnpause)
  }

  /** Accrual stops at the start of a running pause. */
  function BillingEnd(w: World, symbol: Symbol): nat {
    if !w.pm.paused then w.now
    else if w.pm.lastPause > 0 then Min(w.now, w.pm.lastPause)
    else BillingStart(w, symbol)
  }

  /** The seconds billed at a refresh. */
  function BilledSeconds(w: World, symbol: Symbol): int {
    Max(0, BillingEnd(w, symbol) - BillingStart(w, symbol))
  }

  function AccruedMarket(w: World, symbol: Symbol, cfg: Config): Market {
    var m := MarketOf(w, symbol);
    var elapsed := BillingEnd(w, symbol) - BillingStart(w, symbol);
    if elapsed <= 0 then
      m
    else
      var borrowRate := BorrowRate(ViewOf(w.funds).Utilization(), cfg.baseBorrowRate, cfg.slope1, cfg.slope2,
                                   cfg.optimalUtilization);
      var fundingRate := FundingRate(m.longOi, m.shortOi, cfg.baseFundingRate);
      m.(accBorrowIndex := AccumulateIndex(m.accBorrowIndex, borrowRate, elapsed),
         accFundingIndex := AccumulateIndex(m.accFundingIndex, fundingRate, elapsed),
         lastIndexUpdate := BillingEnd(w, symbol))
  }

  /** The world after the indices of `symbol` were brought up to date and stored. */
  function Accrued(w: World, symbol: Symbol, cfg: Config): World {
    var start, end := BillingStart(w, symbol), BillingEnd(w, symbol);
    if end <= start then
      w
    else
      w.(pm := w.pm.(markets := w.pm.markets[symbol := AccruedMarket(w, symbol, cfg)]),
         history := w.history.(windows := w.history.windows + [Window(symbol, start, end)]))
  }

  datatype Tick = Tick(world: World, market: Market, markPrice: int)

  function Refresh(w: World, symbol: Symbol, env: Env): Result<Tick> {
    if env.quote.None? then
      Err(OracleFailed)
    else
      Ok(Tick(Accrued(w, symbol, env.cfg), AccruedMarket(w, symbol, env.cfg), env.quote.value))
  }

  // ----- Unrealized PnL -----

  function CachedPnl(pm: ManagerState, symbol: Symbol): int {
    if symbol in pm.cachedPnl then pm.cachedPnl[symbol] else 0
  }

  function RefreshPnl(w: World, symbol: Symbol, markPrice: int): World {
    var m := MarketOf(w, symbol);
    var pnl := MarketUnrealizedPnl(m.longOi, m.longAvg, m.shortOi, m.shortAvg, markPrice);
    var total := w.pm.totalUnrealizedPnl + (pnl - CachedPnl(w.pm, symbol));
    w.(pm := w.pm.(cachedPnl := w.pm.cachedPnl[symbol := pnl], totalUnrealizedPnl := total),
       funds := UpdateNetPnl(w.funds, total))
  }

  // ----- Revenue -----

  function NonLpSlice(amount: int, cfg: Config): int {
    TDiv(amount * (cfg.devBps + cfg.stakerBps), BPS)
  }

  /** Tags the non-LP share of dollars that are already in the vault. */
  function ResliceRevenue(f: Funds, amount: int, cfg: Config): Result<Funds> {
    if amount <= 0 || NonLpSlice(amount, cfg) <= 0 then Ok(f) else AccrueFees(f, NonLpSlice(amount, cfg))
  }

  /** Brings new dollars from the manager into the vault, then tags them. */
  function ReceiveRevenue(f: Funds, amount: int, cfg: Config): Result<Funds> {
    if amount <= 0 then
      Ok(f)
    else
      var f' :- Transfer(f, ManagerAccount, VaultAccount, amount);
      ResliceRevenue(f', amount, cfg)
  }

  // ----- TP/SL escrow -----

  function ResultingOrder(prior: int, requested: int): int {
    if requested > 0 then requested else prior
  }

  function EscrowDelta(priorEscrow: int, takeProfit: int, stopLoss: int, fee: int): int {
    var hasOrders := takeProfit != 0 || stopLoss != 0;
    if priorEscrow == 0 && hasOrders then fee
    else if priorEscrow > 0 && !hasOrders then -priorEscrow
    else 0
  }

  function ApplyEscrowDelta(f: Funds, trader: nat, delta: int): Result<Funds> {
    if delta == 0 then Ok(f)
    else if delta > 0 then Transfer(f, User(trader), ManagerAccount, delta)
    else Transfer(f, ManagerAccount, User(trader), -delta)
  }

  // ----- Close: settlement of the money -----

  /** Where a close sends the collateral slice and what it draws from the vault. */
  datatype Routing = Routing(
    payout: int, managerToTrader: int, vaultToTrader: int, bounty: int, absorbed: int, taggedFees: int)

  function Route(ev: Evaluation, collateralDelta: int, kind: CloseKind, cfg: Config): Routing {
    var payout := if ev.effectiveHealth > 0 then ev.effectiveHealth else 0;
    var toVault := collateralDelta - payout;
    var bounty := if kind == Liquidation
                  then Min(LiquidationBounty(collateralDelta, cfg.liquidationBountyBps), toVault)
                  else 0;
    var absorbed := toVault - bounty;
    var fees := ev.borrowFee + ev.protocolCut;
    Routing(payout, if payout <= collateralDelta then payout else collateralDelta, payout - collateralDelta,
            bounty, absorbed, if payout > 0 then fees else Min(fees, absorbed))
  }

  function TransferIfPositive(f: Funds, from: Address, to: Address, amount: int): Result<Funds> {
    if amount > 0 then Transfer(f, from, to, amount) else Ok(f)
  }

  function PayBounty(f: Funds, executor: Option<nat>, bounty: int): Result<Funds> {
    if executor.Some? then TransferIfPositive(f, ManagerAccount, User(executor.value), bounty) else Ok(f)
  }

  function Absorb(f: Funds, amount: int): Result<Funds> {
    if amount <= 0 then
      Ok(f)
    else
      var f' :- Transfer(f, ManagerAccount, VaultAccount, amount);
      RecordAbsorbedCollateral(f', amount, TotalAssets(f))
  }

  function SettleEscrow(f: Funds, trader: nat, kind: CloseKind, escrow: int, executor: Option<nat>,
                        isPartial: bool, cfg: Config): Result<Funds>
  {
    if escrow <= 0 then
      Ok(f)
    else
      match kind
      case UserClose => if isPartial then Ok(f) else Transfer(f, ManagerAccount, User(trader), escrow)
      case Deleverage => Transfer(f, ManagerAccount, User(trader), escrow)
      case OrderExecution =>
        if executor.Some? then Transfer(f, ManagerAccount, User(executor.value), escrow) else Ok(f)
      case Liquidation => ReceiveRevenue(f, escrow, cfg)
  }

  /** Every payment of a close, in the order the contract makes them. */
  function SettleFunds(f: Funds, trader: nat, pos: Position, sizeDelta: int, collateralDelta: int,
                       ev: Evaluation, kind: CloseKind, executor: Option<nat>, cfg: Config): Result<Funds>
  {
    var r := Route(ev, collateralDelta, kind, cfg);
    var f1 :- if sizeDelta > 0 then ReleaseLiquidity(f, sizeDelta) else Ok(f);
    var f2 :- if r.vaultToTrader > 0 then PayProfit(f1, trader, r.vaultToTrader) else Ok(f1);
    var f3 :- Absorb(f2, r.absorbed);
    var f4 :- TransferIfPositive(f3, ManagerAccount, User(trader), r.managerToTrader);
    var f5 :- PayBounty(f4, executor, r.bounty);
    var f6 :- ResliceRevenue(f5, r.taggedFees, cfg);
    SettleEscrow(f6, trader, kind, pos.escrow, executor, sizeDelta < pos.size, cfg)
  }

  // ----- Close: state after settlement -----

  function MarketAfterClose(m: Market, pos: Position, sizeDelta: int): Market {
    if pos.isLong then
      m.(longAvg := AverageAfterRemoval(m.longAvg, m.longOi, pos.entryPrice, sizeDelta),
         longOi := m.longOi - sizeDelta)
    else
      m.(shortAvg := AverageAfterRemoval(m.shortAvg, m.shortOi, pos.entryPrice, sizeDelta),
         shortOi := m.shortOi - sizeDelta)
  }

  function PositionsAfterClose(positions: map<PositionKey, Position>, key: PositionKey, pos: Position,
                               sizeDelta: int, collateralDelta: int): map<PositionKey, Position>
  {
    if sizeDelta == pos.size then
      positions - {key}
    else
      positions[key := pos.(collateral := pos.collateral - collateralDelta, size := pos.size - sizeDelta)]
  }

  function Traded(h: History, m: Market, side: Side): History {
    var oi := if side.isLong then m.longOi else m.shortOi;
    h.(trades := h.trades[side := TradesOn(h, side) + 1],
       peakOi := h.peakOi[side := Max(PeakOn(h, side), oi)])
  }

  /** Effective funding paid to traders at the closes of a market, less what they paid. */
  function SettledFunding(h: History, symbol: Symbol): int {
    if symbol in h.settledFunding then h.settledFunding[symbol] else 0
  }

  function TradesOn(h: History, side: Side): nat {
    if side in h.trades then h.trades[side] else 0
  }

  function PeakOn(h: History, side: Side): int {
    if side in h.peakOi then h.peakOi[side] else 0
  }

  function HistoryAfterClose(h: History, m: Market, key: PositionKey, pos: Position, isPartial: bool,
                             ev: Evaluation, r: Routing, kind: CloseKind): History
  {
    var escrow := if kind == UserClose && isPartial then 0 else pos.escrow;
    Traded(h, m, Side(key.symbol, pos.isLong)).(
      bounties := h.bounties + Max(0, r.bounty),
      badDebt := h.badDebt + Max(0, -ev.effectiveHealth),
      escrowRefunded := h.escrowRefunded + (if kind == UserClose || kind == Deleverage then escrow else 0),
      escrowPaidOut := h.escrowPaidOut + (if kind == OrderExecution then escrow else 0),
      escrowForfeited := h.escrowForfeited + (if kind == Liquidation then escrow else 0),
      settledFunding := h.settledFunding[key.symbol := SettledFunding(h, key.symbol) + ev.effectiveFunding])
  }

  function ExecuteClose(tick: Tick, key: PositionKey, pos: Position, sizeDelta: int, collateralDelta: int,
                        ev: Evaluation, kind: CloseKind, executor: Option<nat>, cfg: Config): Result<World>
  {
    var w := tick.world;
    var funds :- SettleFunds(w.funds, key.trader, pos, sizeDelta, collateralDelta, ev, kind, executor, cfg);
    var market := MarketAfterClose(tick.market, pos, sizeDelta);
    var realized := w.pm.realizedPnl + (ev.pnl - ev.borrowFee + ev.effectiveFunding);
    var settled := World(
      w.now,
      funds,
      w.pm.(positions := PositionsAfterClose(w.pm.positions, key, pos, sizeDelta, collateralDelta),
            markets := w.pm.markets[key.symbol := market],
            realizedPnl := realized),
      HistoryAfterClose(w.history, market, key, pos, sizeDelta < pos.size, ev,
                        Route(ev, collateralDelta, kind, cfg), kind));
    Ok(RefreshPnl(settled, key.symbol, tick.markPrice))
  }

  // ----- The four close entrypoints -----

  function SlipsOnClose(isLong: bool, markPrice: int, acceptable: int): bool {
    acceptable > 0 && (if isLong then markPrice < acceptable else markPrice > acceptable)
  }

  /** The share of the collateral that leaves with `sizeDelta`. */
  function CollateralSlice(pos: Position, sizeDelta: int): int
    requires pos.size != 0
  {
    if sizeDelta == pos.size then pos.collateral else TDiv(pos.collateral * sizeDelta, pos.size)
  }

  function Decrease(w: World, key: PositionKey, sizeDelta: int, acceptable: int, env: Env): Result<World> {
    if sizeDelta <= 0 then
      Err(ZeroAmount)
    else if key !in w.pm.positions then
      Err(PositionNotFound)
    else
      var pos := w.pm.positions[key];
      if w.now < pos.lastIncreasedTime + env.cfg.minPositionLifetime then
        Err(PositionNotOldEnough)
      else
        var tick :- Refresh(w, key.symbol, env);
        if SlipsOnClose(pos.isLong, tick.markPrice, acceptable) then
          Err(SlippageExceeded)
        else if sizeDelta > pos.size then
          Err(SizeDeltaExceedsPosition)
        else
          var collateralDelta := CollateralSlice(pos, sizeDelta);
          var ev := Evaluate(tick.market, tick.markPrice, pos, sizeDelta, collateralDelta, env.cfg.fundingCutBps);
          ExecuteClose(tick, key, pos, sizeDelta, collateralDelta, ev, UserClose, None, env.cfg)
  }

  function Liquidate(w: World, key: PositionKey, executor: nat, env: Env): Result<World> {
    var tick :- Refresh(w, key.symbol, env);
    if key !in w.pm.positions then
      Err(PositionNotFound)
    else
      var pos := w.pm.positions[key];
      var ev := Evaluate(tick.market, tick.markPrice, pos, pos.size, pos.collateral, env.cfg.fundingCutBps);
      if ev.effectiveHealth >= LiquidationThreshold(pos.collateral, env.cfg.liquidationThresholdBps) then
        Err(HealthFactorOk)
      else
        ExecuteClose(tick, key, pos, pos.size, pos.collateral, ev, Liquidation, Some(executor), env.cfg)
  }

  function DeleveragePosition(w: World, key: PositionKey, env: Env): Result<World> {
    var tick :- Refresh(w, key.symbol, env);
    var view := ViewOf(w.funds);
    var pnlRatio := view.AdlPnlRatio(w.pm.realizedPnl + w.pm.totalUnrealizedPnl);
    if pnlRatio <= env.cfg.adlPnlBps && view.Utilization() <= env.cfg.adlUtilizationBps then
      Err(AdlNotTriggered)
    else if key !in w.pm.positions then
      Err(PositionNotFound)
    else
      var pos := w.pm.positions[key];
      var ev := Evaluate(tick.market, tick.markPrice, pos, pos.size, pos.collateral, env.cfg.fundingCutBps);
      if ev.pnl <= 0 then
        Err(AdlTargetNotProfitable)
      else
        ExecuteClose(tick, key, pos, pos.size, pos.collateral, ev, Deleverage, None, env.cfg)
  }

  function ExecuteOrder(w: World, key: PositionKey, executor: nat, env: Env): Result<World> {
    if key !in w.pm.positions then
      Err(PositionNotFound)
    else
      var pos := w.pm.positions[key];
      if w.now < pos.lastIncreasedTime + env.cfg.minPositionLifetime then
        Err(PositionNotOldEnough)
      else
        var tick :- Refresh(w, key.symbol, env);
        if !IsTakeProfitTriggered(pos.takeProfit, tick.markPrice, pos.isLong)
           && !IsStopLossTriggered(pos.stopLoss, tick.markPrice, pos.isLong) then
          Err(OrderNotTriggered)
        else
          var ev := Evaluate(tick.market, tick.markPrice, pos, pos.size, pos.collateral, env.cfg.fundingCutBps);
          ExecuteClose(tick, key, pos, pos.size, pos.collateral, ev, OrderExecution, Some(executor), env.cfg)
  }

  // ----- Increase -----

  datatype Order = Order(
    key: PositionKey, size: int, collateral: int, isLong: bool,
    takeProfit: int, stopLoss: int, acceptable: int)

  function SlipsOnOpen(isLong: bool, markPrice: int, acceptable: int): bool {
    acceptable > 0 && (if isLong then markPrice > acceptable else markPrice < acceptable)
  }

  /** The escrow an increase charges: never a refund. */
  function EscrowOwed(existing: Option<Position>, o: Order, fee: int): int {
    var escrow := if existing.Some? then existing.value.escrow else 0;
    var tp := if existing.Some? then existing.value.takeProfit else 0;
    var sl := if existing.Some? then existing.value.stopLoss else 0;
    Max(0, EscrowDelta(escrow, ResultingOrder(tp, o.takeProfit), ResultingOrder(sl, o.stopLoss), fee))
  }

  function IncreasedPosition(existing: Option<Position>, o: Order, market: Market, markPrice: int,
                             escrowOwed: int, now: nat): Position
  {
    match existing
    case None =>
      Position(o.collateral, o.size, markPrice, market.accBorrowIndex, market.accFundingIndex, o.isLong,
               now, o.takeProfit, o.stopLoss, escrowOwed)
    case Some(p) =>
      Position(
        p.collateral + o.collateral,
        p.size + o.size,
        WeightedAverage(p.entryPrice, p.size, markPrice, o.size),
        WeightedAverage(p.entryBorrowIndex, p.size, market.accBorrowIndex, o.size),
        WeightedAverage(p.entryFundingIndex, p.size, market.accFundingIndex, o.size),
        p.isLong, now,
        ResultingOrder(p.takeProfit, o.takeProfit), ResultingOrder(p.stopLoss, o.stopLoss),
        p.escrow + escrowOwed)
  }

  function MarketAfterOpen(m: Market, isLong: bool, markPrice: int, size: int): Market {
    if isLong then
      m.(longAvg := WeightedAverage(m.longAvg, m.longOi, markPrice, size), longOi := m.longOi + size)
    else
      m.(shortAvg := WeightedAverage(m.shortAvg, m.shortOi, markPrice, size), shortOi := m.shortOi + size)
  }

  function OpenFunds(f: Funds, trader: nat, collateral: int, openFee: int, escrowOwed: int, size: int,
                     cfg: Config): Result<Funds>
  {
    var f1 :- Transfer(f, User(trader), ManagerAccount, collateral + openFee + escrowOwed);
    var f2 :- ReceiveRevenue(f1, openFee, cfg);
    ReserveLiquidity(f2, size)
  }

  function LookUp(positions: map<PositionKey, Position>, key: PositionKey): Option<Position> {
    if key in positions then Some(positions[key]) else None
  }

  function OpenPosition(tick: Tick, o: Order, view: VaultView, cfg: Config): Result<World> {
    var w := tick.world;
    var existing := LookUp(w.pm.positions, o.key);
    var openFee := OpenFee(o.size, cfg.openFeeBps);
    var escrowOwed := EscrowOwed(existing, o, cfg.tpSlExecutionFee);
    if o.collateral < cfg.minCollateral then
      Err(BelowMinCollateral)
    else if existing.Some? && existing.value.isLong != o.isLong then
      Err(DirectionMismatch)
    else if o.key.symbol !in w.pm.maxLeverage then
      Err(MarketNotConfigured)
    else
      var cap := w.pm.maxLeverage[o.key.symbol];
      var pos := IncreasedPosition(existing, o, tick.market, tick.markPrice, escrowOwed, w.now);
      if pos.collateral * cap > I128_MAX || pos.size > pos.collateral * cap then
        Err(ExcessiveLeverage)
      else if pos.takeProfit < 0 || pos.stopLoss < 0 then
        Err(InvalidTpSl)
      else if UtilizationBps(view.reserved + o.size, view.safeBasis) > cfg.maxUtilization then
        Err(UtilizationCapBreached)
      else
        var funds :- OpenFunds(w.funds, o.key.trader, o.collateral, openFee, escrowOwed, o.size, cfg);
        var market := MarketAfterOpen(tick.market, o.isLong, tick.markPrice, o.size);
        var after := World(
          w.now,
          funds,
          w.pm.(positions := w.pm.positions[o.key := pos], markets := w.pm.markets[o.key.symbol := market]),
          Traded(w.history, market, Side(o.key.symbol, o.isLong)).(
            openFees := w.history.openFees + openFee,
            escrowCharged := w.history.escrowCharged + escrowOwed,
            leverageCap := w.history.leverageCap[o.key := cap]));
        Ok(RefreshPnl(after, o.key.symbol, tick.markPrice))
  }

  function Increase(w: World, o: Order, env: Env): Result<World> {
    if w.pm.paused then Err(Paused)
    else if o.key.symbol in w.pm.disabled then Err(MarketDisabled)
    else if o.size <= 0 || o.collateral <= 0 then Err(ZeroAmount)
    else
      var tick :- Refresh(w, o.key.symbol, env);
      if SlipsOnOpen(o.isLong, tick.markPrice, o.acceptable) then
        Err(SlippageExceeded)
      else
        OpenPosition(tick, o, ViewOf(w.funds), env.cfg)
  }

  // ----- Orders, indices, pause, market settings -----

  function SetTpSl(w: World, key: PositionKey, takeProfit: int, stopLoss: int, env: Env): Result<World> {
    if w.pm.paused then
      Err(Paused)
    else if key !in w.pm.positions then
      Err(PositionNotFound)
    else if takeProfit < 0 || stopLoss < 0 then
      Err(InvalidTpSl)
    else
      var pos := w.pm.positions[key];
      var delta := EscrowDelta(pos.escrow, takeProfit, stopLoss, env.cfg.tpSlExecutionFee);
      var funds :- ApplyEscrowDelta(w.funds, key.trader, delta);
      Ok(w.(funds := funds,
            pm := w.pm.(positions := w.pm.positions[
              key := pos.(escrow := pos.escrow + delta, takeProfit := takeProfit, stopLoss := stopLoss)]),
            history := w.history.(
              escrowCharged := w.history.escrowCharged + Max(0, delta),
              escrowRefunded := w.history.escrowRefunded + Max(0, -delta))))
  }

  function UpdateIndices(w: World, symbol: Symbol, env: Env): Result<World> {
    if w.pm.paused then
      Err(Paused)
    else
      var tick :- Refresh(w, symbol, env);
      Ok(RefreshPnl(tick.world, symbol, tick.markPrice))
  }

  /** Pausing twice keeps the start of the running pause. */
  function Pause(w: World): World {
    if w.pm.paused then w else w.(pm := w.pm.(paused := true, lastPause := w.now))
  }

  /** Unpausing twice keeps the end of the last pause. The pause start is not cleared. */
  function Unpause(w: World): World {
    if !w.pm.paused then w else w.(pm := w.pm.(paused := false, lastUnpause := w.now))
  }

  function SetMaxLeverage(w: World, symbol: Symbol, maxLeverage: int): Result<World> {
    if maxLeverage < 2 then Err(LeverageBelowFloor)
    else if maxLeverage > 200 then Err(LeverageCapExceeded)
    else Ok(w.(pm := w.pm.(maxLeverage := w.pm.maxLeverage[symbol := maxLeverage])))
  }

  function SetMarketDisabled(w: World, symbol: Symbol, disabled: bool): World {
    w.(pm := w.pm.(disabled := if disabled then w.pm.disabled + {symbol} else w.pm.disabled - {symbol}))
  }

  // ----- Time and the vault's own entrypoints -----

  function AdvanceTime(w: World, seconds: nat): World {
    w.(now := w.now + seconds,
       history := if w.pm.paused
                  then w.history.(pausedSpans := w.history.pausedSpans + [Span(w.now, w.now + seconds)])
                  else w.history)
  }

  function DepositLiquidity(w: World, user: nat, assets: int, cfg: Config): Result<World> {
    var funds :- Deposit(w.funds, user, assets, w.now, cfg.cooldown);
    Ok(w.(funds := funds, history := w.history.(deposits := w.history.deposits + assets)))
  }

  /** Dollars sent to one of the contracts outside its own bookkeeping count as gifts. */
  function Gift(h: History, to: Address, amount: int): History {
    h.(donatedToVault := h.donatedToVault + (if to == VaultAccount then amount else 0),
       donatedToManager := h.donatedToManager + (if to == ManagerAccount then amount else 0))
  }

  function WithdrawLiquidity(w: World, owner: nat, receiver: Address, assets: int): Result<World> {
    var funds :- Withdraw(w.funds, owner, receiver, assets, w.now);
    Ok(w.(funds := funds,
          history := Gift(w.history, receiver, assets).(withdrawals := w.history.withdrawals + assets)))
  }

  function ClaimAllFees(w: World, recipient: Address): Result<World> {
    var fees := w.funds.vault.unclaimedFees;
    var funds :- ClaimFees(w.funds, recipient);
    Ok(w.(funds := funds,
          history := Gift(w.history, recipient, fees).(claimedFees := w.history.claimedFees + fees)))
  }

  function ClaimSomeFees(w: World, recipient: Address, amount: int): Result<World> {
    var funds :- ClaimFeesTo(w.funds, recipient, amount);
    Ok(w.(funds := funds,
          history := Gift(w.history, recipient, amount).(claimedFees := w.history.claimedFees + amount)))
  }

  function TransferShares(w: World, from: nat, to: nat): World {
    w.(funds := PropagateLockup(w.funds, from, to, w.now))
  }

  function SetVaultPaused(w: World, paused: bool): World {
    w.(funds := w.funds.(vault := w.funds.vault.(paused := paused)))
  }

  /** A plain token transfer by a user, possibly a gift to one of the contracts. */
  function UserTransfer(w: World, from: nat, to: Address, amount: int): Result<World> {
    var funds :- Transfer(w.funds, User(from), to, amount);
    Ok(w.(funds := funds, history := Gift(w.history, to, amount)))
  }

  // ----- Runs -----

  datatype Action =
    | DoIncrease(order: Order, env: Env)
    | DoDecrease(key: PositionKey, sizeDelta: int, acceptable: int, env: Env)
    | DoLiquidate(key: PositionKey, executor: nat, env: Env)
    | DoDeleverage(key: PositionKey, env: Env)
    | DoExecuteOrder(key: PositionKey, executor: nat, env: Env)
    | DoSetTpSl(key: PositionKey, takeProfit: int, stopLoss: int, env: Env)
    | DoUpdateIndices(symbol: Symbol, env: Env)
    | DoPause | DoUnpause
    | DoSetMaxLeverage(symbol: Symbol, maxLeverage: int)
    | DoSetMarketDisabled(symbol: Symbol, disabled: bool)
    | DoAdvanceTime(seconds: nat)
    | DoDeposit(user: nat, assets: int, env: Env)
    | DoWithdraw(owner: nat, receiver: Address, assets: int)
    | DoClaimFees(recipient: Address)
    | DoClaimFeesTo(recipient: Address, amount: int)
    | DoTransferShares(from: nat, to: nat)
    | DoSetVaultPaused(paused: bool)
    | DoUserTransfer(from: nat, recipientAccount: Address, amount: int)
  {
    predicate Valid() {
      match this
      case DoIncrease(_, env) => env.Valid()
      case DoDecrease(_, _, _, env) => env.Valid()
      case DoLiquidate(_, _, env) => env.Valid()
      case DoDeleverage(_, env) => env.Valid()
      case DoExecuteOrder(_, _, env) => env.Valid()
      case DoSetTpSl(_, _, _, env) => env.Valid()
      case DoUpdateIndices(_, env) => env.Valid()
      case DoDeposit(_, _, env) => env.Valid()
      case _ => true
    }
  }

  function Call(w: World, a: Action): Result<World> {
    match a
    case DoIncrease(order, env) => Increase(w, order, env)
    case DoDecrease(key, sizeDelta, acceptable, env) => Decrease(w, key, sizeDelta, acceptable, env)
    case DoLiquidate(key, executor, env) => Liquidate(w, key, executor, env)
    case DoDeleverage(key, env) => DeleveragePosition(w, key, env)
    case DoExecuteOrder(key, executor, env) => ExecuteOrder(w, key, executor, env)
    case DoSetTpSl(key, takeProfit, stopLoss, env) => SetTpSl(w, key, takeProfit, stopLoss, env)
    case DoUpdateIndices(symbol, env) => UpdateIndices(w, symbol, env)
    case DoPause => Ok(Pause(w))
    case DoUnpause => Ok(Unpause(w))
    case DoSetMaxLeverage(symbol, maxLeverage) => SetMaxLeverage(w, symbol, maxLeverage)
    case DoSetMarketDisabled(symbol, disabled) => Ok(SetMarketDisabled(w, symbol, disabled))
    case DoAdvanceTime(seconds) => Ok(AdvanceTime(w, seconds))
    case DoDeposit(user, assets, env) => DepositLiquidity(w, user, assets, env.cfg)
    case DoWithdraw(owner, receiver, assets) => WithdrawLiquidity(w, owner, receiver, assets)
    case DoClaimFees(recipient) => ClaimAllFees(w, recipient)
    case DoClaimFeesTo(recipient, amount) => ClaimSomeFees(w, recipient, amount)
    case DoTransferShares(from, to) => Ok(TransferShares(w, from, to))
    case DoSetVaultPaused(paused) => Ok(SetVaultPaused(w, paused))
    case DoUserTransfer(from, to, amount) => UserTransfer(w, from, to, amount)
  }

  /** A call that reverts leaves the world as it was. */
  function Step(w: World, a: Action): World {
    match Call(w, a)
    case Ok(w') => w'
    case Err(_) => w
  }

  function Run(w: World, actions: seq<Action>): World
    decreases |actions|
  {
    if actions == [] then w else Run(Step(w, actions[0]), actions[1..])
  }

  /** Freshly initialized contracts: nothing held, nothing open, users hold what they hold. */
  predicate Initial(w: World) {
    && (forall a :: a in w.funds.balances ==> a.User? && w.funds.balances[a] >= 0)
    && w.funds.vault == VaultState(0, 0, 0, false, map[])
    && w.pm == ManagerState(map[], map[], map[], 0, 0, false, 0, 0, map[], {})
    && w.history == EMPTY_HISTORY
  }
}
