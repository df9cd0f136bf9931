/** Short runs from freshly initialized contracts, for the results that need a witness. */
module Scenarios {
  import opened FixedPoint
  import opened Types
  import opened RiskMath
  import opened FundingRates
  import opened Evaluations
  import opened VaultLedger
  import opened Ledger
  import opened Runs

  const MARKET: Symbol := "XLM"
  const WHALE := PositionKey(1, MARKET)
  const LONG_SIDE := Side(MARKET, true)

  /** All revenue to the protocol, an open fee of one basis point, no other cost. */
  const SETUP := Config(BPS, 0, 1, 0, 0, 1, 0, 0, BPS, 0, 5_000, 1, 0, 0, 0, 0, 1, 0)

  const NO_FUNDS := VaultState(0, 0, 0, false, map[])
  const NO_STATE := ManagerState(map[], map[], map[], 0, 0, false, 0, 0, map[], {})

  function Fee(size: nat): nat {
    size / BPS
  }

  /** A liquidity provider with `size` dollars, a trader with as many and the open fee, and
      a third user with `spare`. */
  function Start(size: nat, spare: nat): World {
    World(0, Funds(map[User(0) := size, User(1) := size + Fee(size), User(2) := spare], NO_FUNDS), NO_STATE,
          EMPTY_HISTORY)
  }

  /** The market allows a leverage of two and the provider has deposited everything. */
  function Provided(size: nat, spare: nat): World {
    World(0,
          Funds(map[User(0) := 0, User(1) := size + Fee(size), User(2) := spare, VaultAccount := size],
                NO_FUNDS.(lockups := map[0 := 0])),
          NO_STATE.(maxLeverage := map[MARKET := 2]),
          EMPTY_HISTORY.(deposits := size))
  }

  function WhalePosition(size: nat): Position {
    Position(size, size, 1, INDEX_PRECISION, INDEX_PRECISION, true, 0, 0, 0, 0)
  }

  /** The trader has opened a long of the vault's size at a price and a leverage of one. */
  function Opened(size: nat, spare: nat): World {
    World(0,
          Funds(map[User(0) := 0, User(1) := 0, User(2) := spare, VaultAccount := size + Fee(size),
                    ManagerAccount := size],
                VaultState(size, Fee(size), 0, false, map[0 := 0])),
          NO_STATE.(positions := map[WHALE := WhalePosition(size)],
                    markets := map[MARKET := Market(1, 0, size, 0, INDEX_PRECISION, INDEX_PRECISION, 0)],
                    cachedPnl := map[MARKET := 0], maxLeverage := map[MARKET := 2]),
          EMPTY_HISTORY.(deposits := size, openFees := Fee(size), trades := map[LONG_SIDE := 1],
                         peakOi := map[LONG_SIDE := size], leverageCap := map[WHALE := 2]))
  }

  function Enabled(size: nat, spare: nat): World {
    var w := Start(size, spare);
    w.(pm := w.pm.(maxLeverage := map[MARKET := 2]))
  }

  lemma EnabledReachable(size: nat, spare: nat)
    ensures Reachable(Enabled(size, spare))
  {
    hide Reachable;
    InitialReachable(Start(size, spare));
    StepReachable(Start(size, spare), DoSetMaxLeverage(MARKET, 2));
  }

  lemma ProvidedReachable(size: nat, spare: nat)
    requires size > 0
    ensures Reachable(Provided(size, spare))
  {
    hide Reachable;
    EnabledReachable(size, spare);
    var deposit := DoDeposit(0, size, Env(SETUP, None));
    StepReachable(Enabled(size, spare), deposit);
    assert Step(Enabled(size, spare), deposit).funds.balances == Provided(size, spare).funds.balances;
  }

  lemma SetupFee(size: nat)
    ensures OpenFee(size, 1) == Fee(size) && NonLpSlice(Fee(size), SETUP) == Fee(size)
    ensures size > 0 ==> UtilizationBps(size, size) == BPS
    ensures MarketUnrealizedPnl(size, 1, 0, 0, 1) == 0
  {
    hide TDiv;
    TDivOfNonNegative(size, BPS);
    TDivUnique(Fee(size) * BPS, BPS, Fee(size));
    if size > 0 {
      TDivUnique(size * BPS, size, BPS);
    }
    TDivUnique(0, 1, 0);
  }

  lemma OpenedReachable(size: nat, spare: nat)
    requires 0 < 2 * size <= I128_MAX
    ensures Reachable(Opened(size, spare))
  {
    hide Reachable, TDiv;
    var w, o := Provided(size, spare), Order(WHALE, size, size, true, 0, 0, 0);
    ProvidedReachable(size, spare);
    StepReachable(w, DoIncrease(o, Env(SETUP, Some(1))));
    SetupFee(size);
    OpenedStep(size, spare);
  }

  lemma OpenedStep(size: nat, spare: nat)
    requires 0 < 2 * size <= I128_MAX
    ensures Increase(Provided(size, spare), Order(WHALE, size, size, true, 0, 0, 0), Env(SETUP, Some(1)))
            == Ok(Opened(size, spare))
  {
    hide TDiv, OpenFee, UtilizationBps, OpenFunds, MarketUnrealizedPnl;
    SetupFee(size);
    var w, o := Provided(size, spare), Order(WHALE, size, size, true, 0, 0, 0);
    assert Accrued(w, MARKET, SETUP) == w;
    OpenedFunds(size, spare);
  }

  lemma OpenedFunds(size: nat, spare: nat)
    requires size > 0
    ensures OpenFunds(Provided(size, spare).funds, 1, size, Fee(size), 0, size, SETUP) == Ok(Opened(size, spare).funds)
  {
    hide NonLpSlice;
    SetupFee(size);
    var paid := Transfer(Provided(size, spare).funds, User(1), ManagerAccount, size + Fee(size)).value;
    var received := ReceiveRevenue(paid, Fee(size), SETUP).value;
    assert received.balances == Opened(size, spare).funds.balances;
  }

  // ----- A vault drained to its fee buffer -----

  const EMPTIED := Market(0, 0, 0, 0, INDEX_PRECISION, INDEX_PRECISION, 0)

  function LongOnly(size: nat): Market {
    Market(1, 0, size, 0, INDEX_PRECISION, INDEX_PRECISION, 0)
  }

  /** A close at the entry price, without fees. */
  function Flat(size: nat): Evaluation {
    Evaluation(0, 0, 0, 0, 0, size)
  }

  /** The long is closed at its entry price: the open fee stays. */
  function Closed(size: nat, spare: nat): World {
    var w := Opened(size, spare);
    World(0,
          Funds(w.funds.balances[ManagerAccount := 0][User(1) := size], w.funds.vault.(reserved := 0)),
          w.pm.(positions := w.pm.positions - {WHALE},
                markets := w.pm.markets[MARKET := EMPTIED]),
          w.history.(trades := w.history.trades[LONG_SIDE := 2], peakOi := w.history.peakOi[LONG_SIDE := size],
                     settledFunding := w.history.settledFunding[MARKET := 0]))
  }

  /** The provider has withdrawn everything that is free: only the fee buffer is left. */
  function Drained(size: nat, spare: nat): World {
    var w := Closed(size, spare);
    w.(funds := w.funds.(balances := w.funds.balances[VaultAccount := Fee(size)][User(0) := size]),
       history := w.history.(withdrawals := size))
  }

  /** A market that was updated this very second accrues nothing. */
  lemma NothingToBill(w: World, symbol: Symbol, cfg: Config)
    requires MarketOf(w, symbol).lastIndexUpdate == w.now && !w.pm.paused
    ensures Accrued(w, symbol, cfg) == w && AccruedMarket(w, symbol, cfg) == MarketOf(w, symbol)
  {
    hide FundingRate, BorrowRate, AccumulateIndex;
  }

  lemma FlatFormulas(size: nat)
    requires size > 0
    ensures Evaluate(LongOnly(size), 1, WhalePosition(size), size, size, 0) == Flat(size)
    ensures MarketAfterClose(LongOnly(size), WhalePosition(size), size) == EMPTIED
    ensures MarketUnrealizedPnl(0, 0, 0, 0, 1) == 0
    ensures Route(Flat(size), size, UserClose, SETUP) == Routing(size, size, 0, 0, 0, 0)
  {
    hide TDiv;
    TDivUnique(0, 1, 0);
    TDivUnique(0, INDEX_PRECISION, 0);
  }

  lemma ClosedFunds(size: nat, spare: nat)
    requires size > 0
    ensures SettleFunds(Opened(size, spare).funds, 1, WhalePosition(size), size, size, Flat(size), UserClose, None,
                        SETUP) == Ok(Closed(size, spare).funds)
  {
    hide Route, NonLpSlice;
    FlatFormulas(size);
  }

  lemma ClosedExecute(size: nat, spare: nat)
    requires size > 0
    ensures ExecuteClose(Tick(Opened(size, spare), LongOnly(size), 1), WHALE, WhalePosition(size), size, size,
                         Flat(size), UserClose, None, SETUP) == Ok(Closed(size, spare))
  {
    hide SettleFunds, Route, MarketAfterClose, MarketUnrealizedPnl;
    FlatFormulas(size);
    ClosedFunds(size, spare);
    assert map[MARKET := 0][MARKET := 0] == map[MARKET := 0];
  }

  lemma ClosedStep(size: nat, spare: nat)
    requires size > 0
    ensures Decrease(Opened(size, spare), WHALE, size, 0, Env(SETUP, Some(1))) == Ok(Closed(size, spare))
  {
    hide Evaluate, ExecuteClose, Accrued, AccruedMarket, TDiv;
    FlatFormulas(size);
    NothingToBill(Opened(size, spare), MARKET, SETUP);
    ClosedExecute(size, spare);
  }

  lemma DrainedReachable(size: nat, spare: nat)
    requires 0 < 2 * size <= I128_MAX
    ensures Reachable(Drained(size, spare))
  {
    hide Reachable, Decrease;
    OpenedReachable(size, spare);
    ClosedStep(size, spare);
    StepReachable(Opened(size, spare), DoDecrease(WHALE, size, 0, Env(SETUP, Some(1))));
    StepReachable(Closed(size, spare), DoWithdraw(0, User(0), size));
  }

  // ----- Opens at a price of one -----

  /** No fees at all. */
  const FREE := SETUP.(openFeeBps := 0)

  function GrownMarket(m: Market, isLong: bool, size: nat): Market {
    if isLong then m.(longAvg := 1, longOi := m.longOi + size) else m.(shortAvg := 1, shortOi := m.shortOi + size)
  }

  /** A running manager whose market trades at one and owes nobody anything. */
  predicate AtParity(w: World, symbol: Symbol) {
    var m := MarketOf(w, symbol);
    && !w.pm.paused && w.pm.lastUnpause <= w.now == m.lastIndexUpdate
    && symbol !in w.pm.disabled && symbol in w.pm.maxLeverage && w.pm.maxLeverage[symbol] == 2
    && m.longOi >= 0 && m.shortOi >= 0 && (m.longOi > 0 ==> m.longAvg == 1) && (m.shortOi > 0 ==> m.shortAvg == 1)
    && CachedPnl(w.pm, symbol) == w.pm.totalUnrealizedPnl == w.funds.vault.netTraderPnl == 0
    && w.funds.vault.unclaimedFees == 0 <= w.funds.vault.reserved
  }

  /** A new position of `size` at a price and a leverage that cost nothing but collateral. */
  function AfterFreeOpen(w: World, key: PositionKey, size: nat, collateral: nat, isLong: bool): World {
    var m := GrownMarket(MarketOf(w, key.symbol), isLong, size);
    var debited := w.funds.balances[User(key.trader) := Balance(w.funds, User(key.trader)) - collateral];
    World(w.now,
          Funds(debited[ManagerAccount := Balance(w.funds, ManagerAccount) + collateral],
                w.funds.vault.(reserved := w.funds.vault.reserved + size)),
          w.pm.(positions := w.pm.positions[
                  key := Position(collateral, size, 1, m.accBorrowIndex, m.accFundingIndex, isLong, w.now, 0, 0, 0)],
                markets := w.pm.markets[key.symbol := m],
                cachedPnl := w.pm.cachedPnl[key.symbol := 0]),
          Traded(w.history, m, Side(key.symbol, isLong)).(
            leverageCap := w.history.leverageCap[key := 2]))
  }

  lemma ParityFormulas(m: Market, isLong: bool, size: nat)
    requires size > 0 && m.longOi >= 0 && m.shortOi >= 0
    requires (m.longOi > 0 ==> m.longAvg == 1) && (m.shortOi > 0 ==> m.shortAvg == 1)
    ensures MarketAfterOpen(m, isLong, 1, size) == GrownMarket(m, isLong, size)
    ensures var m' := GrownMarket(m, isLong, size);
            MarketUnrealizedPnl(m'.longOi, m'.longAvg, m'.shortOi, m'.shortAvg, 1) == 0
    ensures OpenFee(size, 0) == 0
  {
    hide TDiv;
    TDivUnique(size * 0, BPS, 0);
    TDivUnique(0, 1, 0);
    TDivUnique(m.longOi + size, m.longOi + size, 1);
    TDivUnique(m.shortOi + size, m.shortOi + size, 1);
    assert m.longOi * (1 - 1) == 0 && m.shortOi * (1 - 1) == 0;
    assert (m.longOi + size) * (1 - 1) == 0 && (m.shortOi + size) * (1 - 1) == 0;
  }

  lemma FreeUtilization(reserved: nat, basis: nat)
    requires reserved <= basis
    ensures UtilizationBps(reserved, basis) <= BPS
  {
    hide TDiv;
    if basis > 0 {
      TDivBelow(reserved * BPS, basis, BPS + 1);
      MulLe(reserved, basis, BPS);
    }
  }

  lemma FreeFunds(w: World, key: PositionKey, size: nat, collateral: nat, isLong: bool)
    requires AtParity(w, key.symbol)
    requires 0 < size && collateral <= Balance(w.funds, User(key.trader))
    requires w.funds.vault.reserved + size <= TotalAssets(w.funds)
    ensures OpenFunds(w.funds, key.trader, collateral, 0, 0, size, FREE)
            == Ok(AfterFreeOpen(w, key, size, collateral, isLong).funds)
  {
    hide Traded, GrownMarket;
  }

  lemma FreeOpen(w: World, key: PositionKey, size: nat, collateral: nat, isLong: bool)
    requires AtParity(w, key.symbol) && key !in w.pm.positions
    requires 0 < size <= 2 * collateral <= I128_MAX && collateral <= Balance(w.funds, User(key.trader))
    requires w.funds.vault.reserved + size <= TotalAssets(w.funds)
    ensures Increase(w, Order(key, size, collateral, isLong, 0, 0, 0), Env(FREE, Some(1)))
            == Ok(AfterFreeOpen(w, key, size, collateral, isLong))
  {
    hide TDiv, OpenFee, UtilizationBps, MarketUnrealizedPnl, MarketAfterOpen, Accrued, AccruedMarket, OpenFunds;
    FreeFunds(w, key, size, collateral, isLong);
    var m := MarketOf(w, key.symbol);
    NothingToBill(w, key.symbol, FREE);
    ParityFormulas(m, isLong, size);
    FreeUtilization(w.funds.vault.reserved + size, TotalAssets(w.funds));
  }

  // ----- Products the contracts compute -----

  /** Positions up to this size, a hundred thousand dollars at seven decimals, keep every
      product of the runs above, and of the vault's share conversion with its offset of six
      decimals, within the contracts' integers. */
  const MODEST := 1_000_000_000_000

  predicate FundingProductInRange(w: World, symbol: Symbol, cfg: Config) {
    var m := MarketOf(w, symbol);
    FitsI128((m.longOi - m.shortOi) * cfg.baseFundingRate)
  }

  /** The products of an index refresh, the funding product aside. Without seconds to bill
      there are none. */
  predicate RefreshProductsFit(w: World, symbol: Symbol, cfg: Config) {
    var m, view, elapsed := MarketOf(w, symbol), ViewOf(w.funds), BilledSeconds(w, symbol);
    var utilization := view.Utilization();
    var borrowRate := BorrowRate(utilization, cfg.baseBorrowRate, cfg.slope1, cfg.slope2, cfg.optimalUtilization);
    var fundingRate := FundingRate(m.longOi, m.shortOi, cfg.baseFundingRate);
    elapsed == 0 ||
    (&& FitsI128(view.reserved * BPS) && FitsI128(m.longOi + m.shortOi)
     && FitsI128(utilization * cfg.slope1) && FitsI128((utilization - cfg.optimalUtilization) * cfg.slope2)
     && FitsI128(borrowRate * INDEX_PRECISION * elapsed) && FitsI128(fundingRate * INDEX_PRECISION * elapsed))
  }

  /** The products of a liquidation up to the health gate, the funding product aside. */
  predicate GateProductsFit(w: World, key: PositionKey, markPrice: int, cfg: Config)
    requires key in w.pm.positions
  {
    var pos, m := w.pm.positions[key], AccruedMarket(w, key.symbol, cfg);
    && RefreshProductsFit(w, key.symbol, cfg)
    && FitsI128(pos.size * (markPrice - pos.entryPrice))
    && FitsI128((m.accBorrowIndex - pos.entryBorrowIndex) * pos.size)
    && FitsI128((m.accFundingIndex - pos.entryFundingIndex) * pos.size)
    && FitsI128(pos.collateral * cfg.liquidationThresholdBps)
  }

  /** The products and sums of an open of a new position, after the refresh. */
  predicate OpenProductsFit(w: World, o: Order, markPrice: int, cfg: Config)
    requires o.key.symbol in w.pm.maxLeverage
  {
    var m := MarketOf(w, o.key.symbol);
    var oi, avg := if o.isLong then m.longOi else m.shortOi, if o.isLong then m.longAvg else m.shortAvg;
    && FitsI128(o.size * cfg.openFeeBps) && FitsI128(o.collateral * w.pm.maxLeverage[o.key.symbol])
    && FitsI128((w.funds.vault.reserved + o.size) * BPS)
    && FitsI128(avg * oi + markPrice * o.size)
    && FitsI128(Balance(w.funds, ManagerAccount) + o.collateral)
  }
}
