/** Where the keeper's scan is wrong: during a pause, whose start the mirror does not know,
    and once the funding product leaves the contract's integers. Both snapshots are
    reachable and solvent. */
module ScanLimits {
  import opened FixedPoint
  import opened Types
  import opened RiskMath
  import opened FundingRates
  import opened Evaluations
  import opened VaultLedger
  import opened Ledger
  import opened Settlement
  import opened Runs
  import opened Scenarios
  import opened OffchainMirror
  import opened Keeper

  /** The keeper's view of one position. */
  function Snapshot(w: World, key: PositionKey, cfg: Config): KeeperWorld
    requires key in w.pm.positions
  {
    KeeperWorld([Row(key, RowOfPosition(w.pm.positions[key]))],
                map[key.symbol := Projected(w, key.symbol, 1, cfg)],
                Some(ConfigRow(cfg.liquidationThresholdBps, cfg.fundingCutBps)))
  }

  /** A reachable, solvent world on which the keeper flags a position that the contract
      refuses to liquidate, at equal time, price and configuration. */
  ghost predicate FalsePositive(w: World, key: PositionKey, cfg: Config) {
    && Reachable(w) && Solvent(w.funds) && cfg.Valid() && key in w.pm.positions
    && Mirrors(Snapshot(w, key, cfg), w, key.symbol, 1, cfg)
    && IsCandidate(Snapshot(w, key, cfg), 0, Snapshot(w, key, cfg).rows[0])
    && Liquidate(w, key, 0, Env(cfg, Some(1))) == Err(HealthFactorOk)
  }

  lemma RefusedWhenHealthy(w: World, key: PositionKey, cfg: Config)
    requires key in w.pm.positions
    requires !Liquidatable(AccruedMarket(w, key.symbol, cfg), 1, w.pm.positions[key], cfg.fundingCutBps,
                           cfg.liquidationThresholdBps)
    ensures Liquidate(w, key, 0, Env(cfg, Some(1))) == Err(HealthFactorOk)
  {
    hide AccruedMarket, Evaluate, ExecuteClose, LiquidationThreshold, BillingStart, BillingEnd;
  }

  // ----- A year's pause -----

  /** The setup's configuration with a borrow rate of 200 percent. */
  const PRICEY := SETUP.(baseBorrowRate := 20_000)

  /** What two hundred percent a year add to the index in a second, and in a year and a
      second. */
  const SECONDS_INDEX := 6_341_958
  const YEARS_INDEX := 200_000_006_341_958

  /** A long of `size`, paused a second after its open and for a year since. */
  function PausedYear(size: nat): World {
    var w := Opened(size, 0);
    w.(now := 1 + SECONDS_PER_YEAR,
       pm := w.pm.(paused := true, lastPause := 1),
       history := w.history.(pausedSpans := [] + [Span(1, 1 + SECONDS_PER_YEAR)]))
  }

  lemma PausedYearReachable(size: nat)
    requires 0 < 2 * size <= I128_MAX
    ensures Reachable(PausedYear(size))
  {
    hide Reachable;
    OpenedReachable(size, 0);
    var w1 := Step(Opened(size, 0), DoAdvanceTime(1));
    StepReachable(Opened(size, 0), DoAdvanceTime(1));
    StepReachable(w1, DoPause);
    StepReachable(Step(w1, DoPause), DoAdvanceTime(SECONDS_PER_YEAR));
  }

  lemma PausedYearIndices(size: nat)
    requires size > 0
    ensures AccruedMarket(PausedYear(size), MARKET, PRICEY)
            == Market(1, 0, size, 0, INDEX_PRECISION + SECONDS_INDEX, INDEX_PRECISION, 1)
    ensures Projected(PausedYear(size), MARKET, 1, PRICEY)
            == MirrorTick(MarketRow(INDEX_PRECISION + YEARS_INDEX, INDEX_PRECISION, 1 + SECONDS_PER_YEAR, size, 0), 1)
  {
    hide TDiv, UtilizationBps;
    var w := PausedYear(size);
    var u, v := ViewOf(w.funds).Utilization(), UtilizationBps(size, TotalAssets(w.funds));
    TDivUnique(0, BPS, 0);
    TDivUnique(0, size, 0);
    TDivUnique(20_000 * INDEX_PRECISION * 1, BPS * SECONDS_PER_YEAR, SECONDS_INDEX);
    TDivUnique(20_000 * INDEX_PRECISION * (1 + SECONDS_PER_YEAR), BPS * SECONDS_PER_YEAR, YEARS_INDEX);
    TDivUnique(0, BPS * SECONDS_PER_YEAR, 0);
    assert u * 0 == 0 && (u - 1) * 0 == 0 && v * 0 == 0 && (v - 1) * 0 == 0;
  }

  lemma PausedYearFees(size: nat)
    requires 0 < size <= 10_000_000
    ensures BorrowFee(size, INDEX_PRECISION, INDEX_PRECISION + SECONDS_INDEX) == 0
    ensures BorrowFee(size, INDEX_PRECISION, INDEX_PRECISION + YEARS_INDEX) == 2 * size
  {
    hide TDiv;
    TDivUnique(SECONDS_INDEX * size, INDEX_PRECISION, 0);
    TDivUnique(YEARS_INDEX * size, INDEX_PRECISION, 2 * size);
  }

  lemma ZeroFormulas(size: nat, isLong: bool)
    requires size > 0
    ensures UnrealizedPnl(size, 1, 1, isLong) == 0
    ensures FundingFee(size, INDEX_PRECISION, INDEX_PRECISION, isLong) == 0
    ensures BorrowFee(size, INDEX_PRECISION, INDEX_PRECISION) == 0
    ensures TDiv(size * 0, BPS) == 0
  {
    hide TDiv;
    TDivUnique(size * 0, 1, 0);
    TDivUnique(0 * size, INDEX_PRECISION, 0);
    TDivUnique(size * 0, BPS, 0);
  }

  lemma PausedYearProducts(size: nat)
    requires 0 < size <= 10_000_000
    ensures GateProductsFit(PausedYear(size), WHALE, 1, PRICEY)
    ensures FundingProductInRange(PausedYear(size), MARKET, PRICEY)
  {
    hide TDiv, AccruedMarket, UtilizationBps;
    PausedYearIndices(size);
    FreeUtilization(size, size);
    TDivUnique(0, size, 0);
    TDivUnique(0, BPS, 0);
  }

  /** A year into a pause the keeper bills a long for the year, the contract for the second
      before it. */
  lemma PauseFalsePositive(size: nat)
    requires 0 < size <= 10_000_000
    ensures PausedYear(size).pm.paused && FalsePositive(PausedYear(size), WHALE, PRICEY)
    ensures GateProductsFit(PausedYear(size), WHALE, 1, PRICEY)
    ensures FundingProductInRange(PausedYear(size), MARKET, PRICEY)
  {
    hide Reachable, AccruedMarket, Project, TDiv, BorrowFee, FundingFee, UnrealizedPnl, Liquidate;
    var w := PausedYear(size);
    PausedYearReachable(size);
    PausedYearIndices(size);
    PausedYearFees(size);
    ZeroFormulas(size, true);
    assert w.pm.positions[WHALE] == WhalePosition(size);
    RefusedWhenHealthy(w, WHALE, PRICEY);
    PausedYearProducts(size);
  }

  // ----- An overflowing funding product -----

  /** A funding base of 600 percent a year. */
  const STEEP := FREE.(baseFundingRate := 60_000)

  const SMALL := PositionKey(2, MARKET)
  const SHORT := PositionKey(3, MARKET)

  const SMALL_SIZE := 100_000
  const SMALL_COLLATERAL := 299_999

  /** Half of an open interest unit whose reservation fits the contract's utilization
      product, and whose imbalance overflows its funding product twice. */
  predicate Vast(half: nat) {
    && half * 60_000 <= I128_MAX < (2 * half + 1) * 60_000
    && 4 * (2 * half + 1) * BPS <= I128_MAX
  }

  /** The two bounds can be met together, so the overflow below is a real one. */
  lemma SomethingIsVast()
    ensures Vast(2_000_000_000_000_000_000_000_000_000_000_000)
  {
  }

  /** Three units long, one unit short, in a vault that was given four. */
  function Gifted(half: nat): World {
    var unit := 2 * half + 1;
    World(0,
          Funds(map[User(0) := 0, User(1) := 3 * unit, User(2) := SMALL_COLLATERAL, User(3) := unit,
                    VaultAccount := 4 * unit], NO_FUNDS),
          NO_STATE.(maxLeverage := map[MARKET := 2]),
          EMPTY_HISTORY.(donatedToVault := 4 * unit))
  }

  function WithWhale(half: nat): World {
    var size := 3 * (2 * half + 1) - SMALL_SIZE;
    AfterFreeOpen(Gifted(half), WHALE, Max(0, size), Max(0, size), true)
  }

  function WithSmall(half: nat): World {
    AfterFreeOpen(WithWhale(half), SMALL, SMALL_SIZE, SMALL_COLLATERAL, true)
  }

  function WithShort(half: nat): World {
    AfterFreeOpen(WithSmall(half), SHORT, 2 * half + 1, 2 * half + 1, false)
  }

  /** A year later. */
  function Lopsided(half: nat): World {
    WithShort(half).(now := SECONDS_PER_YEAR)
  }

  lemma GiftedReachable(half: nat)
    ensures Reachable(Gifted(half))
  {
    hide Reachable;
    var unit := 2 * half + 1;
    var w0 := World(0, Funds(map[User(0) := 4 * unit, User(1) := 3 * unit, User(2) := SMALL_COLLATERAL,
                                 User(3) := unit], NO_FUNDS), NO_STATE, EMPTY_HISTORY);
    InitialReachable(w0);
    StepReachable(w0, DoSetMaxLeverage(MARKET, 2));
    var w1 := Step(w0, DoSetMaxLeverage(MARKET, 2));
    var gift := DoUserTransfer(0, VaultAccount, 4 * unit);
    StepReachable(w1, gift);
    assert Step(w1, gift).funds.balances == Gifted(half).funds.balances;
  }

  lemma FreeOpenReachable(w: World, key: PositionKey, size: nat, collateral: nat, isLong: bool)
    requires Reachable(w)
    requires AtParity(w, key.symbol) && key !in w.pm.positions
    requires 0 < size <= 2 * collateral <= I128_MAX && collateral <= Balance(w.funds, User(key.trader))
    requires w.funds.vault.reserved + size <= TotalAssets(w.funds)
    ensures Reachable(AfterFreeOpen(w, key, size, collateral, isLong))
  {
    hide Reachable, Increase, AfterFreeOpen, AtParity;
    FreeOpen(w, key, size, collateral, isLong);
    StepReachable(w, DoIncrease(Order(key, size, collateral, isLong, 0, 0, 0), Env(FREE, Some(1))));
  }

  /** The next position can be opened for free, its utilization and leverage products fit. */
  predicate Ready(w: World, key: PositionKey, size: nat, collateral: nat) {
    && AtParity(w, MARKET) && key !in w.pm.positions && key.symbol == MARKET
    && 0 < size <= 2 * collateral <= I128_MAX && collateral <= Balance(w.funds, User(key.trader))
    && w.funds.vault.reserved + size <= TotalAssets(w.funds)
    && FitsI128((w.funds.vault.reserved + size) * BPS)
  }

  lemma WhaleReady(half: nat)
    requires Vast(half)
    ensures Ready(Gifted(half), WHALE, 3 * (2 * half + 1) - SMALL_SIZE, 3 * (2 * half + 1) - SMALL_SIZE)
  {
  }

  lemma SmallReady(half: nat)
    requires Vast(half)
    ensures Ready(WithWhale(half), SMALL, SMALL_SIZE, SMALL_COLLATERAL)
  {
    hide Traded;
  }

  lemma ShortReady(half: nat)
    requires Vast(half)
    ensures Ready(WithSmall(half), SHORT, 2 * half + 1, 2 * half + 1)
  {
    hide Traded;
  }

  lemma LopsidedReachable(half: nat)
    requires Vast(half)
    ensures Reachable(Lopsided(half))
  {
    hide Reachable, AfterFreeOpen, AtParity, Gifted, WithWhale, WithSmall, WithShort;
    var unit := 2 * half + 1;
    GiftedReachable(half);
    WhaleReady(half);
    SmallReady(half);
    ShortReady(half);
    assert WithWhale(half) == AfterFreeOpen(Gifted(half), WHALE, 3 * unit - SMALL_SIZE, 3 * unit - SMALL_SIZE, true)
           && WithSmall(half) == AfterFreeOpen(WithWhale(half), SMALL, SMALL_SIZE, SMALL_COLLATERAL, true)
           && WithShort(half) == AfterFreeOpen(WithSmall(half), SHORT, unit, unit, false) by { Layers(half); }
    FreeOpenReachable(Gifted(half), WHALE, 3 * unit - SMALL_SIZE, 3 * unit - SMALL_SIZE, true);
    FreeOpenReachable(WithWhale(half), SMALL, SMALL_SIZE, SMALL_COLLATERAL, true);
    FreeOpenReachable(WithSmall(half), SHORT, unit, unit, false);
    ShortRuns(half);
    StepReachable(WithShort(half), DoAdvanceTime(SECONDS_PER_YEAR));
  }

  lemma Layers(half: nat)
    requires Vast(half)
    ensures var unit := 2 * half + 1;
            && WithWhale(half) == AfterFreeOpen(Gifted(half), WHALE, 3 * unit - SMALL_SIZE, 3 * unit - SMALL_SIZE, true)
            && WithSmall(half) == AfterFreeOpen(WithWhale(half), SMALL, SMALL_SIZE, SMALL_COLLATERAL, true)
            && WithShort(half) == AfterFreeOpen(WithSmall(half), SHORT, unit, unit, false)
  {
    hide AfterFreeOpen;
  }

  lemma ShortRuns(half: nat)
    requires Vast(half)
    ensures !WithShort(half).pm.paused && WithShort(half).now == 0
  {
    hide Traded;
  }

  /** What the liquidation of the small position reads. */
  lemma LopsidedFields(half: nat)
    requires Vast(half)
    ensures var w, unit := Lopsided(half), 2 * half + 1;
            && !w.pm.paused && w.pm.lastUnpause == 0 && w.now == SECONDS_PER_YEAR
            && w.funds.vault.reserved == TotalAssets(w.funds) == 4 * unit && w.funds.vault.unclaimedFees == 0
            && MARKET in w.pm.markets && SMALL in w.pm.positions
            && w.pm.markets[MARKET] == Market(1, 1, 3 * unit, unit, INDEX_PRECISION, INDEX_PRECISION, 0)
            && w.pm.positions[SMALL]
               == Position(SMALL_COLLATERAL, SMALL_SIZE, 1, INDEX_PRECISION, INDEX_PRECISION, true, 0, 0, 0, 0)
  {
    hide Traded;
  }

  lemma LopsidedRates(half: nat)
    requires Vast(half)
    ensures var unit := 2 * half + 1;
            && FundingRate(3 * unit, unit, 60_000) == 29_999
            && BigintFundingRate(3 * unit, unit, 60_000) == 30_000
  {
    hide TDiv;
    var unit := 2 * half + 1;
    TDivUnique(2 * unit * 60_000, 4 * unit, 30_000);
    TDivUnique(2 * unit, 2, unit);
    TDivUnique(4 * unit, 2, 2 * unit);
    TDivUnique(unit, 2, half);
    assert Halve(unit, 2 * unit, 60_000) == (half, unit);
    assert Halve(2 * unit, 4 * unit, 60_000) == Halve(unit, 2 * unit, 60_000);
    TDivUnique(half * 60_000, unit, 29_999);
  }

  const HALVED_YEAR := 299_990_000_000_000
  const EXACT_YEAR := 300_000_000_000_000

  lemma LopsidedIndices(half: nat)
    requires Vast(half)
    ensures AccruedMarket(Lopsided(half), MARKET, STEEP).accFundingIndex == INDEX_PRECISION + HALVED_YEAR
    ensures AccruedMarket(Lopsided(half), MARKET, STEEP).accBorrowIndex == INDEX_PRECISION
    ensures var projected := Projected(Lopsided(half), MARKET, 1, STEEP);
            && projected.markPrice == 1
            && projected.market.accFundingIndex == INDEX_PRECISION + EXACT_YEAR
            && projected.market.accBorrowIndex == INDEX_PRECISION
  {
    hide TDiv, UtilizationBps, Lopsided, FundingRate, BigintFundingRate;
    var unit := 2 * half + 1;
    var u := UtilizationBps(4 * unit, 4 * unit);
    LopsidedFields(half);
    LopsidedRates(half);
    TDivUnique(29_999 * INDEX_PRECISION * SECONDS_PER_YEAR, BPS * SECONDS_PER_YEAR, HALVED_YEAR);
    TDivUnique(30_000 * INDEX_PRECISION * SECONDS_PER_YEAR, BPS * SECONDS_PER_YEAR, EXACT_YEAR);
    TDivUnique(0, BPS, 0);
    TDivUnique(0, BPS * SECONDS_PER_YEAR, 0);
    assert u * 0 == 0 && (u - 1) * 0 == 0;
  }

  lemma SmallFunding()
    ensures FundingFee(SMALL_SIZE, INDEX_PRECISION, INDEX_PRECISION + HALVED_YEAR, true) == -299_990
    ensures FundingFee(SMALL_SIZE, INDEX_PRECISION, INDEX_PRECISION + EXACT_YEAR, true) == -300_000
    ensures BorrowFee(SMALL_SIZE, INDEX_PRECISION, INDEX_PRECISION) == 0
    ensures UnrealizedPnl(SMALL_SIZE, 1, 1, true) == 0
    ensures TDiv(SMALL_COLLATERAL * 0, BPS) == 0
  {
  }

  lemma LopsidedProducts(half: nat)
    requires Vast(half)
    ensures SMALL in Lopsided(half).pm.positions && GateProductsFit(Lopsided(half), SMALL, 1, STEEP)
    ensures !FundingProductInRange(Lopsided(half), MARKET, STEEP)
  {
    hide TDiv, Lopsided, AccruedMarket, FundingRate, UtilizationBps;
    LopsidedFields(half);
    LopsidedRates(half);
    LopsidedIndices(half);
    FreeUtilization(4 * (2 * half + 1), 4 * (2 * half + 1));
    TDivUnique(0, BPS, 0);
  }

  lemma LopsidedSolvent(half: nat)
    requires Vast(half)
    ensures Solvent(Lopsided(half).funds)
  {
    hide Lopsided;
    LopsidedFields(half);
  }

  /** The mirror's exact rate is one basis point above the contract's halved one: after a
      year the small long is a dollar short off chain and nine dollars healthy on chain. */
  lemma OverflowFalsePositive(half: nat)
    requires Vast(half)
    ensures !Lopsided(half).pm.paused && FalsePositive(Lopsided(half), SMALL, STEEP)
    ensures GateProductsFit(Lopsided(half), SMALL, 1, STEEP)
    ensures !FundingProductInRange(Lopsided(half), MARKET, STEEP)
  {
    hide Reachable, AccruedMarket, Project, TDiv, BorrowFee, FundingFee, UnrealizedPnl, Liquidate, Lopsided, Solvent,
         GateProductsFit;
    LopsidedReachable(half);
    LopsidedFields(half);
    LopsidedIndices(half);
    LopsidedProducts(half);
    LopsidedSolvent(half);
    SmallFunding();
    RefusedWhenHealthy(Lopsided(half), SMALL, STEEP);
  }
}
