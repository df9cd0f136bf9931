/** Exactly when a close settles: the vault has to be able to pay the trader's profit and to
    tag the fees, which above zero health are not capped by what it absorbs. */
module CloseSettlement {
  import opened FixedPoint
  import opened Types
  import opened RiskMath
  import opened Evaluations
  import opened VaultLedger
  import opened Ledger
  import opened Settlement
  import opened Invariants
  import opened Entrypoints
  import opened Runs
  import opened Guarantees
  import opened Scenarios

  /** What the vault owes a trader beyond the collateral is free once the position's size is
      released. The trader's own cached profit still counts against it. */
  predicate ProfitPayable(f: Funds, size: int, r: Routing) {
    r.vaultToTrader <= 0
    || r.vaultToTrader + (f.vault.reserved - size) + f.vault.unclaimedFees + Max(0, f.vault.netTraderPnl)
       <= TotalAssets(f)
  }

  /** The vault can tag the close's fees once the size is released, the profit paid and the
      collateral absorbed. */
  predicate FeesTaggable(f: Funds, size: int, r: Routing, cfg: Config) {
    var slice := if r.taggedFees <= 0 then 0 else NonLpSlice(r.taggedFees, cfg);
    slice == 0
    || f.vault.reserved - size + f.vault.unclaimedFees + slice
       <= TotalAssets(f) + Max(0, r.absorbed) - Max(0, r.vaultToTrader)
  }

  lemma ProfitPaidIff(f: Funds, trader: nat, amount: int)
    requires BalancesNonNegative(f) && f.vault.unclaimedFees >= 0 && f.vault.reserved >= 0 && amount > 0
    ensures PayProfit(f, trader, amount).Ok?
            <==> amount + f.vault.reserved + f.vault.unclaimedFees + Max(0, f.vault.netTraderPnl) <= TotalAssets(f)
  {
  }

  /** Paying the profit and tagging the fees are the only steps of a close that can fail:
      reservation, custody and solvency carry all the others. Both conditions can be read
      off before the call. */
  lemma SettlesIff(f: Funds, trader: nat, pos: Position, size: int, slice: int, ev: Evaluation, kind: CloseKind,
                   executor: Option<nat>, cfg: Config)
    requires cfg.Valid() && BalancesNonNegative(f) && Solvent(f) && f.vault.unclaimedFees >= 0
    requires 0 < size <= f.vault.reserved && slice >= 0 && pos.escrow >= 0 && ExecutorFits(kind, executor)
    requires slice + pos.escrow <= Balance(f, ManagerAccount)
    ensures var r := Route(ev, slice, kind, cfg);
            SettleFunds(f, trader, pos, size, slice, ev, kind, executor, cfg).Ok?
            <==> ProfitPayable(f, size, r) && FeesTaggable(f, size, r, cfg)
  {
    hide SettleFunds, SettleWithVault, SettleCollateral, SettleEscrow, Route, FeesTaggable, BalancesNonNegative,
         Balance, TotalAssets, Solvent;
    var r := Route(ev, slice, kind, cfg);
    SettleFundsInTwo(f, trader, pos, size, slice, ev, kind, executor, cfg);
    RouteBalanced(ev, slice, kind, executor, cfg);
    VaultSideFirst(f, trader, size, r, executor, cfg);
    VaultSideIff(f, trader, size, r);
    VaultSideNet(f, trader, size, r);
    if SettleWithVault(f, trader, size, r).Ok? {
      var paid := SettleWithVault(f, trader, size, r).value;
      RestIff(f, paid, trader, size, slice, r, executor, cfg);
      CollateralNet(f, trader, size, slice, r, executor, cfg);
      var collateral := SettleCollateral(f, trader, size, r, executor, cfg);
      if collateral.Ok? {
        EscrowSettles(collateral.value, trader, kind, pos.escrow, executor, size < pos.size, cfg);
      }
    }
  }

  lemma VaultSideFirst(f: Funds, trader: nat, size: int, r: Routing, executor: Option<nat>, cfg: Config)
    ensures SettleCollateral(f, trader, size, r, executor, cfg).Ok? ==> SettleWithVault(f, trader, size, r).Ok?
  {
    hide SettleWithVault, TransferIfPositive, PayBounty, ResliceRevenue;
  }

  lemma VaultSideIff(f: Funds, trader: nat, size: int, r: Routing)
    requires BalancesNonNegative(f) && f.vault.unclaimedFees >= 0
    requires 0 < size <= f.vault.reserved && r.absorbed <= Balance(f, ManagerAccount)
    ensures SettleWithVault(f, trader, size, r).Ok? <==> ProfitPayable(f, size, r)
  {
    hide PayProfit, Absorb;
    var f1 := ReleaseLiquidity(f, size).value;
    if r.vaultToTrader > 0 {
      ProfitPaidIff(f1, trader, r.vaultToTrader);
      PayProfitNet(f1, trader, r.vaultToTrader);
    }
    if r.vaultToTrader <= 0 || PayProfit(f1, trader, r.vaultToTrader).Ok? {
      AbsorbNet(if r.vaultToTrader > 0 then PayProfit(f1, trader, r.vaultToTrader).value else f1, r.absorbed);
    }
  }

  lemma RestIff(f: Funds, paid: Funds, trader: nat, size: int, slice: int, r: Routing, executor: Option<nat>,
                cfg: Config)
    requires cfg.Valid() && BalancesNonNegative(paid) && SettleWithVault(f, trader, size, r) == Ok(paid)
    requires paid.vault == f.vault.(reserved := f.vault.reserved - size)
    requires TotalAssets(paid) == TotalAssets(f) - Max(0, r.vaultToTrader) + Max(0, r.absorbed)
    requires Balance(paid, ManagerAccount) == Balance(f, ManagerAccount) - Max(0, r.absorbed)
    requires Balanced(r, slice, executor) && 0 <= slice <= Balance(f, ManagerAccount)
    ensures SettleCollateral(f, trader, size, r, executor, cfg).Ok? <==> FeesTaggable(f, size, r, cfg)
  {
    hide NonLpSlice, SettleWithVault, ResliceRevenue, PayBounty, TransferIfPositive, BalancesNonNegative;
    PayOutNet(paid, trader, r.managerToTrader);
    var f4 := TransferIfPositive(paid, ManagerAccount, User(trader), r.managerToTrader).value;
    PayBountyNet(f4, executor, r.bounty);
    ResliceNet(PayBounty(f4, executor, r.bounty).value, r.taggedFees, cfg);
  }

  lemma EscrowSettles(f: Funds, trader: nat, kind: CloseKind, escrow: int, executor: Option<nat>, isPartial: bool,
                      cfg: Config)
    requires cfg.Valid() && BalancesNonNegative(f) && Solvent(f) && 0 <= escrow <= Balance(f, ManagerAccount)
    ensures SettleEscrow(f, trader, kind, escrow, executor, isPartial, cfg).Ok?
  {
    hide ReceiveRevenue, Solvent;
    ReceiveNet(f, escrow, cfg);
  }

  // ----- The entrypoints -----

  /** What a close of `size` has to be paid from. */
  predicate Settles(w: World, key: PositionKey, size: int, env: Env, kind: CloseKind)
    requires key in w.pm.positions && w.pm.positions[key].size != 0 && env.quote.Some?
  {
    var r := Route(EvaluationAt(w, key, size, env), CollateralSlice(w.pm.positions[key], size), kind, env.cfg);
    ProfitPayable(w.funds, size, r) && FeesTaggable(w.funds, size, r, env.cfg)
  }

  lemma ExecutionSettlesIff(w: World, key: PositionKey, size: int, env: Env, kind: CloseKind, executor: Option<nat>)
    requires Inv(w) && Solvent(w.funds) && env.Valid() && env.quote.Some? && key in w.pm.positions
    requires 0 < size <= w.pm.positions[key].size && ExecutorFits(kind, executor)
    ensures var pos := w.pm.positions[key];
            ExecuteClose(Refresh(w, key.symbol, env).value, key, pos, size, CollateralSlice(pos, size),
                         EvaluationAt(w, key, size, env), kind, executor, env.cfg).Ok?
            <==> Settles(w, key, size, env, kind)
  {
    hide Inv, Solvent, Evaluate, SettleFunds, AccruedMarket, MarketAfterClose, Route, FeesTaggable, ProfitPayable,
         RefreshPnl, HistoryAfterClose, CollateralSlice, PositionsAfterClose, BalancesNonNegative;
    var pos := w.pm.positions[key];
    CloseFactsOf(w, key);
    PositionBacked(w, key);
    InvBalances(w);
    SliceWithin(pos, size);
    SettlesIff(w.funds, key.trader, pos, size, CollateralSlice(pos, size), EvaluationAt(w, key, size, env), kind,
               executor, env.cfg);
  }

  /** In a sound, solvent world a close of any kind that gets past its guards succeeds
      exactly when the vault can pay the profit and tag the fees. */
  lemma CloseSettlesIff(w: World, key: PositionKey, size: int, limit: int, env: Env, kind: CloseKind, executor: nat)
    requires Inv(w) && Solvent(w.funds) && env.Valid()
    requires PassesGates(CloseBy(w, key, size, limit, env, kind, executor))
    ensures env.quote.Some? && key in w.pm.positions && w.pm.positions[key].size > 0
    ensures var closed := if kind == UserClose then size else w.pm.positions[key].size;
            CloseBy(w, key, size, limit, env, kind, executor).Ok? <==> Settles(w, key, closed, env, kind)
  {
    hide Inv, ExecuteClose, Evaluate, AccruedMarket, LiquidationThreshold, BillingStart, BillingEnd, Settles, Solvent,
         CollateralSlice;
    assert key in w.pm.positions && env.quote.Some?;
    CloseFactsOf(w, key);
    var pos := w.pm.positions[key];
    WholeSlice(pos);
    var closed := if kind == UserClose then size else pos.size;
    ExecutionSettlesIff(w, key, closed, env, kind,
                        if kind == OrderExecution || kind == Liquidation then Some(executor) else None);
  }

  lemma WholeSlice(pos: Position)
    requires pos.size > 0
    ensures CollateralSlice(pos, pos.size) == pos.collateral
  {
  }

  /** A liquidation succeeds exactly when the health gate lets it through and the vault can
      tag its fees: it never pays out of the vault. */
  lemma LiquidationSettlesIff(w: World, key: PositionKey, executor: nat, env: Env)
    requires Inv(w) && Solvent(w.funds) && env.Valid() && env.quote.Some? && key in w.pm.positions
    ensures var market, pos := AccruedMarket(w, key.symbol, env.cfg), w.pm.positions[key];
            var ev := Evaluate(market, env.quote.value, pos, pos.size, pos.collateral, env.cfg.fundingCutBps);
            Liquidate(w, key, executor, env).Ok?
            <==> Liquidatable(market, env.quote.value, pos, env.cfg.fundingCutBps, env.cfg.liquidationThresholdBps)
                 && FeesTaggable(w.funds, pos.size, Route(ev, pos.collateral, Liquidation, env.cfg), env.cfg)
  {
    hide Inv, Solvent, Evaluate, Liquidate, AccruedMarket, LiquidationThreshold, FeesTaggable;
    var pos := w.pm.positions[key];
    CloseFactsOf(w, key);
    LiquidateGates(w, key, executor, env);
    ThresholdBounds(pos.collateral, env.cfg.liquidationThresholdBps);
    if PassesGates(Liquidate(w, key, executor, env)) {
      CloseSettlesIff(w, key, 0, 0, env, Liquidation, executor);
    }
  }

  /** Exactly when a decrease succeeds. */
  lemma DecreaseSucceedsIff(w: World, key: PositionKey, size: int, acceptable: int, env: Env)
    requires Inv(w) && Solvent(w.funds) && env.Valid()
    ensures Decrease(w, key, size, acceptable, env).Ok?
            <==> && key in w.pm.positions && env.quote.Some?
                 && var pos := w.pm.positions[key];
                    && 0 < size <= pos.size
                    && w.now >= pos.lastIncreasedTime + env.cfg.minPositionLifetime
                    && WithinLimit(env.quote.value, acceptable, !pos.isLong)
                    && Settles(w, key, size, env, UserClose)
  {
    hide Inv, Decrease, Settles, Solvent, PaymentError;
    DecreaseGates(w, key, size, acceptable, env);
    if PassesGates(Decrease(w, key, size, acceptable, env)) {
      CloseSettlesIff(w, key, size, acceptable, env, UserClose, 0);
    }
  }

  /** Exactly when a take-profit or stop-loss order executes. */
  lemma OrderSucceedsIff(w: World, key: PositionKey, executor: nat, env: Env)
    requires Inv(w) && Solvent(w.funds) && env.Valid()
    ensures key in w.pm.positions ==> w.pm.positions[key].size > 0
    ensures ExecuteOrder(w, key, executor, env).Ok?
            <==> && key in w.pm.positions && env.quote.Some?
                 && var pos := w.pm.positions[key];
                    && w.now >= pos.lastIncreasedTime + env.cfg.minPositionLifetime
                    && ((pos.takeProfit > 0 && WithinLimit(env.quote.value, pos.takeProfit, !pos.isLong))
                        || (pos.stopLoss > 0 && WithinLimit(env.quote.value, pos.stopLoss, pos.isLong)))
                    && Settles(w, key, pos.size, env, OrderExecution)
  {
    hide Inv, ExecuteOrder, Settles, Solvent, PaymentError;
    OrderGates(w, key, executor, env);
    if key in w.pm.positions {
      CloseFactsOf(w, key);
    }
    if PassesGates(ExecuteOrder(w, key, executor, env)) {
      CloseSettlesIff(w, key, 0, 0, env, OrderExecution, executor);
    }
  }

  /** Exactly when a deleverage succeeds. */
  lemma DeleverageSucceedsIff(w: World, key: PositionKey, env: Env)
    requires Inv(w) && Solvent(w.funds) && env.Valid()
    ensures key in w.pm.positions ==> w.pm.positions[key].size > 0
    ensures var basis := SafeBasis(w.funds);
            DeleveragePosition(w, key, env).Ok?
            <==> && key in w.pm.positions && env.quote.Some? && basis > 0
                 && (!WithinCap(w.pm.realizedPnl + w.pm.totalUnrealizedPnl, basis, env.cfg.adlPnlBps)
                     || !WithinCap(w.funds.vault.reserved, basis, env.cfg.adlUtilizationBps))
                 && var size := w.pm.positions[key].size;
                    && EvaluationAt(w, key, size, env).pnl > 0
                    && Settles(w, key, size, env, Deleverage)
  {
    hide Inv, DeleveragePosition, Settles, Solvent, PaymentError, Evaluate, AccruedMarket, WithinCap, SafeBasis;
    DeleverageGates(w, key, env);
    if key in w.pm.positions {
      CloseFactsOf(w, key);
      WholeSlice(w.pm.positions[key]);
    }
    if PassesGates(DeleveragePosition(w, key, env)) {
      CloseSettlesIff(w, key, 0, 0, env, Deleverage, 0);
    }
  }

  // ----- Tagging the fees can fail -----

  /** The setup's configuration with a borrow rate of 5,095 percent and a threshold of a
      tenth. */
  const COSTLY := SETUP.(baseBorrowRate := 509_500, liquidationThresholdBps := 1_000)

  const YEARS_INDEX := 5_095_000_000_000_000

  /** A long of `20 * k` a year after its open. */
  function Indebted(k: nat): World {
    Opened(20 * k, 0).(now := SECONDS_PER_YEAR)
  }

  lemma IndebtedReachable(k: nat)
    requires 0 < 40 * k <= I128_MAX
    ensures Reachable(Indebted(k))
  {
    hide Reachable;
    OpenedReachable(20 * k, 0);
    StepReachable(Opened(20 * k, 0), DoAdvanceTime(SECONDS_PER_YEAR));
  }

  lemma IndebtedMarket(k: nat)
    requires k > 0
    ensures AccruedMarket(Indebted(k), MARKET, COSTLY)
            == Market(1, 0, 20 * k, 0, INDEX_PRECISION + YEARS_INDEX, INDEX_PRECISION, SECONDS_PER_YEAR)
  {
    hide TDiv, UtilizationBps;
    var utilization := ViewOf(Indebted(k).funds).Utilization();
    TDivUnique(0, BPS, 0);
    TDivUnique(0, 20 * k, 0);
    TDivUnique(509_500 * INDEX_PRECISION * SECONDS_PER_YEAR, BPS * SECONDS_PER_YEAR, YEARS_INDEX);
    TDivUnique(0, BPS * SECONDS_PER_YEAR, 0);
    assert utilization * 0 == 0 && (utilization - 1) * 0 == 0;
  }

  /** The price rose fifty-one-fold, and borrowing cost almost as much. */
  lemma IndebtedEvaluation(k: nat)
    requires k > 0
    ensures Evaluate(AccruedMarket(Indebted(k), MARKET, COSTLY), 51, WhalePosition(20 * k), 20 * k, 20 * k, 0)
            == Evaluation(1_000 * k, 1_019 * k, 0, 0, 0, k)
    ensures LiquidationThreshold(20 * k, 1_000) == 2 * k
    ensures NonLpSlice(1_019 * k, COSTLY) == 1_019 * k
  {
    hide TDiv, AccruedMarket, Indebted;
    IndebtedMarket(k);
    TDivUnique(20 * k * 50, 1, 1_000 * k);
    TDivUnique(YEARS_INDEX * (20 * k), INDEX_PRECISION, 1_019 * k);
    TDivUnique(0, INDEX_PRECISION, 0);
    TDivUnique(20 * k * 1_000, BPS, 2 * k);
    TDivUnique(1_019 * k * BPS, BPS, 1_019 * k);
  }

  lemma IndebtedProducts(k: nat)
    requires 0 < 20 * k <= MODEST
    ensures GateProductsFit(Indebted(k), WHALE, 51, COSTLY) && FundingProductInRange(Indebted(k), MARKET, COSTLY)
  {
    hide TDiv, AccruedMarket, UtilizationBps;
    IndebtedMarket(k);
    FreeUtilization(20 * k, 20 * k);
    TDivUnique(0, 20 * k, 0);
    TDivUnique(0, BPS, 0);
  }

  /** A reachable, solvent world in which a position is below the threshold, worth a little
      more than nothing, and cannot be liquidated. */
  lemma FeesBlockLiquidation(k: nat)
    requires 0 < 20 * k <= MODEST
    ensures var w := Indebted(k);
            && Reachable(w) && Solvent(w.funds) && COSTLY.Valid()
            && Liquidatable(AccruedMarket(w, MARKET, COSTLY), 51, w.pm.positions[WHALE], 0, 1_000)
            && Liquidate(w, WHALE, 2, Env(COSTLY, Some(51))).Err?
            && GateProductsFit(w, WHALE, 51, COSTLY) && FundingProductInRange(w, MARKET, COSTLY)
            && FitsI128(1_019 * k * (COSTLY.devBps + COSTLY.stakerBps))
  {
    hide Reachable, Inv, Evaluate, Liquidate, NonLpSlice, LiquidationThreshold, AccruedMarket, GateProductsFit,
         FundingProductInRange;
    IndebtedReachable(k);
    ReachableInv(Indebted(k));
    IndebtedEvaluation(k);
    LiquidationSettlesIff(Indebted(k), WHALE, 2, Env(COSTLY, Some(51)));
    IndebtedProducts(k);
  }
}
