/** What an accepted call guarantees the people it affects: prices, amounts and triggers, in
    terms they can check, across the guard, the evaluation and the settlement. */
module Guarantees {
  import opened FixedPoint
  import opened Types
  import opened RiskMath
  import opened Evaluations
  import opened VaultLedger
  import opened Ledger
  import opened Settlement
  import opened Invariants
  import opened Steps
  import opened Entrypoints
  import opened Runs

  /** `price` is at least as good as `limit` for someone buying or selling; zero opts out. */
  predicate WithinLimit(price: int, limit: int, buys: bool) {
    limit <= 0 || (if buys then price <= limit else price >= limit)
  }

  /** The evaluation of a slice of an open position at the refreshed market. */
  function EvaluationAt(w: World, key: PositionKey, size: int, env: Env): Evaluation
    requires key in w.pm.positions && w.pm.positions[key].size != 0 && env.quote.Some?
  {
    var pos := w.pm.positions[key];
    Evaluate(AccruedMarket(w, key.symbol, env.cfg), env.quote.value, pos, size, CollateralSlice(pos, size),
             env.cfg.fundingCutBps)
  }

  function Paid(w: World, w': World, user: nat): int {
    Balance(w'.funds, User(user)) - Balance(w.funds, User(user))
  }

  // ----- Gates -----

  /** The call got past its guards: it succeeded, or failed in a payment. */
  predicate PassesGates(r: Result<World>) {
    r.Err? ==> PaymentError(r.error)
  }

  /** A part at most `cap` basis points of the whole, rounded down. */
  predicate WithinCap(part: int, whole: int, cap: int) {
    part * BPS < whole * (cap + 1)
  }

  lemma CapExact(part: int, whole: int, cap: int)
    requires whole > 0 && cap >= 0
    ensures TDiv(part * BPS, whole) <= cap <==> WithinCap(part, whole, cap)
  {
    hide TDiv;
    TDivBelow(part * BPS, whole, cap + 1);
  }

  /** Exactly which decreases get past the guards. */
  lemma DecreaseGates(w: World, key: PositionKey, size: int, acceptable: int, env: Env)
    ensures PassesGates(Decrease(w, key, size, acceptable, env))
            <==> && size > 0 && key in w.pm.positions && env.quote.Some?
                 && var pos := w.pm.positions[key];
                    && w.now >= pos.lastIncreasedTime + env.cfg.minPositionLifetime
                    && WithinLimit(env.quote.value, acceptable, !pos.isLong)
                    && size <= pos.size
  {
    hide Evaluate, SettleFunds, AccruedMarket, BillingStart, BillingEnd, CollateralSlice, RefreshPnl,
         HistoryAfterClose;
    SettlementsEndInPayments();
  }

  lemma SettlementsEndInPayments()
    ensures forall f: Funds, trader: nat, pos: Position, size: int, slice: int, ev: Evaluation, kind: CloseKind,
              executor: Option<nat>, cfg: Config ::
              var settled := SettleFunds(f, trader, pos, size, slice, ev, kind, executor, cfg);
              settled.Err? ==> PaymentError(settled.error)
  {
    hide SettleFunds, PaymentError;
    forall f: Funds, trader: nat, pos: Position, size: int, slice: int, ev: Evaluation, kind: CloseKind,
      executor: Option<nat>, cfg: Config
      ensures var settled := SettleFunds(f, trader, pos, size, slice, ev, kind, executor, cfg);
              settled.Err? ==> PaymentError(settled.error)
    {
      CloseErrors(f, trader, pos, size, slice, ev, kind, executor, cfg);
    }
  }

  /** Exactly which liquidations get past the guards. */
  lemma LiquidateGates(w: World, key: PositionKey, executor: nat, env: Env)
    ensures PassesGates(Liquidate(w, key, executor, env))
            <==> && env.quote.Some? && key in w.pm.positions
                 && Liquidatable(AccruedMarket(w, key.symbol, env.cfg), env.quote.value, w.pm.positions[key],
                                 env.cfg.fundingCutBps, env.cfg.liquidationThresholdBps)
  {
    hide Evaluate, SettleFunds, AccruedMarket, BillingStart, BillingEnd, RefreshPnl, HistoryAfterClose;
    SettlementsEndInPayments();
  }

  /** Exactly which order executions get past the guards. */
  lemma OrderGates(w: World, key: PositionKey, executor: nat, env: Env)
    ensures PassesGates(ExecuteOrder(w, key, executor, env))
            <==> && key in w.pm.positions && env.quote.Some?
                 && var pos := w.pm.positions[key];
                    && w.now >= pos.lastIncreasedTime + env.cfg.minPositionLifetime
                    && ((pos.takeProfit > 0 && WithinLimit(env.quote.value, pos.takeProfit, !pos.isLong))
                        || (pos.stopLoss > 0 && WithinLimit(env.quote.value, pos.stopLoss, pos.isLong)))
  {
    hide Evaluate, SettleFunds, AccruedMarket, BillingStart, BillingEnd, RefreshPnl, HistoryAfterClose;
    SettlementsEndInPayments();
  }

  /** Exactly which deleverages get past the guards: the target is in profit, and against a
      positive safe basis traders' combined PnL or the reservation is above its cap. */
  lemma DeleverageGates(w: World, key: PositionKey, env: Env)
    requires env.Valid()
    ensures var basis := SafeBasis(w.funds);
            PassesGates(DeleveragePosition(w, key, env))
            <==> && env.quote.Some? && key in w.pm.positions && basis > 0
                 && (!WithinCap(w.pm.realizedPnl + w.pm.totalUnrealizedPnl, basis, env.cfg.adlPnlBps)
                     || !WithinCap(w.funds.vault.reserved, basis, env.cfg.adlUtilizationBps))
                 && var pos := w.pm.positions[key];
                    Evaluate(AccruedMarket(w, key.symbol, env.cfg), env.quote.value, pos, pos.size, pos.collateral,
                             env.cfg.fundingCutBps).pnl > 0
  {
    hide Evaluate, SettleFunds, AccruedMarket, BillingStart, BillingEnd, RefreshPnl, HistoryAfterClose, TDiv,
         WithinCap;
    SettlementsEndInPayments();
    DeleverageTrigger(ViewOf(w.funds), w.pm.realizedPnl + w.pm.totalUnrealizedPnl, env.cfg);
  }

  lemma DeleverageTrigger(view: VaultView, combined: int, cfg: Config)
    requires cfg.Valid()
    ensures view.AdlPnlRatio(combined) > cfg.adlPnlBps || view.Utilization() > cfg.adlUtilizationBps
            <==> view.safeBasis > 0 && (!WithinCap(combined, view.safeBasis, cfg.adlPnlBps)
                                        || !WithinCap(view.reserved, view.safeBasis, cfg.adlUtilizationBps))
  {
    hide TDiv;
    if view.safeBasis > 0 {
      CapExact(combined, view.safeBasis, cfg.adlPnlBps);
      CapExact(view.reserved, view.safeBasis, cfg.adlUtilizationBps);
      if combined <= 0 {
        MulLe(0, cfg.adlPnlBps + 1, view.safeBasis);
      }
    }
  }

  lemma OpenErrors(f: Funds, trader: nat, collateral: int, openFee: int, escrowOwed: int, size: int, cfg: Config)
    ensures var funded := OpenFunds(f, trader, collateral, openFee, escrowOwed, size, cfg);
            funded.Err? ==> PaymentError(funded.error)
  {
    hide NonLpSlice, TotalAssets, Balance;
  }

  /** The order fits the position it opens or adds to, under the market's leverage cap. */
  predicate Fits(prior: Option<Position>, o: Order, cap: int) {
    var size := o.size + if prior.Some? then prior.value.size else 0;
    var collateral := o.collateral + if prior.Some? then prior.value.collateral else 0;
    && (prior.Some? ==> prior.value.isLong == o.isLong)
    && (prior.None? ==> o.takeProfit >= 0 && o.stopLoss >= 0)
    && size <= collateral * cap <= I128_MAX
  }

  lemma OpenGates(tick: Tick, o: Order, view: VaultView, cfg: Config)
    requires o.key in tick.world.pm.positions ==> SoundPosition(tick.world.pm.positions[o.key])
    ensures PassesGates(OpenPosition(tick, o, view, cfg))
            <==> && o.collateral >= cfg.minCollateral && o.key.symbol in tick.world.pm.maxLeverage
                 && Fits(LookUp(tick.world.pm.positions, o.key), o, tick.world.pm.maxLeverage[o.key.symbol])
                 && UtilizationBps(view.reserved + o.size, view.safeBasis) <= cfg.maxUtilization
  {
    hide OpenFunds, OpenFee, MarketAfterOpen, WeightedAverage, EscrowOwed, UtilizationBps, RefreshPnl, Traded;
    OpenErrors(tick.world.funds, o.key.trader, o.collateral, OpenFee(o.size, cfg.openFeeBps),
               EscrowOwed(LookUp(tick.world.pm.positions, o.key), o, cfg.tpSlExecutionFee), o.size, cfg);
  }

  /** Exactly which increases get past the guards. A negative order price is refused on a
      new position only: on an existing one it leaves the stored order as it is. */
  lemma IncreaseGates(w: World, o: Order, env: Env)
    requires Inv(w) && env.Valid()
    ensures PassesGates(Increase(w, o, env))
            <==> && !w.pm.paused && o.key.symbol !in w.pm.disabled && env.quote.Some?
                 && o.size > 0 && o.collateral >= env.cfg.minCollateral
                 && WithinLimit(env.quote.value, o.acceptable, o.isLong)
                 && o.key.symbol in w.pm.maxLeverage
                 && Fits(LookUp(w.pm.positions, o.key), o, w.pm.maxLeverage[o.key.symbol])
                 && (SafeBasis(w.funds) > 0 ==>
                       WithinCap(w.funds.vault.reserved + o.size, SafeBasis(w.funds), env.cfg.maxUtilization))
  {
    hide Inv, SoundPosition, OpenPosition, AccruedMarket, BillingStart, BillingEnd, TDiv, WithinCap, SafeBasis, Fits;
    if o.key in w.pm.positions {
      CloseFactsOf(w, o.key);
    }
    if env.quote.Some? {
      OpenGates(Refresh(w, o.key.symbol, env).value, o, ViewOf(w.funds), env.cfg);
    }
    if SafeBasis(w.funds) > 0 {
      CapExact(w.funds.vault.reserved + o.size, SafeBasis(w.funds), env.cfg.maxUtilization);
    }
  }

  // ----- Open -----

  /** Adding to a position forgives no accrued borrow fee and changes accrued borrow and
      funding by rounding only; a new position starts with neither. */
  lemma OpenKeepsAccruals(w: World, o: Order, env: Env)
    requires Inv(w) && env.Valid() && Increase(w, o, env).Ok?
    ensures o.key in Increase(w, o, env).value.pm.positions
    ensures var pos, market := Increase(w, o, env).value.pm.positions[o.key], AccruedMarket(w, o.key.symbol, env.cfg);
            var prior := LookUp(w.pm.positions, o.key);
            var borrowed := if prior.None? then 0
                            else BorrowFee(prior.value.size, prior.value.entryBorrowIndex, market.accBorrowIndex);
            var funded := if prior.None? then 0
                          else FundingFee(prior.value.size, prior.value.entryFundingIndex, market.accFundingIndex,
                                          o.isLong);
            var rounding := if prior.None? then 0 else pos.size / INDEX_PRECISION + 1;
            && borrowed <= BorrowFee(pos.size, pos.entryBorrowIndex, market.accBorrowIndex) <= borrowed + rounding
            && Abs(FundingFee(pos.size, pos.entryFundingIndex, market.accFundingIndex, o.isLong) - funded) <= rounding
  {
    hide Inv, OpenFunds, OpenFee, MarketAfterOpen, WeightedAverage, EscrowOwed, AccruedMarket, UtilizationBps,
         MarketUnrealizedPnl, Traded, TDiv, BillingStart, BillingEnd;
    var market, prior := AccruedMarket(w, o.key.symbol, env.cfg), LookUp(w.pm.positions, o.key);
    NoFeeAtEntry(o.size, market.accBorrowIndex, market.accFundingIndex, o.isLong);
    if prior.Some? {
      var p := prior.value;
      IndicesInOrder(w, o.key, env.cfg);
      AddingKeepsAccruedBorrow(p.entryBorrowIndex, market.accBorrowIndex, p.size, o.size);
      AddingKeepsAccruedFunding(p.entryFundingIndex, market.accFundingIndex, p.size, o.size, o.isLong);
    }
  }

  lemma NoFeeAtEntry(size: int, borrowIndex: int, fundingIndex: int, isLong: bool)
    ensures BorrowFee(size, borrowIndex, borrowIndex) == 0 && FundingFee(size, fundingIndex, fundingIndex, isLong) == 0
  {
  }

  lemma IndicesInOrder(w: World, key: PositionKey, cfg: Config)
    requires Inv(w) && cfg.Valid() && key in w.pm.positions
    ensures w.pm.positions[key].size > 0
    ensures 0 <= w.pm.positions[key].entryBorrowIndex <= AccruedMarket(w, key.symbol, cfg).accBorrowIndex
  {
    hide Money, Billing, AccruedMarket, BillingStart, BillingEnd;
    AccruedKeeps(w, key.symbol, cfg);
    AccruedMarketOf(w, key.symbol, cfg);
  }

  // ----- Close -----

  /** What each user receives from a close of `size` of a position. */
  function Receipt(w: World, key: PositionKey, size: int, env: Env, kind: CloseKind, executor: Option<nat>,
                   user: nat): int
    requires key in w.pm.positions && w.pm.positions[key].size != 0 && env.quote.Some?
  {
    var pos, ev := w.pm.positions[key], EvaluationAt(w, key, size, env);
    var bounty := Max(0, Route(ev, CollateralSlice(pos, size), kind, env.cfg).bounty);
    (if user == key.trader then Max(0, ev.effectiveHealth) else 0)
    + (if executor == Some(user) then bounty else 0)
    + (if kind == OrderExecution && executor == Some(user) then pos.escrow else 0)
    + (if user == key.trader && (kind == Deleverage || (kind == UserClose && size == pos.size)) then pos.escrow else 0)
  }

  /** A close pays every user exactly that. */
  lemma ClosePays(w: World, key: PositionKey, size: int, env: Env, kind: CloseKind, executor: Option<nat>, user: nat)
    requires Inv(w) && env.Valid() && env.quote.Some? && key in w.pm.positions
    requires 0 < size <= w.pm.positions[key].size && ExecutorFits(kind, executor)
    requires size < w.pm.positions[key].size ==> kind == UserClose
    ensures var pos := w.pm.positions[key];
            var closed := ExecuteClose(Refresh(w, key.symbol, env).value, key, pos, size, CollateralSlice(pos, size),
                                       EvaluationAt(w, key, size, env), kind, executor, env.cfg);
            closed.Ok? ==> Paid(w, closed.value, user) == Receipt(w, key, size, env, kind, executor, user)
  {
    hide Inv, SoundPosition, Evaluate, SettleFunds, Route, AccruedMarket, ExecuteClose, TDiv, CollateralSlice,
         TotalAssets, Solvent, BalancesNonNegative, PositionsAfterClose;
    var pos, ev := w.pm.positions[key], EvaluationAt(w, key, size, env);
    CloseFactsOf(w, key);
    InvBalances(w);
    SliceWithin(pos, size);
    CloseNet(w.funds, key.trader, pos, size, CollateralSlice(pos, size), ev, kind, executor, env.cfg);
    CloseStores(Refresh(w, key.symbol, env).value, key, pos, size, CollateralSlice(pos, size), ev, kind, executor,
                env.cfg);
  }

  /** A close leaves the position smaller by its size, or gone. */
  lemma CloseShrinks(w: World, key: PositionKey, size: int, env: Env, kind: CloseKind, executor: Option<nat>)
    requires env.quote.Some? && key in w.pm.positions && 0 < size <= w.pm.positions[key].size
    ensures var pos := w.pm.positions[key];
            var closed := ExecuteClose(Refresh(w, key.symbol, env).value, key, pos, size, CollateralSlice(pos, size),
                                       EvaluationAt(w, key, size, env), kind, executor, env.cfg);
            closed.Ok? ==>
              && (key in closed.value.pm.positions <==> size < pos.size)
              && (size < pos.size ==> closed.value.pm.positions[key].size == pos.size - size)
  {
    hide Evaluate, SettleFunds, AccruedMarket, ExecuteClose, CollateralSlice;
    var pos := w.pm.positions[key];
    CloseStores(Refresh(w, key.symbol, env).value, key, pos, size, CollateralSlice(pos, size),
                EvaluationAt(w, key, size, env), kind, executor, env.cfg);
  }

  /** What a close leaves behind its payments. */
  lemma CloseStores(tick: Tick, key: PositionKey, pos: Position, size: int, slice: int, ev: Evaluation,
                    kind: CloseKind, executor: Option<nat>, cfg: Config)
    ensures var closed := ExecuteClose(tick, key, pos, size, slice, ev, kind, executor, cfg);
            var settled := SettleFunds(tick.world.funds, key.trader, pos, size, slice, ev, kind, executor, cfg);
            closed.Ok? ==>
              && settled.Ok?
              && closed.value.funds.balances == settled.value.balances
              && closed.value.pm.positions == PositionsAfterClose(tick.world.pm.positions, key, pos, size, slice)
  {
    hide SettleFunds, Route, MarketAfterClose, HistoryAfterClose, PositionsAfterClose, MarketUnrealizedPnl;
  }

  lemma SliceWithin(pos: Position, size: int)
    requires SoundPosition(pos) && 0 < size <= pos.size
    ensures 0 <= CollateralSlice(pos, size) <= pos.collateral
  {
    hide TDiv;
    MulLe(0, pos.collateral, size);
    MulLe(size, pos.size, pos.collateral);
    TDivBounds(pos.collateral * size, pos.size);
    MultiplesOrdered(TDiv(pos.collateral * size, pos.size), pos.collateral, pos.size);
  }

  /** The world after one of the four closes, called by its entrypoint. */
  function CloseBy(w: World, key: PositionKey, size: int, limit: int, env: Env, kind: CloseKind,
                   executor: nat): Result<World>
  {
    match kind
    case UserClose => Decrease(w, key, size, limit, env)
    case OrderExecution => ExecuteOrder(w, key, executor, env)
    case Liquidation => Liquidate(w, key, executor, env)
    case Deleverage => DeleveragePosition(w, key, env)
  }

  /** Every accepted close pays each user exactly the receipt for its kind: a decrease for
      the chosen size, the others for the whole position. */
  lemma AcceptedClosePays(w: World, key: PositionKey, size: int, limit: int, env: Env, kind: CloseKind, executor: nat,
                          user: nat)
    requires Inv(w) && env.Valid() && CloseBy(w, key, size, limit, env, kind, executor).Ok?
    ensures env.quote.Some? && key in w.pm.positions && w.pm.positions[key].size > 0
    ensures var w' := CloseBy(w, key, size, limit, env, kind, executor).value;
            var whole := w.pm.positions[key].size;
            var closed := if kind == UserClose then size else whole;
            var caller := if kind == OrderExecution || kind == Liquidation then Some(executor) else None;
            && 0 < closed <= whole
            && Paid(w, w', user) == Receipt(w, key, closed, env, kind, caller, user)
            && (key in w'.pm.positions <==> closed < whole)
            && (closed < whole ==> w'.pm.positions[key].size == whole - closed)
  {
    hide Inv, Receipt, ExecuteClose, Paid, Evaluate, AccruedMarket, LiquidationThreshold, BillingStart, BillingEnd;
    assert key in w.pm.positions;
    CloseFactsOf(w, key);
    var closed := if kind == UserClose then size else w.pm.positions[key].size;
    var caller := if kind == OrderExecution || kind == Liquidation then Some(executor) else None;
    ClosePays(w, key, closed, env, kind, caller, user);
    CloseShrinks(w, key, closed, env, kind, caller);
  }

  /** A liquidation never pays trader and executor together more than the collateral. */
  lemma LiquidationWithinCollateral(w: World, key: PositionKey, executor: nat, env: Env)
    requires Inv(w) && env.Valid() && env.quote.Some? && key in w.pm.positions
    requires Liquidate(w, key, executor, env).Ok?
    ensures w.pm.positions[key].size > 0
    ensures var pos := w.pm.positions[key];
            var ev := EvaluationAt(w, key, pos.size, env);
            var bounty := Route(ev, pos.collateral, Liquidation, env.cfg).bounty;
            Max(0, ev.effectiveHealth) + Max(0, bounty) <= pos.collateral
  {
    hide Inv, ExecuteClose, Evaluate, AccruedMarket, LiquidationThreshold, Route, BillingStart, BillingEnd;
    CloseFactsOf(w, key);
    var pos := w.pm.positions[key];
    ThresholdBounds(pos.collateral, env.cfg.liquidationThresholdBps);
    RouteBalanced(EvaluationAt(w, key, pos.size, env), pos.collateral, Liquidation, Some(executor), env.cfg);
  }

  // ----- Withdraw and claim -----

  /** An accepted withdrawal leaves the vault every dollar it has reserved, owes as fees or
      owes traders in unrealized profit, pays the receiver exactly the assets, and met the
      pause and the lockup. */
  lemma WithdrawalLeavesClaims(w: World, owner: nat, receiver: Address, assets: int)
    requires Inv(w) && WithdrawLiquidity(w, owner, receiver, assets).Ok?
    ensures var w' := WithdrawLiquidity(w, owner, receiver, assets).value;
            && !w.funds.vault.paused && w.now >= Expiry(w.funds, owner)
            && assets >= 0 && w'.funds.vault == w.funds.vault
            && (receiver != VaultAccount ==> Balance(w'.funds, receiver) == Balance(w.funds, receiver) + assets)
            && (assets > 0 ==>
                  TotalAssets(w'.funds) >= w.funds.vault.reserved + w.funds.vault.unclaimedFees
                                           + Max(0, w.funds.vault.netTraderPnl))
  {
    hide Inv;
    InvBalances(w);
    PaidOut(w.funds, receiver, assets);
  }

  /** A claim takes exactly the claimed fees out of the fee buffer and the vault, and leaves
      the safe basis as it is; claimed for the vault itself, they become liquidity. */
  lemma ClaimTakesFees(w: World, recipient: Address, amount: int)
    requires Inv(w) && ClaimSomeFees(w, recipient, amount).Ok?
    ensures var w' := ClaimSomeFees(w, recipient, amount).value;
            && 0 < amount <= w.funds.vault.unclaimedFees
            && w'.funds.vault == w.funds.vault.(unclaimedFees := w.funds.vault.unclaimedFees - amount)
            && (recipient != VaultAccount ==>
                  && Balance(w'.funds, recipient) == Balance(w.funds, recipient) + amount
                  && SafeBasis(w'.funds) == SafeBasis(w.funds))
            && (recipient == VaultAccount ==> TotalAssets(w'.funds) == TotalAssets(w.funds))
  {
    hide Inv;
    InvBalances(w);
    PaidOut(w.funds, recipient, amount);
  }
}
