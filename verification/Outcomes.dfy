/** What each accepted call leaves behind, as amounts a reader can check without dividing:
    every quotient is pinned by the multiples it lies between. */
module Outcomes {
  import opened FixedPoint
  import opened Types
  import opened RiskMath
  import opened FundingRates
  import opened MapSums
  import opened Evaluations
  import opened VaultLedger
  import opened Ledger
  import opened Settlement
  import opened Invariants
  import opened Steps
  import opened Entrypoints
  import opened Runs
  import opened Guarantees
  import opened SolvencyGate

  // ----- Index refresh -----

  /** A market stored with new open interest or averages keeps everything else. */
  predicate SameIndices(m: Market, m': Market) {
    && m'.accBorrowIndex == m.accBorrowIndex && m'.accFundingIndex == m.accFundingIndex
    && m'.lastIndexUpdate == m.lastIndexUpdate
  }

  /** A refresh bills the seconds from the last update or unpause to now, or to the start of
      a running pause, and accrues both indices by their rate's share of a year for them. */
  lemma AccrualExact(w: World, symbol: Symbol, cfg: Config)
    requires Inv(w) && cfg.Valid()
    ensures var m, m' := MarketOf(w, symbol), AccruedMarket(w, symbol, cfg);
            var start := Max(m.lastIndexUpdate, w.pm.lastUnpause);
            var end := if w.pm.paused then w.pm.lastPause else w.now;
            var seconds := Max(0, end - start);
            var basis := Max(0, TotalAssets(w.funds) - w.funds.vault.unclaimedFees);
            var borrowRate := BorrowRate(UtilizationBps(w.funds.vault.reserved, basis), cfg.baseBorrowRate, cfg.slope1,
                                         cfg.slope2, cfg.optimalUtilization);
            var fundingRate := FundingRate(m.longOi, m.shortOi, cfg.baseFundingRate);
            && Truncates(borrowRate * INDEX_PRECISION * seconds, BPS * SECONDS_PER_YEAR,
                         m'.accBorrowIndex - m.accBorrowIndex)
            && Truncates(fundingRate * INDEX_PRECISION * seconds, BPS * SECONDS_PER_YEAR,
                         m'.accFundingIndex - m.accFundingIndex)
            && seconds == BilledSeconds(w, symbol)
            && m'.lastIndexUpdate == (if seconds > 0 then end else m.lastIndexUpdate)
            && m' == m.(accBorrowIndex := m'.accBorrowIndex, accFundingIndex := m'.accFundingIndex,
                        lastIndexUpdate := m'.lastIndexUpdate)
            && Accrued(w, symbol, cfg).history.windows
               == w.history.windows + (if seconds > 0 then [Window(symbol, start, end)] else [])
  {
    hide Book, Money, AccumulateIndex, BorrowRate, FundingRate, UtilizationBps, Truncates;
    var m := MarketOf(w, symbol);
    var seconds := BilledSeconds(w, symbol);
    AccumulateIndexExact(m.accBorrowIndex,
                         BorrowRate(ViewOf(w.funds).Utilization(), cfg.baseBorrowRate, cfg.slope1, cfg.slope2,
                                    cfg.optimalUtilization),
                         seconds);
    AccumulateIndexExact(m.accFundingIndex, FundingRate(m.longOi, m.shortOi, cfg.baseFundingRate), seconds);
    if seconds == 0 {
      NothingAccrues(BorrowRate(ViewOf(w.funds).Utilization(), cfg.baseBorrowRate, cfg.slope1, cfg.slope2,
                                cfg.optimalUtilization));
      NothingAccrues(FundingRate(m.longOi, m.shortOi, cfg.baseFundingRate));
    }
  }

  // ----- Close -----

  /** The collateral a close took out of a position. */
  function Taken(w: World, w': World, key: PositionKey): int
    requires key in w.pm.positions
  {
    w.pm.positions[key].collateral - if key in w'.pm.positions then w'.pm.positions[key].collateral else 0
  }

  /** How much of the position a close takes: a decrease what it asks for, the others all. */
  function Closing(w: World, key: PositionKey, size: int, kind: CloseKind): int
    requires key in w.pm.positions
  {
    if kind == UserClose then size else w.pm.positions[key].size
  }

  /** The evaluation of what was closed, with the collateral that was really taken. */
  function Settled(w: World, w': World, key: PositionKey, closed: int, env: Env): Evaluation
    requires key in w.pm.positions && env.quote.Some?
  {
    Evaluate(AccruedMarket(w, key.symbol, env.cfg), env.quote.value, w.pm.positions[key], closed, Taken(w, w', key),
             env.cfg.fundingCutBps)
  }

  /** Every accepted close is `ExecuteClose` on the refreshed market. */
  lemma CloseIsExecuted(w: World, key: PositionKey, size: int, limit: int, env: Env, kind: CloseKind, executor: nat)
    requires Inv(w) && env.Valid() && CloseBy(w, key, size, limit, env, kind, executor).Ok?
    ensures env.quote.Some? && key in w.pm.positions && SoundPosition(w.pm.positions[key])
    ensures 0 < Closing(w, key, size, kind) <= w.pm.positions[key].size
    ensures var pos, closed := w.pm.positions[key], Closing(w, key, size, kind);
            var caller := if kind == OrderExecution || kind == Liquidation then Some(executor) else None;
            CloseBy(w, key, size, limit, env, kind, executor)
            == ExecuteClose(Refresh(w, key.symbol, env).value, key, pos, closed, CollateralSlice(pos, closed),
                            EvaluationAt(w, key, closed, env), kind, caller, env.cfg)
  {
    hide Inv, ExecuteClose, Evaluate, AccruedMarket, LiquidationThreshold, BillingStart, BillingEnd, TDiv;
    assert key in w.pm.positions;
    CloseFactsOf(w, key);
  }

  /** A close removes a whole position. A partial one takes the closed share of the collateral,
      rounded down, and leaves everything else of the position; no other position changes. */
  lemma CloseTakes(w: World, key: PositionKey, size: int, limit: int, env: Env, kind: CloseKind, executor: nat)
    requires Inv(w) && env.Valid() && CloseBy(w, key, size, limit, env, kind, executor).Ok?
    ensures key in w.pm.positions
    ensures var w' := CloseBy(w, key, size, limit, env, kind, executor).value;
            var pos, closed, taken := w.pm.positions[key], Closing(w, key, size, kind), Taken(w, w', key);
            && 0 < closed <= pos.size
            && w'.pm.positions
               == (if closed == pos.size then w.pm.positions - {key}
                   else w.pm.positions[key := pos.(size := pos.size - closed, collateral := pos.collateral - taken)])
            && (if closed == pos.size then taken == pos.collateral
                else Truncates(pos.collateral * closed, pos.size, taken))
  {
    hide Inv, ExecuteClose, Evaluate, AccruedMarket, CloseBy, TDiv, Truncates;
    CloseIsExecuted(w, key, size, limit, env, kind, executor);
    var pos, closed := w.pm.positions[key], Closing(w, key, size, kind);
    CloseStores(Refresh(w, key.symbol, env).value, key, pos, closed, CollateralSlice(pos, closed),
                EvaluationAt(w, key, closed, env), kind,
                if kind == OrderExecution || kind == Liquidation then Some(executor) else None, env.cfg);
    TruncatesIff(pos.collateral * closed, pos.size, TDiv(pos.collateral * closed, pos.size));
  }

  /** What the caller of a permissionless close is. */
  function CallerOf(kind: CloseKind, executor: nat): Option<nat> {
    if kind == OrderExecution || kind == Liquidation then Some(executor) else None
  }

  lemma TakenIsSlice(w: World, key: PositionKey, size: int, limit: int, env: Env, kind: CloseKind, executor: nat)
    requires Inv(w) && env.Valid() && CloseBy(w, key, size, limit, env, kind, executor).Ok?
    ensures env.quote.Some? && key in w.pm.positions && w.pm.positions[key].size > 0
    ensures var w' := CloseBy(w, key, size, limit, env, kind, executor).value;
            var closed := Closing(w, key, size, kind);
            && Taken(w, w', key) == CollateralSlice(w.pm.positions[key], closed)
            && Settled(w, w', key, closed, env) == EvaluationAt(w, key, closed, env)
  {
    hide Inv, ExecuteClose, Evaluate, AccruedMarket, CloseBy, TDiv, Truncates;
    CloseIsExecuted(w, key, size, limit, env, kind, executor);
    var pos, closed := w.pm.positions[key], Closing(w, key, size, kind);
    CloseStores(Refresh(w, key.symbol, env).value, key, pos, closed, CollateralSlice(pos, closed),
                EvaluationAt(w, key, closed, env), kind, CallerOf(kind, executor), env.cfg);
  }

  /** The executor's bounty: its share of the collateral, as far as the trader leaves it. */
  function BountyOf(kind: CloseKind, share: int, left: int): int {
    if kind == Liquidation then Max(0, Min(share, left)) else 0
  }

  lemma RouteExact(ev: Evaluation, slice: int, kind: CloseKind, cfg: Config) returns (share: int)
    requires cfg.Valid() && slice >= 0 && (kind == Liquidation ==> slice > 0)
    ensures kind == Liquidation ==> Truncates(slice * cfg.liquidationBountyBps, BPS, share)
    ensures var r, payout := Route(ev, slice, kind, cfg), Max(0, ev.effectiveHealth);
            && Max(0, r.bounty) == BountyOf(kind, share, slice - payout)
            && (r.taggedFees
                == if payout > 0 then ev.borrowFee + ev.protocolCut
                   else Min(ev.borrowFee + ev.protocolCut, slice - BountyOf(kind, share, slice)))
  {
    hide TDiv;
    share := LiquidationBounty(slice, cfg.liquidationBountyBps);
    if kind == Liquidation {
      LiquidationBountyExact(slice, cfg.liquidationBountyBps);
      MulLe(0, slice, cfg.liquidationBountyBps);
    }
  }

  /** Every user's receipt from an accepted close: the trader's settled health and escrow,
      the executor's bounty or escrow, and nothing to anyone else. */
  lemma CloseReceipts(w: World, key: PositionKey, size: int, limit: int, env: Env, kind: CloseKind, executor: nat,
                      user: nat)
    returns (share: int)
    requires Inv(w) && env.Valid() && CloseBy(w, key, size, limit, env, kind, executor).Ok?
    ensures env.quote.Some? && key in w.pm.positions
    ensures kind == Liquidation ==>
              Truncates(w.pm.positions[key].collateral * env.cfg.liquidationBountyBps, BPS, share)
    ensures var w' := CloseBy(w, key, size, limit, env, kind, executor).value;
            var pos, closed := w.pm.positions[key], Closing(w, key, size, kind);
            var payout := Max(0, Settled(w, w', key, closed, env).effectiveHealth);
            Paid(w, w', user)
            == (if user == key.trader then payout else 0)
               + (if user == executor then BountyOf(kind, share, Taken(w, w', key) - payout) else 0)
               + (if user == key.trader && (kind == Deleverage || (kind == UserClose && closed == pos.size))
                  then pos.escrow else 0)
               + (if user == executor && kind == OrderExecution then pos.escrow else 0)
  {
    hide Inv, ExecuteClose, Evaluate, AccruedMarket, CloseBy, TDiv, Truncates, Paid, Route, CollateralSlice,
         SoundPosition;
    TakenIsSlice(w, key, size, limit, env, kind, executor);
    CloseIsExecuted(w, key, size, limit, env, kind, executor);
    var pos, closed := w.pm.positions[key], Closing(w, key, size, kind);
    WholeTaken(pos);
    SliceWithin(pos, closed);
    share := RouteExact(EvaluationAt(w, key, closed, env), CollateralSlice(pos, closed), kind, env.cfg);
    AcceptedClosePays(w, key, size, limit, env, kind, executor, user);
  }

  lemma WholeTaken(pos: Position)
    requires SoundPosition(pos)
    ensures CollateralSlice(pos, pos.size) == pos.collateral > 0 && pos.escrow >= 0
  {
  }

  /** An accepted liquidation pays whoever called it the configured share of the collateral,
      or what the trader leaves of it if that is less; the two never get more than there is. */
  lemma LiquidationPaysBounty(w: World, key: PositionKey, executor: nat, env: Env)
    requires Inv(w) && env.Valid() && Liquidate(w, key, executor, env).Ok? && executor != key.trader
    ensures env.quote.Some? && key in w.pm.positions
    ensures var w', pos := Liquidate(w, key, executor, env).value, w.pm.positions[key];
            var market := AccruedMarket(w, key.symbol, env.cfg);
            var health := Evaluate(market, env.quote.value, pos, pos.size, pos.collateral,
                                   env.cfg.fundingCutBps).effectiveHealth;
            var left, paid := pos.collateral - Max(0, health), Paid(w, w', executor);
            && (exists share :: && Truncates(pos.collateral * env.cfg.liquidationBountyBps, BPS, share)
                                && paid == Max(0, Min(share, left)))
            && Paid(w, w', key.trader) == Max(0, health)
            && Paid(w, w', key.trader) + paid <= pos.collateral
  {
    hide Inv, ExecuteClose, Evaluate, AccruedMarket, Liquidate, TDiv, Truncates, Paid, SoundPosition;
    var trader := CloseReceipts(w, key, 0, 0, env, Liquidation, executor, key.trader);
    var share := CloseReceipts(w, key, 0, 0, env, Liquidation, executor, executor);
    CloseTakes(w, key, 0, 0, env, Liquidation, executor);
    LiquidationWithinCollateral(w, key, executor, env);
  }

  /** What an accepted close does to the vault, the manager and realized PnL: the vault keeps
      what the trader and the executor do not get, tags the fees' non-LP share, capped by
      what it absorbs when nothing is left for the trader, and takes a liquidated escrow as
      revenue. */
  lemma CloseBooks(w: World, key: PositionKey, size: int, limit: int, env: Env, kind: CloseKind, executor: nat)
    returns (share: int, fees: int, forfeited: int)
    requires Inv(w) && env.Valid() && CloseBy(w, key, size, limit, env, kind, executor).Ok?
    ensures env.quote.Some? && key in w.pm.positions
    ensures kind == Liquidation ==>
              Truncates(w.pm.positions[key].collateral * env.cfg.liquidationBountyBps, BPS, share)
    ensures var w' := CloseBy(w, key, size, limit, env, kind, executor).value;
            var pos, closed, taken := w.pm.positions[key], Closing(w, key, size, kind), Taken(w, w', key);
            var ev := Settled(w, w', key, closed, env);
            var payout := Max(0, ev.effectiveHealth);
            var bounty := BountyOf(kind, share, taken - payout);
            var due := ev.borrowFee + ev.protocolCut;
            var leaves := if kind == UserClose && closed < pos.size then 0 else pos.escrow;
            var revenue := if kind == Liquidation then pos.escrow else 0;
            && Tags(if payout > 0 then due else Min(due, taken - bounty), env.cfg, fees)
            && Tags(revenue, env.cfg, forfeited)
            && TotalAssets(w'.funds) == TotalAssets(w.funds) + taken - payout - bounty + revenue
            && w'.funds.vault.unclaimedFees == w.funds.vault.unclaimedFees + fees + forfeited
            && w'.funds.vault.reserved == w.funds.vault.reserved - closed
            && Balance(w'.funds, ManagerAccount) == Balance(w.funds, ManagerAccount) - taken - leaves
            && w'.pm.realizedPnl == w.pm.realizedPnl + ev.pnl - ev.borrowFee + ev.effectiveFunding
  {
    hide Inv, ExecuteClose, Evaluate, AccruedMarket, CloseBy, TDiv, Truncates, Tags, Route, CollateralSlice,
         SoundPosition, BalancesNonNegative, Balance, TotalAssets, Solvent, BillingStart, BillingEnd;
    TakenIsSlice(w, key, size, limit, env, kind, executor);
    CloseIsExecuted(w, key, size, limit, env, kind, executor);
    var pos, closed := w.pm.positions[key], Closing(w, key, size, kind);
    var slice, ev, caller := CollateralSlice(pos, closed), EvaluationAt(w, key, closed, env), CallerOf(kind, executor);
    WholeTaken(pos);
    SliceWithin(pos, closed);
    InvBalances(w);
    share := RouteExact(ev, slice, kind, env.cfg);
    CloseNet(w.funds, key.trader, pos, closed, slice, ev, kind, caller, env.cfg);
    fees, forfeited := CloseTags(w.funds, key.trader, pos, closed, slice, ev, kind, caller, env.cfg);
    CloseLeaves(Refresh(w, key.symbol, env).value, key, pos, closed, slice, ev, kind, caller, env.cfg);
  }

  /** The funds of a close are what its settlement left, with the vault's PnL refreshed. */
  lemma CloseLeaves(tick: Tick, key: PositionKey, pos: Position, size: int, slice: int, ev: Evaluation,
                    kind: CloseKind, executor: Option<nat>, cfg: Config)
    ensures var closed := ExecuteClose(tick, key, pos, size, slice, ev, kind, executor, cfg);
            var settled := SettleFunds(tick.world.funds, key.trader, pos, size, slice, ev, kind, executor, cfg);
            closed.Ok? ==>
              && settled.Ok?
              && TotalAssets(closed.value.funds) == TotalAssets(settled.value)
              && Balance(closed.value.funds, ManagerAccount) == Balance(settled.value, ManagerAccount)
              && closed.value.funds.vault
                 == settled.value.vault.(netTraderPnl := closed.value.funds.vault.netTraderPnl)
              && closed.value.pm.realizedPnl
                 == tick.world.pm.realizedPnl + (ev.pnl - ev.borrowFee + ev.effectiveFunding)
              && closed.value.pm.markets
                 == tick.world.pm.markets[key.symbol := MarketAfterClose(tick.market, pos, size)]
  {
    hide SettleFunds, Route, MarketAfterClose, HistoryAfterClose, PositionsAfterClose, MarketUnrealizedPnl;
  }

  /** What the observer writes down at a close: one trade of its side, the peak of its open
      interest, and each amount under its own name. */
  lemma CloseRecords(w: World, key: PositionKey, size: int, limit: int, env: Env, kind: CloseKind, executor: nat)
    returns (share: int)
    requires Inv(w) && env.Valid() && CloseBy(w, key, size, limit, env, kind, executor).Ok?
    ensures env.quote.Some? && key in w.pm.positions
    ensures kind == Liquidation ==>
              Truncates(w.pm.positions[key].collateral * env.cfg.liquidationBountyBps, BPS, share)
    ensures var w' := CloseBy(w, key, size, limit, env, kind, executor).value;
            var pos, closed, taken := w.pm.positions[key], Closing(w, key, size, kind), Taken(w, w', key);
            var ev, side := Settled(w, w', key, closed, env), Side(key.symbol, pos.isLong);
            var leaves := if kind == UserClose && closed < pos.size then 0 else pos.escrow;
            var h, h' := w.history, w'.history;
            && TradesOn(h', side) == TradesOn(h, side) + 1
            && PeakOn(h', side) == Max(PeakOn(h, side), SideOi(w'.pm.markets, side))
            && SettledFunding(h', key.symbol) == SettledFunding(h, key.symbol) + ev.effectiveFunding
            && h'.bounties == h.bounties + BountyOf(kind, share, taken - Max(0, ev.effectiveHealth))
            && h'.badDebt == h.badDebt + Max(0, -ev.effectiveHealth)
            && h'.escrowRefunded
               == h.escrowRefunded + (if kind == UserClose || kind == Deleverage then leaves else 0)
            && h'.escrowPaidOut == h.escrowPaidOut + (if kind == OrderExecution then leaves else 0)
            && h'.escrowForfeited == h.escrowForfeited + (if kind == Liquidation then leaves else 0)
            && h'.openFees == h.openFees && h'.escrowCharged == h.escrowCharged
  {
    hide Inv, ExecuteClose, Evaluate, AccruedMarket, CloseBy, TDiv, Truncates, Route, CollateralSlice, SoundPosition,
         BillingStart, BillingEnd, BountyOf;
    TakenIsSlice(w, key, size, limit, env, kind, executor);
    CloseIsExecuted(w, key, size, limit, env, kind, executor);
    var pos, closed := w.pm.positions[key], Closing(w, key, size, kind);
    var tick := Refresh(w, key.symbol, env).value;
    var slice, ev := CollateralSlice(pos, closed), EvaluationAt(w, key, closed, env);
    WholeTaken(pos);
    SliceWithin(pos, closed);
    share := RouteExact(ev, slice, kind, env.cfg);
    CloseHistory(tick, key, pos, closed, slice, ev, kind, CallerOf(kind, executor), env.cfg);
  }

  lemma CloseHistory(tick: Tick, key: PositionKey, pos: Position, size: int, slice: int, ev: Evaluation,
                     kind: CloseKind, executor: Option<nat>, cfg: Config)
    ensures var closed := ExecuteClose(tick, key, pos, size, slice, ev, kind, executor, cfg);
            closed.Ok? ==>
              && closed.value.history
                 == HistoryAfterClose(tick.world.history, MarketAfterClose(tick.market, pos, size), key, pos,
                                      size < pos.size, ev, Route(ev, slice, kind, cfg), kind)
              && key.symbol in closed.value.pm.markets
              && closed.value.pm.markets[key.symbol] == MarketAfterClose(tick.market, pos, size)
  {
    hide SettleFunds, Route, MarketAfterClose, HistoryAfterClose, PositionsAfterClose, MarketUnrealizedPnl;
  }

  /** What a removal leaves of a side's average: nothing, or the rest of its notional over the
      rest of its open interest, rounded down. */
  predicate AverageLeft(avg: int, oi: int, entry: int, closed: int, avg': int) {
    var rest, left := avg * oi - entry * closed, oi - closed;
    if left <= 0 || rest <= 0 then avg' == 0 else Truncates(rest, left, avg')
  }

  lemma AverageAfterRemovalExact(avg: int, oi: int, entry: int, closed: int)
    ensures AverageLeft(avg, oi, entry, closed, AverageAfterRemoval(avg, oi, entry, closed))
  {
    hide TDiv;
    if oi - closed > 0 {
      TDivBounds(avg * oi - entry * closed, oi - closed);
    }
  }

  /** A close stores its market accrued, with the closed size gone from its side. */
  lemma CloseMarket(w: World, key: PositionKey, size: int, limit: int, env: Env, kind: CloseKind, executor: nat)
    requires Inv(w) && env.Valid() && CloseBy(w, key, size, limit, env, kind, executor).Ok?
    ensures var w' := CloseBy(w, key, size, limit, env, kind, executor).value;
            var m := AccruedMarket(w, key.symbol, env.cfg);
            && key in w.pm.positions && key.symbol in w'.pm.markets
            && w'.pm.markets == w.pm.markets[key.symbol := w'.pm.markets[key.symbol]]
            && var pos, closed, m' := w.pm.positions[key], Closing(w, key, size, kind), w'.pm.markets[key.symbol];
               && SameIndices(m, m')
               && OiOf(m', pos.isLong) == OiOf(m, pos.isLong) - closed
               && AverageLeft(AvgOf(m, pos.isLong), OiOf(m, pos.isLong), pos.entryPrice, closed, AvgOf(m', pos.isLong))
               && OiOf(m', !pos.isLong) == OiOf(m, !pos.isLong)
               && AvgOf(m', !pos.isLong) == AvgOf(m, !pos.isLong)
  {
    hide Inv, ExecuteClose, Evaluate, AccruedMarket, CloseBy, TDiv, Truncates, CollateralSlice, SoundPosition,
         AverageLeft, AverageAfterRemoval, BillingStart, BillingEnd;
    CloseIsExecuted(w, key, size, limit, env, kind, executor);
    var pos, closed, m := w.pm.positions[key], Closing(w, key, size, kind), AccruedMarket(w, key.symbol, env.cfg);
    AverageAfterRemovalExact(AvgOf(m, pos.isLong), OiOf(m, pos.isLong), pos.entryPrice, closed);
    CloseLeaves(Refresh(w, key.symbol, env).value, key, pos, closed, CollateralSlice(pos, closed),
                EvaluationAt(w, key, closed, env), kind, CallerOf(kind, executor), env.cfg);
  }

  // ----- Increase -----

  /** The order price a position has after an increase: a positive one replaces the stored. */
  function PriceAfter(stored: int, ordered: int): int {
    if ordered > 0 then ordered else stored
  }

  /** A position carrying no order and no escrow: what an increase of a new one starts from. */
  const NO_POSITION := Position(0, 0, 0, 0, 0, true, 0, 0, 0, 0)

  function Prior(w: World, key: PositionKey): Position {
    if key in w.pm.positions then w.pm.positions[key] else NO_POSITION
  }

  lemma OpenLeaves(w: World, o: Order, env: Env)
    requires Increase(w, o, env).Ok?
    ensures env.quote.Some? && o.size > 0 && o.collateral > 0
    ensures var w', existing := Increase(w, o, env).value, LookUp(w.pm.positions, o.key);
            var market, escrowOwed := AccruedMarket(w, o.key.symbol, env.cfg),
                                      EscrowOwed(existing, o, env.cfg.tpSlExecutionFee);
            var pos := IncreasedPosition(existing, o, market, env.quote.value, escrowOwed, w.now);
            var paid := OpenFunds(w.funds, o.key.trader, o.collateral, OpenFee(o.size, env.cfg.openFeeBps), escrowOwed,
                                  o.size, env.cfg);
            && (existing.Some? ==> existing.value.isLong == o.isLong)
            && pos.takeProfit >= 0 && pos.stopLoss >= 0
            && w'.pm.positions == w.pm.positions[o.key := pos]
            && w'.pm.markets == w.pm.markets[o.key.symbol := MarketAfterOpen(market, o.isLong, env.quote.value, o.size)]
            && paid.Ok?
            && w'.funds == paid.value.(vault := paid.value.vault.(netTraderPnl := w'.funds.vault.netTraderPnl))
  {
    hide OpenFunds, OpenFee, MarketAfterOpen, WeightedAverage, AccruedMarket, BillingStart, BillingEnd, UtilizationBps,
         MarketUnrealizedPnl, Traded, EscrowOwed, ViewOf;
  }

  lemma OpenHistory(w: World, o: Order, env: Env)
    requires Increase(w, o, env).Ok?
    ensures env.quote.Some? && o.key.symbol in w.pm.maxLeverage
    ensures var h, h', side := w.history, Increase(w, o, env).value.history, Side(o.key.symbol, o.isLong);
            var market' := MarketAfterOpen(AccruedMarket(w, o.key.symbol, env.cfg), o.isLong, env.quote.value, o.size);
            && h'.trades == Traded(h, market', side).trades && h'.peakOi == Traded(h, market', side).peakOi
            && h'.leverageCap == h.leverageCap[o.key := w.pm.maxLeverage[o.key.symbol]]
            && h'.openFees == h.openFees + OpenFee(o.size, env.cfg.openFeeBps)
            && h'.escrowCharged
               == h.escrowCharged + EscrowOwed(LookUp(w.pm.positions, o.key), o, env.cfg.tpSlExecutionFee)
  {
    hide OpenFunds, OpenFee, MarketAfterOpen, IncreasedPosition, AccruedMarket, BillingStart, BillingEnd,
         UtilizationBps, MarketUnrealizedPnl, EscrowOwed, ViewOf;
  }

  /** An accepted increase writes the one position, entered at the size-weighted means of its
      old entry and the market's mark and indices; it stores the order's positive prices, and
      charges escrow exactly when none was held and an order is now set. */
  lemma OpenWrites(w: World, o: Order, env: Env)
    requires Inv(w) && env.Valid() && Increase(w, o, env).Ok?
    ensures env.quote.Some?
    ensures var w', prior := Increase(w, o, env).value, Prior(w, o.key);
            var market, size := AccruedMarket(w, o.key.symbol, env.cfg), prior.size + o.size;
            && o.key in w'.pm.positions
            && w'.pm.positions == w.pm.positions[o.key := w'.pm.positions[o.key]]
            && var p := w'.pm.positions[o.key];
               && p.size == size && p.collateral == prior.collateral + o.collateral
               && p.isLong == o.isLong && p.lastIncreasedTime == w.now
               && Truncates(prior.entryPrice * prior.size + env.quote.value * o.size, size, p.entryPrice)
               && p.entryPrice <= Max(env.quote.value, prior.entryPrice)
               && (prior.size > 0 ==> Min(env.quote.value, prior.entryPrice) <= p.entryPrice)
               && Truncates(prior.entryBorrowIndex * prior.size + market.accBorrowIndex * o.size, size,
                            p.entryBorrowIndex)
               && Truncates(prior.entryFundingIndex * prior.size + market.accFundingIndex * o.size, size,
                            p.entryFundingIndex)
               && p.takeProfit == PriceAfter(prior.takeProfit, o.takeProfit)
               && p.stopLoss == PriceAfter(prior.stopLoss, o.stopLoss)
               && p.escrow == prior.escrow + (if prior.escrow == 0 && (p.takeProfit > 0 || p.stopLoss > 0)
                                              then env.cfg.tpSlExecutionFee else 0)
  {
    hide Inv, Increase, OpenFunds, OpenFee, MarketAfterOpen, WeightedAverage, AccruedMarket, Truncates;
    OpenLeaves(w, o, env);
    var prior, market := Prior(w, o.key), AccruedMarket(w, o.key.symbol, env.cfg);
    assert prior.size >= 0 && prior.entryPrice >= 0 && prior.takeProfit >= 0 && prior.stopLoss >= 0 && prior.escrow >= 0
           && (prior.escrow > 0 ==> prior.takeProfit > 0 || prior.stopLoss > 0) by {
      if o.key in w.pm.positions {
        CloseFactsOf(w, o.key);
      }
    }
    WeightedAverageExact(prior.entryPrice, prior.size, env.quote.value, o.size);
    WeightedAverageBetween(prior.entryPrice, prior.size, env.quote.value, o.size);
    WeightedAverageExact(prior.entryBorrowIndex, prior.size, market.accBorrowIndex, o.size);
    WeightedAverageExact(prior.entryFundingIndex, prior.size, market.accFundingIndex, o.size);
    NewEntry(env.quote.value, o.size);
    NewEntry(market.accBorrowIndex, o.size);
    NewEntry(market.accFundingIndex, o.size);
  }

  lemma NewEntry(quote: int, size: int)
    requires size > 0
    ensures WeightedAverage(0, 0, quote, size) == quote
  {
  }

  /** The trader pays collateral, the escrow charged and the configured share of the size,
      nobody else pays or receives; the vault keeps the fee, tags its non-LP share and
      reserves the size. */
  lemma OpenCharges(w: World, o: Order, env: Env)
    requires Inv(w) && env.Valid() && Increase(w, o, env).Ok?
    ensures var w' := Increase(w, o, env).value;
            && o.key in w'.pm.positions
            && var escrow := w'.pm.positions[o.key].escrow - Prior(w, o.key).escrow;
               var fee := -Paid(w, w', o.key.trader) - o.collateral - escrow;
               && Truncates(o.size * env.cfg.openFeeBps, BPS, fee)
               && (forall user: nat :: user != o.key.trader ==> Paid(w, w', user) == 0)
               && TotalAssets(w'.funds) == TotalAssets(w.funds) + fee
               && Tags(fee, env.cfg, w'.funds.vault.unclaimedFees - w.funds.vault.unclaimedFees)
               && w'.funds.vault.reserved == w.funds.vault.reserved + o.size
               && Balance(w'.funds, ManagerAccount) == Balance(w.funds, ManagerAccount) + o.collateral + escrow
               && w'.history.openFees == w.history.openFees + fee
               && w'.history.escrowCharged == w.history.escrowCharged + escrow
               && o.key.symbol in w.pm.maxLeverage
               && w'.history.leverageCap == w.history.leverageCap[o.key := w.pm.maxLeverage[o.key.symbol]]
  {
    hide Inv, Increase, OpenFunds, OpenFee, MarketAfterOpen, WeightedAverage, AccruedMarket, Truncates, Tags,
         TaggedSlice, EscrowOwed, BalancesNonNegative;
    OpenLeaves(w, o, env);
    OpenHistory(w, o, env);
    var existing, fee := LookUp(w.pm.positions, o.key), OpenFee(o.size, env.cfg.openFeeBps);
    var escrowOwed := EscrowOwed(existing, o, env.cfg.tpSlExecutionFee);
    InvBalances(w);
    OpenFeeNonNegative(o.size, env.cfg);
    OpenFeeExact(o.size, env.cfg.openFeeBps);
    assert escrowOwed >= 0 by { EscrowOwedFacts(w, o, env.cfg.tpSlExecutionFee); }
    OpenNet(w.funds, o.key.trader, o.collateral, fee, escrowOwed, o.size, env.cfg);
    OpenTags(w.funds, o.key.trader, o.collateral, fee, escrowOwed, o.size, env.cfg);
    TaggedSliceExact(fee, env.cfg);
  }

  /** An open stores its market accrued, with the order's size added to its side at the mark. */
  lemma OpenMarket(w: World, o: Order, env: Env)
    requires Inv(w) && env.Valid() && Increase(w, o, env).Ok?
    ensures env.quote.Some?
    ensures var w', m := Increase(w, o, env).value, AccruedMarket(w, o.key.symbol, env.cfg);
            && o.key.symbol in w'.pm.markets
            && w'.pm.markets == w.pm.markets[o.key.symbol := w'.pm.markets[o.key.symbol]]
            && var m', oi := w'.pm.markets[o.key.symbol], OiOf(m, o.isLong) + o.size;
               && SameIndices(m, m')
               && OiOf(m', o.isLong) == oi
               && Truncates(AvgOf(m, o.isLong) * OiOf(m, o.isLong) + env.quote.value * o.size, oi, AvgOf(m', o.isLong))
               && OiOf(m', !o.isLong) == OiOf(m, !o.isLong)
               && AvgOf(m', !o.isLong) == AvgOf(m, !o.isLong)
               && TradesOn(w'.history, Side(o.key.symbol, o.isLong))
                  == TradesOn(w.history, Side(o.key.symbol, o.isLong)) + 1
               && PeakOn(w'.history, Side(o.key.symbol, o.isLong))
                  == Max(PeakOn(w.history, Side(o.key.symbol, o.isLong)), oi)
  {
    hide Inv, Increase, OpenFunds, OpenFee, WeightedAverage, AccruedMarket, IncreasedPosition, Truncates, EscrowOwed;
    OpenLeaves(w, o, env);
    OpenHistory(w, o, env);
    var m := AccruedMarket(w, o.key.symbol, env.cfg);
    AccruedSound(w, o.key.symbol, env);
    WeightedAverageExact(AvgOf(m, o.isLong), OiOf(m, o.isLong), env.quote.value, o.size);
  }

  lemma AccruedSound(w: World, symbol: Symbol, env: Env)
    requires Inv(w) && env.Valid()
    ensures SoundMarket(AccruedMarket(w, symbol, env.cfg))
  {
    hide Inv, AccruedMarket, BillingStart, BillingEnd;
    AccruedKeeps(w, symbol, env.cfg);
    AccruedMarketOf(w, symbol, env.cfg);
    MarketOfSound(Accrued(w, symbol, env.cfg), symbol);
  }

  // ----- Orders -----

  /** Exactly when an order change is accepted: the manager runs, the prices are not negative,
      and a trader who had no escrow and now sets an order can pay the fee. */
  lemma SetTpSlSucceedsIff(w: World, key: PositionKey, takeProfit: int, stopLoss: int, env: Env)
    requires Inv(w) && env.Valid()
    ensures SetTpSl(w, key, takeProfit, stopLoss, env).Ok?
            <==> && !w.pm.paused && key in w.pm.positions && takeProfit >= 0 && stopLoss >= 0
                 && (w.pm.positions[key].escrow == 0 && (takeProfit > 0 || stopLoss > 0) ==>
                       env.cfg.tpSlExecutionFee <= Balance(w.funds, User(key.trader)))
  {
    hide Inv, Sum;
    if key in w.pm.positions {
      CloseFactsOf(w, key);
      PositionBacked(w, key);
      InvBalances(w);
    }
  }

  /** An accepted order change stores both prices as given and nothing else of the position but
      its escrow, which ends at zero without an order, at the fee when there was none, and as
      it was otherwise; the trader pays exactly the difference. */
  lemma SetTpSlWrites(w: World, key: PositionKey, takeProfit: int, stopLoss: int, env: Env)
    requires Inv(w) && env.Valid() && SetTpSl(w, key, takeProfit, stopLoss, env).Ok?
    ensures var w' := SetTpSl(w, key, takeProfit, stopLoss, env).value;
            && key in w.pm.positions
            && var p := w.pm.positions[key];
               var escrow := if takeProfit == 0 && stopLoss == 0 then 0
                             else if p.escrow == 0 then env.cfg.tpSlExecutionFee
                             else p.escrow;
               && w'.pm == w.pm.(positions := w.pm.positions[
                                   key := p.(takeProfit := takeProfit, stopLoss := stopLoss, escrow := escrow)])
               && Paid(w, w', key.trader) == p.escrow - escrow
               && Balance(w'.funds, ManagerAccount) == Balance(w.funds, ManagerAccount) + escrow - p.escrow
               && (forall user: nat :: user != key.trader ==> Paid(w, w', user) == 0)
               && w'.funds.vault == w.funds.vault && TotalAssets(w'.funds) == TotalAssets(w.funds)
  {
    hide Inv;
    CloseFactsOf(w, key);
    InvBalances(w);
  }

  // ----- Index updates and pause -----

  /** An index update is refused only by a pause or a failing oracle, and moves no dollar and no
      position: it stores the accrued market, and its PnL. */
  lemma UpdateIndicesIff(w: World, symbol: Symbol, env: Env)
    ensures UpdateIndices(w, symbol, env).Ok? <==> !w.pm.paused && env.quote.Some?
    ensures UpdateIndices(w, symbol, env).Ok? ==>
              var w' := UpdateIndices(w, symbol, env).value;
              && w'.pm.positions == w.pm.positions && w'.funds.balances == w.funds.balances
              && w'.funds.vault == w.funds.vault.(netTraderPnl := w'.funds.vault.netTraderPnl)
              && w'.pm.markets == (if BilledSeconds(w, symbol) > 0
                                   then w.pm.markets[symbol := AccruedMarket(w, symbol, env.cfg)] else w.pm.markets)
  {
    hide AccruedMarket, BillingStart, BillingEnd, MarketUnrealizedPnl;
  }

  /** While the manager is paused nothing is opened and no order changed. */
  lemma PausedRefuses(w: World, a: Action)
    requires w.pm.paused && (a.DoIncrease? || a.DoSetTpSl? || a.DoUpdateIndices?)
    ensures Call(w, a) == Err(Paused)
  {
    hide OpenPosition, Refresh, RefreshPnl, ApplyEscrowDelta;
  }

  /** A pause stops the clock of every market and the unpause starts it anew: only the time
      since then is billed, and the manager is back as it was. Repeating either does nothing. */
  lemma PauseStopsClock(w: World, symbol: Symbol, paused: nat, running: nat)
    requires Inv(w) && !w.pm.paused && symbol in w.pm.markets
    ensures var during := AdvanceTime(Pause(w), paused);
            var after := AdvanceTime(Unpause(during), running);
            && during.pm.paused && BilledSeconds(during, symbol) == BilledSeconds(w, symbol)
            && !after.pm.paused && BilledSeconds(after, symbol) == running
            && during.history.pausedSpans == w.history.pausedSpans + [Span(w.now, w.now + paused)]
            && after.funds == w.funds && after.history == during.history
            && Unpause(w) == w && Pause(during) == during
            && after.pm == w.pm.(lastPause := w.now, lastUnpause := w.now + paused)
  {
    hide Book, Money;
  }

  /** A switched-off market refuses opens, a leverage cap decides them, and neither touches the
      opens of another market. */
  lemma SettingsDecideOpens(w: World, symbol: Symbol, disabled: bool, cap: int, o: Order, env: Env)
    requires Inv(w) && env.Valid()
    ensures var w' := SetMarketDisabled(w, symbol, disabled);
            && (o.key.symbol == symbol && disabled ==> !PassesGates(Increase(w', o, env)))
            && (o.key.symbol != symbol || (!disabled && symbol !in w.pm.disabled) ==>
                  (PassesGates(Increase(w', o, env)) <==> PassesGates(Increase(w, o, env))))
            && SetMarketDisabled(w', symbol, symbol in w.pm.disabled).pm.disabled == w.pm.disabled
    ensures SetMaxLeverage(w, symbol, cap).Ok? <==> 2 <= cap <= 200
    ensures 2 <= cap <= 200 ==>
              var w' := SetMaxLeverage(w, symbol, cap).value;
              && (o.key.symbol == symbol && PassesGates(Increase(w', o, env)) ==>
                    Fits(LookUp(w.pm.positions, o.key), o, cap))
              && (o.key.symbol == symbol && PassesGates(Increase(w, o, env))
                  && Fits(LookUp(w.pm.positions, o.key), o, cap) ==>
                    PassesGates(Increase(w', o, env)))
              && (o.key.symbol != symbol ==>
                    (PassesGates(Increase(w', o, env)) <==> PassesGates(Increase(w, o, env))))
  {
    hide Inv, Increase, PassesGates, Fits, WithinCap, SafeBasis;
    IncreaseGates(w, o, env);
    SettingsKeep(w, symbol, cap, disabled);
    IncreaseGates(SetMarketDisabled(w, symbol, disabled), o, env);
    if 2 <= cap <= 200 {
      IncreaseGates(SetMaxLeverage(w, symbol, cap).value, o, env);
    }
  }

  // ----- Liquidity providers and fee claims -----

  /** A paused vault takes no deposit and pays no withdrawal; unpausing leaves it as it was. */
  lemma VaultPauseRefuses(w: World, user: nat, receiver: Address, assets: int, cfg: Config)
    ensures var stopped := SetVaultPaused(w, true);
            && DepositLiquidity(stopped, user, assets, cfg) == Err(VaultPaused)
            && WithdrawLiquidity(stopped, user, receiver, assets) == Err(VaultPaused)
            && (!w.funds.vault.paused ==> SetVaultPaused(stopped, false) == w)
  {
  }

  /** Exactly when a withdrawal is accepted: the vault runs, the owner's lockup is over, and the
      assets, if any, are in the vault beyond what is reserved, owed as fees or owed as positive
      trader PnL. */
  lemma WithdrawSucceedsIff(w: World, owner: nat, receiver: Address, assets: int)
    requires Inv(w)
    ensures WithdrawLiquidity(w, owner, receiver, assets).Ok?
            <==> && !w.funds.vault.paused && w.now >= ExpiryOf(w, owner) && assets >= 0
                 && (assets > 0 ==>
                       assets + w.funds.vault.reserved + w.funds.vault.unclaimedFees
                       + Max(0, w.funds.vault.netTraderPnl) <= TotalAssets(w.funds))
  {
    hide Inv;
    InvBalances(w);
  }

  function ExpiryOf(w: World, user: nat): nat {
    if user in w.funds.vault.lockups then w.funds.vault.lockups[user] else 0
  }

  /** A deposit is accepted exactly when the vault runs and the user holds the assets; it moves
      them into the vault and locks the user for the cooldown. */
  lemma DepositIff(w: World, user: nat, assets: int, cfg: Config)
    requires Inv(w)
    ensures DepositLiquidity(w, user, assets, cfg).Ok?
            <==> !w.funds.vault.paused && 0 < assets <= Balance(w.funds, User(user))
    ensures DepositLiquidity(w, user, assets, cfg).Ok? ==>
              var w' := DepositLiquidity(w, user, assets, cfg).value;
              && TotalAssets(w'.funds) == TotalAssets(w.funds) + assets
              && Paid(w, w', user) == -assets
              && w'.funds.vault
                 == w.funds.vault.(lockups := w.funds.vault.lockups[user := w.now + cfg.cooldown])
              && w'.pm == w.pm
  {
    hide Inv;
    InvBalances(w);
  }

  /** A fee claim is accepted exactly when the buffer and the vault hold the amount, the claim
      of everything when there is anything to claim. */
  lemma ClaimSucceedsIff(w: World, recipient: Address, amount: int)
    requires Inv(w)
    ensures ClaimSomeFees(w, recipient, amount).Ok?
            <==> 0 < amount <= w.funds.vault.unclaimedFees && amount <= TotalAssets(w.funds)
    ensures ClaimAllFees(w, recipient).Ok?
            <==> 0 < w.funds.vault.unclaimedFees <= TotalAssets(w.funds)
    ensures ClaimAllFees(w, recipient).Ok? ==>
              ClaimAllFees(w, recipient).value.funds.vault == w.funds.vault.(unclaimedFees := 0)
  {
    hide Inv;
    InvBalances(w);
  }
}
