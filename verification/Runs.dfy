/** What holds after every run of the protocol: any sequence of calls, by anyone, at any
    prices and under any valid configurations, reverting or not. */
module Runs {
  import opened FixedPoint
  import opened Types
  import opened RiskMath
  import opened MapSums
  import opened Evaluations
  import opened VaultLedger
  import opened Ledger
  import opened Settlement
  import opened Invariants
  import opened BookSteps
  import opened Steps
  import opened Entrypoints

  predicate Legal(actions: seq<Action>) {
    forall i :: 0 <= i < |actions| ==> actions[i].Valid()
  }

  /** A world some run from freshly initialized contracts leads to. */
  ghost predicate Reachable(w: World) {
    exists w0, actions :: Initial(w0) && Legal(actions) && w == Run(w0, actions)
  }

  lemma {:induction false} RunKeeps(w: World, actions: seq<Action>)
    requires Inv(w) && Legal(actions)
    ensures Inv(Run(w, actions))
    decreases |actions|
  {
    hide Inv, Step, Action.Valid;
    if actions != [] {
      StepKeeps(w, actions[0]);
      RunKeeps(Step(w, actions[0]), actions[1..]);
    }
  }

  lemma ReachableInv(w: World)
    requires Reachable(w)
    ensures Inv(w)
  {
    hide Inv, Run, Initial, Legal;
    var w0, actions :| Initial(w0) && Legal(actions) && w == Run(w0, actions);
    InitialInv(w0);
    RunKeeps(w0, actions);
  }

  lemma InitialReachable(w: World)
    requires Initial(w)
    ensures Reachable(w)
  {
    hide Initial;
    assert Run(w, []) == w;
    assert Legal([]);
  }

  lemma {:induction false} RunSnoc(w: World, actions: seq<Action>, a: Action)
    ensures Run(w, actions + [a]) == Step(Run(w, actions), a)
    decreases |actions|
  {
    hide Step;
    if actions == [] {
      assert actions + [a] == [a] && [a][1..] == [];
    } else {
      assert (actions + [a])[1..] == actions[1..] + [a];
      RunSnoc(Step(w, actions[0]), actions[1..], a);
    }
  }

  /** One more call from a reachable world leads to a reachable world. */
  lemma StepReachable(w: World, a: Action)
    requires Reachable(w) && a.Valid()
    ensures Reachable(Step(w, a))
  {
    hide Run, Initial, Step, Action.Valid;
    var w0, actions :| Initial(w0) && Legal(actions) && w == Run(w0, actions);
    RunSnoc(w0, actions, a);
    assert Legal(actions + [a]);
  }

  // ----- Accounting -----

  /** The vault's balance plus everything traders realized equals what was deposited,
      given, charged and forfeited, less what was withdrawn, claimed, paid as bounty or
      lost to positions that closed below zero. */
  lemma LedgerBalances(w: World)
    requires Reachable(w)
    ensures Balance(w.funds, VaultAccount) + w.pm.realizedPnl
            == w.history.deposits - w.history.withdrawals + w.history.donatedToVault
               + w.history.openFees + w.history.escrowForfeited
               - w.history.claimedFees - w.history.bounties - w.history.badDebt
  {
    hide Sum, Run, Book, Billing;
    ReachableInv(w);
  }

  /** The manager holds its open positions' collateral and escrow and, gifts aside, not a
      dollar more; every escrow charged is refunded, paid out, forfeited or still held. */
  lemma CustodyExact(w: World)
    requires Reachable(w)
    ensures Balance(w.funds, ManagerAccount) == Sum(w.pm.positions, CustodyWeight) + w.history.donatedToManager
    ensures w.history.escrowCharged - w.history.escrowRefunded - w.history.escrowPaidOut - w.history.escrowForfeited
            == Sum(w.pm.positions, EscrowWeight)
  {
    hide Sum, Run, Book, Billing;
    ReachableInv(w);
  }

  /** Escrow is only ever held for a position with an order, so the clamp that keeps an
      increase from refunding never changes the amount. */
  lemma IncreaseNeverClampsEscrow(w: World, o: Order, env: Env)
    requires Reachable(w) && env.Valid() && o.key in w.pm.positions
    ensures var p := w.pm.positions[o.key];
            && (p.escrow > 0 ==> p.takeProfit > 0 || p.stopLoss > 0)
            && EscrowOwed(Some(p), o, env.cfg.tpSlExecutionFee)
               == EscrowDelta(p.escrow, ResultingOrder(p.takeProfit, o.takeProfit),
                              ResultingOrder(p.stopLoss, o.stopLoss), env.cfg.tpSlExecutionFee)
  {
    hide Sum, Run, Money, Billing;
    ReachableInv(w);
    EscrowOwedFacts(w, o, env.cfg.tpSlExecutionFee);
  }

  /** Reserved liquidity is the total open size and the total open interest; each market
      side's open interest is the size open on it. */
  lemma OpenInterestExact(w: World, side: Side)
    requires Reachable(w)
    ensures w.funds.vault.reserved == Sum(w.pm.positions, SizeWeight) == Sum(w.pm.markets, OiWeight)
    ensures SideOi(w.pm.markets, side) == Sum(w.pm.positions, SideSize(side))
  {
    hide Sum, Run, DriftBounded, Billing;
    ReachableInv(w);
  }

  /** The vault's view of unrealized PnL is the manager's total, which is the sum of the
      per-market caches. */
  lemma UnrealizedPnlExact(w: World)
    requires Reachable(w)
    ensures w.funds.vault.netTraderPnl == w.pm.totalUnrealizedPnl == Sum(w.pm.cachedPnl, PnlWeight)
  {
    hide Sum, Run, Book, Billing;
    ReachableInv(w);
  }

  /** After `n` trades on a side whose open interest never exceeded `m`, its average price
      misstates its positions' notional by at most `n * m`, and not at all when empty. */
  lemma AverageDriftBounded(w: World, side: Side)
    requires Reachable(w)
    ensures Abs(SideAvg(w.pm.markets, side) * SideOi(w.pm.markets, side) - Sum(w.pm.positions, SideNotional(side)))
            <= TradesOn(w.history, side) * PeakOn(w.history, side)
    ensures SideOi(w.pm.markets, side) <= PeakOn(w.history, side)
    ensures SideOi(w.pm.markets, side) == 0 ==>
              SideAvg(w.pm.markets, side) == 0 && Sum(w.pm.positions, SideNotional(side)) == 0
  {
    hide Sum, Run, Money, Billing;
    ReachableInv(w);
    assert SideDriftBounded(w.pm.positions, w.pm.markets, w.history, side);
    if SideOi(w.pm.markets, side) == 0 {
      assert Sum(w.pm.positions, SideSize(side)) == 0;
      SideEmptied(w.pm.positions, side);
    }
  }

  /** Open positions keep a positive size and collateral, an entry borrow index their
      market has not fallen behind, and the leverage cap of their last increase. */
  lemma PositionsStaySound(w: World, key: PositionKey)
    requires Reachable(w) && key in w.pm.positions
    ensures var p := w.pm.positions[key];
            && p.size > 0 && p.collateral > 0 && p.entryPrice > 0
            && key.symbol in w.pm.markets
            && p.entryBorrowIndex <= w.pm.markets[key.symbol].accBorrowIndex
            && key in w.history.leverageCap && w.history.leverageCap[key] <= 200
            && p.size <= p.collateral * w.history.leverageCap[key]
  {
    hide Sum, Run, Money, Billing;
    ReachableInv(w);
  }

  // ----- Borrow index -----

  /** A call never lowers the borrow index of a market, nor forgets the market. */
  predicate IndicesKept(before: Markets, after: Markets) {
    forall s :: s in before ==> s in after && before[s].accBorrowIndex <= after[s].accBorrowIndex
  }

  lemma AccrualKeepsIndices(w: World, symbol: Symbol, env: Env)
    requires Inv(w) && env.Valid()
    ensures IndicesKept(w.pm.markets, Accrued(w, symbol, env.cfg).pm.markets)
    ensures symbol in w.pm.markets ==>
              w.pm.markets[symbol].accBorrowIndex <= AccruedMarket(w, symbol, env.cfg).accBorrowIndex
  {
    hide Inv, AccruedMarket, BillingStart, BillingEnd;
    AccruedKeeps(w, symbol, env.cfg);
  }

  lemma CloseKeepsIndices(w: World, a: Action)
    requires Inv(w) && a.Valid()
    requires a.DoDecrease? || a.DoLiquidate? || a.DoDeleverage? || a.DoExecuteOrder?
    ensures IndicesKept(w.pm.markets, Step(w, a).pm.markets)
  {
    hide Inv, AccruedMarket, BillingStart, BillingEnd, Evaluate, SettleFunds, LiquidationThreshold, CollateralSlice,
         PositionsAfterClose, HistoryAfterClose, SlipsOnClose, MarketUnrealizedPnl, AverageAfterRemoval;
    AccrualKeepsIndices(w, a.key.symbol, a.env);
  }

  lemma OpenKeepsIndices(w: World, o: Order, env: Env)
    requires Inv(w) && env.Valid()
    ensures IndicesKept(w.pm.markets, Step(w, DoIncrease(o, env)).pm.markets)
  {
    hide Inv, AccruedMarket, BillingStart, BillingEnd, OpenFunds, IncreasedPosition, WeightedAverage, EscrowOwed,
         Traded, MarketUnrealizedPnl, UtilizationBps, ViewOf;
    AccrualKeepsIndices(w, o.key.symbol, env);
  }

  lemma OthersKeepIndices(w: World, a: Action)
    requires Inv(w) && a.Valid() && !a.DoIncrease?
    requires !a.DoDecrease? && !a.DoLiquidate? && !a.DoDeleverage? && !a.DoExecuteOrder?
    ensures IndicesKept(w.pm.markets, Step(w, a).pm.markets)
  {
    hide Inv, AccruedMarket, BillingStart, BillingEnd, MarketUnrealizedPnl, Deposit, Withdraw, ClaimFees, ClaimFeesTo,
         PropagateLockup, Transfer, ApplyEscrowDelta, EscrowDelta;
    if a.DoUpdateIndices? {
      AccrualKeepsIndices(w, a.symbol, a.env);
    }
  }

  lemma StepKeepsIndices(w: World, a: Action)
    requires Inv(w) && a.Valid()
    ensures IndicesKept(w.pm.markets, Step(w, a).pm.markets)
  {
    hide Inv, Step, IndicesKept;
    if a.DoDecrease? || a.DoLiquidate? || a.DoDeleverage? || a.DoExecuteOrder? {
      CloseKeepsIndices(w, a);
    } else if a.DoIncrease? {
      OpenKeepsIndices(w, a.order, a.env);
    } else {
      OthersKeepIndices(w, a);
    }
  }

  /** Along any run the borrow index of every stored market never decreases. */
  lemma {:induction false} BorrowIndexNeverFalls(w: World, actions: seq<Action>)
    requires Inv(w) && Legal(actions)
    ensures IndicesKept(w.pm.markets, Run(w, actions).pm.markets)
    decreases |actions|
  {
    hide Inv, Step, Action.Valid;
    if actions != [] {
      StepKeeps(w, actions[0]);
      StepKeepsIndices(w, actions[0]);
      BorrowIndexNeverFalls(Step(w, actions[0]), actions[1..]);
    }
  }

  // ----- Billing -----

  predicate During(t: int, start: int, end: int) {
    start <= t < end
  }

  /** No second is billed to a market twice. */
  lemma SecondsBilledOnce(w: World, t: int, i: nat, j: nat)
    requires Reachable(w)
    requires i < |w.history.windows| && j < |w.history.windows|
    requires w.history.windows[i].symbol == w.history.windows[j].symbol
    requires During(t, w.history.windows[i].start, w.history.windows[i].end)
    requires During(t, w.history.windows[j].start, w.history.windows[j].end)
    ensures i == j
  {
    hide Sum, Run, Book, Money;
    ReachableInv(w);
  }

  /** No second that passed while the manager was paused is billed to any market,
      whatever was called during the pause. */
  lemma PausedSecondsUnbilled(w: World, t: int, i: nat, j: nat)
    requires Reachable(w)
    requires i < |w.history.windows| && j < |w.history.pausedSpans|
    requires During(t, w.history.pausedSpans[j].start, w.history.pausedSpans[j].end)
    ensures !During(t, w.history.windows[i].start, w.history.windows[i].end)
  {
    hide Sum, Run, Book, Money;
    ReachableInv(w);
    assert Apart(w.history.windows[i], w.history.pausedSpans[j]);
  }

  // ----- Solvency -----

  /** Every increase of the run meets a utilization cap below one and finds a positive
      safe basis: both can be read off before the call. */
  predicate OpensGated(w: World, actions: seq<Action>)
    decreases |actions|
  {
    actions == [] ||
    (&& (actions[0].DoIncrease? ==>
           actions[0].env.cfg.maxUtilization < BPS && SafeBasis(w.funds) > 0)
     && OpensGated(Step(w, actions[0]), actions[1..]))
  }

  lemma StepKeepsSolvent(w: World, a: Action)
    requires Inv(w) && a.Valid() && Solvent(w.funds)
    requires a.DoIncrease? ==> a.env.cfg.maxUtilization < BPS && SafeBasis(w.funds) > 0
    ensures Solvent(Step(w, a).funds)
  {
    hide Inv, Increase;
    if a.DoIncrease? {
      IncreaseKeepsSolvent(w, a.order, a.env);
    } else {
      StepKeeps(w, a);
    }
  }

  lemma {:induction false} RunKeepsSolvent(w: World, actions: seq<Action>)
    requires Inv(w) && Legal(actions) && Solvent(w.funds) && OpensGated(w, actions)
    ensures Inv(Run(w, actions)) && Solvent(Run(w, actions).funds)
    decreases |actions|
  {
    hide Inv, Step, Action.Valid, SafeBasis;
    if actions != [] {
      StepKeeps(w, actions[0]);
      StepKeepsSolvent(w, actions[0]);
      RunKeepsSolvent(Step(w, actions[0]), actions[1..]);
    }
  }

  /** The vault holds every reserved dollar and every unclaimed fee after any run whose
      opens were gated. */
  lemma SolventAfterGatedRun(w0: World, actions: seq<Action>)
    requires Initial(w0) && Legal(actions) && OpensGated(w0, actions)
    ensures var f := Run(w0, actions).funds;
            f.vault.reserved + f.vault.unclaimedFees <= Balance(f, VaultAccount)
  {
    hide Inv, Run, OpensGated;
    InitialInv(w0);
    RunKeepsSolvent(w0, actions);
  }

  // ----- Underwater liquidation -----

  /** A liquidation of a position worth nothing or less always settles: it succeeds
      exactly when the health gate lets it through, and it never lowers what the vault
      owns net of fees. */
  lemma UnderwaterLiquidationSettles(w: World, key: PositionKey, executor: nat, env: Env)
    requires Inv(w) && Solvent(w.funds) && env.Valid() && env.quote.Some? && key in w.pm.positions
    requires var market, pos := AccruedMarket(w, key.symbol, env.cfg), w.pm.positions[key];
             Evaluate(market, env.quote.value, pos, pos.size, pos.collateral,
                      env.cfg.fundingCutBps).effectiveHealth <= 0
    ensures var market, pos := AccruedMarket(w, key.symbol, env.cfg), w.pm.positions[key];
            var result := Liquidate(w, key, executor, env);
            && (result.Ok? <==> Liquidatable(market, env.quote.value, pos, env.cfg.fundingCutBps,
                                             env.cfg.liquidationThresholdBps))
            && (result.Ok? ==>
                  && key !in result.value.pm.positions
                  && TotalAssets(w.funds) - w.funds.vault.unclaimedFees
                     <= TotalAssets(result.value.funds) - result.value.funds.vault.unclaimedFees)
  {
    hide Sum, Evaluate, SettleFunds, AccruedMarket, Accrued, MarketAfterClose, Billing, LiquidationThreshold, Book,
         MarketUnrealizedPnl;
    RefreshKeeps(w, key.symbol, env);
    var tick, pos := Refresh(w, key.symbol, env).value, w.pm.positions[key];
    var ev := Evaluate(tick.market, tick.markPrice, pos, pos.size, pos.collateral, env.cfg.fundingCutBps);
    PositionBacked(w, key);
    CloseFactsOf(w, key);
    UnderwaterSettles(w.funds, key.trader, pos, ev, executor, env.cfg);
  }

  lemma CloseFactsOf(w: World, key: PositionKey)
    requires Inv(w) && key in w.pm.positions
    ensures SoundPosition(w.pm.positions[key])
  {
  }
}
