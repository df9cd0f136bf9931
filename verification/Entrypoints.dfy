/** Each entrypoint of the protocol keeps the invariant; all but the opens keep a solvent
    vault solvent whatever the configuration. */
module Entrypoints {
  import opened FixedPoint
  import opened Types
  import opened RiskMath
  import opened MapSums
  import opened Evaluations
  import opened VaultLedger
  import opened Ledger
  import opened Settlement
  import opened Invariants
  import opened BookSteps
  import opened Steps

  /** An outcome that keeps the invariant and does not break solvency. */
  ghost predicate KeepsAll(w: World, result: Result<World>) {
    result.Ok? ==> Inv(result.value) && (Solvent(w.funds) ==> Solvent(result.value.funds))
  }

  // ----- Closes -----

  lemma FullCloseKeeps(w: World, key: PositionKey, env: Env, kind: CloseKind, executor: Option<nat>)
    requires Inv(w) && env.Valid() && env.quote.Some? && key in w.pm.positions && ExecutorFits(kind, executor)
    ensures var tick, pos := Refresh(w, key.symbol, env).value, w.pm.positions[key];
            KeepsAll(w, ExecuteClose(tick, key, pos, pos.size, pos.collateral,
                                     Evaluate(tick.market, tick.markPrice, pos, pos.size, pos.collateral,
                                              env.cfg.fundingCutBps),
                                     kind, executor, env.cfg))
  {
    hide Sum, Evaluate, ExecuteClose, TDiv, Money, Billing, Accrued, AccruedMarket;
    RefreshKeeps(w, key.symbol, env);
    var tick, pos := Refresh(w, key.symbol, env).value, w.pm.positions[key];
    var ev := Evaluate(tick.market, tick.markPrice, pos, pos.size, pos.collateral, env.cfg.fundingCutBps);
    CloseKeeps(tick, key, pos, pos.size, pos.collateral, ev, kind, executor, env.cfg);
  }

  lemma DecreaseKeeps(w: World, key: PositionKey, sizeDelta: int, acceptable: int, env: Env)
    requires Inv(w) && env.Valid()
    ensures KeepsAll(w, Decrease(w, key, sizeDelta, acceptable, env))
  {
    hide Sum, Evaluate, ExecuteClose, TDiv, Money, Billing, Accrued, AccruedMarket;
    if Decrease(w, key, sizeDelta, acceptable, env).Ok? {
      RefreshKeeps(w, key.symbol, env);
      var tick, pos := Refresh(w, key.symbol, env).value, w.pm.positions[key];
      var collateralDelta := CollateralSlice(pos, sizeDelta);
      var ev := Evaluate(tick.market, tick.markPrice, pos, sizeDelta, collateralDelta, env.cfg.fundingCutBps);
      CloseKeeps(tick, key, pos, sizeDelta, collateralDelta, ev, UserClose, None, env.cfg);
    }
  }

  lemma LiquidateKeeps(w: World, key: PositionKey, executor: nat, env: Env)
    requires Inv(w) && env.Valid()
    ensures KeepsAll(w, Liquidate(w, key, executor, env))
  {
    hide Inv, Evaluate, ExecuteClose, TDiv, Accrued, AccruedMarket;
    if key in w.pm.positions && env.quote.Some? {
      FullCloseKeeps(w, key, env, Liquidation, Some(executor));
      RefreshKeeps(w, key.symbol, env);
    }
  }

  lemma DeleverageKeeps(w: World, key: PositionKey, env: Env)
    requires Inv(w) && env.Valid()
    ensures KeepsAll(w, DeleveragePosition(w, key, env))
  {
    hide Inv, Evaluate, ExecuteClose, TDiv, Accrued, AccruedMarket;
    if key in w.pm.positions && env.quote.Some? {
      FullCloseKeeps(w, key, env, Deleverage, None);
      RefreshKeeps(w, key.symbol, env);
    }
  }

  lemma ExecuteOrderKeeps(w: World, key: PositionKey, executor: nat, env: Env)
    requires Inv(w) && env.Valid()
    ensures KeepsAll(w, ExecuteOrder(w, key, executor, env))
  {
    hide Inv, Evaluate, ExecuteClose, TDiv, Accrued, AccruedMarket;
    if key in w.pm.positions && env.quote.Some? {
      FullCloseKeeps(w, key, env, OrderExecution, Some(executor));
      RefreshKeeps(w, key.symbol, env);
    }
  }

  // ----- Increase -----

  lemma IncreaseKeeps(w: World, o: Order, env: Env)
    requires Inv(w) && env.Valid()
    ensures Increase(w, o, env).Ok? ==> Inv(Increase(w, o, env).value)
  {
    hide Inv, OpenPosition, Accrued, AccruedMarket;
    if Increase(w, o, env).Ok? {
      RefreshKeeps(w, o.key.symbol, env);
      OpenKeeps(Refresh(w, o.key.symbol, env).value, o, ViewOf(w.funds), env.cfg);
    }
  }

  /** The utilization gate read on the snapshot before the open fee: a ratio below one
      leaves room for the new reservation next to the fee buffer. */
  lemma GateLeavesRoom(reserved: int, basis: int, maxUtilization: int)
    requires basis > 0 && maxUtilization < BPS
    requires UtilizationBps(reserved, basis) <= maxUtilization
    ensures reserved < basis
  {
    hide TDiv;
    TDivBelow(reserved * BPS, basis, BPS);
  }

  /** An open whose cap is below one and whose safe basis is positive keeps the vault
      solvent. The reservation check alone would not: it ignores the fee buffer. */
  lemma IncreaseKeepsSolvent(w: World, o: Order, env: Env)
    requires Inv(w) && env.Valid() && Solvent(w.funds)
    requires env.cfg.maxUtilization < BPS && SafeBasis(w.funds) > 0
    ensures Increase(w, o, env).Ok? ==> Solvent(Increase(w, o, env).value.funds)
  {
    hide Sum, UtilizationBps, OpenFunds, OpenFee, MarketAfterOpen, WeightedAverage, EscrowOwed, Accrued,
         AccruedMarket, Billing, Book;
    var result := Increase(w, o, env);
    if result.Ok? {
      var tick := Refresh(w, o.key.symbol, env).value;
      RefreshKeeps(w, o.key.symbol, env);
      GateLeavesRoom(w.funds.vault.reserved + o.size, SafeBasis(w.funds), env.cfg.maxUtilization);
      OpenFeeNonNegative(o.size, env.cfg);
      var escrowOwed := EscrowOwed(LookUp(w.pm.positions, o.key), o, env.cfg.tpSlExecutionFee);
      assert escrowOwed >= 0 by { EscrowOwedFacts(w, o, env.cfg.tpSlExecutionFee); }
      OpenNet(w.funds, o.key.trader, o.collateral, OpenFee(o.size, env.cfg.openFeeBps), escrowOwed, o.size, env.cfg);
    }
  }

  // ----- Orders and indices -----

  lemma EscrowDeltaNet(f: Funds, trader: nat, delta: int)
    requires BalancesNonNegative(f)
    ensures ApplyEscrowDelta(f, trader, delta).Ok? ==>
              var f' := ApplyEscrowDelta(f, trader, delta).value;
              && BalancesNonNegative(f') && f'.vault == f.vault && TotalAssets(f') == TotalAssets(f)
              && Balance(f', ManagerAccount) == Balance(f, ManagerAccount) + delta
  {
  }

  /** The escrow an order change leaves is charged only while an order is set. */
  lemma EscrowAfterOrders(pos: Position, takeProfit: int, stopLoss: int, fee: int)
    requires SoundPosition(pos) && takeProfit >= 0 && stopLoss >= 0 && fee >= 0
    ensures var delta := EscrowDelta(pos.escrow, takeProfit, stopLoss, fee);
            SoundPosition(pos.(escrow := pos.escrow + delta, takeProfit := takeProfit, stopLoss := stopLoss))
  {
  }

  lemma MoneyAfterOrders(w: World, f': Funds, key: PositionKey, pos': Position, delta: int)
    requires Money(w.funds, w.pm, w.history) && key in w.pm.positions
    requires var pos := w.pm.positions[key];
             && pos'.size == pos.size && pos'.collateral == pos.collateral && pos'.escrow == pos.escrow + delta
    requires BalancesNonNegative(f') && f'.vault == w.funds.vault && TotalAssets(f') == TotalAssets(w.funds)
    requires Balance(f', ManagerAccount) == Balance(w.funds, ManagerAccount) + delta
    ensures Money(f', w.pm.(positions := w.pm.positions[key := pos']),
                  w.history.(escrowCharged := w.history.escrowCharged + Max(0, delta),
                             escrowRefunded := w.history.escrowRefunded + Max(0, -delta)))
  {
    hide Sum;
    SumUpdate(w.pm.positions, SizeWeight, key, pos');
    SumUpdate(w.pm.positions, CustodyWeight, key, pos');
    SumUpdate(w.pm.positions, EscrowWeight, key, pos');
  }

  lemma SetTpSlKeeps(w: World, key: PositionKey, takeProfit: int, stopLoss: int, env: Env)
    requires Inv(w) && env.Valid()
    ensures KeepsAll(w, SetTpSl(w, key, takeProfit, stopLoss, env))
  {
    hide Sum, ApplyEscrowDelta, EscrowDelta, Billing, Money, MarketsSound, OiMatches, DriftBounded;
    var result := SetTpSl(w, key, takeProfit, stopLoss, env);
    if result.Ok? {
      var w' := result.value;
      var pos := w.pm.positions[key];
      var delta := EscrowDelta(pos.escrow, takeProfit, stopLoss, env.cfg.tpSlExecutionFee);
      EscrowAfterOrders(pos, takeProfit, stopLoss, env.cfg.tpSlExecutionFee);
      InvBalances(w);
      EscrowDeltaNet(w.funds, key.trader, delta);
      MoneyAfterOrders(w, w'.funds, key, w'.pm.positions[key], delta);
      BookAfterOrders(w.pm, w.history, w'.history, key, w'.pm.positions[key]);
      BillingFrame(w, w');
    }
  }

  /** Rewriting a position's orders and escrow leaves the book as it was. */
  lemma BookAfterOrders(pm: ManagerState, h: History, h': History, key: PositionKey, pos': Position)
    requires Book(pm, h) && key in pm.positions
    requires var pos := pm.positions[key];
             && pos' == pos.(escrow := pos'.escrow, takeProfit := pos'.takeProfit, stopLoss := pos'.stopLoss)
             && SoundPosition(pos')
    requires h'.trades == h.trades && h'.peakOi == h.peakOi && h'.leverageCap == h.leverageCap
    ensures Book(pm.(positions := pm.positions[key := pos']), h')
  {
    hide Sum;
    var positions' := pm.positions[key := pos'];
    forall side: Side
      ensures SideDriftBounded(positions', pm.markets, h', side)
      ensures SideOi(pm.markets, side) == Sum(positions', SideSize(side))
    {
      assert SideDriftBounded(pm.positions, pm.markets, h, side);
      assert SideOi(pm.markets, side) == Sum(pm.positions, SideSize(side));
      SumUpdate(pm.positions, SideSize(side), key, pos');
      SumUpdate(pm.positions, SideNotional(side), key, pos');
    }
  }

  lemma UpdateIndicesKeeps(w: World, symbol: Symbol, env: Env)
    requires Inv(w) && env.Valid()
    ensures KeepsAll(w, UpdateIndices(w, symbol, env))
  {
    hide Inv, Accrued, AccruedMarket, RefreshPnl;
    if UpdateIndices(w, symbol, env).Ok? {
      RefreshKeeps(w, symbol, env);
      var tick := Refresh(w, symbol, env).value;
      RefreshPnlKeeps(tick.world, symbol, tick.markPrice);
    }
  }

  // ----- Pause, settings and time -----

  lemma BookFrame(pm: ManagerState, pm': ManagerState, h: History, h': History)
    requires Book(pm, h)
    requires pm'.positions == pm.positions && pm'.markets == pm.markets && LeverageSound(pm'.maxLeverage)
    requires h'.trades == h.trades && h'.peakOi == h.peakOi && h'.leverageCap == h.leverageCap
    ensures Book(pm', h')
  {
    hide Sum, PositionsSound, MarketsSound, OiMatches;
    DriftFrame(pm.positions, pm.markets, h, h');
  }

  lemma PauseKeeps(w: World)
    requires Inv(w)
    ensures Inv(Pause(w)) && Inv(Unpause(w))
  {
    hide Sum, Book;
    BookFrame(w.pm, Pause(w).pm, w.history, w.history) by { InvLeverage(w); }
    BookFrame(w.pm, Unpause(w).pm, w.history, w.history) by { InvLeverage(w); }
  }

  lemma InvLeverage(w: World)
    requires Inv(w)
    ensures LeverageSound(w.pm.maxLeverage)
  {
  }

  lemma AdvanceTimeKeeps(w: World, seconds: nat)
    requires Inv(w)
    ensures Inv(AdvanceTime(w, seconds))
  {
    hide Sum, Book;
    var w' := AdvanceTime(w, seconds);
    BookFrame(w.pm, w'.pm, w.history, w'.history) by { InvLeverage(w); }
    var spans' := w'.history.pausedSpans;
    forall i, j | 0 <= i < |w.history.windows| && 0 <= j < |spans'|
      ensures Apart(w.history.windows[i], spans'[j])
    {
    }
  }

  lemma SettingsKeep(w: World, symbol: Symbol, maxLeverage: int, disabled: bool)
    requires Inv(w)
    ensures KeepsAll(w, SetMaxLeverage(w, symbol, maxLeverage))
    ensures Inv(SetMarketDisabled(w, symbol, disabled))
  {
    hide Sum, Book, Billing;
    InvLeverage(w);
    if SetMaxLeverage(w, symbol, maxLeverage).Ok? {
      BookFrame(w.pm, SetMaxLeverage(w, symbol, maxLeverage).value.pm, w.history, w.history);
      BillingFrame(w, SetMaxLeverage(w, symbol, maxLeverage).value);
    }
    BookFrame(w.pm, SetMarketDisabled(w, symbol, disabled).pm, w.history, w.history);
    BillingFrame(w, SetMarketDisabled(w, symbol, disabled));
  }

  lemma BillingFrame(w: World, w': World)
    requires Billing(w.now, w.pm, w.history)
    requires w'.now == w.now && w'.pm.markets == w.pm.markets && w'.pm.paused == w.pm.paused
    requires w'.pm.lastPause == w.pm.lastPause && w'.pm.lastUnpause == w.pm.lastUnpause
    requires w'.history.windows == w.history.windows && w'.history.pausedSpans == w.history.pausedSpans
    ensures Billing(w'.now, w'.pm, w'.history)
  {
  }

  // ----- Liquidity providers, fee claims and gifts -----

  /** Dollars that enter or leave the vault together with their history counters. */
  lemma MoneyMoved(w: World, f': Funds, h': History)
    requires Inv(w)
    requires BalancesNonNegative(f') && f'.vault.unclaimedFees >= 0
    requires f'.vault.reserved == w.funds.vault.reserved && f'.vault.netTraderPnl == w.funds.vault.netTraderPnl
    requires h'.donatedToManager >= 0
    requires Balance(f', ManagerAccount) - h'.donatedToManager
             == Balance(w.funds, ManagerAccount) - w.history.donatedToManager
    requires h' == w.history.(deposits := h'.deposits, withdrawals := h'.withdrawals, claimedFees := h'.claimedFees,
                              donatedToVault := h'.donatedToVault, donatedToManager := h'.donatedToManager)
    requires TotalAssets(f') - TotalAssets(w.funds)
             == (h'.deposits - w.history.deposits) - (h'.withdrawals - w.history.withdrawals)
                + (h'.donatedToVault - w.history.donatedToVault) - (h'.claimedFees - w.history.claimedFees)
    ensures Inv(w.(funds := f', history := h'))
  {
    hide Sum, Book, Billing;
    InvLeverage(w);
    BookFrame(w.pm, w.pm, w.history, h');
    BillingFrame(w, w.(funds := f', history := h'));
  }

  lemma DepositKeeps(w: World, user: nat, assets: int, cfg: Config)
    requires Inv(w)
    ensures KeepsAll(w, DepositLiquidity(w, user, assets, cfg))
  {
    hide Inv, Transfer;
    InvBalances(w);
    var result := DepositLiquidity(w, user, assets, cfg);
    if result.Ok? {
      TransferNet(RecordLockup(w.funds, user, w.now, cfg.cooldown), User(user), VaultAccount, assets);
      MoneyMoved(w, result.value.funds, result.value.history);
    }
  }

  lemma InvBalances(w: World)
    requires Inv(w)
    ensures BalancesNonNegative(w.funds) && w.funds.vault.unclaimedFees >= 0 && w.funds.vault.reserved >= 0
    ensures w.history.donatedToManager >= 0
  {
    hide Sum, Book, Billing;
    ReservedNonNegative(w);
  }

  /** A transfer from the vault to anyone, itself included. */
  lemma PaidOut(f: Funds, to: Address, amount: int)
    requires BalancesNonNegative(f)
    ensures Transfer(f, VaultAccount, to, amount).Ok? ==>
              var f' := Transfer(f, VaultAccount, to, amount).value;
              && BalancesNonNegative(f') && f'.vault == f.vault && amount >= 0
              && TotalAssets(f') == TotalAssets(f) - (if to == VaultAccount then 0 else amount)
              && Balance(f', ManagerAccount)
                 == Balance(f, ManagerAccount) + (if to == ManagerAccount then amount else 0)
              && (forall u: nat :: Balance(f', User(u)) == Balance(f, User(u)) + (if to == User(u) then amount else 0))
  {
    hide Transfer, BalancesNonNegative;
    TransferAccepts(f, VaultAccount, to, amount);
    if to == VaultAccount {
      SelfTransfer(f, VaultAccount, amount);
    } else {
      TransferNet(f, VaultAccount, to, amount);
    }
  }

  lemma WithdrawKeeps(w: World, owner: nat, receiver: Address, assets: int)
    requires Inv(w)
    ensures KeepsAll(w, WithdrawLiquidity(w, owner, receiver, assets))
  {
    hide Inv, Transfer;
    InvBalances(w);
    var result := WithdrawLiquidity(w, owner, receiver, assets);
    if result.Ok? {
      PaidOut(w.funds, receiver, assets);
      MoneyMoved(w, result.value.funds, result.value.history);
    }
  }

  lemma ClaimSomeKeeps(w: World, recipient: Address, amount: int)
    requires Inv(w)
    ensures KeepsAll(w, ClaimSomeFees(w, recipient, amount))
  {
    hide Inv, Transfer;
    InvBalances(w);
    var result := ClaimSomeFees(w, recipient, amount);
    if result.Ok? {
      PaidOut(w.funds, recipient, amount);
      MoneyMoved(w, result.value.funds, result.value.history);
    }
  }

  /** The administrator's claim is the claim of the whole buffer. */
  lemma ClaimAllIsClaimOfAll(w: World, recipient: Address)
    ensures w.funds.vault.unclaimedFees > 0 ==>
              ClaimAllFees(w, recipient) == ClaimSomeFees(w, recipient, w.funds.vault.unclaimedFees)
    ensures w.funds.vault.unclaimedFees <= 0 ==> ClaimAllFees(w, recipient).Err?
  {
  }

  lemma SharesAndVaultPauseKeep(w: World, from: nat, to: nat, paused: bool)
    requires Inv(w)
    ensures KeepsAll(w, Ok(TransferShares(w, from, to)))
    ensures KeepsAll(w, Ok(SetVaultPaused(w, paused)))
  {
    hide Inv;
    InvBalances(w);
    MoneyMoved(w, TransferShares(w, from, to).funds, w.history);
    MoneyMoved(w, SetVaultPaused(w, paused).funds, w.history);
  }

  lemma UserTransferKeeps(w: World, from: nat, to: Address, amount: int)
    requires Inv(w)
    ensures KeepsAll(w, UserTransfer(w, from, to, amount))
  {
    hide Inv, Transfer;
    InvBalances(w);
    var result := UserTransfer(w, from, to, amount);
    if result.Ok? {
      if to == User(from) {
        SelfTransfer(w.funds, User(from), amount);
      } else {
        TransferNet(w.funds, User(from), to, amount);
        TransferAccepts(w.funds, User(from), to, amount);
      }
      MoneyMoved(w, result.value.funds, result.value.history);
    }
  }

  lemma TransferAccepts(f: Funds, from: Address, to: Address, amount: int)
    ensures Transfer(f, from, to, amount).Ok? ==> amount >= 0
  {
  }

  lemma SelfTransfer(f: Funds, a: Address, amount: int)
    requires BalancesNonNegative(f)
    ensures Transfer(f, a, a, amount).Ok? ==>
              var f' := Transfer(f, a, a, amount).value;
              && BalancesNonNegative(f') && f'.vault == f.vault
              && forall b :: Balance(f', b) == Balance(f, b)
  {
  }

  // ----- Any call -----

  /** Whatever is called, and whether or not it reverts, the invariant survives. */
  lemma StepKeeps(w: World, a: Action)
    requires Inv(w) && a.Valid()
    ensures Inv(Step(w, a))
    ensures Solvent(w.funds) && !a.DoIncrease? ==> Solvent(Step(w, a).funds)
  {
    hide Inv, Increase, Decrease, Liquidate, DeleveragePosition, ExecuteOrder, SetTpSl, UpdateIndices, SetMaxLeverage,
         DepositLiquidity, WithdrawLiquidity, ClaimAllFees, ClaimSomeFees, UserTransfer, TransferShares;
    match a
    case DoIncrease(order, env) => IncreaseKeeps(w, order, env);
    case DoDecrease(key, sizeDelta, acceptable, env) => DecreaseKeeps(w, key, sizeDelta, acceptable, env);
    case DoLiquidate(key, executor, env) => LiquidateKeeps(w, key, executor, env);
    case DoDeleverage(key, env) => DeleverageKeeps(w, key, env);
    case DoExecuteOrder(key, executor, env) => ExecuteOrderKeeps(w, key, executor, env);
    case DoSetTpSl(key, takeProfit, stopLoss, env) => SetTpSlKeeps(w, key, takeProfit, stopLoss, env);
    case DoUpdateIndices(symbol, env) => UpdateIndicesKeeps(w, symbol, env);
    case DoPause => PauseKeeps(w);
    case DoUnpause => PauseKeeps(w);
    case DoSetMaxLeverage(symbol, maxLeverage) => SettingsKeep(w, symbol, maxLeverage, false);
    case DoSetMarketDisabled(symbol, disabled) => SettingsKeep(w, symbol, 0, disabled);
    case DoAdvanceTime(seconds) => AdvanceTimeKeeps(w, seconds);
    case DoDeposit(user, assets, env) => DepositKeeps(w, user, assets, env.cfg);
    case DoWithdraw(owner, receiver, assets) => WithdrawKeeps(w, owner, receiver, assets);
    case DoClaimFees(recipient) =>
      ClaimAllIsClaimOfAll(w, recipient);
      ClaimSomeKeeps(w, recipient, w.funds.vault.unclaimedFees);
    case DoClaimFeesTo(recipient, amount) => ClaimSomeKeeps(w, recipient, amount);
    case DoTransferShares(from, to) => SharesAndVaultPauseKeep(w, from, to, false);
    case DoSetVaultPaused(paused) => SharesAndVaultPauseKeep(w, 0, 0, paused);
    case DoUserTransfer(from, to, amount) => UserTransferKeeps(w, from, to, amount);
  }
}
