/** How tight the solvency gate is: exactly when an accepted open keeps the vault solvent,
    and reachable vaults in which one does not. */
module SolvencyGate {
  import opened FixedPoint
  import opened Types
  import opened RiskMath
  import opened FundingRates
  import opened VaultLedger
  import opened Ledger
  import opened Settlement
  import opened Invariants
  import opened Steps
  import opened Entrypoints
  import opened Runs
  import opened Guarantees
  import opened Scenarios

  // ----- One open -----

  /** What of an open fee goes to the fee buffer. */
  function TaggedSlice(fee: int, cfg: Config): int {
    if fee <= 0 then 0 else Max(0, NonLpSlice(fee, cfg))
  }

  lemma TaggedSliceExact(fee: int, cfg: Config)
    requires cfg.Valid()
    ensures Tags(fee, cfg, TaggedSlice(fee, cfg))
  {
    hide TDiv;
    if fee > 0 {
      SliceBounds(fee, cfg);
      TDivBounds(fee * (cfg.devBps + cfg.stakerBps), BPS);
    }
  }

  lemma OpenTags(f: Funds, trader: nat, collateral: int, openFee: int, escrowOwed: int, size: int, cfg: Config)
    requires cfg.Valid() && BalancesNonNegative(f)
    requires collateral >= 0 && openFee >= 0 && escrowOwed >= 0
    ensures OpenFunds(f, trader, collateral, openFee, escrowOwed, size, cfg).Ok? ==>
              OpenFunds(f, trader, collateral, openFee, escrowOwed, size, cfg).value.vault.unclaimedFees
              == f.vault.unclaimedFees + TaggedSlice(openFee, cfg)
  {
    hide NonLpSlice, Balance;
  }

  /** What an open has to be paid from: the trader holds collateral, fee and escrow, the
      vault can tag its slice of the fee, and the reservation fits the vault. */
  predicate OpenPayable(f: Funds, trader: nat, collateral: int, fee: int, escrow: int, size: int, cfg: Config) {
    && collateral + fee + escrow <= Balance(f, User(trader))
    && (TaggedSlice(fee, cfg) == 0
        || f.vault.reserved + f.vault.unclaimedFees + TaggedSlice(fee, cfg) <= TotalAssets(f) + fee)
    && f.vault.reserved + size <= TotalAssets(f) + fee
  }

  lemma FundsOpenIff(f: Funds, trader: nat, collateral: int, fee: int, escrow: int, size: int, cfg: Config)
    requires cfg.Valid() && BalancesNonNegative(f)
    requires collateral >= 0 && fee >= 0 && escrow >= 0 && size > 0
    ensures OpenFunds(f, trader, collateral, fee, escrow, size, cfg).Ok?
            <==> OpenPayable(f, trader, collateral, fee, escrow, size, cfg)
  {
    hide NonLpSlice, ResliceRevenue;
    var owed := collateral + fee + escrow;
    TransferNet(f, User(trader), ManagerAccount, owed);
    if owed <= Balance(f, User(trader)) {
      var paid := Transfer(f, User(trader), ManagerAccount, owed).value;
      TransferNet(paid, ManagerAccount, VaultAccount, fee);
      if fee > 0 {
        ResliceNet(Transfer(paid, ManagerAccount, VaultAccount, fee).value, fee, cfg);
      }
    }
  }

  /** An increase that gets past its guards succeeds exactly when it can be paid. */
  lemma OpenSettlesIff(w: World, o: Order, env: Env)
    requires Inv(w) && env.Valid() && PassesGates(Increase(w, o, env))
    ensures Increase(w, o, env).Ok?
            <==> OpenPayable(w.funds, o.key.trader, o.collateral, OpenFee(o.size, env.cfg.openFeeBps),
                             EscrowOwed(LookUp(w.pm.positions, o.key), o, env.cfg.tpSlExecutionFee), o.size, env.cfg)
  {
    hide Inv, OpenFunds, OpenFee, MarketAfterOpen, IncreasedPosition, EscrowOwed, AccruedMarket, BillingStart,
         BillingEnd, UtilizationBps, MarketUnrealizedPnl, Traded, OpenPayable, LookUp, BalancesNonNegative, ViewOf;
    InvBalances(w);
    OpenFeeNonNegative(o.size, env.cfg);
    var escrowOwed := EscrowOwed(LookUp(w.pm.positions, o.key), o, env.cfg.tpSlExecutionFee);
    assert escrowOwed >= 0 by { EscrowOwedFacts(w, o, env.cfg.tpSlExecutionFee); }
    FundsOpenIff(w.funds, o.key.trader, o.collateral, OpenFee(o.size, env.cfg.openFeeBps), escrowOwed, o.size, env.cfg);
  }

  /** Under any cap, an accepted open of a solvent vault leaves it solvent exactly when the
      reservation fits what the safe basis and the liquidity providers' part of the fee
      cover. */
  lemma OpenSolvencyExact(w: World, o: Order, env: Env)
    requires Inv(w) && env.Valid() && Solvent(w.funds) && Increase(w, o, env).Ok?
    ensures var fee := OpenFee(o.size, env.cfg.openFeeBps);
            Solvent(Increase(w, o, env).value.funds)
            <==> w.funds.vault.reserved + o.size <= SafeBasis(w.funds) + fee - TaggedSlice(fee, env.cfg)
  {
    hide Inv, OpenFunds, OpenFee, MarketAfterOpen, IncreasedPosition, EscrowOwed, AccruedMarket, BillingStart,
         BillingEnd, UtilizationBps, MarketUnrealizedPnl, Traded, TaggedSlice, LookUp, BalancesNonNegative, ViewOf;
    InvBalances(w);
    OpenFeeNonNegative(o.size, env.cfg);
    var escrowOwed := EscrowOwed(LookUp(w.pm.positions, o.key), o, env.cfg.tpSlExecutionFee);
    assert escrowOwed >= 0 by { EscrowOwedFacts(w, o, env.cfg.tpSlExecutionFee); }
    OpenNet(w.funds, o.key.trader, o.collateral, OpenFee(o.size, env.cfg.openFeeBps), escrowOwed, o.size, env.cfg);
    OpenTags(w.funds, o.key.trader, o.collateral, OpenFee(o.size, env.cfg.openFeeBps), escrowOwed, o.size, env.cfg);
  }

  lemma FeeBelowSize(size: int, cfg: Config)
    requires cfg.Valid() && size > 0
    ensures 0 <= OpenFee(size, cfg.openFeeBps) < size && TaggedSlice(OpenFee(size, cfg.openFeeBps), cfg) >= 0
  {
    hide TDiv, NonLpSlice;
    MulLe(0, cfg.openFeeBps, size);
    MulLe(cfg.openFeeBps, 100, size);
    TDivBounds(size * cfg.openFeeBps, BPS);
  }

  /** With an empty safe basis the utilization figure is zero and the gate is open, but
      every open it lets through breaks solvency; with a positive basis and a cap below one
      none does. */
  lemma OpenKeepsSolventIff(w: World, o: Order, env: Env)
    requires Inv(w) && env.Valid() && Solvent(w.funds) && Increase(w, o, env).Ok?
    requires SafeBasis(w.funds) == 0 || env.cfg.maxUtilization < BPS
    ensures Solvent(Increase(w, o, env).value.funds) <==> SafeBasis(w.funds) > 0
  {
    hide Inv, Increase, OpenFee, TaggedSlice;
    if SafeBasis(w.funds) > 0 {
      IncreaseKeepsSolvent(w, o, env);
    } else {
      assert o.size > 0 by { AcceptedSize(w, o, env); }
      OpenSolvencyExact(w, o, env);
      FeeBelowSize(o.size, env.cfg);
      InvBalances(w);
    }
  }

  lemma AcceptedSize(w: World, o: Order, env: Env)
    requires Increase(w, o, env).Ok?
    ensures o.size > 0
  {
    hide OpenPosition;
  }

  // ----- Every open under a configuration -----

  /** Every accepted open from a reachable solvent state with a positive safe basis keeps
      the vault solvent. */
  ghost predicate OpensKeepSolvency(cfg: Config) {
    forall w: World, o: Order, price: int ::
      Reachable(w) && Solvent(w.funds) && SafeBasis(w.funds) > 0 && price > 0
      && Increase(w, o, Env(cfg, Some(price))).Ok?
      ==> Solvent(Increase(w, o, Env(cfg, Some(price))).value.funds)
  }

  /** The smallest collateral already overflows the leverage product: nothing can open. */
  predicate NothingCanOpen(cfg: Config) {
    cfg.minCollateral * 2 > I128_MAX
  }

  lemma NothingOpens(w: World, o: Order, env: Env)
    requires Inv(w) && env.Valid() && NothingCanOpen(env.cfg)
    ensures Increase(w, o, env).Err?
  {
    hide Inv, Increase;
    IncreaseGates(w, o, env);
    InvLeverage(w);
    if o.key.symbol in w.pm.maxLeverage && o.collateral >= env.cfg.minCollateral {
      if o.key in w.pm.positions {
        CloseFactsOf(w, o.key);
      }
      var prior := LookUp(w.pm.positions, o.key);
      var collateral := o.collateral + if prior.Some? then prior.value.collateral else 0;
      MulLe(2, w.pm.maxLeverage[o.key.symbol], collateral);
    }
  }

  /** A small order of a third user, at the smallest accepted collateral. */
  function SmallOrder(cfg: Config): Order {
    Order(PositionKey(2, MARKET), 1, cfg.minCollateral, true, 0, 0, 0)
  }

  lemma SmallFormulas(size: nat, cfg: Config)
    requires cfg.Valid() && size >= 20_000
    ensures OpenFee(1, cfg.openFeeBps) == 0
    ensures UtilizationBps(size + 1, size) == BPS
  {
    hide TDiv;
    TDivUnique(1 * cfg.openFeeBps, BPS, 0);
    TDivUnique((size + 1) * BPS, size, BPS);
  }

  lemma SmallProducts(w: World, cfg: Config)
    requires cfg.Valid() && !NothingCanOpen(cfg)
    requires MARKET in w.pm.maxLeverage && w.pm.maxLeverage[MARKET] == 2 && !w.pm.paused
    requires var m := MarketOf(w, MARKET); m.lastIndexUpdate == w.now && 0 <= m.longOi <= MODEST && 0 <= m.longAvg <= 1
    requires 0 <= w.funds.vault.reserved <= MODEST && 0 <= Balance(w.funds, ManagerAccount) <= MODEST
    ensures RefreshProductsFit(w, MARKET, cfg) && OpenProductsFit(w, SmallOrder(cfg), 1, cfg)
  {
    hide Balance, UtilizationBps, BorrowRate, FundingRate, MarketOf;
    MulLe(0, MarketOf(w, MARKET).longOi, MarketOf(w, MARKET).longAvg);
    MulLe(MarketOf(w, MARKET).longAvg, 1, MarketOf(w, MARKET).longOi);
  }

  /** A vault of `size` dollars, all reserved by one position, next to the fees of its open:
      under a cap of one the small order goes through and reserves a dollar that is owed as
      fees. */
  lemma FullVaultBreaks(cfg: Config, size: nat)
    requires cfg.Valid() && cfg.maxUtilization == BPS && !NothingCanOpen(cfg)
    requires 20_000 <= size <= MODEST
    ensures var w := Opened(size, cfg.minCollateral);
            var result := Increase(w, SmallOrder(cfg), Env(cfg, Some(1)));
            && Reachable(w) && Solvent(w.funds) && SafeBasis(w.funds) == size
            && result.Ok? && !Solvent(result.value.funds)
            && RefreshProductsFit(w, MARKET, cfg) && OpenProductsFit(w, SmallOrder(cfg), 1, cfg)
  {
    hide MarketUnrealizedPnl, WeightedAverage, TDiv, FundingRate, BorrowRate, Reachable, OpenFee, UtilizationBps,
         RefreshProductsFit, OpenProductsFit;
    var w, o := Opened(size, cfg.minCollateral), SmallOrder(cfg);
    OpenedReachable(size, cfg.minCollateral);
    SmallFormulas(size, cfg);
    NothingToBill(w, MARKET, cfg);
    SmallProducts(w, cfg);
  }

  /** The utilization gate protects solvency exactly when its cap is below one, or no open
      is possible at all. */
  lemma SolvencyGateExact(cfg: Config)
    requires cfg.Valid()
    ensures OpensKeepSolvency(cfg) <==> cfg.maxUtilization < BPS || NothingCanOpen(cfg)
  {
    hide Inv, Increase, Solvent, SafeBasis, Reachable, NothingCanOpen;
    if cfg.maxUtilization < BPS || NothingCanOpen(cfg) {
      forall w: World, o: Order, price: int |
        Reachable(w) && Solvent(w.funds) && SafeBasis(w.funds) > 0 && price > 0
        && Increase(w, o, Env(cfg, Some(price))).Ok?
        ensures Solvent(Increase(w, o, Env(cfg, Some(price))).value.funds)
      {
        ReachableInv(w);
        if NothingCanOpen(cfg) {
          NothingOpens(w, o, Env(cfg, Some(price)));
        } else {
          IncreaseKeepsSolvent(w, o, Env(cfg, Some(price)));
        }
      }
    } else {
      FullVaultBreaks(cfg, 20_000);
    }
  }

  /** A reachable vault that holds nothing but unclaimed fees accepts an open under every
      configuration under which one is possible, and becomes insolvent. */
  lemma EmptyBasisBreaksSolvency(cfg: Config, size: nat)
    requires cfg.Valid() && !NothingCanOpen(cfg)
    requires 20_000 <= size <= MODEST
    ensures var w := Drained(size, cfg.minCollateral);
            var result := Increase(w, SmallOrder(cfg), Env(cfg, Some(1)));
            && Reachable(w) && Solvent(w.funds) && SafeBasis(w.funds) == 0
            && result.Ok? && !Solvent(result.value.funds)
            && RefreshProductsFit(w, MARKET, cfg) && OpenProductsFit(w, SmallOrder(cfg), 1, cfg)
  {
    hide MarketUnrealizedPnl, WeightedAverage, TDiv, FundingRate, BorrowRate, Reachable, OpenFee, RefreshProductsFit,
         OpenProductsFit;
    var w, o := Drained(size, cfg.minCollateral), SmallOrder(cfg);
    DrainedReachable(size, cfg.minCollateral);
    SmallFormulas(size, cfg);
    NothingToBill(w, MARKET, cfg);
    SmallProducts(w, cfg);
  }
}
