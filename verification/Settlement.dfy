/** What the payments of a close and of an open add up to. The contracts make them one
    transfer and one vault call at a time; these lemmas give the net effect. */
module Settlement {
  import opened FixedPoint
  import opened Types
  import opened RiskMath
  import opened Evaluations
  import opened VaultLedger
  import opened Ledger

  predicate BalancesNonNegative(f: Funds) {
    forall a :: a in f.balances ==> f.balances[a] >= 0
  }

  /** Every reserved dollar and every unclaimed fee is backed by a dollar in the vault. */
  predicate Solvent(f: Funds) {
    f.vault.reserved + f.vault.unclaimedFees <= TotalAssets(f)
  }

  lemma SliceBounds(amount: int, cfg: Config)
    requires amount >= 0 && cfg.Valid()
    ensures 0 <= NonLpSlice(amount, cfg) <= amount
  {
    ShareBounds(amount, cfg.devBps + cfg.stakerBps);
  }

  lemma TransferNet(f: Funds, from: Address, to: Address, amount: int)
    requires BalancesNonNegative(f) && from != to
    ensures Transfer(f, from, to, amount).Ok? <==> 0 <= amount <= Balance(f, from)
    ensures Transfer(f, from, to, amount).Ok? ==>
              var f' := Transfer(f, from, to, amount).value;
              && BalancesNonNegative(f') && f'.vault == f.vault
              && Balance(f', from) == Balance(f, from) - amount
              && Balance(f', to) == Balance(f, to) + amount
              && (forall a :: a != from && a != to ==> Balance(f', a) == Balance(f, a))
  {
  }

  /** Fees retagged inside the vault: only the fee counter moves, and only while the
      vault stays solvent. */
  lemma ResliceNet(f: Funds, amount: int, cfg: Config)
    requires cfg.Valid()
    ensures var slice := if amount <= 0 then 0 else NonLpSlice(amount, cfg);
            && 0 <= slice
            && (ResliceRevenue(f, amount, cfg).Ok? <==>
                  slice == 0 || Solvent(f.(vault := f.vault.(unclaimedFees := f.vault.unclaimedFees + slice))))
            && (ResliceRevenue(f, amount, cfg).Ok? ==>
                  var f' := ResliceRevenue(f, amount, cfg).value;
                  && f' == f.(vault := f.vault.(unclaimedFees := f.vault.unclaimedFees + slice))
                  && TotalAssets(f') == TotalAssets(f) && (forall a :: Balance(f', a) == Balance(f, a))
                  && (BalancesNonNegative(f) ==> BalancesNonNegative(f'))
                  && (Solvent(f) ==> Solvent(f')))
  {
  }

  /** Dollars moved from the manager into the vault raise total assets by the whole
      amount and the fee counter by no more. */
  lemma ReceiveNet(f: Funds, amount: int, cfg: Config)
    requires cfg.Valid() && BalancesNonNegative(f) && amount >= 0
    ensures ReceiveRevenue(f, amount, cfg).Ok? ==>
              var f' := ReceiveRevenue(f, amount, cfg).value;
              && BalancesNonNegative(f')
              && Balance(f', ManagerAccount) == Balance(f, ManagerAccount) - amount
              && TotalAssets(f') == TotalAssets(f) + amount
              && (forall u: nat :: Balance(f', User(u)) == Balance(f, User(u)))
              && f.vault.unclaimedFees <= f'.vault.unclaimedFees <= f.vault.unclaimedFees + amount
              && f'.vault == f.vault.(unclaimedFees := f'.vault.unclaimedFees)
              && (Solvent(f) ==> Solvent(f'))
    ensures Solvent(f) && amount <= Balance(f, ManagerAccount) ==> ReceiveRevenue(f, amount, cfg).Ok?
  {
    hide NonLpSlice;
    if 0 < amount {
      TransferNet(f, ManagerAccount, VaultAccount, amount);
      if amount <= Balance(f, ManagerAccount) {
        var f1 := Transfer(f, ManagerAccount, VaultAccount, amount).value;
        ResliceNet(f1, amount, cfg);
        SliceBounds(amount, cfg);
      }
    }
  }

  /** Funds as a close leaves them once reservation, collateral, bounty and retagged fees
      are settled, before the escrow. */
  ghost predicate CollateralSettled(f: Funds, f': Funds, trader: nat, executor: Option<nat>, sizeDelta: int,
                              collateralDelta: int, r: Routing)
  {
    var bounty := Max(0, r.bounty);
    && BalancesNonNegative(f')
    && f'.vault == f.vault.(reserved := f.vault.reserved - sizeDelta, unclaimedFees := f'.vault.unclaimedFees)
    && f.vault.unclaimedFees <= f'.vault.unclaimedFees
    && Balance(f', ManagerAccount) == Balance(f, ManagerAccount) - collateralDelta
    && TotalAssets(f') == TotalAssets(f) + collateralDelta - r.payout - bounty
    && (forall u: nat :: Balance(f', User(u)) == Balance(f, User(u))
          + (if u == trader then r.payout else 0)
          + (if executor == Some(u) then bounty else 0))
  }

  /** The first steps of `SettleFunds`: those between the trader and the vault. */
  function SettleWithVault(f: Funds, trader: nat, sizeDelta: int, r: Routing): Result<Funds> {
    var f1 :- if sizeDelta > 0 then ReleaseLiquidity(f, sizeDelta) else Ok(f);
    var f2 :- if r.vaultToTrader > 0 then PayProfit(f1, trader, r.vaultToTrader) else Ok(f1);
    Absorb(f2, r.absorbed)
  }

  /** The settlement of `SettleFunds` up to, and without, the escrow. */
  function SettleCollateral(f: Funds, trader: nat, sizeDelta: int, r: Routing, executor: Option<nat>,
                            cfg: Config): Result<Funds>
  {
    var f3 :- SettleWithVault(f, trader, sizeDelta, r);
    var f4 :- TransferIfPositive(f3, ManagerAccount, User(trader), r.managerToTrader);
    var f5 :- PayBounty(f4, executor, r.bounty);
    ResliceRevenue(f5, r.taggedFees, cfg)
  }

  /** A routing that splits the collateral slice exactly: what the trader does not get
      back is the bounty plus what the vault absorbs. */
  predicate Balanced(r: Routing, collateralDelta: int, executor: Option<nat>) {
    && 0 <= r.payout
    && r.vaultToTrader == r.payout - collateralDelta
    && r.managerToTrader == Min(r.payout, collateralDelta)
    && r.absorbed == collateralDelta - r.payout - r.bounty
    && (r.payout <= collateralDelta ==> 0 <= r.bounty <= collateralDelta - r.payout)
    && (r.payout > collateralDelta ==> r.absorbed <= 0 && r.bounty <= 0)
    && (executor.None? ==> r.bounty == 0)
  }

  lemma RouteBalanced(ev: Evaluation, collateralDelta: int, kind: CloseKind, executor: Option<nat>, cfg: Config)
    requires cfg.Valid() && collateralDelta >= 0
    requires kind == Liquidation ==> executor.Some?
    ensures Balanced(Route(ev, collateralDelta, kind, cfg), collateralDelta, executor)
    ensures Route(ev, collateralDelta, kind, cfg).payout == Max(0, ev.effectiveHealth)
    ensures kind != Liquidation ==> Route(ev, collateralDelta, kind, cfg).bounty == 0
  {
  }

  lemma PayProfitNet(f: Funds, trader: nat, amount: int)
    requires BalancesNonNegative(f)
    ensures PayProfit(f, trader, amount).Ok? ==>
              var f' := PayProfit(f, trader, amount).value;
              && BalancesNonNegative(f') && f'.vault == f.vault && amount > 0
              && TotalAssets(f') == TotalAssets(f) - amount
              && Balance(f', ManagerAccount) == Balance(f, ManagerAccount)
              && (forall u: nat :: Balance(f', User(u)) == Balance(f, User(u)) + (if u == trader then amount else 0))
              && (Solvent(f) ==> Solvent(f'))
  {
  }

  lemma AbsorbNet(f: Funds, amount: int)
    requires BalancesNonNegative(f)
    ensures Absorb(f, amount).Ok? ==>
              var f' := Absorb(f, amount).value;
              && BalancesNonNegative(f') && f'.vault == f.vault
              && TotalAssets(f') == TotalAssets(f) + Max(0, amount)
              && Balance(f', ManagerAccount) == Balance(f, ManagerAccount) - Max(0, amount)
              && (forall u: nat :: Balance(f', User(u)) == Balance(f, User(u)))
              && (Solvent(f) ==> Solvent(f'))
    ensures amount <= Balance(f, ManagerAccount) ==> Absorb(f, amount).Ok?
  {
  }

  lemma PayOutNet(f: Funds, user: nat, amount: int)
    requires BalancesNonNegative(f)
    ensures TransferIfPositive(f, ManagerAccount, User(user), amount).Ok? ==>
              var f' := TransferIfPositive(f, ManagerAccount, User(user), amount).value;
              && BalancesNonNegative(f') && f'.vault == f.vault
              && TotalAssets(f') == TotalAssets(f)
              && Balance(f', ManagerAccount) == Balance(f, ManagerAccount) - Max(0, amount)
              && (forall u: nat :: Balance(f', User(u)) == Balance(f, User(u))
                    + (if u == user then Max(0, amount) else 0))
    ensures amount <= Balance(f, ManagerAccount) ==> TransferIfPositive(f, ManagerAccount, User(user), amount).Ok?
  {
  }

  lemma PayBountyNet(f: Funds, executor: Option<nat>, bounty: int)
    requires BalancesNonNegative(f) && (executor.None? ==> bounty == 0)
    ensures PayBounty(f, executor, bounty).Ok? ==>
              var f' := PayBounty(f, executor, bounty).value;
              && BalancesNonNegative(f') && f'.vault == f.vault
              && TotalAssets(f') == TotalAssets(f)
              && Balance(f', ManagerAccount) == Balance(f, ManagerAccount) - Max(0, bounty)
              && (forall u: nat :: Balance(f', User(u)) == Balance(f, User(u))
                    + (if executor == Some(u) then Max(0, bounty) else 0))
    ensures bounty <= Balance(f, ManagerAccount) ==> PayBounty(f, executor, bounty).Ok?
  {
  }

  lemma VaultSideNet(f: Funds, trader: nat, sizeDelta: int, r: Routing)
    requires BalancesNonNegative(f) && sizeDelta > 0
    ensures SettleWithVault(f, trader, sizeDelta, r).Ok? ==>
              var f' := SettleWithVault(f, trader, sizeDelta, r).value;
              && BalancesNonNegative(f')
              && f'.vault == f.vault.(reserved := f.vault.reserved - sizeDelta)
              && TotalAssets(f') == TotalAssets(f) - Max(0, r.vaultToTrader) + Max(0, r.absorbed)
              && Balance(f', ManagerAccount) == Balance(f, ManagerAccount) - Max(0, r.absorbed)
              && (forall u: nat :: Balance(f', User(u)) == Balance(f, User(u))
                    + (if u == trader then Max(0, r.vaultToTrader) else 0))
              && (Solvent(f) ==> Solvent(f'))
  {
    hide PayProfit, Absorb;
    var result := SettleWithVault(f, trader, sizeDelta, r);
    if result.Ok? {
      var f1 := ReleaseLiquidity(f, sizeDelta).value;
      PayProfitNet(f1, trader, r.vaultToTrader);
      AbsorbNet(if r.vaultToTrader > 0 then PayProfit(f1, trader, r.vaultToTrader).value else f1, r.absorbed);
    }
  }

  lemma CollateralNet(f: Funds, trader: nat, sizeDelta: int, collateralDelta: int, r: Routing,
                      executor: Option<nat>, cfg: Config)
    requires cfg.Valid() && BalancesNonNegative(f)
    requires sizeDelta > 0 && collateralDelta >= 0 && Balanced(r, collateralDelta, executor)
    ensures SettleCollateral(f, trader, sizeDelta, r, executor, cfg).Ok? ==>
              var f' := SettleCollateral(f, trader, sizeDelta, r, executor, cfg).value;
              && CollateralSettled(f, f', trader, executor, sizeDelta, collateralDelta, r)
              && (Solvent(f) ==> Solvent(f'))
  {
    hide NonLpSlice, SettleWithVault, TransferIfPositive, PayBounty, ResliceRevenue, Balance, TotalAssets,
         BalancesNonNegative;
    var result := SettleCollateral(f, trader, sizeDelta, r, executor, cfg);
    if result.Ok? {
      VaultSideNet(f, trader, sizeDelta, r);
      var f3 := SettleWithVault(f, trader, sizeDelta, r).value;
      PayOutNet(f3, trader, r.managerToTrader);
      var f4 := TransferIfPositive(f3, ManagerAccount, User(trader), r.managerToTrader).value;
      PayBountyNet(f4, executor, r.bounty);
      ResliceNet(PayBounty(f4, executor, r.bounty).value, r.taggedFees, cfg);
    }
  }

  /** What leaves the escrow at a close, and for whom. */
  function EscrowReleased(kind: CloseKind, escrow: int, isPartial: bool): int {
    if kind == UserClose && isPartial then 0 else escrow
  }

  lemma EscrowNet(f: Funds, trader: nat, kind: CloseKind, escrow: int, executor: Option<nat>,
                  isPartial: bool, cfg: Config)
    requires cfg.Valid() && BalancesNonNegative(f) && escrow >= 0
    requires kind == OrderExecution ==> executor.Some?
    ensures SettleEscrow(f, trader, kind, escrow, executor, isPartial, cfg).Ok? ==>
              var f' := SettleEscrow(f, trader, kind, escrow, executor, isPartial, cfg).value;
              var out := EscrowReleased(kind, escrow, isPartial);
              && BalancesNonNegative(f')
              && f'.vault == f.vault.(unclaimedFees := f'.vault.unclaimedFees)
              && f.vault.unclaimedFees <= f'.vault.unclaimedFees
              && f'.vault.unclaimedFees <= f.vault.unclaimedFees + (if kind == Liquidation then out else 0)
              && Balance(f', ManagerAccount) == Balance(f, ManagerAccount) - out
              && TotalAssets(f') == TotalAssets(f) + (if kind == Liquidation then out else 0)
              && (forall u: nat :: Balance(f', User(u)) == Balance(f, User(u))
                    + (if (kind == UserClose || kind == Deleverage) && u == trader then out else 0)
                    + (if kind == OrderExecution && executor == Some(u) then out else 0))
              && (Solvent(f) ==> Solvent(f'))
  {
    hide ReceiveRevenue;
    if escrow > 0 {
      match kind
      case UserClose => TransferNet(f, ManagerAccount, User(trader), escrow);
      case Deleverage => TransferNet(f, ManagerAccount, User(trader), escrow);
      case OrderExecution => TransferNet(f, ManagerAccount, User(executor.value), escrow);
      case Liquidation => ReceiveNet(f, escrow, cfg);
    }
  }

  /** Only the permissionless closes have an executor. */
  predicate ExecutorFits(kind: CloseKind, executor: Option<nat>) {
    executor.Some? <==> kind == Liquidation || kind == OrderExecution
  }

  lemma SettleFundsInTwo(f: Funds, trader: nat, pos: Position, sizeDelta: int, collateralDelta: int,
                         ev: Evaluation, kind: CloseKind, executor: Option<nat>, cfg: Config)
    ensures var collateral := SettleCollateral(f, trader, sizeDelta, Route(ev, collateralDelta, kind, cfg),
                                               executor, cfg);
            SettleFunds(f, trader, pos, sizeDelta, collateralDelta, ev, kind, executor, cfg)
            == if collateral.Err? then Err(collateral.error)
               else SettleEscrow(collateral.value, trader, kind, pos.escrow, executor, sizeDelta < pos.size, cfg)
  {
    hide ReleaseLiquidity, PayProfit, Absorb, TransferIfPositive, PayBounty, ResliceRevenue, SettleEscrow, Route;
  }

  /** Net effect of every payment of a close: the manager gives up exactly the collateral
      slice and the released escrow, the vault keeps what the trader and the executor do
      not receive, the trader is paid the positive part of effective health, and a
      solvent vault stays solvent. */
  lemma CloseNet(f: Funds, trader: nat, pos: Position, sizeDelta: int, collateralDelta: int,
                 ev: Evaluation, kind: CloseKind, executor: Option<nat>, cfg: Config)
    requires cfg.Valid() && BalancesNonNegative(f)
    requires sizeDelta > 0 && collateralDelta >= 0 && pos.escrow >= 0 && ExecutorFits(kind, executor)
    ensures SettleFunds(f, trader, pos, sizeDelta, collateralDelta, ev, kind, executor, cfg).Ok? ==>
              var f' := SettleFunds(f, trader, pos, sizeDelta, collateralDelta, ev, kind, executor, cfg).value;
              var payout := Max(0, ev.effectiveHealth);
              var bounty := Max(0, Route(ev, collateralDelta, kind, cfg).bounty);
              var out := EscrowReleased(kind, pos.escrow, sizeDelta < pos.size);
              && BalancesNonNegative(f')
              && f'.vault == f.vault.(reserved := f.vault.reserved - sizeDelta, unclaimedFees := f'.vault.unclaimedFees)
              && f.vault.unclaimedFees <= f'.vault.unclaimedFees
              && Balance(f', ManagerAccount) == Balance(f, ManagerAccount) - collateralDelta - out
              && TotalAssets(f') == TotalAssets(f) + collateralDelta - payout - bounty
                                    + (if kind == Liquidation then out else 0)
              && (forall u: nat :: Balance(f', User(u)) == Balance(f, User(u))
                    + (if u == trader then payout else 0)
                    + (if executor == Some(u) then bounty else 0)
                    + (if (kind == UserClose || kind == Deleverage) && u == trader then out else 0)
                    + (if kind == OrderExecution && executor == Some(u) then out else 0))
              && (Solvent(f) ==> Solvent(f'))
  {
    hide SettleFunds, SettleCollateral, SettleEscrow, Route;
    var r := Route(ev, collateralDelta, kind, cfg);
    SettleFundsInTwo(f, trader, pos, sizeDelta, collateralDelta, ev, kind, executor, cfg);
    RouteBalanced(ev, collateralDelta, kind, executor, cfg);
    CollateralNet(f, trader, sizeDelta, collateralDelta, r, executor, cfg);
    var collateral := SettleCollateral(f, trader, sizeDelta, r, executor, cfg);
    if collateral.Ok? {
      EscrowNet(collateral.value, trader, kind, pos.escrow, executor, sizeDelta < pos.size, cfg);
    }
  }

  // ----- What of the revenue is tagged -----

  /** The non-LP share of the revenue, said without dividing. */
  predicate Tags(revenue: int, cfg: Config, tagged: int) {
    if revenue <= 0 then tagged == 0 else Truncates(revenue * (cfg.devBps + cfg.stakerBps), BPS, tagged)
  }

  lemma ResliceTags(f: Funds, revenue: int, cfg: Config)
    requires cfg.Valid()
    ensures ResliceRevenue(f, revenue, cfg).Ok? ==>
              Tags(revenue, cfg, ResliceRevenue(f, revenue, cfg).value.vault.unclaimedFees - f.vault.unclaimedFees)
  {
    hide TDiv;
    ResliceNet(f, revenue, cfg);
    TDivBounds(revenue * (cfg.devBps + cfg.stakerBps), BPS);
  }

  lemma ReceiveTags(f: Funds, revenue: int, cfg: Config)
    requires cfg.Valid()
    ensures ReceiveRevenue(f, revenue, cfg).Ok? ==>
              Tags(revenue, cfg, ReceiveRevenue(f, revenue, cfg).value.vault.unclaimedFees - f.vault.unclaimedFees)
  {
    hide NonLpSlice, ResliceRevenue;
    if revenue > 0 && Transfer(f, ManagerAccount, VaultAccount, revenue).Ok? {
      ResliceTags(Transfer(f, ManagerAccount, VaultAccount, revenue).value, revenue, cfg);
    }
  }

  /** A close tags its fees and, when it is a liquidation, the escrow it forfeits. */
  lemma CloseTags(f: Funds, trader: nat, pos: Position, sizeDelta: int, collateralDelta: int, ev: Evaluation,
                  kind: CloseKind, executor: Option<nat>, cfg: Config)
    returns (fees: int, forfeited: int)
    requires cfg.Valid()
    ensures SettleFunds(f, trader, pos, sizeDelta, collateralDelta, ev, kind, executor, cfg).Ok? ==>
              var f' := SettleFunds(f, trader, pos, sizeDelta, collateralDelta, ev, kind, executor, cfg).value;
              && Tags(Route(ev, collateralDelta, kind, cfg).taggedFees, cfg, fees)
              && Tags(if kind == Liquidation then pos.escrow else 0, cfg, forfeited)
              && f'.vault.unclaimedFees == f.vault.unclaimedFees + fees + forfeited
  {
    hide SettleFunds, SettleCollateral, SettleEscrow, Route, Tags;
    var r := Route(ev, collateralDelta, kind, cfg);
    SettleFundsInTwo(f, trader, pos, sizeDelta, collateralDelta, ev, kind, executor, cfg);
    var collateral := SettleCollateral(f, trader, sizeDelta, r, executor, cfg);
    fees, forfeited := 0, 0;
    if SettleFunds(f, trader, pos, sizeDelta, collateralDelta, ev, kind, executor, cfg).Ok? {
      CollateralTags(f, trader, sizeDelta, r, executor, cfg);
      EscrowTags(collateral.value, trader, kind, pos.escrow, executor, sizeDelta < pos.size, cfg);
      fees := collateral.value.vault.unclaimedFees - f.vault.unclaimedFees;
      forfeited := SettleFunds(f, trader, pos, sizeDelta, collateralDelta, ev, kind, executor, cfg).value
                   .vault.unclaimedFees - collateral.value.vault.unclaimedFees;
    }
  }

  lemma CollateralTags(f: Funds, trader: nat, sizeDelta: int, r: Routing, executor: Option<nat>, cfg: Config)
    requires cfg.Valid()
    ensures SettleCollateral(f, trader, sizeDelta, r, executor, cfg).Ok? ==>
              Tags(r.taggedFees, cfg, SettleCollateral(f, trader, sizeDelta, r, executor, cfg).value
                                      .vault.unclaimedFees - f.vault.unclaimedFees)
  {
    hide Tags, ResliceRevenue, Balance, TotalAssets, FreeLiquidity;
    var f3 := SettleWithVault(f, trader, sizeDelta, r);
    if f3.Ok? {
      var f4 := TransferIfPositive(f3.value, ManagerAccount, User(trader), r.managerToTrader);
      if f4.Ok? && PayBounty(f4.value, executor, r.bounty).Ok? {
        ResliceTags(PayBounty(f4.value, executor, r.bounty).value, r.taggedFees, cfg);
      }
    }
  }

  lemma EscrowTags(f: Funds, trader: nat, kind: CloseKind, escrow: int, executor: Option<nat>, isPartial: bool,
                   cfg: Config)
    requires cfg.Valid()
    ensures SettleEscrow(f, trader, kind, escrow, executor, isPartial, cfg).Ok? ==>
              Tags(if kind == Liquidation then escrow else 0, cfg,
                   SettleEscrow(f, trader, kind, escrow, executor, isPartial, cfg).value.vault.unclaimedFees
                   - f.vault.unclaimedFees)
  {
    hide ReceiveRevenue, Balance;
    ReceiveTags(f, escrow, cfg);
  }

  /** Net effect of the payments of an open. */
  lemma OpenNet(f: Funds, trader: nat, collateral: int, openFee: int, escrowOwed: int, size: int, cfg: Config)
    requires cfg.Valid() && BalancesNonNegative(f)
    requires collateral >= 0 && openFee >= 0 && escrowOwed >= 0
    ensures OpenFunds(f, trader, collateral, openFee, escrowOwed, size, cfg).Ok? ==>
              var f' := OpenFunds(f, trader, collateral, openFee, escrowOwed, size, cfg).value;
              && BalancesNonNegative(f')
              && f'.vault == f.vault.(reserved := f.vault.reserved + size, unclaimedFees := f'.vault.unclaimedFees)
              && f.vault.unclaimedFees <= f'.vault.unclaimedFees <= f.vault.unclaimedFees + openFee
              && Balance(f', ManagerAccount) == Balance(f, ManagerAccount) + collateral + escrowOwed
              && TotalAssets(f') == TotalAssets(f) + openFee
              && (forall u: nat :: Balance(f', User(u)) == Balance(f, User(u))
                    - (if u == trader then collateral + openFee + escrowOwed else 0))
  {
    hide ReceiveRevenue;
    TransferNet(f, User(trader), ManagerAccount, collateral + openFee + escrowOwed);
    var paid := Transfer(f, User(trader), ManagerAccount, collateral + openFee + escrowOwed);
    if paid.Ok? {
      ReceiveNet(paid.value, openFee, cfg);
    }
  }

  /** The payments of a close with nothing left for the trader trip no guard: reservation,
      custody and solvency are all that is needed, and the vault's own net assets do not
      fall. */
  lemma UnderwaterSettles(f: Funds, trader: nat, pos: Position, ev: Evaluation, executor: nat, cfg: Config)
    requires cfg.Valid() && BalancesNonNegative(f) && Solvent(f)
    requires 0 < pos.size <= f.vault.reserved && pos.collateral > 0 && pos.escrow >= 0
    requires pos.collateral + pos.escrow <= Balance(f, ManagerAccount)
    requires ev.effectiveHealth <= 0
    ensures var settled := SettleFunds(f, trader, pos, pos.size, pos.collateral, ev, Liquidation, Some(executor), cfg);
            && settled.Ok?
            && TotalAssets(f) - f.vault.unclaimedFees
               <= TotalAssets(settled.value) - settled.value.vault.unclaimedFees
  {
    hide NonLpSlice, ReceiveRevenue, ResliceRevenue, TDiv, Ledger.SettleFunds, Absorb, PayBounty;
    var r := Route(ev, pos.collateral, Liquidation, cfg);
    SettleFundsInTwo(f, trader, pos, pos.size, pos.collateral, ev, Liquidation, Some(executor), cfg);
    BountyBelowCollateral(pos.collateral, cfg);
    var f1 := ReleaseLiquidity(f, pos.size).value;
    AbsorbNet(f1, r.absorbed);
    var f3 := Absorb(f1, r.absorbed).value;
    PayBountyNet(f3, Some(executor), r.bounty);
    var f5 := PayBounty(f3, Some(executor), r.bounty).value;
    ResliceNet(f5, r.taggedFees, cfg);
    if r.taggedFees > 0 {
      SliceBounds(r.taggedFees, cfg);
    }
    ReceiveNet(ResliceRevenue(f5, r.taggedFees, cfg).value, pos.escrow, cfg);
  }

  lemma BountyBelowCollateral(collateral: int, cfg: Config)
    requires cfg.Valid() && collateral > 0
    ensures 0 <= LiquidationBounty(collateral, cfg.liquidationBountyBps) < collateral
  {
    hide TDiv;
    MulLe(0, cfg.liquidationBountyBps, collateral);
    MulLe(cfg.liquidationBountyBps, 1_000, collateral);
    TDivBounds(collateral * cfg.liquidationBountyBps, BPS);
  }

  // ----- Errors -----

  /** The errors the payments of a call can end in; every other error is a refused guard. */
  predicate PaymentError(e: Error) {
    e.NegativeAmount? || e.InsufficientBalance? || e.VaultZeroAmount? || e.InsufficientFreeLiquidity?
    || e.FeeAccrualExceedsAssets? || e.AbsorbedCollateralMismatch? || e.ReservationExceedsTotalAssets?
  }

  lemma CloseErrors(f: Funds, trader: nat, pos: Position, sizeDelta: int, collateralDelta: int,
                    ev: Evaluation, kind: CloseKind, executor: Option<nat>, cfg: Config)
    ensures var settled := SettleFunds(f, trader, pos, sizeDelta, collateralDelta, ev, kind, executor, cfg);
            settled.Err? ==> PaymentError(settled.error)
  {
    hide SettleFunds, SettleCollateral, SettleEscrow, Route, PaymentError;
    var r := Route(ev, collateralDelta, kind, cfg);
    SettleFundsInTwo(f, trader, pos, sizeDelta, collateralDelta, ev, kind, executor, cfg);
    CollateralErrors(f, trader, sizeDelta, r, executor, cfg);
    var collateral := SettleCollateral(f, trader, sizeDelta, r, executor, cfg);
    if collateral.Ok? {
      EscrowErrors(collateral.value, trader, kind, pos.escrow, executor, sizeDelta < pos.size, cfg);
    }
  }

  lemma CollateralErrors(f: Funds, trader: nat, sizeDelta: int, r: Routing, executor: Option<nat>, cfg: Config)
    ensures var settled := SettleCollateral(f, trader, sizeDelta, r, executor, cfg);
            settled.Err? ==> PaymentError(settled.error)
  {
    hide NonLpSlice, TotalAssets, Balance, SettleWithVault;
    VaultSideErrors(f, trader, sizeDelta, r);
  }

  lemma VaultSideErrors(f: Funds, trader: nat, sizeDelta: int, r: Routing)
    ensures var settled := SettleWithVault(f, trader, sizeDelta, r);
            settled.Err? ==> PaymentError(settled.error)
  {
    hide TotalAssets, FreeLiquidity, Balance;
  }

  lemma EscrowErrors(f: Funds, trader: nat, kind: CloseKind, escrow: int, executor: Option<nat>, isPartial: bool,
                     cfg: Config)
    ensures var settled := SettleEscrow(f, trader, kind, escrow, executor, isPartial, cfg);
            settled.Err? ==> PaymentError(settled.error)
  {
    hide NonLpSlice, TotalAssets, Balance;
  }
}
