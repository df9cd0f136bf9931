/** The ledger that hosts the contracts: it dispatches one call at a time and undoes every
    write of a call that panics. */
module Hosts {
  import opened Types
  import opened VaultLedger
  import opened VaultContracts
  import opened PositionManagerContracts
  import opened Ledger
  import opened Invariants
  import opened Entrypoints

  class Host {
    const token: Token
    const vault: Vault
    const manager: PositionManager
    var now: nat

    /** Deploys the three contracts; only users hold tokens. */
    constructor (balances: map<Address, int>, now: nat)
      requires forall a :: a in balances ==> a.User? && balances[a] >= 0
      ensures Valid() && Initial(World())
      ensures fresh(token) && fresh(vault) && fresh(manager)
    {
      var t := new Token(balances);
      var v := new Vault(t);
      var m := new PositionManager(v);
      token, vault, manager := t, v, m;
      this.now := now;
      new;
      InitialInv(World());
    }

    ghost predicate Wired()
      reads this
    {
      manager.vault == vault && vault.token == token
    }

    ghost function World(): World
      requires Wired()
      reads this, manager, vault, token
    {
      manager.WorldAt(now)
    }

    /** Everything the contracts promise about their joint storage. */
    ghost predicate Valid()
      reads this, manager, vault, token
    {
      Wired() && Inv(World())
    }

    /** Runs one call as a transaction: it takes effect as a whole or not at all, and the
        invariant holds afterwards either way. */
    method Submit(a: Action) returns (r: Result<()>)
      requires Valid() && a.Valid()
      modifies this, manager, vault, token
      ensures Valid()
      ensures World() == Step(old(World()), a)
      ensures r.Ok? <==> Call(old(World()), a).Ok?
    {
      hide Inv, Call, Initial, Action.Valid;
      ghost var before := World();
      ghost var record := manager.history;
      var time := now;
      var balances, vaultState, managerState := token.balances, vault.State(), manager.State();
      r := Dispatch(a);
      if r.Err? {
        now := time;
        token.Restore(balances);
        vault.Restore(vaultState);
        manager.Restore(managerState, record);
        assert World() == before;
      }
      StepKeeps(before, a);
    }

    predicate IsTrade(a: Action) {
      a.DoIncrease? || a.DoDecrease? || a.DoLiquidate? || a.DoDeleverage? || a.DoExecuteOrder?
    }

    predicate IsVaultCall(a: Action) {
      a.DoAdvanceTime? || a.DoDeposit? || a.DoWithdraw? || a.DoClaimFees? || a.DoClaimFeesTo?
      || a.DoTransferShares? || a.DoSetVaultPaused? || a.DoUserTransfer?
    }

    ghost predicate Matches(spec: Result<Ledger.World>, r: Result<()>)
      requires Wired()
      reads this, manager, vault, token
    {
      match spec
      case Ok(w) => r.Ok? && World() == w
      case Err(e) => r == Err(e)
    }

    method Dispatch(a: Action) returns (r: Result<()>)
      requires Wired()
      modifies this, manager, vault, token
      ensures Matches(Call(old(World()), a), r)
    {
      hide Call;
      if IsTrade(a) {
        r := DispatchTrade(a);
      } else if IsVaultCall(a) {
        r := DispatchToVault(a);
      } else {
        r := DispatchSetting(a);
      }
    }

    method DispatchTrade(a: Action) returns (r: Result<()>)
      requires Wired() && IsTrade(a)
      modifies this, manager, vault, token
      ensures Matches(Call(old(World()), a), r)
    {
      hide Increase, Decrease, Liquidate, DeleveragePosition, ExecuteOrder;
      match a {
        case DoIncrease(order, env) => r := manager.IncreasePosition(order, now, env);
        case DoDecrease(key, sizeDelta, acceptable, env) =>
          r := manager.DecreasePosition(key, sizeDelta, acceptable, now, env);
        case DoLiquidate(key, executor, env) => r := manager.LiquidatePosition(key, executor, now, env);
        case DoDeleverage(key, env) => r := manager.DeleverageTarget(key, now, env);
        case DoExecuteOrder(key, executor, env) => r := manager.ExecuteTriggeredOrder(key, executor, now, env);
      }
    }

    method DispatchSetting(a: Action) returns (r: Result<()>)
      requires Wired() && !IsTrade(a) && !IsVaultCall(a)
      modifies this, manager, vault, token
      ensures Matches(Call(old(World()), a), r)
    {
      hide SetTpSl, UpdateIndices, SetMaxLeverage, SetMarketDisabled, Ledger.Pause, Ledger.Unpause;
      r := Ok(());
      match a {
        case DoSetTpSl(key, takeProfit, stopLoss, env) => r := manager.SetOrders(key, takeProfit, stopLoss, now, env);
        case DoUpdateIndices(symbol, env) => r := manager.UpdateIndicesOf(symbol, now, env);
        case DoPause => manager.PauseTrading(now);
        case DoUnpause => manager.UnpauseTrading(now);
        case DoSetMaxLeverage(symbol, leverage) => r := manager.ConfigureLeverage(symbol, leverage, now);
        case DoSetMarketDisabled(symbol, disabled) => manager.SetDisabled(symbol, disabled, now);
      }
    }

    method DispatchToVault(a: Action) returns (r: Result<()>)
      requires Wired() && IsVaultCall(a)
      modifies this, manager, vault, token
      ensures Matches(Call(old(World()), a), r)
    {
      hide VaultLedger.Deposit, VaultLedger.Withdraw, VaultLedger.ClaimFees, VaultLedger.ClaimFeesTo,
           VaultLedger.PropagateLockup, VaultLedger.Transfer;
      ghost var before := World();
      match a {
        case DoAdvanceTime(seconds) => now := now + seconds;
        case DoDeposit(user, assets, env) => var _ :- vault.Deposit(user, assets, now, env.cfg.cooldown);
        case DoWithdraw(owner, receiver, assets) => var _ :- vault.Withdraw(owner, receiver, assets, now);
        case DoClaimFees(recipient) => var _ :- vault.ClaimFees(recipient);
        case DoClaimFeesTo(recipient, amount) => var _ :- vault.ClaimFeesTo(recipient, amount);
        case DoTransferShares(from, to) => vault.PropagateLockup(from, to, now);
        case DoSetVaultPaused(paused) => vault.SetPaused(paused);
        case DoUserTransfer(from, to, amount) => var _ :- vault.MoveAsset(User(from), to, amount);
      }
      manager.Record(Call(before, a).value.history);
      r := Ok(());
    }
  }
}
