/** The asset token and the vault as contracts with storage. Each method performs the
    contract's own steps and is proved against the value-level operation of the same name;
    after an error the storage is whatever the failed call left, and the host rolls the
    whole transaction back. */
module VaultContracts {
  import opened Types
  import opened VaultLedger

  class Token {
    var balances: map<Address, int>

    constructor (balances: map<Address, int>)
      ensures this.balances == balances
    {
      this.balances := balances;
    }

    function BalanceOf(a: Address): int
      reads this
    {
      if a in balances then balances[a] else 0
    }

    method Transfer(from: Address, to: Address, amount: int) returns (r: Result<()>)
      modifies this
      ensures r.Err? ==> balances == old(balances)
      ensures r == if amount < 0 then Err(NegativeAmount)
                   else if old(BalanceOf(from)) < amount then Err(InsufficientBalance)
                   else Ok(())
      ensures r.Ok? ==>
                && balances.Keys == old(balances).Keys + {from, to}
                && forall a :: BalanceOf(a) == old(BalanceOf(a)) - (if a == from then amount else 0)
                                                                 + (if a == to then amount else 0)
    {
      if amount < 0 {
        return Err(NegativeAmount);
      }
      if BalanceOf(from) < amount {
        return Err(InsufficientBalance);
      }
      balances := balances[from := BalanceOf(from) - amount];
      balances := balances[to := BalanceOf(to) + amount];
      r := Ok(());
    }

    method Restore(snapshot: map<Address, int>)
      modifies this
      ensures balances == snapshot
    {
      balances := snapshot;
    }
  }

  class Vault {
    const token: Token
    var reserved: int
    var unclaimedFees: int
    var netTraderPnl: int
    var paused: bool
    var lockups: map<nat, nat>

    constructor (token: Token)
      ensures this.token == token && State() == VaultState(0, 0, 0, false, map[])
    {
      this.token := token;
      reserved, unclaimedFees, netTraderPnl, paused, lockups := 0, 0, 0, false, map[];
    }

    function State(): VaultState
      reads this
    {
      VaultState(reserved, unclaimedFees, netTraderPnl, paused, lockups)
    }

    ghost function Books(): Funds
      reads this, token
    {
      Funds(token.balances, State())
    }

    /** The outcome and the storage are those of `spec`. */
    ghost predicate Matches(spec: Result<Funds>, r: Result<()>)
      reads this, token
    {
      match spec
      case Ok(f) => r.Ok? && Books() == f
      case Err(e) => r == Err(e)
    }

    // ----- Views -----

    method TotalAssets() returns (total: int)
      ensures total == VaultLedger.TotalAssets(Books())
    {
      total := token.BalanceOf(VaultAccount);
    }

    method FreeLiquidity() returns (free: int)
      ensures free == VaultLedger.FreeLiquidity(Books())
    {
      var total := TotalAssets();
      var deduction := if netTraderPnl > 0 then netTraderPnl else 0;
      free := total - reserved - unclaimedFees - deduction;
      if free < 0 {
        free := 0;
      }
    }

    method TotalAssetsExclPnl() returns (basis: int)
      ensures basis == SafeBasis(Books())
    {
      var total := TotalAssets();
      basis := total - unclaimedFees;
      if basis < 0 {
        basis := 0;
      }
    }

    // ----- Token movement -----

    method MoveAsset(from: Address, to: Address, amount: int) returns (r: Result<()>)
      modifies token
      ensures Matches(VaultLedger.Transfer(old(Books()), from, to, amount), r)
      ensures r.Err? ==> Books() == old(Books())
    {
      ghost var spec := VaultLedger.Transfer(Books(), from, to, amount);
      r := token.Transfer(from, to, amount);
      if r.Ok? {
        forall a | a in token.balances
          ensures token.balances[a] == spec.value.balances[a]
        {
          assert token.balances[a] == token.BalanceOf(a);
        }
        assert token.balances == spec.value.balances;
      }
    }

    // ----- Methods reserved to the position manager -----

    method PayProfit(trader: nat, amount: int) returns (r: Result<()>)
      modifies token
      ensures Matches(VaultLedger.PayProfit(old(Books()), trader, amount), r)
    {
      if amount <= 0 {
        return Err(VaultZeroAmount);
      }
      var free := FreeLiquidity();
      if amount > free {
        return Err(InsufficientFreeLiquidity);
      }
      r := MoveAsset(VaultAccount, User(trader), amount);
    }

    method ReserveLiquidity(amount: int) returns (r: Result<()>)
      modifies this
      ensures Matches(VaultLedger.ReserveLiquidity(old(Books()), amount), r)
    {
      if amount <= 0 {
        return Err(VaultZeroAmount);
      }
      var newReserved := reserved + amount;
      var total := TotalAssets();
      if newReserved > total {
        return Err(ReservationExceedsTotalAssets);
      }
      reserved := newReserved;
      r := Ok(());
    }

    method ReleaseLiquidity(amount: int) returns (r: Result<()>)
      modifies this
      ensures Matches(VaultLedger.ReleaseLiquidity(old(Books()), amount), r)
    {
      if amount <= 0 {
        return Err(VaultZeroAmount);
      }
      if amount > reserved {
        return Err(InsufficientFreeLiquidity);
      }
      reserved := reserved - amount;
      r := Ok(());
    }

    method RecordAbsorbedCollateral(amount: int, preBalance: int) returns (r: Result<()>)
      ensures Matches(VaultLedger.RecordAbsorbedCollateral(Books(), amount, preBalance), r)
    {
      if amount <= 0 {
        return Err(VaultZeroAmount);
      }
      var post := TotalAssets();
      if post - preBalance != amount {
        return Err(AbsorbedCollateralMismatch);
      }
      r := Ok(());
    }

    method AccrueFees(amount: int) returns (r: Result<()>)
      modifies this
      ensures Matches(VaultLedger.AccrueFees(old(Books()), amount), r)
    {
      if amount <= 0 {
        return Err(VaultZeroAmount);
      }
      var newTotal := unclaimedFees + amount;
      var total := TotalAssets();
      if newTotal + reserved > total {
        return Err(FeeAccrualExceedsAssets);
      }
      unclaimedFees := newTotal;
      r := Ok(());
    }

    method ClaimFeesTo(recipient: Address, amount: int) returns (r: Result<()>)
      modifies this, token
      ensures Matches(VaultLedger.ClaimFeesTo(old(Books()), recipient, amount), r)
    {
      if amount <= 0 {
        return Err(VaultZeroAmount);
      }
      var fees := unclaimedFees;
      if amount > fees {
        return Err(InsufficientFees);
      }
      var _ :- MoveAsset(VaultAccount, recipient, amount);
      unclaimedFees := fees - amount;
      r := Ok(());
    }

    method UpdateNetPnl(pnl: int)
      modifies this
      ensures Books() == VaultLedger.UpdateNetPnl(old(Books()), pnl)
    {
      netTraderPnl := pnl;
    }

    // ----- Administrator and liquidity providers -----

    method ClaimFees(recipient: Address) returns (r: Result<()>)
      modifies this, token
      ensures Matches(VaultLedger.ClaimFees(old(Books()), recipient), r)
    {
      var fees := unclaimedFees;
      if fees <= 0 {
        return Err(VaultZeroAmount);
      }
      var _ :- MoveAsset(VaultAccount, recipient, fees);
      unclaimedFees := 0;
      r := Ok(());
    }

    method RecordLockup(user: nat, now: nat, cooldown: nat)
      modifies this
      ensures Books() == VaultLedger.RecordLockup(old(Books()), user, now, cooldown)
    {
      lockups := lockups[user := now + cooldown];
    }

    method Deposit(user: nat, assets: int, now: nat, cooldown: nat) returns (r: Result<()>)
      modifies this, token
      ensures Matches(VaultLedger.Deposit(old(Books()), user, assets, now, cooldown), r)
    {
      if paused {
        return Err(VaultPaused);
      }
      if assets <= 0 {
        return Err(VaultZeroAmount);
      }
      RecordLockup(user, now, cooldown);
      r := MoveAsset(User(user), VaultAccount, assets);
    }

    method RequireLockupElapsed(user: nat, now: nat) returns (r: Result<()>)
      ensures r == if now < Expiry(Books(), user) then Err(CooldownNotElapsed) else Ok(())
    {
      if user in lockups && now < lockups[user] {
        return Err(CooldownNotElapsed);
      }
      r := Ok(());
    }

    method Withdraw(owner: nat, receiver: Address, assets: int, now: nat) returns (r: Result<()>)
      modifies token
      ensures Matches(VaultLedger.Withdraw(old(Books()), owner, receiver, assets, now), r)
    {
      if paused {
        return Err(VaultPaused);
      }
      var _ :- RequireLockupElapsed(owner, now);
      var free := FreeLiquidity();
      if assets > free {
        return Err(InsufficientFreeLiquidity);
      }
      r := MoveAsset(VaultAccount, receiver, assets);
    }

    method PropagateLockup(from: nat, to: nat, now: nat)
      modifies this
      ensures Books() == VaultLedger.PropagateLockup(old(Books()), from, to, now)
    {
      var fromExpiry := if from in lockups then lockups[from] else 0;
      if fromExpiry == 0 {
        return;
      }
      if fromExpiry <= now {
        return;
      }
      var toExpiry := if to in lockups then lockups[to] else 0;
      if fromExpiry > toExpiry {
        lockups := lockups[to := fromExpiry];
      }
    }

    method SetPaused(p: bool)
      modifies this
      ensures Books() == old(Books()).(vault := old(State()).(paused := p))
    {
      paused := p;
    }

    method Restore(snapshot: VaultState)
      modifies this
      ensures State() == snapshot
    {
      reserved, unclaimedFees, netTraderPnl := snapshot.reserved, snapshot.unclaimedFees, snapshot.netTraderPnl;
      paused, lockups := snapshot.paused, snapshot.lockups;
    }
  }
}
