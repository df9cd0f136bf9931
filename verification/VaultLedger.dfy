/** The asset token and the vault as values: every operation either yields the funds
    after it or the error that reverts the transaction. */
module VaultLedger {
  import opened Types

  datatype VaultState = VaultState(
    reserved: int, unclaimedFees: int, netTraderPnl: int, paused: bool, lockups: map<nat, nat>)

  datatype Funds = Funds(balances: map<Address, int>, vault: VaultState)

  // ----- Token -----

  function Balance(f: Funds, a: Address): int {
    if a in f.balances then f.balances[a] else 0
  }

  function Transfer(f: Funds, from: Address, to: Address, amount: int): Result<Funds> {
    if amount < 0 then
      Err(NegativeAmount)
    else if Balance(f, from) < amount then
      Err(InsufficientBalance)
    else
      var debited := f.(balances := f.balances[from := Balance(f, from) - amount]);
      Ok(debited.(balances := debited.balances[to := Balance(debited, to) + amount]))
  }

  // ----- Vault views -----

  function TotalAssets(f: Funds): int {
    Balance(f, VaultAccount)
  }

  /** What liquidity providers and profitable traders may still be paid from. */
  function FreeLiquidity(f: Funds): int {
    var v := f.vault;
    var free := TotalAssets(f) - v.reserved - v.unclaimedFees - (if v.netTraderPnl > 0 then v.netTraderPnl else 0);
    if free < 0 then 0 else free
  }

  /** Total assets without the fee buffer: the basis of every utilization figure. */
  function SafeBasis(f: Funds): int {
    var v := TotalAssets(f) - f.vault.unclaimedFees;
    if v < 0 then 0 else v
  }

  // ----- Operations reserved to the position manager -----

  function PayProfit(f: Funds, trader: nat, amount: int): Result<Funds> {
    if amount <= 0 then Err(VaultZeroAmount)
    else if amount > FreeLiquidity(f) then Err(InsufficientFreeLiquidity)
    else Transfer(f, VaultAccount, User(trader), amount)
  }

  function ReserveLiquidity(f: Funds, amount: int): Result<Funds> {
    if amount <= 0 then Err(VaultZeroAmount)
    else if f.vault.reserved + amount > TotalAssets(f) then Err(ReservationExceedsTotalAssets)
    else Ok(f.(vault := f.vault.(reserved := f.vault.reserved + amount)))
  }

  function ReleaseLiquidity(f: Funds, amount: int): Result<Funds> {
    if amount <= 0 then Err(VaultZeroAmount)
    else if amount > f.vault.reserved then Err(InsufficientFreeLiquidity)
    else Ok(f.(vault := f.vault.(reserved := f.vault.reserved - amount)))
  }

  /** Checks that exactly `amount` arrived since `preBalance`; moves nothing. */
  function RecordAbsorbedCollateral(f: Funds, amount: int, preBalance: int): Result<Funds> {
    if amount <= 0 then Err(VaultZeroAmount)
    else if TotalAssets(f) - preBalance != amount then Err(AbsorbedCollateralMismatch)
    else Ok(f)
  }

  function AccrueFees(f: Funds, amount: int): Result<Funds> {
    if amount <= 0 then Err(VaultZeroAmount)
    else if f.vault.unclaimedFees + amount + f.vault.reserved > TotalAssets(f) then Err(FeeAccrualExceedsAssets)
    else Ok(f.(vault := f.vault.(unclaimedFees := f.vault.unclaimedFees + amount)))
  }

  function ClaimFeesTo(f: Funds, recipient: Address, amount: int): Result<Funds> {
    if amount <= 0 then Err(VaultZeroAmount)
    else if amount > f.vault.unclaimedFees then Err(InsufficientFees)
    else
      var f' :- Transfer(f, VaultAccount, recipient, amount);
      Ok(f'.(vault := f'.vault.(unclaimedFees := f.vault.unclaimedFees - amount)))
  }

  function UpdateNetPnl(f: Funds, pnl: int): Funds {
    f.(vault := f.vault.(netTraderPnl := pnl))
  }

  // ----- Administrator and liquidity providers -----

  function ClaimFees(f: Funds, recipient: Address): Result<Funds> {
    var fees := f.vault.unclaimedFees;
    if fees <= 0 then Err(VaultZeroAmount)
    else
      var f' :- Transfer(f, VaultAccount, recipient, fees);
      Ok(f'.(vault := f'.vault.(unclaimedFees := 0)))
  }

  function Expiry(f: Funds, user: nat): nat {
    if user in f.vault.lockups then f.vault.lockups[user] else 0
  }

  function RecordLockup(f: Funds, user: nat, now: nat, cooldown: nat): Funds {
    f.(vault := f.vault.(lockups := f.vault.lockups[user := now + cooldown]))
  }

  function Deposit(f: Funds, user: nat, assets: int, now: nat, cooldown: nat): Result<Funds> {
    if f.vault.paused then Err(VaultPaused)
    else if assets <= 0 then Err(VaultZeroAmount)
    else Transfer(RecordLockup(f, user, now, cooldown), User(user), VaultAccount, assets)
  }

  function Withdraw(f: Funds, owner: nat, receiver: Address, assets: int, now: nat): Result<Funds> {
    if f.vault.paused then Err(VaultPaused)
    else if now < Expiry(f, owner) then Err(CooldownNotElapsed)
    else if assets > FreeLiquidity(f) then Err(InsufficientFreeLiquidity)
    else Transfer(f, VaultAccount, receiver, assets)
  }

  /** A share transfer hands the sender's unexpired lockup to the recipient when it is
      the later of the two. */
  function PropagateLockup(f: Funds, from: nat, to: nat, now: nat): Funds {
    var expiry := Expiry(f, from);
    if expiry == 0 || expiry <= now || expiry <= Expiry(f, to) then
      f
    else
      f.(vault := f.vault.(lockups := f.vault.lockups[to := expiry]))
  }
}
