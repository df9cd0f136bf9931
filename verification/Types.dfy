/** The values the protocol stores and exchanges. */
module Types {
  import opened FixedPoint

  /** Token holders. The two contracts never sign a transfer on behalf of a user, so
      traders, liquidity providers and executors are always `User` accounts. */
  datatype Address = VaultAccount | ManagerAccount | User(id: nat)

  type Symbol = string

  datatype Option<+T> = None | Some(value: T)

  datatype Error =
      // position manager
    | Paused | MarketDisabled | ZeroAmount | SlippageExceeded | BelowMinCollateral
    | DirectionMismatch | MarketNotConfigured | ExcessiveLeverage | InvalidTpSl
    | UtilizationCapBreached | PositionNotFound | PositionNotOldEnough
    | SizeDeltaExceedsPosition | HealthFactorOk | AdlNotTriggered
    | AdlTargetNotProfitable | OrderNotTriggered | LeverageBelowFloor | LeverageCapExceeded
      // vault
    | VaultPaused | VaultZeroAmount | InsufficientFreeLiquidity | CooldownNotElapsed
    | ReservationExceedsTotalAssets | InsufficientFees | FeeAccrualExceedsAssets
    | AbsorbedCollateralMismatch
      // token and oracle
    | NegativeAmount | InsufficientBalance | OracleFailed

  /** The outcome of a call: a value, or the panic that reverts the transaction. */
  datatype Result<+T> = Ok(value: T) | Err(error: Error) {
    predicate IsFailure() {
      Err?
    }

    function PropagateFailure<U>(): Result<U>
      requires Err?
    {
      Err(error)
    }

    function Extract(): T
      requires Ok?
    {
      value
    }
  }

  /** The admin-tunable parameters a call reads. */
  datatype Config = Config(
    devBps: int, stakerBps: int,
    openFeeBps: int, liquidationBountyBps: int, tpSlExecutionFee: int,
    minCollateral: int, cooldown: nat, minPositionLifetime: nat,
    maxUtilization: int, fundingCutBps: int,
    adlPnlBps: int, adlUtilizationBps: int, liquidationThresholdBps: int,
    baseBorrowRate: int, slope1: int, slope2: int, optimalUtilization: int,
    baseFundingRate: int)
  {
    /** The bounds the configuration manager enforces before it stores a parameter. */
    predicate Valid() {
      && 0 <= devBps && 0 <= stakerBps && devBps + stakerBps <= BPS
      && 0 <= openFeeBps <= 100
      && 0 <= liquidationBountyBps <= 1_000
      && 0 <= tpSlExecutionFee <= 100_000_000_000
      && 1 <= minCollateral
      && minPositionLifetime <= 86_400
      && 1 <= maxUtilization <= BPS
      && 0 <= fundingCutBps <= 3_000
      && 5_000 <= adlPnlBps <= BPS
      && 1 <= adlUtilizationBps <= BPS
      && 0 <= liquidationThresholdBps <= 1_000
      && 0 <= baseBorrowRate && 0 <= slope1 <= slope2 <= 20_000
      && 1 <= optimalUtilization <= BPS
      && 0 <= baseFundingRate <= I128_MAX
    }
  }

  datatype Position = Position(
    collateral: int, size: int, entryPrice: int,
    entryBorrowIndex: int, entryFundingIndex: int, isLong: bool,
    lastIncreasedTime: nat, takeProfit: int, stopLoss: int, escrow: int)

  datatype Market = Market(
    longAvg: int, shortAvg: int, longOi: int, shortOi: int,
    accBorrowIndex: int, accFundingIndex: int, lastIndexUpdate: nat)

  datatype PositionKey = PositionKey(trader: nat, symbol: Symbol)

  datatype CloseKind = UserClose | OrderExecution | Liquidation | Deleverage
}
