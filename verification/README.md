# Perpetuals protocol: verification model

A Dafny 4.11 model of a perpetual-futures protocol for Soroban: a position manager, a
liquidity vault, the asset token they move, an oracle router, and the TypeScript code that
mirrors the contracts off chain. `dafny verify dfyconfig.toml` checks all of it.

## What is modelled

- **Arithmetic.** Amounts are mathematical integers. Division in Rust's `i128` and in
  TypeScript's `BigInt` truncates toward zero, so every quotient goes through `TDiv`; what a
  quotient amounts to is stated by `Truncates`, through the multiples it lies between. An
  overflow of `i128` is modelled where it selects a branch: the halving loop of the funding
  rate, the leverage product and the oracle's deviation.
- **The protocol as one state machine.** A `World` holds the clock, the token balances, the
  vault's counters, the position manager's storage and a `History` that no contract reads
  (deposits, fees, bounties, bad debt, escrow movements, settled funding, billed seconds,
  paused seconds, trades and peak open interest per side). `Ledger.Call` gives every
  entrypoint as a function from a world to the world after it or to the error it panics with;
  `Ledger.Step` reverts on an error; `Ledger.Run` is any sequence of calls by anyone, at any
  prices and under any valid configurations, including time steps, repeated pauses, direct
  token transfers, withdrawals to any recipient and changes of the configuration between
  calls. `Invariants.Inv` is what every such run keeps.
- **The contracts as classes.** `Token`, `Vault` and `PositionManager` have the contracts'
  fields, and their methods follow the source statement by statement: read storage, update
  local copies, call the vault, write back. Each method is proved to do exactly what the
  value-level operation says, including which error it stops with. `Host.Submit` runs a call
  as a transaction and rolls it back on an error; it is proved equal to `Ledger.Step` and to
  keep the invariant.
- **Off-chain code.** `OffchainMirror` is the TypeScript market tick and liquidation price,
  `Keeper` the keeper's two scans, both compared with the contracts.
- **Oracle.** `OracleRouter` is a class with the source lists and the price cache; the
  insertion sort works in place on an array.
- **Exact arithmetic.** `AggregatePnl` uses reals for the one statement about PnL from a mean
  entry price in which rounding is not the point.

## Files

| file | content |
|---|---|
| FixedPoint, RiskMath, FundingRate | truncating division; the risk formulas; the funding rate with its halving loop |
| Types, MapSums | values and errors; sums over maps |
| Evaluation | what a close settles, the liquidation gate, zero-sum funding |
| VaultLedger, Ledger | the entrypoints on values, runs |
| Settlement, Invariants, BookSteps, Steps, Entrypoints | net effect of the payments, the invariant, its preservation |
| Runs, FundingRuns, Splitting, Lockup, MarketPnl | what holds after every run |
| Scenarios, SolvencyGate, CloseSettlement | short runs from fresh contracts, and exactly when an open keeps solvency or a close settles |
| Guarantees, Outcomes | exactly which calls pass their guards, and exactly what an accepted call pays, stores and books |
| VaultContract, PositionManagerContract, Host | the contracts as classes |
| OffchainMirror, Keeper, ScanLimits | the TypeScript side, and where it departs from the contracts |
| PriceAggregation, OracleRouter | the oracle |
| AggregatePnl | mean-entry PnL in exact arithmetic |

## What the proofs found

Every world named here as failing is the end of a run from freshly initialized contracts.

- The utilization gate keeps the vault solvent exactly when its cap is below one
  (`SolvencyGate.SolvencyGateExact`); the configuration bounds allow a cap of one. With an
  empty safe basis the utilization figure is zero, the gate is open, and every open it lets
  through makes the vault insolvent (`SolvencyGate.OpenKeepsSolventIff`,
  `SolvencyGate.EmptyBasisBreaksSolvency`).
- The displayed liquidation price is never itself liquidatable except when accrued fees
  already require a profit and the size does not divide the rounded product
  (`OffchainMirror.DisplayedPriceLiquidatable`).
- The keeper's scan has no false positive while no pause began earlier than now and the
  funding product fits `i128` (`Keeper.ScanHasNoFalsePositives`). Both conditions matter:
  - the mirror does not clamp its window at the start of a pause, and bills the time since
    then (`OffchainMirror.PauseGap`, `ScanLimits.PauseFalsePositive`);
  - beyond `i128` the contract halves and the mirror does not
    (`ScanLimits.OverflowFalsePositive`). This takes a base rate above 100% a year: up to
    there the funding product fits whenever the utilization product does, without which no
    position can be opened (`FundingRates.FundingProductFits`).
- The scan misses a liquidatable position only through its borrow index, which it projects at
  the utilization of the whole balance, fee buffer included; with an empty buffer it misses
  none (`OffchainMirror.FlaggedIff`, `Keeper.CandidateIff`).
- `findAdlTarget` is documented to return `null` only when no position is profitable. The
  score truncates, so it also passes over a profitable position whose profit times size is
  below its collateral (`Keeper.PassedOverIff`, `Keeper.ProfitableYetPassedOver`).
- A deposit overwrites the depositor's lockup. It shortens it exactly when the cooldown was
  lowered enough in between (`Lockup.DepositShortensIff`, `Lockup.LoweredCooldownShortens`).
- A share transfer hands on the sender's running expiry whatever its amount
  (contracts/vault/src/contract.rs:38-48), a transfer of nothing included: a locked address can
  extend anyone's lockup without parting with a share. A transfer therefore carries no amount
  in the model, and a deposit "reaches" every address named as the recipient along a chain of
  transfers (`Lockup.LockedExactlyByDeposits`).
- The last pause time is not cleared by an unpause, contrary to the comment at
  contracts/position-manager/src/storage.rs:34-36. The model follows the code; billing is
  unaffected, because only a running pause reads it.
- Only an underwater liquidation is guaranteed to settle. Between zero health and the
  threshold the fees are not capped by the absorbed collateral
  (contracts/position-manager/src/close.rs:396-402), and the liquidation reverts exactly when
  the vault cannot tag them (`CloseSettlement.LiquidationSettlesIff`,
  `CloseSettlement.FeesBlockLiquidation`). A winning close also needs the profit to be free
  liquidity, from which the closing trader's own cached profit is still deducted
  (`CloseSettlement.CloseSettlesIff`).
- Readme.md describes an older design (`settle_pnl` at Readme.md:46, primary and secondary
  oracle sources at Readme.md:162-173); the model follows the code.

## Model

| member | source | states |
|---|---|---|
| Runs.LedgerBalances | contracts/position-manager/src/close.rs:337-402 | after any run from fresh contracts: vault balance + realized PnL = deposits − withdrawals + gifts + open fees + forfeited escrow − claimed fees − bounties − bad debt, bad debt being the sum of negative effective healths at close |
| Runs.CustodyExact | contracts/position-manager/src/tp_sl_escrow.rs:66-136 | after any run the manager holds exactly the collateral and escrow of its open positions (plus gifts), and every escrow charged is refunded, paid to an executor, forfeited or still held |
| Runs.IncreaseNeverClampsEscrow | contracts/position-manager/src/increase.rs:65-80 | in every reachable world escrow is held only with a TP or SL set, so the clamp at zero never changes what an increase charges |
| Runs.OpenInterestExact | contracts/position-manager/src/close.rs:417-436 | after any run reserved liquidity = sum of all position sizes = total open interest, and each market side's open interest is the size open on that side |
| Runs.AverageDriftBounded | contracts/position-manager/src/math.rs:118-177 | after n trades on a side whose open interest peaked at M: abs(average × OI − Σ entry × size) ≤ n × M, including the clamp to zero, and everything is zero on an empty side |
| Runs.PositionsStaySound | contracts/position-manager/src/increase.rs:130-143 | after any run every open position has positive size, collateral and entry price, an entry borrow index not above its market's, and a leverage within the cap of its last increase, whatever partial closes came between |
| Runs.SecondsBilledOnce | contracts/position-manager/src/tick.rs:57-108 | over any interleaving of refreshes, pauses, unpauses and time steps no second is billed to a market twice |
| Runs.PausedSecondsUnbilled | contracts/position-manager/src/contract.rs:151-178 | no second that passed during a pause is ever billed, also by closes made during the pause and across repeated pauses and unpauses |
| Runs.SolventAfterGatedRun | contracts/position-manager/src/vault_view.rs:12-15 | after any run whose opens meet a cap below one and a positive safe basis: reserved + unclaimed fees ≤ total assets |
| Runs.UnderwaterLiquidationSettles | contracts/position-manager/src/close.rs:337-415 | from any sound solvent world a liquidation with effective health ≤ 0 succeeds exactly when the health gate lets it through, removes the position, and never lowers total assets − unclaimed fees |
| Runs.BorrowIndexNeverFalls | contracts/position-manager/src/tick.rs:82-101 | along any run of calls the borrow index of every stored market never decreases, and no market is forgotten |
| FundingRuns.FundingNeverCreated | contracts/position-manager/src/tick.rs:82-185 | after any run, whatever the entry indices: what a market's closes paid traders in effective funding less what they collected, plus what its open positions have accrued, is at most the roundings of its trades, one per trade, each at most the larger of one unit and the side's peak open interest over the index precision |
| FundingRuns.FundingOfEmptiedMarket | contracts/position-manager/src/tick.rs:159-185 | a market nobody holds any more has paid out no more funding than those roundings, at most one unit per trade while its open interest stayed within the index precision |
| FundingRuns.IndexMovesAgainstTheCrowd | contracts/position-manager/src/math.rs:71-116 | an accrual moves the funding index against the larger side, so the market's open positions together never gain by it |
| CloseSettlement.CloseSettlesIff | contracts/position-manager/src/close.rs:322-415 | in any sound solvent world a decrease, order execution, liquidation or deleverage that gets past its guards succeeds if and only if the vault can pay the profit (free after release, the trader's own cached PnL still deducted) and tag the fees |
| CloseSettlement.SettlesIff | contracts/position-manager/src/close.rs:342-415 | of all payments of a close of any kind and size only the profit and the fee tag can fail, and exactly when their two conditions, readable before the call, do not hold |
| CloseSettlement.LiquidationSettlesIff | contracts/position-manager/src/close.rs:116-165 | in any sound solvent world a liquidation succeeds if and only if the health gate lets it through and the vault can tag its fees |
| CloseSettlement.DecreaseSucceedsIff | contracts/position-manager/src/close.rs:29-108 | in any sound solvent world a decrease succeeds if and only if the position exists, is old enough and covers the size, the oracle answers within the trader's limit, and the settlement can be paid |
| CloseSettlement.DeleverageSucceedsIff | contracts/position-manager/src/close.rs:169-236 | in any sound solvent world a deleverage succeeds if and only if the oracle answers, the position is in profit, the safe basis is positive, combined PnL or reservation is above its cap in dollars, and the settlement can be paid |
| CloseSettlement.OrderSucceedsIff | contracts/position-manager/src/close.rs:238-293 | in any sound solvent world an order execution succeeds if and only if the position exists and is old enough, the mark has crossed its take-profit or its stop-loss, and the settlement can be paid |
| CloseSettlement.FeesBlockLiquidation | contracts/position-manager/src/close.rs:396-402 | a family of reachable solvent worlds in which a position worth a little more than nothing is below the threshold and its liquidation reverts, although every product of the call fits i128 |
| MarketPnl.AveragePnlBound | contracts/position-manager/src/math.rs:183-201 | in every reachable world and at any mark, on the contract's integers: a long side's PnL from its average price exceeds the sum of its positions' PnLs by at most one unit per position and one, plus mark × trades × peak OI / average²; a short side's falls below it by no more; a side whose average was clamped to zero books no PnL, its notional is within the drift and the excess within its open interest |
| MarketPnl.CallCaches | contracts/position-manager/src/pnl_refresh.rs:21-47 | every accepted trade or index update caches for its market, at its mark, exactly the PnL of both sides by their averages; no other cache or market changes, and no other call changes either |
| MarketPnl.NetPnlIsMarked | contracts/position-manager/src/pnl_refresh.rs:21-47 | after any run the vault's net trader PnL = the manager's total = the sum of the caches, every stored market is cached, and each cache is the PnL by the market's averages at a price the oracle gave |
| MarketPnl.CachedPnlBound | contracts/position-manager/src/math.rs:183-201 | after any run the cached PnL of a market splits into its two sides at such a price, each within the bound above of what its own positions have gained |
| Runs.RunKeeps | contracts/position-manager/src/contract.rs:47-211 | every run of valid calls, reverting or not, keeps the whole invariant |
| Entrypoints.StepKeeps | test-suites/src/testutils/invariants.rs:1-28 | each single call keeps the invariant, and every call but an open keeps a solvent vault solvent |
| Entrypoints.IncreaseKeepsSolvent | contracts/position-manager/src/increase.rs:165-184 | an open under a cap below one with a positive safe basis keeps the vault solvent, through the gate on the snapshot taken before the fee |
| Entrypoints.GateLeavesRoom | contracts/position-manager/src/math.rs:203-208 | a utilization figure at most a cap below one means the reservation is strictly below the basis |
| Entrypoints.SetTpSlKeeps | contracts/position-manager/src/tp_sl.rs:16-49 | setting or clearing orders keeps custody, the escrow books and solvency |
| SolvencyGate.OpenSolvencyExact | contracts/position-manager/src/increase.rs:165-184 | under any cap, an accepted open of a sound solvent vault leaves it solvent if and only if reserved + size ≤ safe basis + open fee − tagged slice |
| SolvencyGate.OpenKeepsSolventIff | contracts/position-manager/src/math.rs:203-208 | with a cap below one an accepted open keeps the vault solvent if and only if the safe basis is positive; on an empty basis every accepted open breaks it, under any cap |
| SolvencyGate.OpenSettlesIff | contracts/position-manager/src/increase.rs:175-184 | an increase that gets past its guards succeeds if and only if the trader holds collateral + fee + escrow, the fee slice can be tagged and the reservation fits the vault |
| SolvencyGate.SolvencyGateExact | contracts/position-manager/src/increase.rs:165-173 | every accepted open from a reachable solvent world with a positive basis keeps the vault solvent if and only if the utilization cap is below one or the minimum collateral is too large for anything to open |
| SolvencyGate.FullVaultBreaks | contracts/position-manager/src/increase.rs:165-184 | with a cap of one a small open from a reachable, fully reserved vault, at every modest size, is accepted and leaves reserved + fees above total assets; every product of the call fits i128 |
| SolvencyGate.EmptyBasisBreaksSolvency | contracts/position-manager/src/math.rs:203-208 | a reachable vault holding only unclaimed fees accepts an open under every configuration that lets anything open, and becomes insolvent; every product of the call fits i128 |
| Guarantees.IncreaseGates | contracts/position-manager/src/increase.rs:41-173 | exactly which increases get past their guards: unpaused, enabled, priced, within the trader's limit, minimum collateral, same side, leverage, order prices, utilization in dollars; every other failure is a failed payment |
| Guarantees.DeleverageGates | contracts/position-manager/src/close.rs:184-207 | exactly which deleverages get past their guards: target in profit, positive safe basis, and combined PnL or reservation above its cap in dollars |
| Outcomes.AccrualExact | contracts/position-manager/src/tick.rs:53-108 | a refresh bills the seconds from the last update or unpause to now, or to the start of a running pause, and moves both indices by rate × index precision × seconds / (10,000 × a year), truncated toward zero, at the utilization of total assets less fees; nothing else of the market changes and exactly that window is recorded |
| Outcomes.OpenWrites | contracts/position-manager/src/increase.rs:65-163 | an accepted increase writes one position: sizes and collateral added, entry price and both entry indices at the truncated size-weighted means (between old entry and mark), positive order prices stored, and escrow charged exactly when none was held and an order is now set |
| Outcomes.OpenCharges | contracts/position-manager/src/increase.rs:65-184 | the trader pays collateral + escrow + fee with 10,000 × fee ≤ size × fee rate < 10,000 × fee + 10,000, nobody else pays or receives; the vault gains the fee, tags its dev and staker share rounded down, and reserves the size |
| Outcomes.OpenMarket | contracts/position-manager/src/increase.rs:186-207 | the stored market has the accrued indices, the size added to its side and the truncated size-weighted mean as that side's average; the other side and every other market stay |
| Outcomes.CloseTakes | contracts/position-manager/src/close.rs:64-80 | each accepted close: a partial one takes the collateral with size × taken ≤ collateral × closed < size × taken + size and leaves everything else of the position; a full one removes it; no other position changes |
| Outcomes.CloseReceipts | contracts/position-manager/src/close.rs:322-415 | each user's receipt from any of the four closes: the trader max(0, taken + PnL − borrow fee + effective funding) and an escrow due back, the executor the bounty or the escrow, nobody else anything |
| Outcomes.LiquidationPaysBounty | contracts/position-manager/src/close.rs:349-359 | an accepted liquidation pays its executor min(q, collateral − max(0, health)) with 10,000 × q ≤ collateral × bounty rate < 10,000 × q + 10,000, and trader and executor together never more than the collateral |
| Outcomes.CloseBooks | contracts/position-manager/src/close.rs:337-415 | vault assets, reservation, fee buffer, manager balance and realized PnL after any accepted close: the tagged share is that of borrow fee + funding cut, capped by what the vault absorbs when nothing is left for the trader, plus that of a liquidated escrow |
| Outcomes.CloseMarket | contracts/position-manager/src/close.rs:417-436 | the stored market has the accrued indices, the closed size gone from its side, and as that side's average the rest of the notional over the rest of the open interest, truncated or clamped to zero |
| Outcomes.CloseRecords | contracts/position-manager/src/close.rs:310-463 | each amount of a close enters the history under its own name, with one trade and the peak of its side, so the run-level identities and budgets count what happened |
| Outcomes.SetTpSlSucceedsIff | contracts/position-manager/src/tp_sl.rs:16-49 | an order change is accepted if and only if the manager runs, the position exists, both prices are non-negative and a fee newly due can be paid |
| Outcomes.SetTpSlWrites | contracts/position-manager/src/tp_sl_escrow.rs:47-98 | it stores both prices as given; the escrow ends at zero without an order, at the fee when there was none, unchanged otherwise; the trader pays exactly the difference and nothing else moves |
| Outcomes.UpdateIndicesIff | contracts/position-manager/src/contract.rs:103-115 | an index update is refused only by a pause or a failing oracle and stores exactly the accrued market |
| Outcomes.PausedRefuses | contracts/position-manager/src/contract.rs:151-164 | while paused nothing is opened, no order changed and no index pushed |
| Outcomes.PauseStopsClock | contracts/position-manager/src/contract.rs:151-178 | a pause freezes what a market is billed, after the unpause exactly the running time is billed, everything else is as before, and repeating either call does nothing |
| Outcomes.SettingsDecideOpens | contracts/position-manager/src/contract.rs:180-207 | caps from 2 to 200 are accepted and decide the opens of their market; a disabled market refuses opens until enabled; no other market is affected |
| Outcomes.WithdrawSucceedsIff | contracts/vault/src/contract.rs:169-188 | a withdrawal is accepted if and only if the vault runs, the lockup is over and positive assets fit into balance − reserved − fees − positive trader PnL |
| Outcomes.DepositIff | contracts/vault/src/contract.rs:105-123 | a deposit is accepted if and only if the vault runs and the user holds the assets; it moves them and sets the lockup to now + cooldown |
| Outcomes.ClaimSucceedsIff | contracts/vault/src/contract.rs:392-428 | a fee claim is accepted if and only if the buffer and the vault hold the positive amount; the full claim empties the buffer |
| Outcomes.VaultPauseRefuses | contracts/vault/src/contract.rs:430-444 | a paused vault refuses deposits and withdrawals, and unpausing restores it |
| Guarantees.OpenKeepsAccruals | contracts/position-manager/src/increase.rs:82-127 | an accepted open forgives no accrued borrow fee, changes accrued borrow and funding by rounding only, and starts a new position with neither |
| Guarantees.WithdrawalLeavesClaims | contracts/vault/src/contract.rs:169-188 | an accepted withdrawal, to whomever it is sent, met pause and lockup, pays exactly the assets and leaves every dollar reserved, owed as fees or owed as positive trader PnL |
| Guarantees.ClaimTakesFees | contracts/vault/src/contract.rs:409-428 | a fee claim takes exactly the claimed amount out of the buffer; sent to anyone but the vault it leaves with it and the safe basis stays, sent to the vault it becomes liquidity |
| Settlement.CloseNet | contracts/position-manager/src/close.rs:322-415 | net effect of all payments of a close: the manager gives up exactly slice and released escrow, the trader gets the positive part of effective health, the executor bounty or escrow, the vault the rest; fees only grow; solvency is kept; nobody else's balance moves |
| Settlement.RouteBalanced | contracts/position-manager/src/close.rs:342-359 | the routing splits the slice exactly: payout + bounty + absorbed = slice, bounty within what the trader does not get, nothing absorbed when the payout exceeds the slice |
| Settlement.UnderwaterSettles | contracts/position-manager/src/close.rs:337-402 | reservation, custody and solvency are enough for a close with nothing left for the trader to pass every release, transfer, delta and accrual guard |
| Settlement.OpenNet | contracts/position-manager/src/increase.rs:175-184 | net effect of an open: the trader pays collateral + fee + escrow in one transfer, the manager keeps collateral + escrow, the vault the fee, at most the fee is tagged |
| Settlement.EscrowNet | contracts/position-manager/src/tp_sl_escrow.rs:102-136 | who receives the escrow of a close, by kind of close, and that it leaves the manager once or stays |
| Settlement.ReceiveNet | contracts/position-manager/src/revenue.rs:29-64 | new revenue moves in full from manager to vault and tags at most itself |
| Settlement.ResliceTags | contracts/position-manager/src/revenue.rs:49-64 | retagging revenue adds exactly its dev and staker share, rounded down, to the fee buffer |
| Settlement.CloseTags | contracts/position-manager/src/close.rs:390-415 | a close of any kind tags the share of its fees and, when it is a liquidation, of the escrow it forfeits, and nothing more |
| Steps.CloseKeeps | contracts/position-manager/src/close.rs:310-463 | a close of any kind keeps the invariant and solvency |
| Steps.OpenKeeps | contracts/position-manager/src/increase.rs:22-207 | an accepted open keeps the invariant |
| BookSteps.CloseKeepsDrift | contracts/position-manager/src/math.rs:162-177 | one close raises the notional error of a side by at most its peak open interest |
| BookSteps.OpenKeepsDrift | contracts/position-manager/src/math.rs:118-132 | one open raises the notional error of a side by at most its peak open interest |
| BookSteps.CloseKeepsPositions | contracts/position-manager/src/close.rs:438-458 | a partial close leaves positive size and collateral and does not raise leverage |
| BookSteps.CloseKeepsOi | contracts/position-manager/src/close.rs:417-436 | a close lowers the open interest of the position's side by exactly the size that leaves it |
| RiskMath.BorrowRateMonotone | contracts/position-manager/src/math.rs:55-69 | the kink rate is at least the base rate and never falls as utilization rises, on either side of the kink and across it |
| RiskMath.BorrowRateExact | contracts/position-manager/src/math.rs:55-69 | the rate is the base plus the area under the two slopes, each part rounded down on its own |
| RiskMath.PnlTracksMove | contracts/position-manager/src/math.rs:7-22 | a long gains what a short at the same entry loses, and either PnL is the price move's share of the size up to less than one unit, with its sign |
| RiskMath.PositionPnlExact | contracts/position-manager/src/math.rs:7-22 | PnL is size × gain / entry price truncated toward zero, said by the multiples it lies between |
| RiskMath.BorrowFeeExact | contracts/position-manager/src/math.rs:24-30 | the borrow fee is size × index move / index precision, truncated |
| RiskMath.FundingFeeExact | contracts/position-manager/src/math.rs:32-44 | funding is minus that for a long and plus that for a short, truncated toward zero |
| RiskMath.AccumulateIndexExact | contracts/position-manager/src/math.rs:98-116 | an accrual is rate × index precision × seconds / (10,000 × a year), truncated toward zero, for every rate of either sign |
| RiskMath.WeightedAverageExact | contracts/position-manager/src/math.rs:118-132 | the average is the joint notional over the joint size, truncated, for indices of either sign |
| RiskMath.UtilizationExact | contracts/position-manager/src/math.rs:203-208 | utilization is the reservation over the basis in basis points, rounded down, and zero on an empty basis |
| RiskMath.OpenFeeExact | contracts/position-manager/src/math.rs:210-215 | the fee is the configured share of the size, rounded down |
| RiskMath.LiquidationBountyExact | contracts/position-manager/src/math.rs:217-222 | the bounty is the configured share of the collateral, rounded down |
| RiskMath.AddingKeepsAccruedFunding | contracts/position-manager/src/increase.rs:97-102 | adding to a position changes its accrued funding by at most new size / index precision + 1, whatever the signs |
| RiskMath.BorrowFeeMonotone | contracts/position-manager/src/math.rs:24-30 | a borrow fee is monotone in the index and non-negative from the entry index on |
| RiskMath.UtilizationMonotone | contracts/position-manager/src/math.rs:203-208 | with non-negative reservations utilization is non-negative and never rises with the basis, between positive bases, between empty ones, or with nothing reserved; from an empty basis to a positive one it can rise from its conventional zero |
| RiskMath.WeightedAverageNotional | contracts/position-manager/src/math.rs:118-132 | averaging keeps the notional up to less than one unit per unit of size, rounding down, and exactly on an empty side |
| RiskMath.WeightedAverageBetween | contracts/position-manager/src/math.rs:118-132 | an average of two quotes lies between them |
| RiskMath.AverageAfterRemovalNotional | contracts/position-manager/src/math.rs:162-177 | removal leaves zero, or the remaining notional up to less than one unit per remaining unit of size |
| RiskMath.AddingKeepsAccruedBorrow | contracts/position-manager/src/increase.rs:89-103 | adding to a position never forgives accrued borrow and raises it by at most new size / index precision + 1 |
| Evaluations.FundingIsZeroSum | contracts/position-manager/src/tick.rs:159-185 | for any positions that make up a market's open interest and share an entry index: funding received < funding paid + number of payers, and nothing is received when nobody pays |
| Evaluations.EvaluationFacts | contracts/position-manager/src/tick.rs:142-197 | bounds and signs of the parts of an evaluation used by settlement |
| Evaluations.EvaluationExact | contracts/position-manager/src/tick.rs:142-213 | each part of an evaluation by the multiples it lies between: PnL, borrow fee, raw funding, a receiver's funding scaled by payer over receiver open interest, the protocol's cut of it, and health as their sum |
| Evaluations.ThresholdBounds | contracts/position-manager/src/close.rs:129-135 | the liquidation threshold is the configured share of the collateral, rounded down, between zero and a tenth of it |
| FundingRates.ComputeFundingRate | contracts/position-manager/src/math.rs:71-96 | the loop terminates on every input and computes the specified rate |
| FundingRates.HalveStaysPositive | contracts/position-manager/src/math.rs:82-93 | the zero-denominator return is never reached: the halved total stays positive, bounds the halved imbalance, and both are the originals divided by one power of two |
| FundingRates.FundingRateBounded | contracts/position-manager/src/math.rs:71-96 | with non-negative open interest abs(rate) ≤ base, and the rate points from the larger side to the smaller |
| FundingRates.FundingRateMatchesBigint | packages/protocol-math/src/pure.ts:69-81 | contract and mirror compute the same rate whenever the product fits |
| FundingRates.BigintFundingRateExact | packages/protocol-math/src/pure.ts:69-81 | the rate is imbalance × base over total open interest, truncated toward zero, and zero in an empty market |
| FundingRates.FundingRateNearBigint | contracts/position-manager/src/math.rs:79-94 | after halving the rate is within base / final total + 1 of the mirror's |
| FundingRates.HalvedRateDiffers | packages/protocol-math/src/pure.ts:76-80 | a concrete input on which the halved rate is below the mirror's |
| AggregatePnl.MeanEntryMisstates | contracts/position-manager/src/math.rs:183-201 | in exact arithmetic PnL from the size-weighted mean entry is at most the sum of individual PnLs for longs and at least it for shorts, with equality if and only if all entries coincide |
| AggregatePnl.RatioAboveMean | contracts/position-manager/src/math.rs:179-201 | size over mean entry is at most the sum of size over entry, with equality if and only if all entries coincide |
| Splitting.DecreasesMatchOneShot | contracts/position-manager/src/close.rs:29-108 | k accepted decreases of a position at one time and price, as a run of calls: the manager gives up exactly its collateral and escrow, and the booked PnL and borrow fee are within k − 1 units of closing at once |
| Splitting.DecreasesBookTotals | contracts/position-manager/src/close.rs:381-458 | that run takes the position out of the book, books the totals of its pieces, and settles every piece at one borrow index |
| Splitting.PiecesMatchOneShot | contracts/position-manager/src/close.rs:64-80 | the arithmetic of it: pieces of one position at one price and index add up to the one-shot PnL and borrow fee within k − 1 units |
| Lockup.LockupAfter | contracts/vault/src/logic.rs:68-106 | what one call does to an address's lockup: restarted by an own deposit, raised to a sender's running one by a share transfer, untouched by everything else |
| Lockup.LockupNeverShortens | contracts/vault/src/logic.rs:68-76 | while cooldowns do not fall no run of calls shortens anyone's lockup |
| Lockup.ReachedStaysLocked | contracts/vault/src/logic.rs:88-106 | every address reached by a chain of transfers made before an expiry carries at least that expiry |
| Lockup.LockupHasOrigin | contracts/vault/src/logic.rs:88-106 | every lockup stems from a deposit, or from an address that had it at the start, along a chain of transfers |
| Lockup.LockedExactlyByDeposits | contracts/vault/src/contract.rs:38-48 | an address is locked until a time if and only if a deposit with at least that expiry reached it: no chain sheds a lockup and none invents one |
| Lockup.WithdrawalLockedExactly | contracts/vault/src/contract.rs:169-188 | a withdrawal from the running vault is refused for its lockup if and only if a still locked deposit reached the owner |
| Lockup.DepositShortensIff | contracts/vault/src/logic.rs:68-76 | a deposit shortens the stored lockup if and only if that one ends after now + cooldown |
| Lockup.LoweredCooldownShortens | contracts/vault/src/contract.rs:105-123 | from freshly initialized contracts, two valid deposits of which the second, under a lowered cooldown, shortens the lockup |
| VaultContracts.Token.Transfer | contracts/vault/src/logic.rs:155-157 | a transfer fails on a negative amount or an insufficient balance and otherwise moves exactly the amount between the two holders |
| VaultContracts.Vault.TotalAssetsExclPnl | contracts/vault/src/logic.rs:138-143 | the safe basis: total assets less the fee buffer, at least zero |
| VaultContracts.Vault.FreeLiquidity | contracts/vault/src/logic.rs:124-132 | free liquidity: total assets less reservation, fees and positive trader PnL, at least zero |
| VaultContracts.Vault.PayProfit | contracts/vault/src/contract.rs:256-282 | pays from free liquidity only; error and storage are those of the specified operation |
| VaultContracts.Vault.ReserveLiquidity | contracts/vault/src/contract.rs:284-301 | reserves up to total assets; error and storage as specified |
| VaultContracts.Vault.ReleaseLiquidity | contracts/vault/src/contract.rs:303-319 | releases at most what is reserved; error and storage as specified |
| VaultContracts.Vault.RecordAbsorbedCollateral | contracts/vault/src/contract.rs:334-357 | accepts exactly the balance change it is told of and changes nothing |
| VaultContracts.Vault.AccrueFees | contracts/vault/src/contract.rs:368-390 | accrues fees only while fees + reservation stay within total assets; error and storage as specified |
| VaultContracts.Vault.ClaimFees | contracts/vault/src/contract.rs:392-407 | pays out the whole fee buffer; error and storage as specified |
| VaultContracts.Vault.ClaimFeesTo | contracts/vault/src/contract.rs:409-428 | pays out part of the fee buffer; error and storage as specified |
| VaultContracts.Vault.Deposit | contracts/vault/src/contract.rs:105-123 | restarts the lockup and takes the assets; error and storage as specified |
| VaultContracts.Vault.Withdraw | contracts/vault/src/contract.rs:169-188 | pause, lockup and free-liquidity guards, in that order, then the payment |
| VaultContracts.Vault.RequireLockupElapsed | contracts/vault/src/logic.rs:79-86 | fails if and only if a stored expiry lies in the future |
| VaultContracts.Vault.PropagateLockup | contracts/vault/src/logic.rs:92-106 | hands a running lockup to the recipient when it is the later one |
| PositionManagerContracts.PositionManager.ViewVault | contracts/position-manager/src/vault_view.rs:36-42 | snapshots reservation and safe basis |
| PositionManagerContracts.PositionManager.RefreshTick | contracts/position-manager/src/tick.rs:53-133 | pause-clamped accrual stored only for a positive window, then the price; result and storage as specified |
| PositionManagerContracts.PositionManager.RefreshMarketPnl | contracts/position-manager/src/pnl_refresh.rs:21-47 | market cache, total and vault figure are updated by the same delta |
| PositionManagerContracts.PositionManager.ReceiveNewRevenue | contracts/position-manager/src/revenue.rs:29-40 | transfer to the vault followed by the slice; error and storage as specified |
| PositionManagerContracts.PositionManager.Reslice | contracts/position-manager/src/revenue.rs:49-54 | tags the slice of dollars already in the vault |
| PositionManagerContracts.PositionManager.AccrueNonLpSlice | contracts/position-manager/src/revenue.rs:56-64 | accrues the non-LP share if it is positive |
| PositionManagerContracts.PositionManager.ApplyEscrow | contracts/position-manager/src/tp_sl_escrow.rs:74-86 | charges or refunds an escrow change; error and storage as specified |
| PositionManagerContracts.PositionManager.SettleEscrowOnClose | contracts/position-manager/src/tp_sl_escrow.rs:102-136 | routes the escrow by kind of close; error and storage as specified |
| PositionManagerContracts.PositionManager.SettleClose | contracts/position-manager/src/close.rs:322-415 | the settlement cluster, in the contract's order, ends in the funds of the specified chain of payments and books the realized PnL |
| PositionManagerContracts.PositionManager.StoreClose | contracts/position-manager/src/close.rs:417-460 | average before open interest, then position and market |
| PositionManagerContracts.PositionManager.ExecuteCloseOf | contracts/position-manager/src/close.rs:310-464 | a close ends in exactly the specified world or stops with the specified error |
| PositionManagerContracts.PositionManager.DecreasePosition | contracts/position-manager/src/close.rs:29-110 | decrease, as specified, with its order of errors |
| PositionManagerContracts.PositionManager.LiquidatePosition | contracts/position-manager/src/close.rs:116-165 | liquidation, as specified, with its order of errors |
| PositionManagerContracts.PositionManager.DeleverageTarget | contracts/position-manager/src/close.rs:171-232 | deleverage, as specified, with its order of errors |
| PositionManagerContracts.PositionManager.ExecuteTriggeredOrder | contracts/position-manager/src/close.rs:238-293 | order execution, as specified, with its order of errors |
| PositionManagerContracts.PositionManager.FundOpen | contracts/position-manager/src/increase.rs:175-184 | bundled transfer, open fee, reservation, in that order |
| PositionManagerContracts.PositionManager.OpenOrAdd | contracts/position-manager/src/increase.rs:55-206 | validation, funding and storage of an increase; error and world as specified |
| PositionManagerContracts.PositionManager.IncreasePosition | contracts/position-manager/src/contract.rs:47-78 | increase with its guards, as specified |
| PositionManagerContracts.PositionManager.SetOrders | contracts/position-manager/src/tp_sl.rs:16-49 | TP/SL change with its escrow movement, as specified |
| PositionManagerContracts.PositionManager.UpdateIndicesOf | contracts/position-manager/src/contract.rs:103-115 | refresh and PnL push, refused while paused |
| Hosts.Host.Submit | contracts/position-manager/src/contract.rs:47-211 | any call of the three contracts takes effect as a whole or not at all, equals the specified step, and keeps the invariant |
| OffchainMirror.EvaluationsAgree | packages/protocol-math/src/tick.ts:91-141 | on equal indices, open interest and mark the mirror computes every settled figure of the contract |
| OffchainMirror.GateAtMark | packages/protocol-math/src/eval.ts:77-84 | the gate at any mark is a bound on PnL alone, fees fixed |
| OffchainMirror.LiquidationPriceSound | packages/protocol-math/src/eval.ts:67-87 | while the gate needs no profit: no mark at or better than the displayed price is liquidatable, and every mark worse by ceil(entry / size) + 1 is; mirrored for shorts |
| OffchainMirror.LiquidationPriceTight | packages/protocol-math/src/eval.ts:67-87 | once fees require a profit: every better mark is safe and every worse one liquidatable |
| OffchainMirror.DisplayedPriceLiquidatable | packages/protocol-math/src/eval.ts:85-86 | the displayed price itself is liquidatable if and only if a profit is required and the size does not divide entry × required profit |
| OffchainMirror.GateMonotoneInMark | contracts/position-manager/src/close.rs:129-135 | a worse mark is never safer |
| Keeper.ScanLiquidationCandidates | packages/keeper/src/scanner.ts:135-159 | candidates are exactly the flagged rows with their health, each as often as it occurs, worst first, ties in row order |
| Keeper.CandidateIff | packages/keeper/src/scanner.ts:135-159 | on a mirroring snapshot the candidates are exactly the rows below their threshold with the missing borrow fee added back: with an empty fee buffer the scan misses no liquidatable row |
| Keeper.CandidateParameters | packages/keeper/src/scanner.ts:139-150 | the threshold is the mirrored or the fallback rate's share of the collateral, truncated, and the funding cut the mirrored one or zero |
| OffchainMirror.PauseGap | packages/protocol-math/src/tick.ts:44-51 | the mirror projects over exactly the seconds the contract bills plus the time since a running pause began; the windows agree if and only if there is no such time |
| OffchainMirror.ProjectionLags | packages/protocol-math/src/tick.ts:44-82 | paused or not, the projection equals the accrual to now in everything but a borrow index that may lag |
| OffchainMirror.ProjectionExact | packages/protocol-math/src/tick.ts:44-82 | the projected indices move by their rates for all seconds since the last update or unpause, the borrow rate at the utilization of the whole balance |
| OffchainMirror.FlaggedIff | packages/keeper/src/scanner.ts:135-159 | the keeper flags a position if and only if its health on the market accrued to now, plus the borrow fee the mirror's index leaves out, is below the threshold; without unclaimed fees nothing is left out |
| OffchainMirror.FlaggedIsLiquidatable | contracts/position-manager/src/close.rs:129-135 | a flagged position is below its threshold on the market accrued to now, and while the windows agree on the contract's own refresh |
| OffchainMirror.SolventIsComparable | contracts/position-manager/src/vault_view.rs:12-15 | a sound solvent snapshot is comparable when the funding product fits, or when the base rate is at most 100% a year and the utilization product fits |
| FundingRates.FundingProductFits | contracts/position-manager/src/math.rs:71-78 | with a base rate up to 100% a year the funding product fits whenever the utilization product over the same open interest does, so the contract never halves |
| Keeper.ScanHasNoFalsePositives | packages/keeper/src/scanner.ts:135-159 | on a comparable mirrored snapshot every candidate is below its threshold once accrued to now, and passes the contract's guards unless a pause began earlier than now |
| ScanLimits.PauseFalsePositive | packages/protocol-math/src/tick.ts:47-51 | a reachable solvent world a year into a pause in which the keeper flags a position the contract refuses to liquidate |
| ScanLimits.OverflowFalsePositive | contracts/position-manager/src/math.rs:79-94 | a reachable solvent unpaused world with a base rate of 600% in which only the funding product overflows, every other product of the call fits, and the keeper flags a position the contract refuses |
| Keeper.RankedStable | packages/keeper/src/scanner.ts:157 | the ranking is an ascending stable permutation |
| Keeper.FindAdlTarget | packages/keeper/src/scanner.ts:169-191 | returns the first profitable row with the highest positive score, and nothing if and only if no profitable row scores at least one |
| Keeper.PassedOverIff | packages/keeper/src/scanner.ts:183-187 | a profitable row scores nothing if and only if its profit × size is below its collateral |
| Keeper.ScoreExact | packages/keeper/src/scanner.ts:183-187 | a score is profit × size / collateral, truncated |
| Keeper.TargetDeleveragesIff | packages/keeper/src/scanner.ts:169-191 | when the rows mirror a sound solvent world, deleveraging a row the ranking considers succeeds on chain if and only if the protocol is over one of its two caps on a positive basis and the vault can pay: it is never refused for lack of profit |
| Keeper.ProfitableYetPassedOver | packages/keeper/src/scanner.ts:161-168 | a concrete profitable row that the ranking passes over |
| PriceAggregation.InsertionSort | contracts/oracle-router/src/logic.rs:189-204 | the in-place sort leaves the sorted permutation of the array |
| PriceAggregation.InsertKey | contracts/oracle-router/src/logic.rs:191-203 | one pass extends the ascending prefix by one entry and permutes the array |
| PriceAggregation.AscendingUnique | contracts/oracle-router/src/logic.rs:187-204 | there is only one ascending permutation, so the sort is determined |
| PriceAggregation.AggregateSound | contracts/oracle-router/src/logic.rs:127-152 | an accepted price is the lower median of at least the required number of prices and within the allowed deviation of each |
| PriceAggregation.AggregateIff | contracts/oracle-router/src/logic.rs:121-145 | prices give one if and only if there are at least the required number and each lies within the allowed deviation of the lower median, whose deviation product fits i128; the price is that median |
| PriceAggregation.MedianBetweenHonest | contracts/oracle-router/src/logic.rs:208-214 | when fewer than half of the prices are arbitrary the median lies between two honest ones |
| PriceAggregation.UsableDataDistinct | contracts/oracle-router/src/logic.rs:77-106 | different sources give different answers to the quorum |
| PriceAggregation.UsableDataIff | contracts/oracle-router/src/logic.rs:77-106 | an answer is used, unchanged, if and only if its source is listed, both queries succeeded, and it is positive, not from the future and not stale |
| PriceAggregation.MedianIndex | contracts/oracle-router/src/logic.rs:208-214 | the lower-median index is in range and splits the order in halves |
| OracleRouters.QueryBacked | contracts/oracle-router/src/logic.rs:119-152 | every accepted price is backed: quorum of distinct sources, positive, fresh, lower median, all within the deviation |
| OracleRouters.QueryIff | contracts/oracle-router/src/logic.rs:119-152 | a round of answers gives a price if and only if enough of them are usable and all are near enough to their lower median |
| OracleRouters.BackedByHonest | contracts/oracle-router/src/logic.rs:127-152 | a backed price lies between two honest answers when fewer than half are arbitrary |
| OracleRouters.FirstOccurrencesSound | contracts/oracle-router/src/logic.rs:174-185 | deduplication loses no source, repeats none and keeps the order of first occurrences |
| OracleRouters.OracleRouter.DedupSources | contracts/oracle-router/src/logic.rs:174-185 | the nested loops keep exactly the first occurrences |
| OracleRouters.OracleRouter.SetOracleSources | contracts/oracle-router/src/contract.rs:32-45 | refuses lists over sixteen and stores the deduplicated list otherwise |
| OracleRouters.OracleRouter.QuerySources | contracts/oracle-router/src/logic.rs:77-106 | collects the usable prices in source order and skips every other answer |
| OracleRouters.OracleRouter.AggregatePrices | contracts/oracle-router/src/logic.rs:121-145 | quorum, sort, median and deviation check with their errors |
| OracleRouters.OracleRouter.FetchAndValidatePrice | contracts/oracle-router/src/logic.rs:111-170 | serves the cached price while young, otherwise a fresh one it caches; a failure changes nothing; any served price rests on answers at most threshold + cache duration old |

## Left out

- ERC-4626 shares: deposits and withdrawals move assets under the vault's own guards; share
  prices, share balances and `mint`/`redeem` conversions are not part of this model. A share
  transfer is its effect on lockups only.
- Token internals: allowances, authorization and metadata; the token is a balance map with a
  checked transfer.
- Roles, authentication, initialization flags, TTL bumps, events and storage keys: the caller
  is taken to be authorized, and only the manager calls the vault's manager-only methods.
- Configuration setters, admin handover and the upgrade timelock: a call reads any valid
  configuration, which may differ from call to call.
- The link between oracle router and position manager: a call carries the oracle's answer, a
  positive price or a failure; the router is modelled on its own.
- Integer overflow outside the funding rate, the leverage product and the oracle deviation:
  a trap reverts the transaction in the source, the model computes on.
- Keeper loop, its deleverage trigger, deduplication, database access and row parsing: rows
  hold integers, and `Mirrors` says when they show the contracts' state.
- `liquidationPriceAtOpen` and the rest of quote.ts: quotes before a position exists.
- Oracle publishers, indexer, servers, bindings and frontend: I/O and generated code.
- Runs.LedgerBalances: carries a term for tokens sent to the vault outside a deposit, which the
  contracts cannot refuse: plain transfers, and withdrawals or claims with the vault as recipient.
  Without such gifts it is the plain identity.
- Runs.CustodyExact: carries the like term for the manager.
- VaultContracts.Vault.Deposit: moves the assets and restarts the lockup; minting the shares, its
  rounding and its limits are not part of this model.
- VaultContracts.Vault.Withdraw: checks pause, lockup and free liquidity and moves the assets;
  burning the owner's shares, and the limit their number sets, are not part of this model.
- Keeper.ScanHasNoFalsePositives: reaches the contract's guards only when no pause began earlier
  than now and the funding product fits `i128`; `ScanLimits.PauseFalsePositive` and
  `ScanLimits.OverflowFalsePositive` show that neither can be dropped.
- ScanLimits.OverflowFalsePositive: gives the vault its dollars by a plain transfer, because the
  vault's shares of a deposit of that size would not fit `i128`.
- AggregatePnl.MeanEntryMisstates: is about exact arithmetic; `MarketPnl.AveragePnlBound` is the
  statement about the contract's integers.
