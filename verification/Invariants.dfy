/** What every reachable world satisfies. */
module Invariants {
  import opened FixedPoint
  import opened Types
  import opened MapSums
  import opened VaultLedger
  import opened Ledger
  import opened Settlement

  type Positions = map<PositionKey, Position>
  type Markets = map<Symbol, Market>

  // ----- Weights of a position or a market in a sum -----

  function SizeWeight(k: PositionKey, p: Position): int {
    p.size
  }

  function CustodyWeight(k: PositionKey, p: Position): int {
    p.collateral + p.escrow
  }

  function EscrowWeight(k: PositionKey, p: Position): int {
    p.escrow
  }

  function OiWeight(s: Symbol, m: Market): int {
    m.longOi + m.shortOi
  }

  function PnlWeight(s: Symbol, pnl: int): int {
    pnl
  }

  predicate OnSide(k: PositionKey, p: Position, side: Side) {
    k.symbol == side.symbol && p.isLong == side.isLong
  }

  function SideSize(side: Side): (PositionKey, Position) -> int {
    (k: PositionKey, p: Position) => if OnSide(k, p, side) then p.size else 0
  }

  /** Entry price times size, summed over one side of a market. */
  function SideNotional(side: Side): (PositionKey, Position) -> int {
    (k: PositionKey, p: Position) => if OnSide(k, p, side) then p.entryPrice * p.size else 0
  }

  function OiOf(m: Market, isLong: bool): int {
    if isLong then m.longOi else m.shortOi
  }

  function AvgOf(m: Market, isLong: bool): int {
    if isLong then m.longAvg else m.shortAvg
  }

  function SideOi(markets: Markets, side: Side): int {
    if side.symbol in markets then OiOf(markets[side.symbol], side.isLong) else 0
  }

  function SideAvg(markets: Markets, side: Side): int {
    if side.symbol in markets then AvgOf(markets[side.symbol], side.isLong) else 0
  }

  // ----- The parts of the invariant -----

  predicate SoundPosition(p: Position) {
    && p.size > 0 && p.collateral > 0 && p.entryPrice > 0 && p.entryBorrowIndex >= 0
    && p.takeProfit >= 0 && p.stopLoss >= 0 && p.escrow >= 0
    && (p.escrow > 0 ==> p.takeProfit > 0 || p.stopLoss > 0)
  }

  /** Open positions are well formed, never ahead of their market's borrow index, and
      within the leverage cap of their last increase. */
  ghost predicate PositionsSound(positions: Positions, markets: Markets, caps: map<PositionKey, int>) {
    forall k :: k in positions ==>
      && SoundPosition(positions[k])
      && k.symbol in markets
      && positions[k].entryBorrowIndex <= markets[k.symbol].accBorrowIndex
      && k in caps && 2 <= caps[k] <= 200
      && positions[k].size <= positions[k].collateral * caps[k]
  }

  predicate SoundMarket(m: Market) {
    && m.longOi >= 0 && m.shortOi >= 0 && m.longAvg >= 0 && m.shortAvg >= 0
    && (m.longOi == 0 ==> m.longAvg == 0) && (m.shortOi == 0 ==> m.shortAvg == 0)
    && m.accBorrowIndex >= INDEX_PRECISION
  }

  ghost predicate MarketsSound(markets: Markets) {
    forall s :: s in markets ==> SoundMarket(markets[s])
  }

  predicate LeverageSound(maxLeverage: map<Symbol, int>) {
    forall s :: s in maxLeverage ==> 2 <= maxLeverage[s] <= 200
  }

  /** Each market side's open interest is the size open on that side. */
  ghost predicate OiMatches(positions: Positions, markets: Markets) {
    forall side: Side :: SideOi(markets, side) == Sum(positions, SideSize(side))
  }

  /** Reserved liquidity is the total open size, which is the total open interest. */
  ghost predicate ReservationMatches(positions: Positions, markets: Markets, reserved: int) {
    && reserved == Sum(positions, SizeWeight)
    && reserved == Sum(markets, OiWeight)
  }

  /** The manager holds exactly its positions' collateral and escrow, plus gifts. */
  ghost predicate Custody(positions: Positions, held: int, donated: int) {
    held == Sum(positions, CustodyWeight) + donated
  }

  /** Each dollar of escrow charged was refunded, paid out, forfeited, or is still held. */
  ghost predicate EscrowBooks(positions: Positions, h: History) {
    h.escrowCharged == h.escrowRefunded + h.escrowPaidOut + h.escrowForfeited + Sum(positions, EscrowWeight)
  }

  /** The vault's dollars and realized PnL account for everything that went in and out. */
  predicate LedgerIdentity(totalAssets: int, realizedPnl: int, h: History) {
    totalAssets + realizedPnl
    == h.deposits - h.withdrawals + h.donatedToVault + h.openFees + h.escrowForfeited
       - h.claimedFees - h.bounties - h.badDebt
  }

  /** The vault sees the manager's total, which is the sum of the per-market caches. */
  ghost predicate PnlBooks(pm: ManagerState, netTraderPnl: int) {
    && netTraderPnl == pm.totalUnrealizedPnl
    && pm.totalUnrealizedPnl == Sum(pm.cachedPnl, PnlWeight)
  }

  /** By how much a side's average price misstates the notional of its positions. */
  ghost function DriftOf(positions: Positions, markets: Markets, side: Side): int {
    SideAvg(markets, side) * SideOi(markets, side) - Sum(positions, SideNotional(side))
  }

  ghost predicate SideDriftBounded(positions: Positions, markets: Markets, h: History, side: Side) {
    && SideOi(markets, side) <= PeakOn(h, side)
    && 0 <= PeakOn(h, side)
    && Abs(DriftOf(positions, markets, side)) <= TradesOn(h, side) * PeakOn(h, side)
  }

  ghost predicate DriftBounded(positions: Positions, markets: Markets, h: History) {
    forall side: Side :: SideDriftBounded(positions, markets, h, side)
  }

  /** Clock readings: the stored timestamps lie in the past and a running pause started
      after everything that was billed. */
  predicate ClockSound(now: nat, pm: ManagerState) {
    && pm.lastUnpause <= now && pm.lastPause <= now
    && (pm.paused ==> pm.lastUnpause <= pm.lastPause)
    && (forall s :: s in pm.markets ==> pm.markets[s].lastIndexUpdate <= now)
    && (pm.paused ==> forall s :: s in pm.markets ==> pm.markets[s].lastIndexUpdate <= pm.lastPause)
  }

  /** Billed windows of one market follow one another and end by its last update. */
  predicate WindowsOrdered(markets: Markets, windows: seq<Window>) {
    && (forall i :: 0 <= i < |windows| ==>
          && windows[i].start < windows[i].end
          && windows[i].symbol in markets
          && windows[i].end <= markets[windows[i].symbol].lastIndexUpdate)
    && (forall i, j :: 0 <= i < j < |windows| && windows[i].symbol == windows[j].symbol ==>
          windows[i].end <= windows[j].start)
  }

  /** Paused spans lie before the last unpause or inside the running pause. */
  predicate SpansPlaced(now: nat, pm: ManagerState, spans: seq<Span>) {
    forall j :: 0 <= j < |spans| ==>
      && spans[j].start <= spans[j].end <= now
      && (spans[j].end <= pm.lastUnpause || (pm.paused && pm.lastPause <= spans[j].start))
  }

  predicate Apart(window: Window, span: Span) {
    window.end <= span.start || span.end <= window.start
  }

  predicate NothingBilledPaused(windows: seq<Window>, spans: seq<Span>) {
    forall i, j :: 0 <= i < |windows| && 0 <= j < |spans| ==> Apart(windows[i], spans[j])
  }

  predicate Billing(now: nat, pm: ManagerState, h: History) {
    && ClockSound(now, pm)
    && WindowsOrdered(pm.markets, h.windows)
    && SpansPlaced(now, pm, h.pausedSpans)
    && NothingBilledPaused(h.windows, h.pausedSpans)
  }

  /** Everything about the open positions and their markets. */
  ghost predicate Book(pm: ManagerState, h: History) {
    && PositionsSound(pm.positions, pm.markets, h.leverageCap)
    && MarketsSound(pm.markets)
    && LeverageSound(pm.maxLeverage)
    && OiMatches(pm.positions, pm.markets)
    && DriftBounded(pm.positions, pm.markets, h)
  }

  /** Everything about the dollars. */
  ghost predicate Money(f: Funds, pm: ManagerState, h: History) {
    && BalancesNonNegative(f)
    && f.vault.unclaimedFees >= 0
    && ReservationMatches(pm.positions, pm.markets, f.vault.reserved)
    && Custody(pm.positions, Balance(f, ManagerAccount), h.donatedToManager)
    && h.donatedToManager >= 0
    && EscrowBooks(pm.positions, h)
    && LedgerIdentity(TotalAssets(f), pm.realizedPnl, h)
    && PnlBooks(pm, f.vault.netTraderPnl)
  }

  ghost predicate Inv(w: World) {
    && Book(w.pm, w.history)
    && Money(w.funds, w.pm, w.history)
    && Billing(w.now, w.pm, w.history)
  }

  lemma InitialBook(w: World)
    requires Initial(w)
    ensures Book(w.pm, w.history)
  {
  }

  lemma InitialMoney(w: World)
    requires Initial(w)
    ensures Money(w.funds, w.pm, w.history)
  {
  }

  lemma InitialInv(w: World)
    requires Initial(w)
    ensures Inv(w) && Solvent(w.funds)
  {
    hide Money, Book;
    InitialBook(w);
    InitialMoney(w);
  }

  // ----- Consequences for a single position -----

  /** The sums bound each position: its size is reserved, its collateral and escrow are
      held. */
  lemma PositionBacked(w: World, key: PositionKey)
    requires Inv(w) && key in w.pm.positions
    ensures w.pm.positions[key].size <= w.funds.vault.reserved
    ensures w.pm.positions[key].collateral + w.pm.positions[key].escrow <= Balance(w.funds, ManagerAccount)
  {
    SumBoundsEntry(w.pm.positions, SizeWeight, key);
    SumBoundsEntry(w.pm.positions, CustodyWeight, key);
  }

  lemma ReservedNonNegative(w: World)
    requires Inv(w)
    ensures w.funds.vault.reserved >= 0
  {
    SumNonNegative(w.pm.positions, SizeWeight);
  }

  /** A position is part of its side's open interest. */
  lemma PositionWithinOi(w: World, key: PositionKey)
    requires Inv(w) && key in w.pm.positions
    ensures w.pm.positions[key].size
            <= OiOf(w.pm.markets[key.symbol], w.pm.positions[key].isLong)
  {
    var side := Side(key.symbol, w.pm.positions[key].isLong);
    SumBoundsEntry(w.pm.positions, SideSize(side), key);
    assert SideOi(w.pm.markets, side) == Sum(w.pm.positions, SideSize(side));
  }
}
