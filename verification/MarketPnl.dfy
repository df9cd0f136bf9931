/** The cached PnL of a market side, computed from its running average price, against the
    sum of its positions' own PnLs: the average hides some of the positions' gains, and
    beyond that only the drift of the average and the roundings set the two apart. */
module MarketPnl {
  import opened FixedPoint
  import opened Types
  import opened RiskMath
  import opened MapSums
  import opened Evaluations
  import opened VaultLedger
  import opened Ledger
  import opened Invariants
  import opened Entrypoints
  import opened Runs

  /** A position's PnL as if it were long; a short's is the opposite. */
  function AsLong(side: Side, mark: int): (PositionKey, Position) -> int {
    (k: PositionKey, p: Position) =>
      if OnSide(k, p, side) then UnrealizedPnl(p.size, p.entryPrice, mark, true) else 0
  }

  function OneEach(side: Side): (PositionKey, Position) -> int {
    (k: PositionKey, p: Position) => if OnSide(k, p, side) then 1 else 0
  }

  function OwnPnl(side: Side, mark: int): (PositionKey, Position) -> int {
    (k: PositionKey, p: Position) =>
      if OnSide(k, p, side) then UnrealizedPnl(p.size, p.entryPrice, mark, p.isLong) else 0
  }

  /** The value of a unit bought at `entry` lies above its tangent at `avg`. */
  lemma Tangent(size: int, entry: int, mark: int, avg: int)
    requires size > 0 && entry > 0 && mark >= 0 && avg > 0
    ensures avg * avg * (UnrealizedPnl(size, entry, mark, true) + 1)
            >= mark * size * (2 * avg - entry) - avg * avg * size
  {
    hide UnrealizedPnl;
    var gain := UnrealizedPnl(size, entry, mark, true) + 1;
    PnlTracksMove(size, entry, mark);
    Distribute(gain, 1, entry);
    assert entry * gain >= size * (mark - entry);
    MulLe(size * (mark - entry), entry * gain, avg * avg);
    Squares(size * mark, entry, avg);
    var tangent := mark * size * (2 * avg - entry) - avg * avg * size;
    TangentTimesEntry(size, entry, mark, avg);
    assert entry * (avg * avg * gain) == avg * avg * (entry * gain);
    MultiplesOrdered(tangent, avg * avg * gain, entry);
  }

  lemma Squares(weight: int, entry: int, avg: int)
    requires weight >= 0
    ensures weight * (entry * (2 * avg - entry)) <= weight * (avg * avg)
  {
    assert avg * avg - entry * (2 * avg - entry) == (avg - entry) * (avg - entry);
    MulLe(entry * (2 * avg - entry), avg * avg, weight);
  }

  lemma TangentTimesEntry(size: int, entry: int, mark: int, avg: int)
    ensures entry * (mark * size * (2 * avg - entry) - avg * avg * size)
            == size * mark * (entry * (2 * avg - entry)) - avg * avg * (size * entry)
    ensures avg * avg * (size * (mark - entry)) == size * mark * (avg * avg) - avg * avg * (size * entry)
  {
  }

  // ----- One side of a market -----

  predicate Priced(positions: Positions) {
    forall k :: k in positions ==> positions[k].size > 0 && positions[k].entryPrice > 0
  }

  /** The gains of positions with these sizes and notional lie above the tangent. */
  predicate AboveTangent(mark: int, avg: int, gains: int, sizes: int, notional: int) {
    avg * avg * gains >= mark * (2 * avg * sizes - notional) - avg * avg * sizes
  }

  lemma {:induction false} SideTangent(m: Positions, side: Side, mark: int, avg: int)
    requires Priced(m) && mark >= 0 && avg > 0
    ensures AboveTangent(mark, avg, Sum(m, AsLong(side, mark)) + Sum(m, OneEach(side)), Sum(m, SideSize(side)),
                         Sum(m, SideNotional(side)))
    decreases |m|
  {
    hide AboveTangent, UnrealizedPnl, Sum;
    if m == map[] {
      SumEmpty(m, AsLong(side, mark));
      SumEmpty(m, OneEach(side));
      SumEmpty(m, SideSize(side));
      SumEmpty(m, SideNotional(side));
      NothingAboveTangent(mark, avg);
    } else {
      var k :| k in m;
      var rest := m - {k};
      SideTangent(rest, side, mark, avg);
      SumPick(m, AsLong(side, mark), k);
      SumPick(m, OneEach(side), k);
      SumPick(m, SideSize(side), k);
      SumPick(m, SideNotional(side), k);
      if OnSide(k, m[k], side) {
        TangentsAdd(mark, avg, m[k].size, m[k].entryPrice, Sum(rest, AsLong(side, mark)) + Sum(rest, OneEach(side)),
                    Sum(rest, SideSize(side)), Sum(rest, SideNotional(side)));
      }
    }
  }

  lemma NothingAboveTangent(mark: int, avg: int)
    ensures AboveTangent(mark, avg, 0, 0, 0)
  {
  }

  lemma TangentsAdd(mark: int, avg: int, size: int, entry: int, gains: int, sizes: int, notional: int)
    requires size > 0 && entry > 0 && mark >= 0 && avg > 0
    requires AboveTangent(mark, avg, gains, sizes, notional)
    ensures AboveTangent(mark, avg, UnrealizedPnl(size, entry, mark, true) + gains + 1, sizes + size,
                         entry * size + notional)
  {
    hide UnrealizedPnl;
    var pnl := UnrealizedPnl(size, entry, mark, true);
    Tangent(size, entry, mark, avg);
    assert mark * size * (2 * avg - entry) == mark * (2 * avg * size - entry * size);
    Distribute(2 * avg * size - entry * size, 2 * avg * sizes - notional, mark);
    Distribute(pnl + 1, gains, avg * avg);
    Distribute(size, sizes, avg * avg);
    Distribute(size, sizes, 2 * avg);
  }

  lemma {:induction false} OwnPnlIs(m: Positions, side: Side, mark: int)
    requires Priced(m)
    ensures Sum(m, OwnPnl(side, mark)) == (if side.isLong then 1 else -1) * Sum(m, AsLong(side, mark))
    decreases |m|
  {
    if m == map[] {
      SumEmpty(m, AsLong(side, mark));
      SumEmpty(m, OwnPnl(side, mark));
    } else {
      var k :| k in m;
      OwnPnlIs(m - {k}, side, mark);
      hide Sum, UnrealizedPnl;
      SumPick(m, AsLong(side, mark), k);
      SumPick(m, OwnPnl(side, mark), k);
      PnlTracksMove(m[k].size, m[k].entryPrice, mark);
    }
  }

  /** What the average price makes of the whole side. */
  lemma AverageShare(mark: int, avg: int, oi: nat)
    requires avg > 0
    ensures avg * avg * (UnrealizedPnl(oi, avg, mark, true) - 1) <= mark * (avg * oi) - avg * avg * oi
  {
    hide UnrealizedPnl;
    var share := UnrealizedPnl(oi, avg, mark, true) - 1;
    PnlTracksMove(oi, avg, mark);
    Distribute(UnrealizedPnl(oi, avg, mark, true), 1, avg);
    MulLe(avg * share, oi * (mark - avg), avg);
    assert avg * avg * share == avg * (avg * share);
    assert avg * (oi * (mark - avg)) == mark * (avg * oi) - avg * avg * oi;
  }

  /** The two together, given how far the average has drifted. */
  lemma SideAgainstAverage(mark: int, avg: int, oi: nat, notional: int, gains: int, drift: nat)
    requires mark >= 0 && avg > 0 && Abs(avg * oi - notional) <= drift
    requires AboveTangent(mark, avg, gains, oi, notional)
    ensures avg * avg * (UnrealizedPnl(oi, avg, mark, true) - 1 - gains) <= mark * drift
  {
    hide UnrealizedPnl;
    AverageShare(mark, avg, oi);
    Distribute(UnrealizedPnl(oi, avg, mark, true) - 1, gains, avg * avg);
    var off := notional - avg * oi;
    MulLe(off, drift, mark);
    assert 2 * avg * oi - notional == avg * oi - off;
    Distribute(avg * oi, off, mark);
  }

  /** No long loses more than its size. */
  lemma {:induction false} LossWithinSize(m: Positions, side: Side, mark: int)
    requires Priced(m) && mark >= 0
    ensures Sum(m, AsLong(side, mark)) >= -Sum(m, SideSize(side))
    decreases |m|
  {
    if m == map[] {
      SumEmpty(m, AsLong(side, mark));
      SumEmpty(m, SideSize(side));
    } else {
      var k :| k in m;
      LossWithinSize(m - {k}, side, mark);
      hide Sum, UnrealizedPnl;
      SumPick(m, AsLong(side, mark), k);
      SumPick(m, SideSize(side), k);
      LossOfOne(m[k].size, m[k].entryPrice, mark);
    }
  }

  lemma LossOfOne(size: int, entry: int, mark: int)
    requires size > 0 && entry > 0 && mark >= 0
    ensures UnrealizedPnl(size, entry, mark, true) >= -size
  {
    hide UnrealizedPnl;
    PnlTracksMove(size, entry, mark);
    MulLe(0, mark, size);
    Distribute(mark, entry, size);
    var pnl := UnrealizedPnl(size, entry, mark, true);
    if pnl < -size {
      MulLe(pnl, -size - 1, entry);
      Distribute(-size, 1, entry);
    }
  }

  /** What a side's average price says its positions have gained. */
  function OfAverage(w: World, side: Side, mark: int): int {
    UnrealizedPnl(SideOi(w.pm.markets, side), SideAvg(w.pm.markets, side), mark, side.isLong)
  }

  /** `booked` for one side against its positions: a long side's exceeds the sum of their PnLs
      by at most one unit, one unit per position, and the drift of the average; a short side's
      falls below it by no more. An average that was clamped to zero books no PnL at all: then
      the drift covers the whole notional, and the two are no further apart than the open
      interest. */
  ghost predicate SideBooked(w: World, side: Side, mark: int, booked: int) {
    var avg, own := SideAvg(w.pm.markets, side), Sum(w.pm.positions, OwnPnl(side, mark));
    var roundings := Sum(w.pm.positions, OneEach(side)) + 1;
    var excess := if side.isLong then booked - own else own - booked;
    var drift := TradesOn(w.history, side) * PeakOn(w.history, side);
    && avg >= 0
    && avg * avg * (excess - roundings) <= mark * drift
    && (avg == 0 ==>
          && booked == 0 && excess <= SideOi(w.pm.markets, side)
          && Sum(w.pm.positions, SideNotional(side)) <= drift)
  }

  /** In every reachable world, at any mark, what a side's average price says of its PnL. */
  lemma AveragePnlBound(w: World, side: Side, mark: int)
    requires Reachable(w) && mark >= 0
    ensures SideBooked(w, side, mark, OfAverage(w, side, mark))
  {
    hide Sum, Reachable, UnrealizedPnl;
    var avg, oi := SideAvg(w.pm.markets, side), SideOi(w.pm.markets, side);
    AverageDriftBounded(w, side);
    OpenInterestExact(w, side);
    AllPriced(w, side);
    OwnPnlIs(w.pm.positions, side, mark);
    if avg > 0 {
      SideTangent(w.pm.positions, side, mark, avg);
      SideAgainstAverage(mark, avg, oi, Sum(w.pm.positions, SideNotional(side)),
                         Sum(w.pm.positions, AsLong(side, mark)) + Sum(w.pm.positions, OneEach(side)),
                         TradesOn(w.history, side) * PeakOn(w.history, side));
      PnlTracksMove(oi, avg, mark);
    } else {
      LossWithinSize(w.pm.positions, side, mark);
      MulLe(0, TradesOn(w.history, side) * PeakOn(w.history, side), mark);
      assert UnrealizedPnl(oi, 0, mark, side.isLong) == 0 by { NoPriceNoPnl(oi, mark, side.isLong); }
    }
  }

  lemma NoPriceNoPnl(oi: int, mark: int, isLong: bool)
    ensures UnrealizedPnl(oi, 0, mark, isLong) == 0
  {
  }

  lemma AllPriced(w: World, side: Side)
    requires Reachable(w)
    ensures Priced(w.pm.positions) && SideOi(w.pm.markets, side) >= 0 && SideAvg(w.pm.markets, side) >= 0
    ensures TradesOn(w.history, side) * PeakOn(w.history, side) >= 0
  {
    hide Sum, Money, Billing, Reachable;
    ReachableInv(w);
    assert SideDriftBounded(w.pm.positions, w.pm.markets, w.history, side);
  }

  // ----- The cached figure -----

  /** The PnL of a market by its averages at a mark. */
  function AtAverages(w: World, symbol: Symbol, mark: int): int {
    OfAverage(w, Side(symbol, true), mark) + OfAverage(w, Side(symbol, false), mark)
  }

  predicate IsClose(a: Action) {
    a.DoDecrease? || a.DoLiquidate? || a.DoDeleverage? || a.DoExecuteOrder?
  }

  /** The calls that mark a market to the oracle's price. */
  predicate Marks(a: Action) {
    IsClose(a) || a.DoIncrease? || a.DoUpdateIndices?
  }

  function MarkedSymbol(a: Action): Symbol
    requires Marks(a)
  {
    if a.DoIncrease? then a.order.key.symbol else if a.DoUpdateIndices? then a.symbol else a.key.symbol
  }

  /** What `RefreshPnl` caches for the markets it leaves. */
  ghost predicate CachesFormula(w: World, w': World, symbol: Symbol, mark: int) {
    var m := MarketOf(w', symbol);
    && w'.pm.cachedPnl
       == w.pm.cachedPnl[symbol := MarketUnrealizedPnl(m.longOi, m.longAvg, m.shortOi, m.shortAvg, mark)]
    && (forall s :: s != symbol ==> SameAverages(w, w', s))
  }

  predicate SameAverages(w: World, w': World, symbol: Symbol) {
    && (symbol in w'.pm.markets <==> symbol in w.pm.markets)
    && (symbol in w.pm.markets ==> w'.pm.markets[symbol] == w.pm.markets[symbol])
  }

  lemma ClosesCache(w: World, a: Action)
    requires IsClose(a) && Call(w, a).Ok?
    ensures a.env.quote.Some? && CachesFormula(w, Call(w, a).value, a.key.symbol, a.env.quote.value)
  {
    hide SettleFunds, Evaluate, LiquidationThreshold, AccruedMarket, BillingStart, BillingEnd, CollateralSlice,
         MarketAfterClose, PositionsAfterClose, HistoryAfterClose, SlipsOnClose, MarketUnrealizedPnl, Route,
         IsTakeProfitTriggered, IsStopLossTriggered;
  }

  lemma OthersCache(w: World, a: Action)
    requires !IsClose(a) && Call(w, a).Ok?
    ensures Marks(a) ==>
              && a.env.quote.Some?
              && CachesFormula(w, Call(w, a).value, MarkedSymbol(a), a.env.quote.value)
    ensures !Marks(a) ==>
              Call(w, a).value.pm.cachedPnl == w.pm.cachedPnl && Call(w, a).value.pm.markets == w.pm.markets
  {
    hide OpenFunds, AccruedMarket, BillingStart, BillingEnd, IncreasedPosition, MarketAfterOpen, Traded, EscrowOwed,
         MarketUnrealizedPnl, UtilizationBps, OpenFee, Deposit, Withdraw, ClaimFees, ClaimFeesTo, PropagateLockup,
         Transfer, ApplyEscrowDelta, EscrowDelta;
  }

  /** Every accepted trade or index update caches, for its market and at its mark, exactly the
      PnL of both sides by their averages; no other cache and no other market changes, and no
      other call changes either. */
  lemma CallCaches(w: World, a: Action)
    requires Inv(w) && a.Valid() && Call(w, a).Ok?
    ensures var w' := Call(w, a).value;
            && (Marks(a) ==>
                  && a.env.quote.Some? && a.env.quote.value > 0
                  && w'.pm.cachedPnl
                     == w.pm.cachedPnl[MarkedSymbol(a) := AtAverages(w', MarkedSymbol(a), a.env.quote.value)]
                  && (forall s :: s != MarkedSymbol(a) ==> SameAverages(w, w', s)))
            && (!Marks(a) ==> w'.pm.cachedPnl == w.pm.cachedPnl && w'.pm.markets == w.pm.markets)
  {
    hide Inv, Call, UnrealizedPnl, MarketUnrealizedPnl, SameAverages;
    var w' := Call(w, a).value;
    assert Inv(w') by {
      StepKeeps(w, a);
    }
    if IsClose(a) {
      ClosesCache(w, a);
    } else {
      OthersCache(w, a);
    }
    if Marks(a) {
      TwoSides(w', MarkedSymbol(a), a.env.quote.value);
    }
  }

  lemma TwoSides(w: World, symbol: Symbol, mark: int)
    requires Inv(w)
    ensures var m := MarketOf(w, symbol);
            MarketUnrealizedPnl(m.longOi, m.longAvg, m.shortOi, m.shortAvg, mark) == AtAverages(w, symbol, mark)
  {
    hide Sum, Money, Billing, UnrealizedPnl, MarketUnrealizedPnl;
    var m := MarketOf(w, symbol);
    MarketPnlIsTwoPositions(m.longOi, m.longAvg, m.shortOi, m.shortAvg, mark);
  }

  /** Every market is cached, and every cache was taken at a positive mark. */
  ghost predicate CachesMarked(w: World) {
    && (forall s :: s in w.pm.markets ==> s in w.pm.cachedPnl)
    && (forall s :: s in w.pm.cachedPnl ==> exists mark: int :: mark > 0 && w.pm.cachedPnl[s] == AtAverages(w, s, mark))
  }

  lemma StepKeepsCaches(w: World, a: Action)
    requires Inv(w) && a.Valid() && CachesMarked(w)
    ensures CachesMarked(Step(w, a))
  {
    hide Inv, Call, UnrealizedPnl;
    if Call(w, a).Ok? {
      CallCaches(w, a);
      var w' := Call(w, a).value;
      forall s | s in w'.pm.markets
        ensures s in w'.pm.cachedPnl
      {
        assert Marks(a) && s != MarkedSymbol(a) ==> SameAverages(w, w', s);
      }
      forall s | s in w'.pm.cachedPnl
        ensures exists mark: int :: mark > 0 && w'.pm.cachedPnl[s] == AtAverages(w', s, mark)
      {
        if Marks(a) && s == MarkedSymbol(a) {
          assert w'.pm.cachedPnl[s] == AtAverages(w', s, a.env.quote.value);
        } else {
          var mark: int :| mark > 0 && w.pm.cachedPnl[s] == AtAverages(w, s, mark);
          assert SameAverages(w, w', s);
          assert w'.pm.cachedPnl[s] == AtAverages(w', s, mark);
        }
      }
    }
  }

  lemma {:induction false} RunKeepsCaches(w: World, actions: seq<Action>)
    requires Inv(w) && Legal(actions) && CachesMarked(w)
    ensures CachesMarked(Run(w, actions))
    decreases |actions|
  {
    hide Inv, Step, CachesMarked, Action.Valid;
    if actions != [] {
      StepKeeps(w, actions[0]);
      StepKeepsCaches(w, actions[0]);
      RunKeepsCaches(Step(w, actions[0]), actions[1..]);
    }
  }

  lemma ReachableCaches(w: World)
    requires Reachable(w)
    ensures CachesMarked(w)
  {
    hide Inv, Run, Legal;
    var w0, actions :| Initial(w0) && Legal(actions) && w == Run(w0, actions);
    InitialInv(w0);
    RunKeepsCaches(w0, actions);
  }

  /** What the vault deducts from free liquidity is, in every reachable world, the sum over all
      markets of the PnL by their averages, each at a price the oracle gave. */
  lemma NetPnlIsMarked(w: World)
    requires Reachable(w)
    ensures w.funds.vault.netTraderPnl == w.pm.totalUnrealizedPnl == Sum(w.pm.cachedPnl, PnlWeight)
    ensures w.pm.markets.Keys <= w.pm.cachedPnl.Keys
    ensures forall s :: s in w.pm.cachedPnl ==>
              exists mark: int :: mark > 0 && w.pm.cachedPnl[s] == AtAverages(w, s, mark)
  {
    hide Sum, Reachable, UnrealizedPnl;
    UnrealizedPnlExact(w);
    ReachableCaches(w);
  }

  /** In every reachable world the cache of a market is, at some price the oracle gave, the
      sum of what its two sides' averages book, each as near to its positions as the drift
      allows. */
  lemma CachedPnlBound(w: World, symbol: Symbol) returns (mark: int, long: int, short: int)
    requires Reachable(w) && symbol in w.pm.markets
    ensures mark > 0 && symbol in w.pm.cachedPnl && w.pm.cachedPnl[symbol] == long + short
    ensures SideBooked(w, Side(symbol, true), mark, long)
    ensures SideBooked(w, Side(symbol, false), mark, short)
  {
    hide Reachable, UnrealizedPnl, SideBooked;
    ReachableCaches(w);
    mark :| mark > 0 && w.pm.cachedPnl[symbol] == AtAverages(w, symbol, mark);
    long, short := OfAverage(w, Side(symbol, true), mark), OfAverage(w, Side(symbol, false), mark);
    AveragePnlBound(w, Side(symbol, true), mark);
    AveragePnlBound(w, Side(symbol, false), mark);
  }
}
