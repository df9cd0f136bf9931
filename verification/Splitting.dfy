/** Closing a position in pieces at one price and one borrow index, against closing it
    at once. */
module Splitting {
  import opened FixedPoint
  import opened Types
  import opened MapSums
  import opened RiskMath
  import opened Evaluations
  import opened VaultLedger
  import opened Ledger
  import opened Invariants
  import opened BookSteps
  import opened Entrypoints
  import opened Runs

  /** What a sequence of partial closes released and settled in total. */
  datatype Totals = Totals(collateral: int, pnl: int, borrowFee: int, funding: int)

  function Total(sizes: seq<int>): (total: int)
    ensures Positive(sizes) ==> total >= |sizes|
  {
    if sizes == [] then 0 else sizes[0] + Total(sizes[1..])
  }

  predicate Positive(sizes: seq<int>) {
    forall i :: 0 <= i < |sizes| ==> sizes[i] > 0
  }

  /** Piece after piece on what the previous ones left; each close moves the market's open
      interest, so each piece has a market of its own. */
  function CloseInPieces(pos: Position, pieces: seq<int>, markets: seq<Market>, markPrice: int, cutBps: int): Totals
    requires |markets| == |pieces|
    requires Positive(pieces) && Total(pieces) == pos.size
    decreases |pieces|
  {
    if pieces == [] then
      Totals(0, 0, 0, 0)
    else
      var slice := CollateralSlice(pos, pieces[0]);
      var ev := Evaluate(markets[0], markPrice, pos, pieces[0], slice, cutBps);
      var rest := CloseInPieces(Remaining(pos, pieces[0], slice), pieces[1..], markets[1..], markPrice, cutBps);
      Totals(slice + rest.collateral, ev.pnl + rest.pnl, ev.borrowFee + rest.borrowFee,
             ev.effectiveFunding + rest.funding)
  }

  /** The collateral parts of all pieces add up to the position's collateral exactly. */
  lemma {:induction false} CollateralAddsUp(pos: Position, pieces: seq<int>, markets: seq<Market>, markPrice: int,
                                            cutBps: int)
    requires |markets| == |pieces| && pieces != []
    requires Positive(pieces) && Total(pieces) == pos.size
    ensures CloseInPieces(pos, pieces, markets, markPrice, cutBps).collateral == pos.collateral
    decreases |pieces|
  {
    hide Evaluate, TDiv;
    var slice := CollateralSlice(pos, pieces[0]);
    if |pieces| > 1 {
      CollateralAddsUp(Remaining(pos, pieces[0], slice), pieces[1..], markets[1..], markPrice, cutBps);
    }
  }

  lemma EvaluatedParts(market: Market, markPrice: int, pos: Position, size: int, collateral: int, cutBps: int)
    ensures var ev := Evaluate(market, markPrice, pos, size, collateral, cutBps);
            && ev.pnl == UnrealizedPnl(size, pos.entryPrice, markPrice, pos.isLong)
            && ev.borrowFee == BorrowFee(size, pos.entryBorrowIndex, market.accBorrowIndex)
  {
    hide TDiv;
  }

  lemma PnlAdds(a: int, b: int, entryPrice: int, markPrice: int, isLong: bool)
    requires a > 0 && b > 0 && entryPrice > 0
    ensures var parts := UnrealizedPnl(a, entryPrice, markPrice, isLong)
                         + UnrealizedPnl(b, entryPrice, markPrice, isLong);
            Abs(UnrealizedPnl(a + b, entryPrice, markPrice, isLong) - parts) <= 1
  {
    hide TDiv;
    var diff := if isLong then markPrice - entryPrice else entryPrice - markPrice;
    Distribute(a, b, diff);
    if diff >= 0 {
      MulLe(0, diff, a);
      MulLe(0, diff, b);
    } else {
      MulLe(diff, 0, a);
      MulLe(diff, 0, b);
    }
    TDivAdd(a * diff, b * diff, entryPrice);
  }

  lemma BorrowAdds(a: int, b: int, entry: int, index: int)
    requires a > 0 && b > 0
    ensures Abs(BorrowFee(a + b, entry, index) - (BorrowFee(a, entry, index) + BorrowFee(b, entry, index))) <= 1
  {
    hide TDiv;
    var diff := index - entry;
    Distribute(a, b, diff);
    if diff >= 0 {
      MulLe(0, diff, a);
      MulLe(0, diff, b);
    } else {
      MulLe(diff, 0, a);
      MulLe(diff, 0, b);
    }
    TDivAdd(diff * a, diff * b, INDEX_PRECISION);
  }

  /** Closing in `k` pieces at one price and borrow index settles a PnL and a borrow fee
      within `k - 1` units of closing at once. */
  lemma {:induction false} PiecesMatchOneShot(pos: Position, pieces: seq<int>, markets: seq<Market>, markPrice: int,
                                              cutBps: int, index: int)
    requires |markets| == |pieces| && pieces != []
    requires Positive(pieces) && Total(pieces) == pos.size && pos.entryPrice > 0
    requires forall i :: 0 <= i < |markets| ==> markets[i].accBorrowIndex == index
    ensures var totals := CloseInPieces(pos, pieces, markets, markPrice, cutBps);
            && Abs(totals.pnl - UnrealizedPnl(pos.size, pos.entryPrice, markPrice, pos.isLong)) <= |pieces| - 1
            && Abs(totals.borrowFee - BorrowFee(pos.size, pos.entryBorrowIndex, index)) <= |pieces| - 1
    decreases |pieces|
  {
    hide Evaluate, TDiv, UnrealizedPnl, BorrowFee;
    var slice := CollateralSlice(pos, pieces[0]);
    EvaluatedParts(markets[0], markPrice, pos, pieces[0], slice, cutBps);
    if |pieces| > 1 {
      var left := Remaining(pos, pieces[0], slice);
      PiecesMatchOneShot(left, pieces[1..], markets[1..], markPrice, cutBps, index);
      PnlAdds(pieces[0], left.size, pos.entryPrice, markPrice, pos.isLong);
      BorrowAdds(pieces[0], left.size, pos.entryBorrowIndex, index);
    }
  }

  /** An accepted decrease is one such piece: it evaluates the proportional slice at the
      accrued market, leaves exactly the remainder, books the slice's outcome, and leaves
      the market with nothing more to bill at that time, so the next piece sees the same
      borrow index. */
  lemma DecreaseIsOnePiece(w: World, key: PositionKey, sizeDelta: int, acceptable: int, env: Env)
    requires Inv(w) && env.Valid() && Decrease(w, key, sizeDelta, acceptable, env).Ok?
    ensures key in w.pm.positions && 0 < sizeDelta <= w.pm.positions[key].size
    ensures var w' := Decrease(w, key, sizeDelta, acceptable, env).value;
            var pos, market := w.pm.positions[key], AccruedMarket(w, key.symbol, env.cfg);
            var slice := CollateralSlice(pos, sizeDelta);
            var ev := Evaluate(market, env.quote.value, pos, sizeDelta, slice, env.cfg.fundingCutBps);
            && w'.pm.positions == (if sizeDelta == pos.size then w.pm.positions - {key}
                                   else w.pm.positions[key := Remaining(pos, sizeDelta, slice)])
            && w'.pm.realizedPnl == w.pm.realizedPnl + ev.pnl - ev.borrowFee + ev.effectiveFunding
            && MarketOf(w', key.symbol).accBorrowIndex == market.accBorrowIndex
            && MarketOf(w', key.symbol).accFundingIndex == market.accFundingIndex
            && AccruedMarket(w', key.symbol, env.cfg) == MarketOf(w', key.symbol)
  {
    hide Sum, Evaluate, SettleFunds, TDiv, AverageAfterRemoval, MarketUnrealizedPnl, AccumulateIndex, Money, Book,
         Billing, HistoryAfterClose, Route, BorrowRate, ViewOf, SlipsOnClose;
  }

  // ----- A run of decreases -----

  function Decreases(key: PositionKey, pieces: seq<int>, limit: int, env: Env): seq<Action> {
    if pieces == [] then [] else [DoDecrease(key, pieces[0], limit, env)] + Decreases(key, pieces[1..], limit, env)
  }

  /** No call of the run reverts. */
  predicate AllAccepted(w: World, actions: seq<Action>)
    decreases |actions|
  {
    actions == [] || (Call(w, actions[0]).Ok? && AllAccepted(Step(w, actions[0]), actions[1..]))
  }

  /** The market each decrease settles at. */
  function SettledMarkets(w: World, key: PositionKey, pieces: seq<int>, limit: int, env: Env): (ms: seq<Market>)
    ensures |ms| == |pieces|
    decreases |pieces|
  {
    if pieces == [] then
      []
    else
      [AccruedMarket(w, key.symbol, env.cfg)]
      + SettledMarkets(Step(w, DoDecrease(key, pieces[0], limit, env)), key, pieces[1..], limit, env)
  }

  lemma FirstDecrease(w: World, key: PositionKey, pieces: seq<int>, limit: int, env: Env)
    requires pieces != []
    ensures var actions, first := Decreases(key, pieces, limit, env), DoDecrease(key, pieces[0], limit, env);
            && actions[0] == first && actions[1..] == Decreases(key, pieces[1..], limit, env)
            && Call(w, first) == Decrease(w, key, pieces[0], limit, env)
            && Run(w, actions) == Run(Step(w, first), Decreases(key, pieces[1..], limit, env))
            && (AllAccepted(w, actions) ==>
                  Decrease(w, key, pieces[0], limit, env).Ok?
                  && AllAccepted(Step(w, first), Decreases(key, pieces[1..], limit, env)))
  {
    hide Decrease;
  }

  /** The run books the totals of its pieces, at one borrow index, and takes the position
      out of the book. */
  lemma {:induction false} DecreasesBookTotals(w: World, key: PositionKey, pieces: seq<int>, limit: int, env: Env)
    requires Inv(w) && env.Valid() && env.quote.Some? && key in w.pm.positions && pieces != []
    requires AllAccepted(w, Decreases(key, pieces, limit, env))
    requires Positive(pieces) && Total(pieces) == w.pm.positions[key].size
    ensures var w', markets := Run(w, Decreases(key, pieces, limit, env)), SettledMarkets(w, key, pieces, limit, env);
            var totals := CloseInPieces(w.pm.positions[key], pieces, markets, env.quote.value, env.cfg.fundingCutBps);
            && Inv(w') && w'.pm.positions == w.pm.positions - {key}
            && w'.pm.realizedPnl == w.pm.realizedPnl + totals.pnl - totals.borrowFee + totals.funding
            && w'.history.donatedToManager == w.history.donatedToManager
            && (forall i :: 0 <= i < |markets| ==>
                  markets[i].accBorrowIndex == AccruedMarket(w, key.symbol, env.cfg).accBorrowIndex)
    decreases |pieces|
  {
    hide Inv, Decrease, AccruedMarket, Evaluate, TDiv, Run, AllAccepted, Decreases, BillingStart, BillingEnd;
    var first := DoDecrease(key, pieces[0], limit, env);
    FirstDecrease(w, key, pieces, limit, env);
    DecreaseIsOnePiece(w, key, pieces[0], limit, env);
    DecreaseGivesNothing(w, key, pieces[0], limit, env);
    StepKeeps(w, first);
    var w1, pos := Step(w, first), w.pm.positions[key];
    assert w1 == Decrease(w, key, pieces[0], limit, env).value;
    if |pieces| == 1 {
      assert pieces[1..] == [] && Total(pieces) == pieces[0] + Total([]);
      NothingLeft(w1, key, limit, env);
    } else {
      assert pieces[0] < pos.size && w1.pm.positions[key] == Remaining(pos, pieces[0], CollateralSlice(pos, pieces[0]));
      DecreasesBookTotals(w1, key, pieces[1..], limit, env);
      assert w1.pm.positions - {key} == w.pm.positions - {key};
    }
  }

  lemma NothingLeft(w: World, key: PositionKey, limit: int, env: Env)
    ensures Run(w, Decreases(key, [], limit, env)) == w
  {
  }

  lemma DecreaseGivesNothing(w: World, key: PositionKey, size: int, limit: int, env: Env)
    ensures Step(w, DoDecrease(key, size, limit, env)).history.donatedToManager == w.history.donatedToManager
  {
    hide SettleFunds, Evaluate, AccruedMarket, BillingStart, BillingEnd, CollateralSlice, MarketAfterClose,
         PositionsAfterClose, SlipsOnClose, MarketUnrealizedPnl, Route;
  }

  /** Closing a position by `k` accepted decreases at one time and price, against closing it
      at once: the manager gives up exactly its collateral and escrow, and the PnL and the
      borrow fee booked are within `k - 1` units of the one-shot values. */
  lemma DecreasesMatchOneShot(w: World, key: PositionKey, pieces: seq<int>, limit: int, env: Env)
    requires Inv(w) && env.Valid() && env.quote.Some? && key in w.pm.positions && pieces != []
    requires AllAccepted(w, Decreases(key, pieces, limit, env))
    requires Positive(pieces) && Total(pieces) == w.pm.positions[key].size
    ensures var w', pos := Run(w, Decreases(key, pieces, limit, env)), w.pm.positions[key];
            var markets := SettledMarkets(w, key, pieces, limit, env);
            var totals := CloseInPieces(pos, pieces, markets, env.quote.value, env.cfg.fundingCutBps);
            var index := AccruedMarket(w, key.symbol, env.cfg).accBorrowIndex;
            && w'.pm.positions == w.pm.positions - {key}
            && Balance(w.funds, ManagerAccount) - Balance(w'.funds, ManagerAccount) == pos.collateral + pos.escrow
            && totals.collateral == pos.collateral
            && w'.pm.realizedPnl - w.pm.realizedPnl == totals.pnl - totals.borrowFee + totals.funding
            && Abs(totals.pnl - UnrealizedPnl(pos.size, pos.entryPrice, env.quote.value, pos.isLong)) <= |pieces| - 1
            && Abs(totals.borrowFee - BorrowFee(pos.size, pos.entryBorrowIndex, index)) <= |pieces| - 1
  {
    hide Inv, AccruedMarket, Run, AllAccepted, Decreases, SettledMarkets, CloseInPieces, UnrealizedPnl, BorrowFee,
         Total, Positive, BillingStart, BillingEnd;
    var markets, pos := SettledMarkets(w, key, pieces, limit, env), w.pm.positions[key];
    DecreasesBookTotals(w, key, pieces, limit, env);
    CloseFactsOf(w, key);
    CollateralAddsUp(pos, pieces, markets, env.quote.value, env.cfg.fundingCutBps);
    PiecesMatchOneShot(pos, pieces, markets, env.quote.value, env.cfg.fundingCutBps,
                       AccruedMarket(w, key.symbol, env.cfg).accBorrowIndex);
    CustodyOfOne(w, Run(w, Decreases(key, pieces, limit, env)), key);
  }

  lemma CustodyOfOne(w: World, w': World, key: PositionKey)
    requires Inv(w) && Inv(w') && key in w.pm.positions && w'.pm.positions == w.pm.positions - {key}
    requires w'.history.donatedToManager == w.history.donatedToManager
    ensures Balance(w.funds, ManagerAccount) - Balance(w'.funds, ManagerAccount)
            == w.pm.positions[key].collateral + w.pm.positions[key].escrow
  {
    hide Sum, Book, Billing;
    SumRemove(w.pm.positions, CustodyWeight, key);
  }
}
