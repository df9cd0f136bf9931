/** The keeper's decisions over one snapshot of rows: whom to liquidate, and whom to
    deleverage. */
module Keeper {
  import opened FixedPoint
  import opened Types
  import opened RiskMath
  import opened Evaluations
  import opened VaultLedger
  import opened Ledger
  import opened Settlement
  import opened Invariants
  import opened Guarantees
  import opened CloseSettlement
  import opened OffchainMirror

  datatype Row = Row(key: PositionKey, state: PositionRow)

  /** The protocol parameters mirrored by the indexer, when they are. */
  datatype ConfigRow = ConfigRow(liquidationThresholdBps: int, fundingCutBps: int)

  datatype KeeperWorld = KeeperWorld(rows: seq<Row>, ticks: map<Symbol, MirrorTick>, config: Option<ConfigRow>)

  datatype Candidate = Candidate(row: Row, health: int)

  function ThresholdBps(world: KeeperWorld, fallback: int): int {
    if world.config.Some? then world.config.value.liquidationThresholdBps else fallback
  }

  function CutBps(world: KeeperWorld): int {
    if world.config.Some? then world.config.value.fundingCutBps else 0
  }

  function HealthOf(world: KeeperWorld, row: Row): int
    requires row.key.symbol in world.ticks
  {
    EvaluateRow(world.ticks[row.key.symbol], row.state, CutBps(world)).effectiveHealth
  }

  predicate IsCandidate(world: KeeperWorld, fallback: int, row: Row) {
    && row.key.symbol in world.ticks
    && Flagged(world.ticks[row.key.symbol], row.state, ThresholdBps(world, fallback), CutBps(world))
  }

  /** Exactly which rows are candidates, with the parameters spelt out: the mirrored ones, or
      the fallback threshold and no funding cut while none are mirrored. */
  lemma CandidateParameters(world: KeeperWorld, fallback: int, row: Row)
    requires row.key.symbol in world.ticks
    ensures var bps := if world.config.Some? then world.config.value.liquidationThresholdBps else fallback;
            var cut := if world.config.Some? then world.config.value.fundingCutBps else 0;
            IsCandidate(world, fallback, row)
            <==> exists threshold ::
                   && Truncates(row.state.collateral * bps, BPS, threshold)
                   && EvaluateRow(world.ticks[row.key.symbol], row.state, cut).effectiveHealth < threshold
  {
    hide TDiv, EvaluateRow, Truncates;
    var bps := ThresholdBps(world, fallback);
    TruncatesIff(row.state.collateral * bps, BPS, TDiv(row.state.collateral * bps, BPS));
    forall t | Truncates(row.state.collateral * bps, BPS, t)
      ensures t == TDiv(row.state.collateral * bps, BPS)
    {
      TruncatesIff(row.state.collateral * bps, BPS, t);
    }
  }

  // ----- Ranking candidates -----

  /** Inserts before the first candidate that is at least as healthy. */
  function Insert(c: Candidate, cs: seq<Candidate>): seq<Candidate> {
    if cs == [] then [c]
    else if c.health <= cs[0].health then [c] + cs
    else [cs[0]] + Insert(c, cs[1..])
  }

  /** The stable ascending sort of `Array.prototype.sort` by health. */
  function Ranked(cs: seq<Candidate>): seq<Candidate> {
    if cs == [] then [] else Insert(cs[0], Ranked(cs[1..]))
  }

  predicate WorstFirst(cs: seq<Candidate>) {
    forall i, j :: 0 <= i < j < |cs| ==> cs[i].health <= cs[j].health
  }

  function WithHealth(cs: seq<Candidate>, health: int): seq<Candidate> {
    if cs == [] then []
    else (if cs[0].health == health then [cs[0]] else []) + WithHealth(cs[1..], health)
  }

  lemma {:induction false} InsertPermutes(c: Candidate, cs: seq<Candidate>)
    ensures multiset(Insert(c, cs)) == multiset{c} + multiset(cs)
  {
    if cs != [] {
      assert cs == [cs[0]] + cs[1..];
      InsertPermutes(c, cs[1..]);
    }
  }

  lemma {:induction false} InsertOrders(c: Candidate, cs: seq<Candidate>)
    requires WorstFirst(cs)
    ensures WorstFirst(Insert(c, cs))
  {
    if cs != [] && cs[0].health < c.health {
      InsertOrders(c, cs[1..]);
      InsertPermutes(c, cs[1..]);
      var rest := Insert(c, cs[1..]);
      forall i | 0 <= i < |rest|
        ensures cs[0].health <= rest[i].health
      {
        assert rest[i] in multiset(rest);
      }
    }
  }

  lemma {:induction false} InsertStable(c: Candidate, cs: seq<Candidate>, health: int)
    ensures WithHealth(Insert(c, cs), health) == (if c.health == health then [c] else []) + WithHealth(cs, health)
  {
    if cs != [] {
      if c.health <= cs[0].health {
        assert ([c] + cs)[1..] == cs;
      } else {
        InsertStable(c, cs[1..], health);
        assert ([cs[0]] + Insert(c, cs[1..]))[1..] == Insert(c, cs[1..]);
      }
    }
  }

  /** The ranking is a permutation, ascending in health, and keeps the order of equals. */
  lemma {:induction false} RankedStable(cs: seq<Candidate>, health: int)
    ensures WorstFirst(Ranked(cs))
    ensures multiset(Ranked(cs)) == multiset(cs)
    ensures WithHealth(Ranked(cs), health) == WithHealth(cs, health)
  {
    if cs != [] {
      RankedStable(cs[1..], health);
      InsertPermutes(cs[0], Ranked(cs[1..]));
      InsertOrders(cs[0], Ranked(cs[1..]));
      InsertStable(cs[0], Ranked(cs[1..]), health);
      assert cs == [cs[0]] + cs[1..];
    }
  }

  // ----- Liquidation scan -----

  /** The flagged rows with their health, in row order. */
  function FlaggedRows(world: KeeperWorld, fallback: int, rows: seq<Row>): seq<Candidate> {
    if rows == [] then
      []
    else
      var last := rows[|rows| - 1];
      FlaggedRows(world, fallback, rows[..|rows| - 1]) +
      (if IsCandidate(world, fallback, last) then [Candidate(last, HealthOf(world, last))] else [])
  }

  lemma {:induction false} FlaggedRowsAre(world: KeeperWorld, fallback: int, rows: seq<Row>)
    ensures forall c :: c in FlaggedRows(world, fallback, rows) <==>
              c.row in rows && IsCandidate(world, fallback, c.row) && c.health == HealthOf(world, c.row)
  {
    hide IsCandidate, HealthOf;
    if rows != [] {
      var init, last := rows[..|rows| - 1], rows[|rows| - 1];
      FlaggedRowsAre(world, fallback, init);
      assert rows == init + [last];
    }
  }

  /** Every candidate is a flagged row with its health, every flagged row is a candidate,
      and the candidates are ranked worst first with ties in row order. */
  method ScanLiquidationCandidates(world: KeeperWorld, fallback: int) returns (candidates: seq<Candidate>)
    ensures WorstFirst(candidates)
    ensures forall c: Candidate :: c in candidates <==>
              c.row in world.rows && IsCandidate(world, fallback, c.row) && c.health == HealthOf(world, c.row)
    ensures multiset(candidates) == multiset(FlaggedRows(world, fallback, world.rows))
    ensures forall h: int :: WithHealth(candidates, h) == WithHealth(FlaggedRows(world, fallback, world.rows), h)
  {
    var thresholdBps, cutBps := ThresholdBps(world, fallback), CutBps(world);
    candidates := [];
    for i := 0 to |world.rows|
      invariant candidates == FlaggedRows(world, fallback, world.rows[..i])
    {
      var row := world.rows[i];
      assert world.rows[..i + 1][..i] == world.rows[..i];
      if row.key.symbol in world.ticks {
        var threshold := TDiv(row.state.collateral * thresholdBps, BPS);
        var health := EvaluateRow(world.ticks[row.key.symbol], row.state, cutBps).effectiveHealth;
        if health < threshold {
          candidates := candidates + [Candidate(row, health)];
        }
      }
    }
    assert world.rows[..|world.rows|] == world.rows;
    FlaggedRowsAre(world, fallback, world.rows);
    ghost var unranked := candidates;
    candidates := Ranked(candidates);
    forall h: int
      ensures WithHealth(candidates, h) == WithHealth(unranked, h)
    {
      RankedStable(unranked, h);
    }
    RankedStable(unranked, 0);
    forall c: Candidate
      ensures c in candidates <==> c in unranked
    {
      assert c in multiset(candidates) <==> c in multiset(unranked);
    }
  }

  /** The keeper's snapshot of one market shows the contracts' own state. */
  ghost predicate Mirrors(world: KeeperWorld, w: World, symbol: Symbol, markPrice: int, cfg: Config) {
    && world.config == Some(ConfigRow(cfg.liquidationThresholdBps, cfg.fundingCutBps))
    && (symbol in world.ticks ==> world.ticks[symbol] == Projected(w, symbol, markPrice, cfg))
    && (forall i :: 0 <= i < |world.rows| && world.rows[i].key.symbol == symbol ==>
          && world.rows[i].key in w.pm.positions
          && world.rows[i].state == RowOfPosition(w.pm.positions[world.rows[i].key]))
  }

  /** Every scanned candidate is below its threshold once its market is accrued to now;
      unless a pause began earlier than now, calling the contract on it passes its health
      gate. */
  lemma ScanHasNoFalsePositives(world: KeeperWorld, w: World, i: nat, markPrice: int, cfg: Config, fallback: int)
    requires i < |world.rows|
    requires var key := world.rows[i].key;
             && Inv(w) && cfg.Valid() && Comparable(w, key.symbol, cfg)
             && Mirrors(world, w, key.symbol, markPrice, cfg)
             && IsCandidate(world, fallback, world.rows[i])
    ensures var key := world.rows[i].key;
            && key in w.pm.positions
            && Liquidatable(UnclampedMarket(w, key.symbol, cfg), markPrice, w.pm.positions[key], cfg.fundingCutBps,
                            cfg.liquidationThresholdBps)
            && (WindowsAgree(w) ==>
                  forall executor: nat :: PassesGates(Liquidate(w, key, executor, Env(cfg, Some(markPrice)))))
  {
    hide Inv, Projected, AccruedMarket, UnclampedMarket, Evaluate, Comparable, Flagged, Liquidate, PassesGates;
    var key := world.rows[i].key;
    FlaggedIsLiquidatable(w, key, markPrice, cfg);
    forall executor: nat | WindowsAgree(w)
      ensures PassesGates(Liquidate(w, key, executor, Env(cfg, Some(markPrice))))
    {
      LiquidateGates(w, key, executor, Env(cfg, Some(markPrice)));
    }
  }

  /** No liquidatable row is missed but for the borrow fee the mirror's index leaves out: a row
      of a mirroring snapshot is a candidate exactly when it stays below its threshold with
      that fee added back. */
  lemma CandidateIff(world: KeeperWorld, w: World, row: Row, markPrice: int, cfg: Config, fallback: int)
    requires Inv(w) && cfg.Valid() && Comparable(w, row.key.symbol, cfg)
    requires Mirrors(world, w, row.key.symbol, markPrice, cfg)
    requires row in world.rows && row.key.symbol in world.ticks
    ensures row.key in w.pm.positions
    ensures var pos, missing := w.pm.positions[row.key], MissingFee(w, row.key, markPrice, cfg);
            var health := Evaluate(UnclampedMarket(w, row.key.symbol, cfg), markPrice, pos, pos.size, pos.collateral,
                                   cfg.fundingCutBps).effectiveHealth;
            && (IsCandidate(world, fallback, row)
                <==> health + missing < LiquidationThreshold(pos.collateral, cfg.liquidationThresholdBps))
            && missing >= 0
            && (w.funds.vault.unclaimedFees == 0 ==> missing == 0)
  {
    hide Inv, Projected, UnclampedMarket, Evaluate, Comparable, Flagged, MissingFee;
    FlaggedIff(w, row.key, markPrice, cfg);
  }

  // ----- Deleverage target -----

  /** A row the ranking considers: priced, with collateral, and in profit. */
  predicate InProfit(world: KeeperWorld, row: Row) {
    && row.key.symbol in world.ticks
    && row.state.collateral != 0
    && EvaluateRow(world.ticks[row.key.symbol], row.state, 0).pnl > 0
  }

  /** Profit times leverage, truncated. */
  function Score(world: KeeperWorld, row: Row): int
    requires InProfit(world, row)
  {
    TDiv(EvaluateRow(world.ticks[row.key.symbol], row.state, 0).pnl * row.state.size, row.state.collateral)
  }

  /** A score is the profit's share of the collateral times the size, rounded down. */
  lemma ScoreExact(world: KeeperWorld, row: Row)
    requires InProfit(world, row) && row.state.collateral > 0
    ensures var pnl := EvaluateRow(world.ticks[row.key.symbol], row.state, 0).pnl;
            Truncates(pnl * row.state.size, row.state.collateral, Score(world, row))
  {
    hide TDiv, EvaluateRow;
    var pnl := EvaluateRow(world.ticks[row.key.symbol], row.state, 0).pnl;
    TDivBounds(pnl * row.state.size, row.state.collateral);
  }

  /** The first row with the highest positive score, or nothing when no profitable row
      scores at least one. */
  method FindAdlTarget(world: KeeperWorld) returns (best: Option<Row>)
    ensures best.None? <==>
              forall i :: 0 <= i < |world.rows| && InProfit(world, world.rows[i]) ==> Score(world, world.rows[i]) <= 0
    ensures best.Some? ==>
              exists b :: 0 <= b < |world.rows| && best.value == world.rows[b]
                && InProfit(world, world.rows[b]) && Score(world, world.rows[b]) > 0
                && (forall i :: 0 <= i < |world.rows| && InProfit(world, world.rows[i]) ==>
                      Score(world, world.rows[i]) <= Score(world, world.rows[b]))
                && (forall i :: 0 <= i < b && InProfit(world, world.rows[i]) ==>
                      Score(world, world.rows[i]) < Score(world, world.rows[b]))
  {
    best := None;
    var bestScore := 0;
    ghost var b := -1;
    for i := 0 to |world.rows|
      invariant best.None? ==> bestScore == 0
      invariant best.Some? ==>
                  && 0 <= b < i && best.value == world.rows[b] && InProfit(world, world.rows[b])
                  && bestScore == Score(world, world.rows[b]) && bestScore > 0
                  && (forall j :: 0 <= j < b && InProfit(world, world.rows[j]) ==>
                        Score(world, world.rows[j]) < bestScore)
      invariant forall j :: 0 <= j < i && InProfit(world, world.rows[j]) ==> Score(world, world.rows[j]) <= bestScore
    {
      var row := world.rows[i];
      if row.key.symbol in world.ticks && row.state.collateral != 0 {
        var pnl := EvaluateRow(world.ticks[row.key.symbol], row.state, 0).pnl;
        if pnl > 0 {
          var score := TDiv(pnl * row.state.size, row.state.collateral);
          if score > bestScore {
            bestScore := score;
            best := Some(row);
            b := i;
          }
        }
      }
    }
  }

  /** A positive size and collateral score nothing exactly while the profit times the size
      stays below the collateral: only then can a profitable position be passed over. */
  lemma PassedOverIff(world: KeeperWorld, row: Row)
    requires InProfit(world, row) && row.state.size > 0 && row.state.collateral > 0
    ensures Score(world, row) <= 0
            <==> EvaluateRow(world.ticks[row.key.symbol], row.state, 0).pnl * row.state.size < row.state.collateral
  {
    hide TDiv, EvaluateRow;
    var pnl := EvaluateRow(world.ticks[row.key.symbol], row.state, 0).pnl;
    TDivBelow(pnl * row.state.size, row.state.collateral, 1);
  }

  const SMALL_WINNER := Row(PositionKey(0, "XLM"), PositionRow(true, 9, 100, 1, 0, 0))
  const SMALL_WORLD := KeeperWorld([SMALL_WINNER], map["XLM" := MirrorTick(MarketRow(0, 0, 0, 10, 0), 2)], None)

  /** A profitable position the ranking passes over: it doubled, at a leverage below a tenth. */
  lemma ProfitableYetPassedOver()
    ensures InProfit(SMALL_WORLD, SMALL_WINNER) && Score(SMALL_WORLD, SMALL_WINNER) == 0
  {
  }

  /** A row in profit off chain is in profit on the contract's own evaluation: deleveraging
      it succeeds exactly when the protocol is over one of its caps and the vault can pay. */
  lemma TargetDeleveragesIff(world: KeeperWorld, w: World, row: Row, env: Env)
    requires Inv(w) && Solvent(w.funds) && env.Valid() && env.quote.Some?
    requires Mirrors(world, w, row.key.symbol, env.quote.value, env.cfg) && row in world.rows && InProfit(world, row)
    ensures row.key in w.pm.positions && w.pm.positions[row.key].size > 0
    ensures var basis := SafeBasis(w.funds);
            DeleveragePosition(w, row.key, env).Ok?
            <==> && basis > 0
                 && (!WithinCap(w.pm.realizedPnl + w.pm.totalUnrealizedPnl, basis, env.cfg.adlPnlBps)
                     || !WithinCap(w.funds.vault.reserved, basis, env.cfg.adlUtilizationBps))
                 && Settles(w, row.key, w.pm.positions[row.key].size, env, Deleverage)
  {
    hide Inv, Solvent, DeleveragePosition, Settles, WithinCap, SafeBasis, TDiv, AccruedMarket, UnrealizedPnl,
         BillingStart, BorrowFee, FundingFee;
    DeleverageSucceedsIff(w, row.key, env);
  }
}
