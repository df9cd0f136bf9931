/** How the oracle router turns the answers of its sources into one price. */
module PriceAggregation {
  import opened FixedPoint
  import opened Types

  datatype OracleConfig = OracleConfig(
    maxDeviationBps: int, stalenessThreshold: nat, cacheDuration: nat, minRequiredSources: nat)
  {
    predicate Valid() {
      && 0 < maxDeviationBps <= 10_000
      && 0 < stalenessThreshold
      && 0 < cacheDuration <= stalenessThreshold
      && 1 <= minRequiredSources <= 16
    }
  }

  datatype OracleError = NoPriceSources | StalePrice | InsufficientSources | PriceDeviationTooHigh | DeviationOverflow

  datatype PriceResult = Price(value: int) | Failed(error: OracleError)

  /** What a source returns to the two queries; `None` when the call itself fails. */
  datatype Answer = Answer(price: Option<int>, lastUpdate: Option<nat>)

  datatype Datum = Datum(source: nat, price: int, time: nat)

  /** The answers of a round of queries, by source. */
  type Answers = map<nat, Answer>

  predicate Usable(answers: Answers, source: nat, cfg: OracleConfig, now: nat) {
    && source in answers && answers[source].price.Some? && answers[source].lastUpdate.Some?
    && answers[source].lastUpdate.value <= now
    && now - answers[source].lastUpdate.value <= cfg.stalenessThreshold
    && answers[source].price.value > 0
  }

  /** The usable answers in the order of the sources. */
  function UsableData(sources: seq<nat>, answers: Answers, cfg: OracleConfig, now: nat): seq<Datum> {
    if sources == [] then
      []
    else
      var last := sources[|sources| - 1];
      UsableData(sources[..|sources| - 1], answers, cfg, now) +
      (if Usable(answers, last, cfg, now)
       then [Datum(last, answers[last].price.value, answers[last].lastUpdate.value)] else [])
  }

  function Prices(data: seq<Datum>): seq<int> {
    seq(|data|, i requires 0 <= i < |data| => data[i].price)
  }

  /** An answer is used exactly when its source is listed, both of its queries succeeded, and
      it is positive, not from the future and not stale; it is used as it was given. */
  lemma {:induction false} UsableDataIff(sources: seq<nat>, answers: Answers, cfg: OracleConfig, now: nat)
    ensures forall d: Datum :: d in UsableData(sources, answers, cfg, now) <==>
              && d.source in sources && d.source in answers
              && answers[d.source] == Answer(Some(d.price), Some(d.time))
              && d.price > 0 && d.time <= now <= d.time + cfg.stalenessThreshold
  {
    if sources != [] {
      var init, last := sources[..|sources| - 1], sources[|sources| - 1];
      assert sources == init + [last];
      UsableDataIff(init, answers, cfg, now);
    }
  }

  predicate Distinct(s: seq<nat>) {
    forall i, j :: 0 <= i < j < |s| ==> s[i] != s[j]
  }

  function Sources(data: seq<Datum>): seq<nat> {
    seq(|data|, i requires 0 <= i < |data| => data[i].source)
  }

  /** Different sources give different entries. */
  lemma {:induction false} UsableDataDistinct(sources: seq<nat>, answers: Answers, cfg: OracleConfig, now: nat)
    requires Distinct(sources)
    ensures Distinct(Sources(UsableData(sources, answers, cfg, now)))
  {
    if sources != [] {
      var init, last := sources[..|sources| - 1], sources[|sources| - 1];
      UsableDataDistinct(init, answers, cfg, now);
      UsableDataIff(init, answers, cfg, now);
      var data := UsableData(init, answers, cfg, now);
      forall i | 0 <= i < |data|
        ensures data[i].source != last
      {
        assert data[i] in data;
      }
      forall i, j | 0 <= i < j < |data|
        ensures data[i].source != data[j].source
      {
        assert Sources(data)[i] != Sources(data)[j];
      }
    }
  }

  // ----- Sorting -----

  predicate Ascending(s: seq<int>) {
    forall i, j :: 0 <= i < j < |s| ==> s[i] <= s[j]
  }

  function Insert(x: int, s: seq<int>): seq<int> {
    if s == [] then [x] else if x <= s[0] then [x] + s else [s[0]] + Insert(x, s[1..])
  }

  function Sorted(s: seq<int>): seq<int> {
    if s == [] then [] else Insert(s[0], Sorted(s[1..]))
  }

  lemma {:induction false} InsertPermutes(x: int, s: seq<int>)
    ensures multiset(Insert(x, s)) == multiset{x} + multiset(s)
    ensures |Insert(x, s)| == |s| + 1
  {
    if s != [] {
      assert s == [s[0]] + s[1..];
      InsertPermutes(x, s[1..]);
    }
  }

  lemma {:induction false} InsertAscends(x: int, s: seq<int>)
    requires Ascending(s)
    ensures Ascending(Insert(x, s))
  {
    if s != [] && s[0] < x {
      InsertAscends(x, s[1..]);
      InsertPermutes(x, s[1..]);
      var rest := Insert(x, s[1..]);
      forall i | 0 <= i < |rest|
        ensures s[0] <= rest[i]
      {
        assert rest[i] in multiset(rest);
      }
    }
  }

  lemma {:induction false} SortedIsSort(s: seq<int>)
    ensures Ascending(Sorted(s)) && multiset(Sorted(s)) == multiset(s) && |Sorted(s)| == |s|
  {
    if s != [] {
      assert s == [s[0]] + s[1..];
      SortedIsSort(s[1..]);
      InsertPermutes(s[0], Sorted(s[1..]));
      InsertAscends(s[0], Sorted(s[1..]));
    }
  }

  /** There is only one ascending order. */
  lemma {:induction false} AscendingUnique(s: seq<int>, t: seq<int>)
    requires Ascending(s) && Ascending(t) && multiset(s) == multiset(t)
    ensures s == t
    decreases |s|
  {
    assert |s| == |multiset(s)| == |t|;
    if s != [] {
      SameHead(s, t);
      TailContents(s);
      TailContents(t);
      hide Ascending;
      assert Ascending(s[1..]) && Ascending(t[1..]) by { TailAscends(s); TailAscends(t); }
      AscendingUnique(s[1..], t[1..]);
      assert s == [s[0]] + s[1..] && t == [t[0]] + t[1..];
    }
  }

  lemma SameHead(s: seq<int>, t: seq<int>)
    requires Ascending(s) && Ascending(t) && multiset(s) == multiset(t) && s != [] && t != []
    ensures s[0] == t[0]
  {
    assert s[0] in multiset(t) && t[0] in multiset(s);
  }

  lemma TailContents(s: seq<int>)
    requires s != []
    ensures multiset(s[1..]) == multiset(s) - multiset{s[0]}
  {
    assert s == [s[0]] + s[1..];
  }

  lemma TailAscends(s: seq<int>)
    requires s != [] && Ascending(s)
    ensures Ascending(s[1..])
  {
  }

  /** The contract's in-place sort, shifting larger entries up to make room for the key. */
  method InsertionSort(prices: array<int>)
    modifies prices
    ensures prices[..] == Sorted(old(prices[..]))
  {
    ghost var before := prices[..];
    var n := prices.Length;
    var i := 1;
    while i < n
      invariant 1 <= i && Ascending(prices[..if i <= n then i else n])
      invariant multiset(prices[..]) == multiset(before)
    {
      InsertKey(prices, i);
      i := i + 1;
    }
    assert prices[..n] == prices[..];
    SortedIsSort(before);
    AscendingUnique(prices[..], Sorted(before));
  }

  /** One pass: entry `i` moves down into the ascending prefix below it. */
  method InsertKey(prices: array<int>, i: nat)
    requires i < prices.Length && Ascending(prices[..i])
    modifies prices
    ensures Ascending(prices[..i + 1])
    ensures multiset(prices[..]) == multiset(old(prices[..]))
  {
    ghost var before := prices[..];
    var key := prices[i];
    var j := i;
    while j > 0
      invariant 0 <= j <= i
      invariant forall k :: 0 <= k < j ==> prices[k] == before[k]
      invariant forall k :: j < k <= i ==> prices[k] == before[k - 1] && key < prices[k]
      invariant forall k :: i < k < prices.Length ==> prices[k] == before[k]
    {
      var prev := prices[j - 1];
      if prev <= key {
        break;
      }
      prices[j] := prev;
      j := j - 1;
    }
    prices[j] := key;
    KeyInserted(before, prices[..], i, j);
  }

  /** Entry `i` dropped into place `j`, with the entries between shifted up. */
  lemma KeyInserted(before: seq<int>, after: seq<int>, i: nat, j: nat)
    requires j <= i < |before| == |after| && Ascending(before[..i])
    requires forall k :: 0 <= k < j ==> after[k] == before[k]
    requires after[j] == before[i] && (j > 0 ==> before[j - 1] <= before[i])
    requires forall k :: j < k <= i ==> after[k] == before[k - 1] && before[i] < after[k]
    requires forall k :: i < k < |after| ==> after[k] == before[k]
    ensures Ascending(after[..i + 1]) && multiset(after) == multiset(before)
  {
    var prefix, merged, rest := before[..i], after[..i + 1], before[i + 1..];
    assert merged == prefix[..j] + [before[i]] + prefix[j..];
    assert j < i ==> before[i] < after[j + 1] == prefix[j];
    AscendingPrefix(prefix, merged, j, before[i]);
    assert after == merged + rest;
    assert before == prefix + [before[i]] + rest;
    KeyMovesDown(prefix, before[i], j, rest);
  }

  lemma KeyMovesDown(prefix: seq<int>, key: int, j: nat, rest: seq<int>)
    requires j <= |prefix|
    ensures multiset(prefix[..j] + [key] + prefix[j..] + rest) == multiset(prefix + [key] + rest)
  {
    assert prefix == prefix[..j] + prefix[j..];
  }

  lemma AscendingPrefix(prefix: seq<int>, merged: seq<int>, j: nat, key: int)
    requires Ascending(prefix) && j <= |prefix| && |merged| == |prefix| + 1
    requires merged == prefix[..j] + [key] + prefix[j..]
    requires j > 0 ==> prefix[j - 1] <= key
    requires j < |prefix| ==> key <= prefix[j]
    ensures Ascending(merged)
  {
  }

  // ----- Median and deviation -----

  /** Index of the lower median of a non-empty ascending sequence. */
  function MedianIndex(n: nat): (k: nat)
    requires n > 0
    ensures k < n && 2 * k < n <= 2 * k + 2
  {
    if n % 2 == 1 then n / 2 else n / 2 - 1
  }

  function LowerMedian(prices: seq<int>): int
    requires prices != []
  {
    SortedIsSort(prices);
    Sorted(prices)[MedianIndex(|prices|)]
  }

  /** One side of the deviation, or `None` when the product leaves the integer range. */
  function SideDeviation(difference: int, median: int): Option<int>
    requires median != 0
  {
    if !FitsI128(difference) || !FitsI128(difference * BPS) then None else Some(TDiv(difference * BPS, median))
  }

  /** The larger of the two one-sided deviations, in basis points. */
  function Deviation(median: int, min: int, max: int): Option<int>
    requires median != 0
  {
    var upper := SideDeviation(max - median, median);
    var lower := SideDeviation(median - min, median);
    if upper.None? || lower.None? then None else Some(Max(upper.value, lower.value))
  }

  predicate AllPositive(s: seq<int>) {
    forall i :: 0 <= i < |s| ==> s[i] > 0
  }

  lemma SortedPositive(s: seq<int>)
    requires AllPositive(s)
    ensures AllPositive(Sorted(s)) && |Sorted(s)| == |s|
  {
    SortedIsSort(s);
    forall i | 0 <= i < |Sorted(s)|
      ensures Sorted(s)[i] > 0
    {
      assert Sorted(s)[i] in multiset(Sorted(s));
    }
  }

  /** From usable prices to a price: quorum, lower median, deviation check. */
  function Aggregate(prices: seq<int>, cfg: OracleConfig): PriceResult
    requires AllPositive(prices)
  {
    if prices == [] then
      Failed(StalePrice)
    else if |prices| < cfg.minRequiredSources then
      Failed(InsufficientSources)
    else
      SortedPositive(prices);
      var sorted := Sorted(prices);
      var median := sorted[MedianIndex(|sorted|)];
      var deviation := Deviation(median, sorted[0], sorted[|sorted| - 1]);
      if deviation.None? then Failed(DeviationOverflow)
      else if deviation.value > cfg.maxDeviationBps then Failed(PriceDeviationTooHigh)
      else Price(median)
  }

  /** `price` lies within `bps` basis points of `median`, rounded down. */
  predicate Within(price: int, median: int, bps: int)
    requires median > 0
  {
    TDiv(Abs(price - median) * BPS, median) <= bps
  }

  lemma WithinEnds(price: int, median: int, min: int, max: int, bps: int)
    requires 0 < median && min <= price <= max && min <= median <= max
    requires TDiv((max - median) * BPS, median) <= bps && TDiv((median - min) * BPS, median) <= bps
    ensures Within(price, median, bps)
  {
    hide TDiv;
    if price >= median {
      TDivMonotone((price - median) * BPS, (max - median) * BPS, median);
    } else {
      TDivMonotone((median - price) * BPS, (median - min) * BPS, median);
    }
  }

  /** An accepted price is the lower median of at least the required number of prices and
      lies within the allowed deviation of every one of them. */
  lemma AggregateSound(prices: seq<int>, cfg: OracleConfig)
    requires AllPositive(prices) && Aggregate(prices, cfg).Price?
    ensures |prices| >= cfg.minRequiredSources && prices != []
    ensures Aggregate(prices, cfg).value == LowerMedian(prices) > 0
    ensures forall i :: 0 <= i < |prices| ==> Within(prices[i], LowerMedian(prices), cfg.maxDeviationBps)
  {
    hide TDiv;
    SortedPositive(prices);
    SortedIsSort(prices);
    var sorted := Sorted(prices);
    var median := LowerMedian(prices);
    forall i | 0 <= i < |prices|
      ensures Within(prices[i], median, cfg.maxDeviationBps)
    {
      assert prices[i] in multiset(prices);
      assert prices[i] in sorted;
      WithinEnds(prices[i], median, sorted[0], sorted[|sorted| - 1], cfg.maxDeviationBps);
    }
  }

  /** Whether a deviation from the median can be computed and is allowed, without dividing. */
  predicate NearMedian(price: int, median: int, bps: int) {
    Abs(price - median) * BPS <= I128_MAX && Abs(price - median) * BPS < median * (bps + 1)
  }

  lemma SideExact(difference: nat, median: int, bps: int)
    requires median > 0 && bps >= 0
    ensures var d := SideDeviation(difference, median);
            (d.Some? && d.value <= bps) <==> NearMedian(median + difference, median, bps)
  {
    hide TDiv;
    TDivBelow(difference * BPS, median, bps + 1);
  }

  lemma DeviationIff(median: int, min: int, max: int, bps: int)
    requires 0 < median && min <= median <= max && bps >= 0
    ensures var d := Deviation(median, min, max);
            (d.Some? && d.value <= bps) <==> NearMedian(min, median, bps) && NearMedian(max, median, bps)
  {
    hide SideDeviation;
    SideExact(max - median, median, bps);
    SideExact(median - min, median, bps);
  }

  lemma SortedAround(prices: seq<int>)
    requires AllPositive(prices) && prices != []
    ensures var sorted, median := Sorted(prices), LowerMedian(prices);
            && |sorted| == |prices| && median == sorted[MedianIndex(|sorted|)]
            && 0 < median && sorted[0] <= median <= sorted[|sorted| - 1]
  {
    SortedPositive(prices);
    SortedIsSort(prices);
  }

  lemma NearerIsNear(price: int, far: int, median: int, bps: int)
    requires Abs(price - median) <= Abs(far - median) && NearMedian(far, median, bps)
    ensures NearMedian(price, median, bps)
  {
  }

  /** Exactly when a set of prices gives one: there are enough of them and every one is near
      enough to their lower median. That median is the price. */
  lemma AggregateIff(prices: seq<int>, cfg: OracleConfig)
    requires AllPositive(prices) && cfg.maxDeviationBps >= 0
    ensures Aggregate(prices, cfg).Price?
            <==> && prices != [] && |prices| >= cfg.minRequiredSources
                 && forall i :: 0 <= i < |prices| ==>
                      NearMedian(prices[i], LowerMedian(prices), cfg.maxDeviationBps)
    ensures Aggregate(prices, cfg).Price? ==> Aggregate(prices, cfg).value == LowerMedian(prices)
  {
    hide NearMedian, Deviation, Sorted, LowerMedian, AllPositive, MedianIndex, Ascending;
    if prices != [] && |prices| >= cfg.minRequiredSources {
      SortedAround(prices);
      SortedIsSort(prices);
      var sorted, median := Sorted(prices), LowerMedian(prices);
      EndsDecide(prices, median, cfg.maxDeviationBps);
      DeviationIff(median, sorted[0], sorted[|sorted| - 1], cfg.maxDeviationBps);
    }
  }

  lemma EndsDecide(prices: seq<int>, median: int, bps: int)
    requires prices != [] && |Sorted(prices)| == |prices|
    requires Ascending(Sorted(prices)) && multiset(Sorted(prices)) == multiset(prices)
    requires Sorted(prices)[0] <= median <= Sorted(prices)[|prices| - 1]
    ensures NearMedian(Sorted(prices)[0], median, bps) && NearMedian(Sorted(prices)[|prices| - 1], median, bps)
            <==> forall i :: 0 <= i < |prices| ==> NearMedian(prices[i], median, bps)
  {
    hide NearMedian, Sorted;
    var sorted := Sorted(prices);
    if NearMedian(sorted[0], median, bps) && NearMedian(sorted[|prices| - 1], median, bps) {
      forall i | 0 <= i < |prices|
        ensures NearMedian(prices[i], median, bps)
      {
        assert prices[i] in multiset(sorted);
        NearerIsNear(prices[i], if prices[i] <= median then sorted[0] else sorted[|prices| - 1], median, bps);
      }
    } else {
      assert sorted[0] in multiset(prices) && sorted[|prices| - 1] in multiset(prices);
    }
  }

  // ----- A minority cannot move the median -----

  function CountAtMost(s: seq<int>, m: int): nat {
    if s == [] then 0 else (if s[0] <= m then 1 else 0) + CountAtMost(s[1..], m)
  }

  function CountAtLeast(s: seq<int>, m: int): nat {
    if s == [] then 0 else (if s[0] >= m then 1 else 0) + CountAtLeast(s[1..], m)
  }

  lemma {:induction false} CountInsert(x: int, s: seq<int>, m: int)
    ensures CountAtMost(Insert(x, s), m) == CountAtMost(s, m) + (if x <= m then 1 else 0)
    ensures CountAtLeast(Insert(x, s), m) == CountAtLeast(s, m) + (if x >= m then 1 else 0)
  {
    if s != [] && s[0] < x {
      CountInsert(x, s[1..], m);
      assert ([s[0]] + Insert(x, s[1..]))[1..] == Insert(x, s[1..]);
    } else {
      assert ([x] + s)[1..] == s;
    }
  }

  lemma {:induction false} CountSorted(s: seq<int>, m: int)
    ensures CountAtMost(Sorted(s), m) == CountAtMost(s, m)
    ensures CountAtLeast(Sorted(s), m) == CountAtLeast(s, m)
  {
    if s != [] {
      CountSorted(s[1..], m);
      CountInsert(s[0], Sorted(s[1..]), m);
    }
  }

  /** In ascending order, at least `k + 1` entries are at most entry `k`, and at least
      `n - k` are at least entry `k`. */
  lemma {:induction false} CountAround(s: seq<int>, k: nat, m: int)
    requires Ascending(s) && k < |s| && s[k] == m
    ensures CountAtMost(s, m) >= k + 1
    ensures CountAtLeast(s, m) >= |s| - k
  {
    if k > 0 {
      CountAround(s[1..], k - 1, m);
    } else if |s| > 1 {
      AllAtLeast(s, m);
    }
  }

  lemma {:induction false} AllAtLeast(s: seq<int>, m: int)
    requires forall i :: 0 <= i < |s| ==> s[i] >= m
    ensures CountAtLeast(s, m) == |s|
  {
    if s != [] {
      AllAtLeast(s[1..], m);
    }
  }

  function Arbitrary(honest: seq<bool>): nat {
    if honest == [] then 0 else (if honest[0] then 0 else 1) + Arbitrary(honest[1..])
  }

  /** More entries at most `m` than arbitrary ones means an honest entry at most `m`. */
  lemma {:induction false} HonestBelow(prices: seq<int>, honest: seq<bool>, m: int) returns (i: nat)
    requires |prices| == |honest| && CountAtMost(prices, m) > Arbitrary(honest)
    ensures i < |prices| && honest[i] && prices[i] <= m
  {
    if honest[0] && prices[0] <= m {
      i := 0;
    } else {
      var rest := HonestBelow(prices[1..], honest[1..], m);
      i := rest + 1;
    }
  }

  lemma {:induction false} HonestAbove(prices: seq<int>, honest: seq<bool>, m: int) returns (i: nat)
    requires |prices| == |honest| && CountAtLeast(prices, m) > Arbitrary(honest)
    ensures i < |prices| && honest[i] && prices[i] >= m
  {
    if honest[0] && prices[0] >= m {
      i := 0;
    } else {
      var rest := HonestAbove(prices[1..], honest[1..], m);
      i := rest + 1;
    }
  }

  /** When fewer than half of the prices are arbitrary, the lower median lies between two
      honest ones. */
  lemma MedianBetweenHonest(prices: seq<int>, honest: seq<bool>) returns (low: nat, high: nat)
    requires |prices| == |honest| && prices != [] && 2 * Arbitrary(honest) < |prices|
    ensures low < |prices| && high < |prices| && honest[low] && honest[high]
    ensures prices[low] <= LowerMedian(prices) <= prices[high]
  {
    var median := LowerMedian(prices);
    SortedIsSort(prices);
    CountAround(Sorted(prices), MedianIndex(|prices|), median);
    CountSorted(prices, median);
    low := HonestBelow(prices, honest, median);
    high := HonestAbove(prices, honest, median);
  }
}
