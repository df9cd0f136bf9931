/** The oracle router: source lists, a short-lived price cache, and the price fetch. */
module OracleRouters {
  import opened Types
  import opened PriceAggregation

  // ----- Source lists -----

  /** The list without the later copies of an entry. */
  function FirstOccurrences(list: seq<nat>): seq<nat> {
    if list == [] then
      []
    else
      var kept, last := FirstOccurrences(list[..|list| - 1]), list[|list| - 1];
      if last in kept then kept else kept + [last]
  }

  /** Where `x` first stands in `list`, or the length of the list. */
  function FirstIndex(list: seq<nat>, x: nat): (k: nat)
    ensures k <= |list| && x !in list[..k]
    ensures k < |list| ==> list[k] == x
  {
    if list == [] || list[0] == x then 0 else 1 + FirstIndex(list[1..], x)
  }

  lemma {:induction false} FirstIndexExtends(list: seq<nat>, y: nat, x: nat)
    requires x in list
    ensures FirstIndex(list + [y], x) == FirstIndex(list, x) < |list|
  {
    if list[0] != x {
      assert (list + [y])[1..] == list[1..] + [y];
      FirstIndexExtends(list[1..], y, x);
    }
  }

  /** Deduplication loses no entry, repeats none and keeps the order in which the entries
      first came. */
  lemma {:induction false} FirstOccurrencesSound(list: seq<nat>)
    ensures Distinct(FirstOccurrences(list)) && |FirstOccurrences(list)| <= |list|
    ensures forall x :: x in FirstOccurrences(list) <==> x in list
    ensures forall i, j :: 0 <= i < j < |FirstOccurrences(list)| ==>
              FirstIndex(list, FirstOccurrences(list)[i]) < FirstIndex(list, FirstOccurrences(list)[j])
  {
    if list != [] {
      var init, last := list[..|list| - 1], list[|list| - 1];
      var kept, all := FirstOccurrences(init), FirstOccurrences(list);
      assert list == init + [last];
      FirstOccurrencesSound(init);
      forall i, j | 0 <= i < j < |all|
        ensures FirstIndex(list, all[i]) < FirstIndex(list, all[j])
      {
        assert all[i] == kept[i] && kept[i] in init;
        FirstIndexExtends(init, last, kept[i]);
        if j < |kept| {
          assert kept[j] in init;
          FirstIndexExtends(init, last, kept[j]);
        } else {
          assert forall k :: 0 <= k < |init| ==> list[k] == init[k];
        }
      }
    }
  }

  // ----- Prices -----

  datatype CachedPrice = CachedPrice(price: int, lastUpdate: nat)

  lemma UsablePricesPositive(sources: seq<nat>, answers: Answers, cfg: OracleConfig, now: nat)
    ensures AllPositive(Prices(UsableData(sources, answers, cfg, now)))
  {
    UsableDataIff(sources, answers, cfg, now);
    var data := UsableData(sources, answers, cfg, now);
    forall i | 0 <= i < |data|
      ensures Prices(data)[i] > 0
    {
      assert data[i] in data;
    }
  }

  /** A price computed from a round of answers, ignoring the cache. */
  function Query(sources: seq<nat>, answers: Answers, cfg: OracleConfig, now: nat): PriceResult {
    if sources == [] then
      Failed(NoPriceSources)
    else
      UsablePricesPositive(sources, answers, cfg, now);
      Aggregate(Prices(UsableData(sources, answers, cfg, now)), cfg)
  }

  /** Evidence for a price: at least the required number of answers from different
      sources, each positive, none from the future, none older than the threshold when
      taken, the price their lower median and every one of them close to it. */
  ghost predicate Backs(data: seq<Datum>, price: int, taken: nat, cfg: OracleConfig) {
    && |data| >= cfg.minRequiredSources && data != []
    && Distinct(Sources(data))
    && (forall i :: 0 <= i < |data| ==>
          data[i].price > 0 && data[i].time <= taken <= data[i].time + cfg.stalenessThreshold)
    && price == LowerMedian(Prices(data)) > 0
    && (forall i :: 0 <= i < |data| ==> Within(data[i].price, price, cfg.maxDeviationBps))
  }

  /** Every price the router accepts is backed by the answers it accepted it on. */
  lemma QueryBacked(sources: seq<nat>, answers: Answers, cfg: OracleConfig, now: nat)
    requires Distinct(sources) && Query(sources, answers, cfg, now).Price?
    ensures Backs(UsableData(sources, answers, cfg, now), Query(sources, answers, cfg, now).value, now, cfg)
  {
    hide LowerMedian, Within, Aggregate, UsableData;
    var data := UsableData(sources, answers, cfg, now);
    UsablePricesPositive(sources, answers, cfg, now);
    AggregateSound(Prices(data), cfg);
    UsableDataDistinct(sources, answers, cfg, now);
    UsableDataIff(sources, answers, cfg, now);
    forall i | 0 <= i < |data|
      ensures data[i].price > 0 && data[i].time <= now <= data[i].time + cfg.stalenessThreshold
      ensures Within(data[i].price, LowerMedian(Prices(data)), cfg.maxDeviationBps)
    {
      assert data[i] in data;
      assert Prices(data)[i] == data[i].price;
    }
  }

  /** Exactly when a round of answers gives a price: some source is listed, enough answers are
      usable, and every one of them is near enough to their lower median. */
  lemma QueryIff(sources: seq<nat>, answers: Answers, cfg: OracleConfig, now: nat)
    requires cfg.Valid()
    ensures var prices := Prices(UsableData(sources, answers, cfg, now));
            Query(sources, answers, cfg, now).Price?
            <==> && |prices| >= cfg.minRequiredSources
                 && forall i :: 0 <= i < |prices| ==>
                      NearMedian(prices[i], LowerMedian(prices), cfg.maxDeviationBps)
  {
    hide LowerMedian, NearMedian, Aggregate, AllPositive;
    UsablePricesPositive(sources, answers, cfg, now);
    AggregateIff(Prices(UsableData(sources, answers, cfg, now)), cfg);
  }

  /** While fewer than half of the accepted answers are arbitrary, the price lies between
      two honest ones. */
  lemma BackedByHonest(data: seq<Datum>, price: int, taken: nat, cfg: OracleConfig, honest: seq<bool>)
    returns (low: nat, high: nat)
    requires Backs(data, price, taken, cfg)
    requires |honest| == |data| && 2 * Arbitrary(honest) < |data|
    ensures low < |data| && high < |data| && honest[low] && honest[high]
    ensures data[low].price <= price <= data[high].price
  {
    low, high := MedianBetweenHonest(Prices(data), honest);
  }

  class OracleRouter {
    const config: OracleConfig
    var sources: map<Symbol, seq<nat>>
    var cache: map<Symbol, CachedPrice>

    /** The answers each cached price was computed from. */
    ghost var evidence: map<Symbol, seq<Datum>>

    ghost predicate Valid()
      reads this
    {
      && config.Valid()
      && (forall s :: s in sources ==> Distinct(sources[s]) && |sources[s]| <= 16)
      && (forall s :: s in cache ==> s in evidence && Backs(evidence[s], cache[s].price, cache[s].lastUpdate, config))
    }

    constructor (config: OracleConfig)
      requires config.Valid()
      ensures Valid() && this.config == config && sources == map[] && cache == map[]
    {
      this.config := config;
      sources, cache, evidence := map[], map[], map[];
    }

    function SourcesOf(symbol: Symbol): seq<nat>
      reads this
    {
      if symbol in sources then sources[symbol] else []
    }

    /** Keeps the first occurrence of every address, in order. */
    static method DedupSources(list: seq<nat>) returns (result: seq<nat>)
      ensures result == FirstOccurrences(list)
    {
      result := [];
      for n := 0 to |list|
        invariant result == FirstOccurrences(list[..n])
      {
        var address := list[n];
        assert list[..n + 1][..n] == list[..n];
        var seen := false;
        var m := 0;
        while m < |result| && !seen
          invariant 0 <= m <= |result|
          invariant seen <==> address in result[..m]
        {
          seen := address == result[m];
          m := m + 1;
        }
        if !seen {
          assert result[..m] == result;
          result := result + [address];
        }
      }
      assert list[..|list|] == list;
    }

    /** Stores the deduplicated list; a list longer than sixteen is refused. */
    method SetOracleSources(symbol: Symbol, list: seq<nat>) returns (accepted: bool)
      requires Valid()
      modifies this`sources
      ensures Valid()
      ensures accepted <==> |list| <= 16
      ensures !accepted ==> sources == old(sources)
      ensures accepted ==> sources == old(sources)[symbol := FirstOccurrences(list)]
    {
      accepted := |list| <= 16;
      if accepted {
        var deduped := DedupSources(list);
        FirstOccurrencesSound(list);
        sources := sources[symbol := deduped];
      }
    }

    method QuerySources(list: seq<nat>, answers: Answers, now: nat) returns (prices: seq<int>)
      ensures prices == Prices(UsableData(list, answers, config, now))
    {
      prices := [];
      for n := 0 to |list|
        invariant prices == Prices(UsableData(list[..n], answers, config, now))
      {
        var source := list[n];
        assert list[..n + 1][..n] == list[..n];
        if source !in answers || answers[source].price.None? {
          continue;
        }
        if answers[source].lastUpdate.None? {
          continue;
        }
        var price, lastUpdate := answers[source].price.value, answers[source].lastUpdate.value;
        if lastUpdate > now {
          continue;
        }
        if now - lastUpdate > config.stalenessThreshold || price <= 0 {
          continue;
        }
        prices := prices + [price];
      }
      assert list[..|list|] == list;
    }

    /** Quorum, sort in place, lower median, deviation check. */
    method AggregatePrices(prices: seq<int>) returns (result: PriceResult)
      requires AllPositive(prices)
      ensures result == Aggregate(prices, config)
    {
      hide Sorted, Deviation;
      if prices == [] {
        return Failed(StalePrice);
      }
      if |prices| < config.minRequiredSources {
        return Failed(InsufficientSources);
      }
      var sorted := new int[|prices|](i requires 0 <= i < |prices| => prices[i]);
      assert sorted[..] == prices;
      InsertionSort(sorted);
      SortedPositive(prices);
      var n := sorted.Length;
      ghost var ascending := sorted[..];
      assert |ascending| == n && ascending == Sorted(prices);
      var median := sorted[MedianIndex(n)];
      assert median == ascending[MedianIndex(n)];
      var deviation := Deviation(median, sorted[0], sorted[n - 1]);
      if deviation.None? {
        return Failed(DeviationOverflow);
      }
      if deviation.value > config.maxDeviationBps {
        return Failed(PriceDeviationTooHigh);
      }
      result := Price(median);
    }

    /** Serves the cached price while it is young enough, and otherwise a fresh one, which
        it caches. A failed fetch changes nothing. Any served price rests on answers no
        older than the staleness threshold plus the cache duration. */
    method FetchAndValidatePrice(symbol: Symbol, answers: Answers, now: nat) returns (result: PriceResult)
      requires Valid()
      modifies this`cache, this`evidence
      ensures Valid()
      ensures symbol in old(cache) && now <= old(cache)[symbol].lastUpdate + config.cacheDuration ==>
                result == Price(old(cache)[symbol].price) && cache == old(cache) && evidence == old(evidence)
      ensures symbol !in old(cache) || now > old(cache)[symbol].lastUpdate + config.cacheDuration ==>
                && result == Query(SourcesOf(symbol), answers, config, now)
                && cache == (if result.Price? then old(cache)[symbol := CachedPrice(result.value, now)] else old(cache))
      ensures result.Price? ==>
                && result.value > 0
                && symbol in cache && cache[symbol].price == result.value
                && now <= cache[symbol].lastUpdate + config.cacheDuration
                && (forall i :: 0 <= i < |evidence[symbol]| ==>
                      now - evidence[symbol][i].time <= config.stalenessThreshold + config.cacheDuration)
    {
      hide LowerMedian, Within, Aggregate, UsableData, AllPositive, Prices, Distinct;
      if symbol in cache && now <= cache[symbol].lastUpdate + config.cacheDuration {
        return Price(cache[symbol].price);
      }
      var list := SourcesOf(symbol);
      if list == [] {
        return Failed(NoPriceSources);
      }
      var prices := QuerySources(list, answers, now);
      UsablePricesPositive(list, answers, config, now);
      result := AggregatePrices(prices);
      if result.Price? {
        QueryBacked(list, answers, config, now);
        cache := cache[symbol := CachedPrice(result.value, now)];
        evidence := evidence[symbol := UsableData(list, answers, config, now)];
      }
    }
  }
}
