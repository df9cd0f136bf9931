/** Sums of a weight over the entries of a finite map. */
module MapSums {

  ghost function Sum<K, V>(m: map<K, V>, weight: (K, V) -> int): int {
    if m == map[] then
      0
    else
      var k :| k in m;
      weight(k, m[k]) + Sum(m - {k}, weight)
  }

  lemma SumEmpty<K, V>(m: map<K, V>, weight: (K, V) -> int)
    requires m == map[]
    ensures Sum(m, weight) == 0
  {
  }

  /** Any entry can be taken out first. */
  lemma {:induction false} SumPick<K, V>(m: map<K, V>, weight: (K, V) -> int, k: K)
    requires k in m
    ensures Sum(m, weight) == weight(k, m[k]) + Sum(m - {k}, weight)
    decreases |m|
  {
    var j :| j in m && Sum(m, weight) == weight(j, m[j]) + Sum(m - {j}, weight);
    if j != k {
      SumPick(m - {j}, weight, k);
      SumPick(m - {k}, weight, j);
      assert m - {j} - {k} == m - {k} - {j};
    }
  }

  function At<K, V>(m: map<K, V>, weight: (K, V) -> int, k: K): int {
    if k in m then weight(k, m[k]) else 0
  }

  lemma SumRemove<K, V>(m: map<K, V>, weight: (K, V) -> int, k: K)
    ensures Sum(m - {k}, weight) == Sum(m, weight) - At(m, weight, k)
  {
    if k in m {
      SumPick(m, weight, k);
    } else {
      assert m - {k} == m;
    }
  }

  lemma SumUpdate<K, V>(m: map<K, V>, weight: (K, V) -> int, k: K, v: V)
    ensures Sum(m[k := v], weight) == Sum(m, weight) - At(m, weight, k) + weight(k, v)
  {
    SumRemove(m, weight, k);
    SumPick(m[k := v], weight, k);
    assert m[k := v] - {k} == m - {k};
  }

  /** Non-negative weights bound every entry by the sum. */
  lemma {:induction false} SumNonNegative<K, V>(m: map<K, V>, weight: (K, V) -> int)
    requires forall k :: k in m ==> weight(k, m[k]) >= 0
    ensures Sum(m, weight) >= 0
    decreases |m|
  {
    if m != map[] {
      var k :| k in m && Sum(m, weight) == weight(k, m[k]) + Sum(m - {k}, weight);
      SumNonNegative(m - {k}, weight);
    }
  }

  lemma SumBoundsEntry<K, V>(m: map<K, V>, weight: (K, V) -> int, k: K)
    requires forall k :: k in m ==> weight(k, m[k]) >= 0
    requires k in m
    ensures 0 <= weight(k, m[k]) <= Sum(m, weight)
  {
    SumPick(m, weight, k);
    SumNonNegative(m - {k}, weight);
  }

  lemma SumAllZero<K, V>(m: map<K, V>, weight: (K, V) -> int)
    requires forall k :: k in m ==> weight(k, m[k]) == 0
    ensures Sum(m, weight) == 0
  {
  }
}
