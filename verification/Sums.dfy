/** Sums over finite maps. */
module Sums {
  /** The sum of weight(k, m[k]) over all k in m. */
  ghost function Sum<K, V>(m: map<K, V>, weight: (K, V) -> int): int {
    if m == map[] then 0
    else
      var k :| k in m;
      weight(k, m[k]) + Sum(m - {k}, weight)
  }

  lemma {:induction false} SumRemove<K, V>(m: map<K, V>, weight: (K, V) -> int, k: K)
    requires k in m
    ensures Sum(m, weight) == weight(k, m[k]) + Sum(m - {k}, weight)
    decreases |m|
  {
    var j :| j in m && Sum(m, weight) == weight(j, m[j]) + Sum(m - {j}, weight);
    if j != k {
      SumRemove(m - {j}, weight, k);
      SumRemove(m - {k}, weight, j);
      assert m - {j} - {k} == m - {k} - {j};
    }
  }

  lemma SumPut<K, V>(m: map<K, V>, weight: (K, V) -> int, k: K, v: V)
    ensures Sum(m[k := v], weight) == Sum(m, weight) - (if k in m then weight(k, m[k]) else 0) + weight(k, v)
  {
    SumRemove(m[k := v], weight, k);
    assert m[k := v] - {k} == m - {k};
    if k in m { SumRemove(m, weight, k); } else { assert m - {k} == m; }
  }
}
