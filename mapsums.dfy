/** Sums over the values of a map, in no particular order, as Python's `sum(d.values())`. */
module MapSums {

  /** The sum of `f` over the map's values; which key is taken first does not matter. */
  ghost function SumValues<K, V>(m: map<K, V>, f: V -> real): real
    decreases |m.Keys|
  {
    if m == map[] then 0.0
    else
      var k :| k in m;
      f(m[k]) + SumValues(m - {k}, f)
  }

  /** Any key can be taken out first. */
  lemma {:induction false} SumValuesRemove<K, V>(m: map<K, V>, f: V -> real, k: K)
    requires k in m
    ensures SumValues(m, f) == f(m[k]) + SumValues(m - {k}, f)
    decreases |m.Keys|
  {
    var j :| j in m && SumValues(m, f) == f(m[j]) + SumValues(m - {j}, f);
    if j != k {
      assert |(m - {j}).Keys| < |m.Keys| by {
        assert (m - {j}).Keys == m.Keys - {j};
      }
      assert |(m - {k}).Keys| < |m.Keys| by {
        assert (m - {k}).Keys == m.Keys - {k};
      }
      SumValuesRemove(m - {j}, f, k);
      SumValuesRemove(m - {k}, f, j);
      assert (m - {j}) - {k} == (m - {k}) - {j};
    }
  }

  /** Replacing one value changes the sum by the difference of the two values. */
  lemma SumValuesUpdate<K, V>(m: map<K, V>, f: V -> real, k: K, v: V)
    requires k in m
    ensures SumValues(m[k := v], f) == SumValues(m, f) - f(m[k]) + f(v)
  {
    SumValuesRemove(m, f, k);
    SumValuesRemove(m[k := v], f, k);
    assert m[k := v] - {k} == m - {k};
  }

  /** Adding a new key adds its value to the sum. */
  lemma SumValuesInsert<K, V>(m: map<K, V>, f: V -> real, k: K, v: V)
    requires k !in m
    ensures SumValues(m[k := v], f) == SumValues(m, f) + f(v)
  {
    SumValuesRemove(m[k := v], f, k);
    assert m[k := v] - {k} == m;
  }
}
