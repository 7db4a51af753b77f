/** Sums over the values of a finite map. */
module MapSums {
  ghost function SumValues<K>(m: map<K, int>): int {
    if m == map[] then 0
    else
      var k :| k in m;
      m[k] + SumValues(m - {k})
  }

  lemma {:induction false} SumRemove<K>(m: map<K, int>, k: K)
    requires k in m
    ensures SumValues(m) == m[k] + SumValues(m - {k})
    decreases |m|
  {
    var picked :| picked in m && SumValues(m) == m[picked] + SumValues(m - {picked});
    if picked != k {
      assert |m - {picked}| < |m| && |m - {k}| < |m| by {
        assert (m - {picked}).Keys == m.Keys - {picked} && (m - {k}).Keys == m.Keys - {k};
      }
      SumRemove(m - {picked}, k);
      SumRemove(m - {k}, picked);
      assert m - {picked} - {k} == m - {k} - {picked};
    }
  }

  lemma SumPut<K>(m: map<K, int>, k: K, v: int)
    ensures SumValues(m[k := v]) == SumValues(m) - (if k in m then m[k] else 0) + v
  {
    SumRemove(m[k := v], k);
    assert m[k := v] - {k} == m - {k};
    if k in m {
      SumRemove(m, k);
    } else {
      assert m - {k} == m;
    }
  }
}
