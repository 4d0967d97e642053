/** Sums over the values of an address-keyed map, as the source computes
    them with `Array.from(m.values()).reduce(...)` and `m.forEach(...)`.
    With exact arithmetic the order of the keys does not matter, which the
    lemmas below establish. */
module MapSums {

  ghost function MapSum(m: map<string, real>): real
    decreases |m|
  {
    if m == map[] then 0.0
    else
      var k :| k in m;
      m[k] + MapSum(m - {k})
  }

  /** Any key can be taken out first. */
  lemma {:induction false} MapSumRemove(m: map<string, real>, k: string)
    requires k in m
    ensures MapSum(m) == m[k] + MapSum(m - {k})
    decreases |m|
  {
    var j :| j in m && MapSum(m) == m[j] + MapSum(m - {j});
    if j != k {
      MapSumRemove(m - {j}, k);
      MapSumRemove(m - {k}, j);
      assert m - {j} - {k} == m - {k} - {j};
    }
  }

  /** Writing `v` under `k` changes the sum by the difference to what `k`
      held before (nothing when `k` was absent). */
  lemma {:induction false} MapSumUpdate(m: map<string, real>, k: string, v: real)
    ensures MapSum(m[k := v]) == MapSum(m) - (if k in m then m[k] else 0.0) + v
  {
    MapSumRemove(m[k := v], k);
    assert m[k := v] - {k} == m - {k};
    if k in m {
      MapSumRemove(m, k);
    } else {
      assert m - {k} == m;
    }
  }

  lemma {:induction false} MapSumNonNegative(m: map<string, real>)
    requires forall k :: k in m ==> m[k] >= 0.0
    ensures MapSum(m) >= 0.0
    decreases |m|
  {
    if m != map[] {
      var k :| k in m;
      MapSumRemove(m, k);
      MapSumNonNegative(m - {k});
    }
  }

  lemma MapSumSingleton(k: string, v: real)
    ensures MapSum(map[k := v]) == v
  {
    MapSumRemove(map[k := v], k);
    assert map[k := v] - {k} == map[];
  }

  /** The reduction over all values of `m`. */
  method SumValues(m: map<string, real>) returns (total: real)
    ensures total == MapSum(m)
  {
    var rest := m;
    total := 0.0;
    while rest != map[]
      invariant total + MapSum(rest) == MapSum(m)
      decreases |rest|
    {
      var k :| k in rest;
      MapSumRemove(rest, k);
      total := total + rest[k];
      rest := rest - {k};
    }
  }
}
