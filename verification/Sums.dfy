/** Counters kept in maps, where a missing key counts as zero, and their totals. */
module Sums {
  function At<K>(m: map<K, int>, k: K): int
  {
    if k in m then m[k] else 0
  }

  function Bump<K>(m: map<K, int>, k: K, d: int): map<K, int>
  {
    m[k := At(m, k) + d]
  }

  ghost function Total<K>(m: map<K, int>): int
    decreases |m|
  {
    if m == map[] then 0
    else
      var k :| k in m;
      MapLess(m, k);
      m[k] + Total(m - {k})
  }

  lemma MapLess<K>(m: map<K, int>, k: K)
    requires k in m
    ensures |m - {k}| < |m|
  {
    assert (m - {k}).Keys == m.Keys - {k};
  }

  /** Any key can be taken out first. */
  lemma {:induction false} TotalWithout<K>(m: map<K, int>, k: K)
    requires k in m
    ensures Total(m) == m[k] + Total(m - {k})
    decreases |m|
  {
    var first :| first in m && Total(m) == m[first] + Total(m - {first});
    if first != k {
      MapLess(m, first);
      MapLess(m, k);
      TotalWithout(m - {first}, k);
      TotalWithout(m - {k}, first);
      assert m - {first} - {k} == m - {k} - {first};
    }
  }

  /** Setting one counter changes the total by as much as the counter. */
  lemma TotalSet<K>(m: map<K, int>, k: K, v: int)
    ensures Total(m[k := v]) == Total(m) - At(m, k) + v
  {
    TotalWithout(m[k := v], k);
    if k in m {
      TotalWithout(m, k);
      assert m[k := v] - {k} == m - {k};
    } else {
      assert m[k := v] - {k} == m;
    }
  }

  lemma TotalBump<K>(m: map<K, int>, k: K, d: int)
    ensures Total(Bump(m, k, d)) == Total(m) + d
  {
    TotalSet(m, k, At(m, k) + d);
  }
}
