/** Sums of numbers held in a map, and how updates change them. */
module Totals {

  ghost function Total<K>(m: map<K, nat>): nat
    decreases |m|
  {
    if m == map[] then 0
    else
      var k :| k in m;
      m[k] + Total(m - {k})
  }

  lemma {:induction false} TotalOf<K>(m: map<K, nat>, k: K)
    requires k in m
    ensures Total(m) == m[k] + Total(m - {k})
    decreases |m|
  {
    var j :| j in m && Total(m) == m[j] + Total(m - {j});
    if j != k {
      TotalOf(m - {j}, k);
      TotalOf(m - {k}, j);
      assert m - {j} - {k} == m - {k} - {j};
    }
  }

  /** Setting one entry replaces its old value in the sum. */
  lemma TotalSet<K>(m: map<K, nat>, k: K, v: nat)
    ensures Total(m[k := v]) == Total(m) - (if k in m then m[k] else 0) + v
  {
    TotalOf(m[k := v], k);
    assert m[k := v] - {k} == m - {k};
    if k in m { TotalOf(m, k); } else { assert m - {k} == m; }
  }

  /** A map with fewer keys and smaller values has a smaller sum. */
  lemma {:induction false} TotalMonotone<K>(a: map<K, nat>, b: map<K, nat>)
    requires forall k :: k in a ==> k in b && a[k] <= b[k]
    ensures Total(a) <= Total(b)
    decreases |b|
  {
    if a != map[] {
      var k :| k in a;
      TotalOf(a, k);
      TotalOf(b, k);
      TotalMonotone(a - {k}, b - {k});
    }
  }
}
