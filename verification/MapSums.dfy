/** Sums over the values of a finite map. */
module MapSums {
  import opened Prelude

  ghost function Sum<K(!new)>(m: map<K, int>): int {
    if m == map[] then 0
    else
      var k :| k in m;
      m[k] + Sum(m - {k})
  }

  /** The choice of the key to split off does not matter. */
  lemma {:induction false} SumRemove<K(!new)>(m: map<K, int>, k: K)
    requires k in m
    ensures Sum(m) == m[k] + Sum(m - {k})
    decreases |m|
  {
    var j :| j in m && Sum(m) == m[j] + Sum(m - {j});
    if j != k {
      SumRemove(m - {j}, k);
      SumRemove(m - {k}, j);
      assert m - {j} - {k} == m - {k} - {j};
    }
  }

  lemma {:induction false} SumUpdate<K(!new)>(m: map<K, int>, k: K, v: int)
    ensures Sum(m[k := v]) == Sum(m) - Get(m, k) + v
  {
    SumRemove(m[k := v], k);
    if k in m {
      SumRemove(m, k);
      assert m[k := v] - {k} == m - {k};
    } else {
      assert m[k := v] - {k} == m;
    }
  }

  ghost predicate NonNegative<K(!new)>(m: map<K, int>) {
    forall k | k in m :: 0 <= m[k]
  }

  /** Non-negative entries: the sum is non-negative and bounds any entry, and any two. */
  lemma {:induction false} SumBounds<K(!new)>(m: map<K, int>, k: K, j: K)
    requires NonNegative(m)
    ensures 0 <= Sum(m) && Get(m, k) <= Sum(m)
    ensures k != j ==> Get(m, k) + Get(m, j) <= Sum(m)
    decreases |m|
  {
    if m != map[] {
      var i :| i in m && Sum(m) == m[i] + Sum(m - {i});
      SumBounds(m - {i}, k, j);
      if i == k || i == j {
        SumBounds(m - {i}, j, k);
      }
    }
  }

  /** Sums over the same keys add up entry by entry. */
  lemma {:induction false} SumSplit<K(!new)>(m: map<K, int>, a: map<K, int>, b: map<K, int>)
    requires m.Keys == a.Keys == b.Keys
    requires forall k | k in m :: m[k] == a[k] + b[k]
    ensures Sum(m) == Sum(a) + Sum(b)
    decreases |m|
  {
    if m != map[] {
      var k :| k in m && Sum(m) == m[k] + Sum(m - {k});
      SumRemove(a, k);
      SumRemove(b, k);
      SumSplit(m - {k}, a - {k}, b - {k});
    } else {
      assert a == map[] && b == map[];
    }
  }
}
