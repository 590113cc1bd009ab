/** Sums over finite maps, and the one law every ledger in this project rests on. */
module Sums {

  ghost function Sum<K(!new)>(m: map<K, int>): int
    decreases |m|
  {
    if m == map[] then 0
    else
      var k :| k in m;
      assert |m - {k}| < |m| by { Shrinks(m, k); }
      m[k] + Sum(m - {k})
  }

  lemma Shrinks<K, V>(m: map<K, V>, k: K)
    requires k in m
    ensures |m - {k}| == |m| - 1
  {
    assert (m - {k}).Keys == m.Keys - {k};
    assert |m.Keys - {k}| == |m.Keys| - 1;
  }

  /** The order in which keys are taken out does not matter. */
  lemma {:induction false} SumRemove<K(!new)>(m: map<K, int>, k: K)
    requires k in m
    ensures Sum(m) == m[k] + Sum(m - {k})
    decreases |m|
  {
    var c :| c in m && Sum(m) == m[c] + Sum(m - {c});
    if c != k {
      Shrinks(m, c);
      Shrinks(m, k);
      SumRemove(m - {c}, k);
      SumRemove(m - {k}, c);
      assert m - {c} - {k} == m - {k} - {c};
    }
  }

  /** Writing one key changes the sum by the difference at that key. */
  lemma SumPut<K(!new)>(m: map<K, int>, k: K, v: int)
    ensures Sum(m[k := v]) == Sum(m) - (if k in m then m[k] else 0) + v
  {
    SumRemove(m[k := v], k);
    assert m[k := v] - {k} == m - {k};
    if k in m {
      SumRemove(m, k);
    } else {
      assert m - {k} == m;
    }
  }

  lemma {:induction false} SumNonNegative<K(!new)>(m: map<K, int>)
    requires forall k :: k in m ==> 0 <= m[k]
    ensures 0 <= Sum(m)
    ensures forall k :: k in m ==> m[k] <= Sum(m)
    decreases |m|
  {
    forall k | k in m ensures m[k] <= Sum(m) && 0 <= Sum(m) {
      SumRemove(m, k);
      Shrinks(m, k);
      SumNonNegative(m - {k});
    }
  }
}
