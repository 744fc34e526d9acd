/** Sums over finite mappings whose missing entries read as zero. */
module Sums {

  function Get<K>(m: map<K, nat>, k: K): nat {
    if k in m then m[k] else 0
  }

  ghost function Sum<K>(m: map<K, nat>): nat {
    if m == map[] then 0
    else
      var k :| k in m;
      m[k] + Sum(m - {k})
  }

  lemma {:induction false} SumRemove<K>(m: map<K, nat>, k: K)
    requires k in m
    ensures Sum(m) == m[k] + Sum(m - {k})
    decreases |m|
  {
    var j :| j in m && Sum(m) == m[j] + Sum(m - {j});
    if j != k {
      SumRemove(m - {j}, k);
      SumRemove(m - {k}, j);
      assert (m - {j}) - {k} == (m - {k}) - {j};
    }
  }

  lemma SumUpdate<K>(m: map<K, nat>, k: K, v: nat)
    ensures Sum(m[k := v]) + Get(m, k) == Sum(m) + v
  {
    SumRemove(m[k := v], k);
    assert m[k := v] - {k} == m - {k};
    if k in m {
      SumRemove(m, k);
    } else {
      assert m - {k} == m;
    }
  }

  lemma {:induction false} SumAtLeast<K>(m: map<K, nat>, k: K)
    ensures Get(m, k) <= Sum(m)
  {
    if k in m { SumRemove(m, k); }
  }

  lemma {:induction false} SumAtLeastTwo<K>(m: map<K, nat>, j: K, k: K)
    requires j != k
    ensures Get(m, j) + Get(m, k) <= Sum(m)
  {
    SumAtLeast(m, k);
    if j in m {
      SumRemove(m, j);
      SumAtLeast(m - {j}, k);
    }
  }

  /** Dropping entries does not raise the sum. */
  lemma {:induction false} SumSubmap<K>(small: map<K, nat>, m: map<K, nat>)
    requires forall k :: k in small ==> k in m && m[k] == small[k]
    ensures Sum(small) <= Sum(m)
    decreases |small|
  {
    if small != map[] {
      var k :| k in small;
      SumRemove(small, k);
      SumRemove(m, k);
      SumSubmap(small - {k}, m - {k});
    }
  }
}
