/** Weighted sums over finite maps. */
module Sums {
  import opened Machine

  ghost function SumBy<T(!new)>(m: map<u32, T>, weight: T -> nat): nat {
    if m == map[] then 0
    else var k :| k in m; weight(m[k]) + SumBy(m - {k}, weight)
  }

  /** The sum does not depend on the key it is taken apart at. */
  lemma {:induction false} SumRemove<T(!new)>(m: map<u32, T>, weight: T -> nat, k: u32)
    requires k in m
    ensures SumBy(m, weight) == weight(m[k]) + SumBy(m - {k}, weight)
    decreases |m|
  {
    var j :| j in m && SumBy(m, weight) == weight(m[j]) + SumBy(m - {j}, weight);
    if j != k {
      Shrinks(m, j);
      Shrinks(m, k);
      SumRemove(m - {j}, weight, k);
      SumRemove(m - {k}, weight, j);
      assert m - {j} - {k} == m - {k} - {j};
    }
  }

  lemma Shrinks<T>(m: map<u32, T>, k: u32)
    requires k in m
    ensures |m - {k}| == |m| - 1
  {
    assert (m - {k}).Keys == m.Keys - {k};
    assert |m - {k}| == |(m - {k}).Keys| && |m| == |m.Keys|;
  }

  lemma SumSet<T(!new)>(m: map<u32, T>, weight: T -> nat, k: u32, v: T)
    ensures SumBy(m[k := v], weight)
            == SumBy(m, weight) - (if k in m then weight(m[k]) else 0) + weight(v)
  {
    SumRemove(m[k := v], weight, k);
    assert m[k := v] - {k} == m - {k};
    if k in m {
      SumRemove(m, weight, k);
    } else {
      assert m - {k} == m;
    }
  }

  lemma {:induction false} SumZero<T(!new)>(m: map<u32, T>, weight: T -> nat)
    requires forall k | k in m :: weight(m[k]) == 0
    ensures SumBy(m, weight) == 0
    decreases |m|
  {
    if m != map[] {
      var k :| k in m;
      Shrinks(m, k);
      SumRemove(m, weight, k);
      SumZero(m - {k}, weight);
    }
  }
}
