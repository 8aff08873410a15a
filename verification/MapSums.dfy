/** Sums of a real-valued measure over the values of a finite map. */
module MapSums {
  ghost function Sum<K, V>(m: map<K, V>, f: V -> real): real
    decreases |m|
  {
    if m == map[] then 0.0 else
      var k :| k in m;
      assert (m - {k}).Keys == m.Keys - {k};
      f(m[k]) + Sum(m - {k}, f)
  }

  /** Any key may be taken out first, not just the one the definition picks. */
  lemma {:induction false} SumTakeOut<K, V>(m: map<K, V>, f: V -> real, k: K)
    requires k in m
    ensures Sum(m, f) == f(m[k]) + Sum(m - {k}, f)
    decreases |m|
  {
    var j :| j in m && Sum(m, f) == f(m[j]) + Sum(m - {j}, f);
    if j != k {
      assert (m - {j}).Keys == m.Keys - {j} && (m - {k}).Keys == m.Keys - {k};
      SumTakeOut(m - {j}, f, k);
      SumTakeOut(m - {k}, f, j);
      assert (m - {j}) - {k} == (m - {k}) - {j};
    }
  }

  /** Writing one entry changes the sum by that entry's change. */
  lemma SumUpdate<K, V>(m: map<K, V>, f: V -> real, k: K, v: V)
    ensures Sum(m[k := v], f) == Sum(m, f) + f(v) - (if k in m then f(m[k]) else 0.0)
  {
    var m' := m[k := v];
    SumTakeOut(m', f, k);
    assert m' - {k} == m - {k};
    if k in m {
      SumTakeOut(m, f, k);
    } else {
      assert m - {k} == m;
    }
  }

  /** A measure bounded below entry by entry is bounded below in the sum. */
  lemma {:induction false} SumMonotone<K, V>(m: map<K, V>, f: V -> real, g: V -> real)
    requires forall k :: k in m ==> f(m[k]) <= g(m[k])
    ensures Sum(m, f) <= Sum(m, g)
    decreases |m|
  {
    if m != map[] {
      var k :| k in m;
      SumTakeOut(m, f, k);
      SumTakeOut(m, g, k);
      assert (m - {k}).Keys == m.Keys - {k};
      SumMonotone(m - {k}, f, g);
    }
  }

  lemma {:induction false} SumOfZeros<K, V>(m: map<K, V>, f: V -> real)
    requires forall k :: k in m ==> f(m[k]) == 0.0
    ensures Sum(m, f) == 0.0
    decreases |m|
  {
    if m != map[] {
      var k :| k in m;
      SumTakeOut(m, f, k);
      assert (m - {k}).Keys == m.Keys - {k};
      SumOfZeros(m - {k}, f);
    }
  }
}
