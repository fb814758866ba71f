/** Sums over the values of a map, independent of the order in which it is walked. */
module MapSum {

  ghost function Sum<T>(m: map<string, T>, w: T -> real): real
    decreases |m|
  {
    if m == map[] then 0.0
    else
      var k :| k in m;
      assert |m - {k}| < |m| by { Smaller(m, k); }
      w(m[k]) + Sum(m - {k}, w)
  }

  ghost function SeqSum<T>(s: seq<T>, w: T -> real): real {
    if s == [] then 0.0 else SeqSum(s[..|s| - 1], w) + w(s[|s| - 1])
  }

  lemma Smaller<T>(m: map<string, T>, k: string)
    requires k in m
    ensures |m - {k}| < |m|
  {
    assert (m - {k}).Keys == m.Keys - {k};
    assert |m.Keys - {k}| == |m.Keys| - 1;
  }

  lemma {:induction false} SumRemove<T>(m: map<string, T>, w: T -> real, k: string)
    requires k in m
    ensures Sum(m, w) == w(m[k]) + Sum(m - {k}, w)
    decreases |m|
  {
    var j :| j in m && Sum(m, w) == w(m[j]) + Sum(m - {j}, w);
    if j != k {
      Smaller(m, j);
      Smaller(m, k);
      SumRemove(m - {j}, w, k);
      SumRemove(m - {k}, w, j);
      assert m - {j} - {k} == m - {k} - {j};
    }
  }

  lemma SumInsert<T>(m: map<string, T>, w: T -> real, k: string, v: T)
    requires k !in m
    ensures Sum(m[k := v], w) == w(v) + Sum(m, w)
  {
    SumRemove(m[k := v], w, k);
    assert m[k := v] - {k} == m;
  }

  lemma {:induction false} SumNonNegative<T>(m: map<string, T>, w: T -> real)
    requires forall k :: k in m ==> 0.0 <= w(m[k])
    ensures 0.0 <= Sum(m, w)
    decreases |m|
  {
    if m != map[] {
      var k :| k in m && Sum(m, w) == w(m[k]) + Sum(m - {k}, w);
      Smaller(m, k);
      SumNonNegative(m - {k}, w);
    }
  }
}
