/** Sums over the entries of a map. */
module Sums {

  ghost function SumBy<K, V>(m: map<K, V>, f: V -> nat): nat {
    if m == map[] then 0
    else
      var k :| k in m;
      f(m[k]) + SumBy(m - {k}, f)
  }

  /** A sum does not depend on the order in which keys are taken. */
  lemma {:induction false} SumSplit<K, V>(m: map<K, V>, f: V -> nat, k: K)
    requires k in m
    ensures SumBy(m, f) == f(m[k]) + SumBy(m - {k}, f)
    decreases |m|
  {
    var c :| c in m && SumBy(m, f) == f(m[c]) + SumBy(m - {c}, f);
    if c != k {
      assert |m - {c}| < |m| && |m - {k}| < |m|;
      SumSplit(m - {c}, f, k);
      SumSplit(m - {k}, f, c);
      assert (m - {c}) - {k} == (m - {k}) - {c};
    }
  }

  lemma SumUpdate<K, V>(m: map<K, V>, f: V -> nat, k: K, v: V)
    ensures SumBy(m[k := v], f) == SumBy(m, f) - (if k in m then f(m[k]) else 0) + f(v)
  {
    SumSplit(m[k := v], f, k);
    assert m[k := v] - {k} == m - {k};
    if k in m {
      SumSplit(m, f, k);
    } else {
      assert m - {k} == m;
    }
  }

  lemma {:induction false} SumOfParts<K, V>(m: map<K, V>, f: V -> nat, g: V -> nat, h: V -> nat)
    requires forall k :: k in m ==> f(m[k]) + g(m[k]) == h(m[k])
    ensures SumBy(m, f) + SumBy(m, g) == SumBy(m, h)
    decreases |m|
  {
    if m != map[] {
      var k :| k in m;
      SumSplit(m, f, k);
      SumSplit(m, g, k);
      SumSplit(m, h, k);
      assert |m - {k}| < |m|;
      SumOfParts(m - {k}, f, g, h);
    }
  }

  /** A sum is at most another one that covers it key by key. */
  lemma {:induction false} SumCovered<K, V, W>(m: map<K, V>, f: V -> nat, n: map<K, W>, g: W -> nat)
    requires forall k :: k in m && f(m[k]) > 0 ==> k in n && f(m[k]) <= g(n[k])
    ensures SumBy(m, f) <= SumBy(n, g)
    decreases |m|
  {
    if m != map[] {
      var k :| k in m;
      SumSplit(m, f, k);
      assert |m - {k}| < |m|;
      if k in n {
        SumSplit(n, g, k);
        SumCovered(m - {k}, f, n - {k}, g);
      } else {
        SumCovered(m - {k}, f, n, g);
      }
    }
  }
}
