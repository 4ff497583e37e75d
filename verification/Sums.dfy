/** Sums over the values of a finite map, with the update laws the load arguments need. */
module Sums {

  ghost function Sum<K, V>(m: map<K, V>, f: V -> int): int
    decreases |m|
  {
    if m == map[] then 0 else
    var k :| k in m;
    f(m[k]) + Sum(m - {k}, f)
  }

  /** The order of summation does not matter: any key can come first. */
  lemma {:induction false} SumSplit<K, V>(m: map<K, V>, f: V -> int, k: K)
    requires k in m
    ensures Sum(m, f) == f(m[k]) + Sum(m - {k}, f)
    decreases |m|
  {
    var j :| j in m && Sum(m, f) == f(m[j]) + Sum(m - {j}, f);
    if j == k {
    } else {
      SumSplit(m - {j}, f, k);
      SumSplit(m - {k}, f, j);
      assert m - {j} - {k} == m - {k} - {j};
    }
  }

  lemma SumUpdate<K, V>(m: map<K, V>, f: V -> int, k: K, v: V)
    ensures Sum(m[k := v], f) == Sum(m, f) + f(v) - (if k in m then f(m[k]) else 0)
  {
    SumSplit(m[k := v], f, k);
    assert m[k := v] - {k} == m - {k};
    if k in m {
      SumSplit(m, f, k);
    } else {
      assert m - {k} == m;
    }
  }

  /** Pointwise smaller values on the same keys give a smaller sum. */
  lemma {:induction false} SumMono<K, V>(a: map<K, V>, b: map<K, V>, f: V -> int)
    requires a.Keys == b.Keys
    requires forall k :: k in a ==> f(a[k]) <= f(b[k])
    ensures Sum(a, f) <= Sum(b, f)
    decreases |a|
  {
    if a == map[] {
      assert b == map[];
    } else {
      var k :| k in a && Sum(a, f) == f(a[k]) + Sum(a - {k}, f);
      SumSplit(b, f, k);
      SumMono(a - {k}, b - {k}, f);
    }
  }

  lemma {:induction false} SumSame<K, V(!new)>(m: map<K, V>, f: V -> int, g: V -> int)
    requires forall v :: f(v) == g(v)
    ensures Sum(m, f) == Sum(m, g)
    decreases |m|
  {
    if m == map[] {
    } else {
      var k :| k in m && Sum(m, f) == f(m[k]) + Sum(m - {k}, f);
      SumSplit(m, g, k);
      SumSame(m - {k}, f, g);
    }
  }

  lemma OneMoreTimes(n: int, x: int)
    ensures (n + 1) * x == n * x + x
  {
  }

  lemma {:induction false} SumBounds<K, V>(m: map<K, V>, f: V -> int, lo: int, hi: int)
    requires forall k :: k in m ==> lo <= f(m[k]) <= hi
    ensures |m| * lo <= Sum(m, f) <= |m| * hi
    decreases |m|
  {
    if m == map[] {
    } else {
      var k :| k in m && Sum(m, f) == f(m[k]) + Sum(m - {k}, f);
      SumBounds(m - {k}, f, lo, hi);
      var n := |m - {k}|;
      assert n == |m| - 1;
      OneMoreTimes(n, lo);
      OneMoreTimes(n, hi);
    }
  }
}
