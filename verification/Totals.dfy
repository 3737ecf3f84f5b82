/**
 Sums of a weight over the values of a finite map.  Every conservation law of the concurrent models has the
 form "shared counter == sum of what each process still owes", so one update law carries them all.
 */
module Totals {

  ghost function Sum<K, V>(m: map<K, V>, w: V -> int): int
    decreases |m|
  {
    if m == map[] then 0
    else
      var k :| k in m;
      w(m[k]) + Sum(m - {k}, w)
  }

  /** The element that is taken out first does not matter. */
  lemma {:induction false} SumWithout<K, V>(m: map<K, V>, w: V -> int, k: K)
    requires k in m
    ensures Sum(m, w) == w(m[k]) + Sum(m - {k}, w)
    decreases |m|
  {
    var j :| j in m && Sum(m, w) == w(m[j]) + Sum(m - {j}, w);
    if j != k {
      SumWithout(m - {j}, w, k);
      SumWithout(m - {k}, w, j);
      assert m - {j} - {k} == m - {k} - {j};
    }
  }

  lemma SumUpdate<K, V>(m: map<K, V>, w: V -> int, k: K, v: V)
    ensures Sum(m[k := v], w) == Sum(m, w) + w(v) - (if k in m then w(m[k]) else 0)
  {
    SumWithout(m[k := v], w, k);
    if k in m {
      SumWithout(m, w, k);
      assert m[k := v] - {k} == m - {k};
    } else {
      assert m[k := v] - {k} == m;
    }
  }

  lemma {:induction false} SumMonotone<K, V>(m: map<K, V>, low: V -> int, high: V -> int)
    requires forall k | k in m :: low(m[k]) <= high(m[k])
    ensures Sum(m, low) <= Sum(m, high)
    decreases |m|
  {
    if m == map[] {
    } else {
      var k :| k in m;
      SumWithout(m, low, k);
      SumWithout(m, high, k);
      SumMonotone(m - {k}, low, high);
    }
  }

  lemma {:induction false} SumAdds<K, V>(m: map<K, V>, a: V -> int, b: V -> int, both: V -> int)
    requires forall k | k in m :: both(m[k]) == a(m[k]) + b(m[k])
    ensures Sum(m, both) == Sum(m, a) + Sum(m, b)
    decreases |m|
  {
    if m == map[] {
    } else {
      var k :| k in m;
      SumWithout(m, a, k);
      SumWithout(m, b, k);
      SumWithout(m, both, k);
      SumAdds(m - {k}, a, b, both);
    }
  }

  lemma {:induction false} SumZero<K, V>(m: map<K, V>, w: V -> int)
    requires forall k | k in m :: w(m[k]) == 0
    ensures Sum(m, w) == 0
    decreases |m|
  {
    if m == map[] {
    } else {
      var k :| k in m;
      SumWithout(m, w, k);
      SumZero(m - {k}, w);
    }
  }

  /** With weights that are never negative, no single element weighs more than the whole. */
  lemma SumDominates<K, V>(m: map<K, V>, w: V -> int, k: K)
    requires k in m
    requires forall j | j in m :: w(m[j]) >= 0
    ensures w(m[k]) <= Sum(m, w)
  {
    SumWithout(m, w, k);
    SumMonotone(m - {k}, (v: V) => 0, w);
    SumZero(m - {k}, (v: V) => 0);
  }

  /** A sum of zeros and ones counts the keys that weigh one. */
  lemma {:induction false} SumCounts<K, V>(m: map<K, V>, w: V -> int, ones: set<K>)
    requires forall k | k in m :: w(m[k]) == (if k in ones then 1 else 0)
    requires ones <= m.Keys
    ensures Sum(m, w) == |ones|
    decreases |m|
  {
    if m == map[] {
    } else {
      var k :| k in m;
      SumWithout(m, w, k);
      SumCounts(m - {k}, w, ones - {k});
    }
  }

  /** Keys that weigh nothing can be left out, and the others can stand for something else that weighs the same. */
  lemma {:induction false} SumOver<K, V, W>(m: map<K, V>, w: V -> int, n: map<K, W>, v: W -> int)
    requires n.Keys <= m.Keys
    requires forall k | k in m :: w(m[k]) == (if k in n then v(n[k]) else 0)
    ensures Sum(m, w) == Sum(n, v)
    decreases |m|
  {
    if m == map[] {
      assert n == map[];
    } else {
      var k :| k in m;
      SumWithout(m, w, k);
      if k in n {
        SumWithout(n, v, k);
      } else {
        assert n - {k} == n;
      }
      SumOver(m - {k}, w, n - {k}, v);
    }
  }
}
