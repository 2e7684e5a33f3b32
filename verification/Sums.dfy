/** Finite sums over the values of a map. */
module Sums {

  ghost function Sum<K>(m: map<K, nat>): nat
    decreases |m|
  {
    if m == map[] then 0
    else
      var k :| k in m;
      m[k] + Sum(m - {k})
  }

  /** The sum does not depend on which key is taken first. */
  lemma {:induction false} SumSplit<K>(m: map<K, nat>, k: K)
    requires k in m
    ensures Sum(m) == m[k] + Sum(m - {k})
    decreases |m|
  {
    var first :| first in m && Sum(m) == m[first] + Sum(m - {first});
    if first != k {
      SumSplit(m - {first}, k);
      SumSplit(m - {k}, first);
      assert m - {first} - {k} == m - {k} - {first};
    }
  }

  lemma SumUpdate<K>(m: map<K, nat>, k: K, v: nat)
    ensures Sum(m[k := v]) == v + Sum(m - {k})
    ensures k in m ==> Sum(m) == m[k] + Sum(m - {k})
    ensures k !in m ==> Sum(m) == Sum(m - {k})
  {
    SumSplit(m[k := v], k);
    assert m[k := v] - {k} == m - {k};
    if k in m {
      SumSplit(m, k);
    } else {
      assert m - {k} == m;
    }
  }

  /** Values that exceed others by at most `c` each do so by `c` for each key in all. */
  lemma {:induction false} SumBound<K>(m: map<K, nat>, n: map<K, nat>, c: nat)
    requires m.Keys == n.Keys && forall k :: k in m ==> m[k] <= c + n[k]
    ensures Sum(m) <= c * |m.Keys| + Sum(n)
    decreases |m.Keys|
  {
    if m.Keys == {} {
      assert m == map[] && n == map[];
    } else {
      var k :| k in m;
      SumSplit(m, k);
      SumSplit(n, k);
      assert (m - {k}).Keys == m.Keys - {k} && (n - {k}).Keys == m.Keys - {k};
      SumBound(m - {k}, n - {k}, c);
      OneMore(c, |m.Keys| - 1);
    }
  }

  lemma OneMore(c: nat, k: nat)
    ensures c * k + c == c * (k + 1)
  {
  }
}
