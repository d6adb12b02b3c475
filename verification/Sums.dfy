/** Sums over finite tables. */
module Sums {

  ghost function SumOf<K(!new)>(m: map<K, nat>): nat
    decreases m.Keys
  {
    if m == map[] then 0
    else
      var k :| k in m;
      assert (m - {k}).Keys < m.Keys;
      m[k] + SumOf(m - {k})
  }

  lemma {:induction false} SumSplits<K(!new)>(m: map<K, nat>, k: K)
    requires k in m
    ensures SumOf(m) == m[k] + SumOf(m - {k})
    decreases m.Keys
  {
    var d :| d in m && SumOf(m) == m[d] + SumOf(m - {d});
    if k != d {
      assert (m - {d}).Keys < m.Keys && (m - {k}).Keys < m.Keys;
      SumSplits(m - {d}, k);
      SumSplits(m - {k}, d);
      assert m - {d} - {k} == m - {k} - {d};
    }
  }

  lemma SumUpdates<K(!new)>(m: map<K, nat>, k: K, v: nat)
    ensures SumOf(m[k := v]) + (if k in m then m[k] else 0) == SumOf(m) + v
  {
    SumSplits(m[k := v], k);
    assert m[k := v] - {k} == m - {k};
    if k in m {
      SumSplits(m, k);
    } else {
      assert m - {k} == m;
    }
  }

  lemma {:induction false} SumGrows<K(!new)>(m: map<K, nat>, n: map<K, nat>)
    requires m.Keys == n.Keys && forall k :: k in m ==> m[k] <= n[k]
    ensures SumOf(m) <= SumOf(n)
    decreases m.Keys
  {
    if m == map[] {
      assert n == map[];
    } else {
      var k :| k in m;
      assert (m - {k}).Keys < m.Keys;
      SumGrows(m - {k}, n - {k});
      SumSplits(m, k);
      SumSplits(n, k);
    }
  }

  lemma {:induction false} SumCompares<K(!new)>(a: map<K, nat>, b: map<K, nat>, c: map<K, nat>, d: map<K, nat>)
    requires a.Keys == b.Keys && b.Keys == c.Keys && c.Keys == d.Keys
    requires forall k :: k in a ==> a[k] + b[k] <= c[k] + d[k]
    ensures SumOf(a) + SumOf(b) <= SumOf(c) + SumOf(d)
    decreases a.Keys
  {
    if a.Keys == {} {
      assert a == map[] && b == map[] && c == map[] && d == map[];
    } else {
      var k :| k in a.Keys;
      assert (a - {k}).Keys < a.Keys;
      SumCompares(a - {k}, b - {k}, c - {k}, d - {k});
      SumSplits(a, k);
      SumSplits(b, k);
      SumSplits(c, k);
      SumSplits(d, k);
    }
  }
}
