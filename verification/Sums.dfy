/** Sums over finite maps, independent of the order in which the entries are visited. */
module Sums {

  ghost function Total<K, V>(m: map<K, V>, f: V -> int): int
    decreases |m|
  {
    if m == map[] then 0
    else var k :| k in m; f(m[k]) + Total(m - {k}, f)
  }

  ghost function At<K, V>(m: map<K, V>, f: V -> int, k: K): int {
    if k in m then f(m[k]) else 0
  }

  lemma {:induction false} TotalRemove<K, V>(m: map<K, V>, f: V -> int, k: K)
    ensures Total(m, f) == At(m, f, k) + Total(m - {k}, f)
    decreases |m|
  {
    if k in m {
      var k0 :| k0 in m && Total(m, f) == f(m[k0]) + Total(m - {k0}, f);
      if k0 != k {
        TotalRemove(m - {k0}, f, k);
        TotalRemove(m - {k}, f, k0);
        assert m - {k0} - {k} == m - {k} - {k0};
      }
    } else {
      assert m - {k} == m;
    }
  }

  lemma TotalUpdate<K, V>(m: map<K, V>, f: V -> int, k: K, v: V)
    ensures Total(m[k := v], f) == Total(m, f) - At(m, f, k) + f(v)
  {
    TotalRemove(m[k := v], f, k);
    TotalRemove(m, f, k);
    assert m[k := v] - {k} == m - {k};
  }

  /** A sum of non-negative parts is at least each of its parts. */
  lemma {:induction false} TotalAtLeastPart<K, V>(m: map<K, V>, f: V -> int, k: K)
    requires forall x <- m :: f(m[x]) >= 0
    ensures 0 <= At(m, f, k) <= Total(m, f)
    decreases |m|, k !in m
  {
    TotalRemove(m, f, k);
    if k in m {
      if m - {k} != map[] {
        var x :| x in m - {k};
        TotalAtLeastPart(m - {k}, f, x);
      }
    } else if m != map[] {
      var x :| x in m;
      TotalAtLeastPart(m, f, x);
    }
  }
}
