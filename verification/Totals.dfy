/** Sums over the values of a finite map; every per-price aggregate is such a sum. */
module Totals {

  ghost function Total<K>(m: map<K, int>): int
    decreases |m|
  {
    if m == map[] then 0
    else
      var k :| k in m;
      RemoveShrinks(m, k);
      m[k] + Total(m - {k})
  }

  lemma RemoveShrinks<K>(m: map<K, int>, k: K)
    requires k in m
    ensures |m - {k}| < |m|
  {
    assert (m - {k}).Keys == m.Keys - {k};
  }

  /** The sum does not depend on the order in which the keys are visited. */
  lemma {:induction false} TotalRemove<K>(m: map<K, int>, k: K)
    requires k in m
    ensures Total(m) == m[k] + Total(m - {k})
    decreases |m|
  {
    var c :| c in m && Total(m) == m[c] + Total(m - {c});
    if c != k {
      RemoveShrinks(m, c);
      RemoveShrinks(m, k);
      TotalRemove(m - {c}, k);
      TotalRemove(m - {k}, c);
      assert m - {c} - {k} == m - {k} - {c};
    }
  }

  lemma TotalUpdate<K>(m: map<K, int>, k: K, v: int)
    ensures Total(m[k := v]) == v + Total(m - {k})
  {
    TotalRemove(m[k := v], k);
    assert m[k := v] - {k} == m - {k};
  }

  lemma TotalWithout<K>(m: map<K, int>, k: K)
    ensures Total(m - {k}) == Total(m) - (if k in m then m[k] else 0)
  {
    if k in m {
      TotalRemove(m, k);
    } else {
      assert m - {k} == m;
    }
  }

  /** A sum of positive terms is non-negative, and it is zero only when there are no terms. */
  lemma {:induction false} TotalPositive<K>(m: map<K, int>)
    requires forall k :: k in m ==> m[k] > 0
    ensures Total(m) >= 0
    ensures Total(m) == 0 <==> m == map[]
    ensures forall k :: k in m ==> m[k] <= Total(m)
    decreases |m|
  {
    forall k | k in m
      ensures m[k] <= Total(m) && Total(m) > 0
    {
      TotalRemove(m, k);
      RemoveShrinks(m, k);
      TotalPositive(m - {k});
    }
  }

  /** Sums over disjoint key sets add up. */
  lemma {:induction false} TotalUnion<K>(a: map<K, int>, b: map<K, int>)
    requires forall k :: k in a ==> k !in b
    ensures Total(a + b) == Total(a) + Total(b)
    decreases |b|
  {
    if b == map[] {
      assert a + b == a;
      assert Total(b) == 0;
    } else {
      hide Total;
      var k :| k in b;
      UnionWithout(a, b, k);
      RemoveShrinks(b, k);
      TotalUnion(a, b - {k});
      TotalRemove(a + b, k);
      TotalRemove(b, k);
    }
  }

  lemma UnionWithout<K>(a: map<K, int>, b: map<K, int>, k: K)
    requires k in b && k !in a
    ensures (a + b) - {k} == a + (b - {k})
  {
  }
}
