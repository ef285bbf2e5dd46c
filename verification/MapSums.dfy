/** Sums of the values of a finite map, the accounting behind the byte and permit budgets. */
module MapSums {

  ghost function Pick<K>(m: map<K, nat>): (k: K)
    requires m != map[]
    ensures k in m
  {
    var k :| k in m;
    k
  }

  ghost function Total<K>(m: map<K, nat>): nat
    decreases |m|
  {
    if m == map[] then 0 else
      var k := Pick(m);
      assert m.Keys == (m - {k}).Keys + {k};
      m[k] + Total(m - {k})
  }

  lemma {:induction false} TotalRemove<K>(m: map<K, nat>, k: K)
    requires k in m
    ensures Total(m) == m[k] + Total(m - {k})
    decreases |m|
  {
    var p := Pick(m);
    if k == p {
    } else {
      assert m.Keys == (m - {p}).Keys + {p} && m.Keys == (m - {k}).Keys + {k};
      TotalRemove(m - {p}, k);
      TotalRemove(m - {k}, p);
      assert m - {p} - {k} == m - {k} - {p};
    }
  }

  lemma TotalUpdate<K>(m: map<K, nat>, k: K, v: nat)
    ensures Total(m[k := v]) == Total(m - {k}) + v
  {
    TotalRemove(m[k := v], k);
    assert m[k := v] - {k} == m - {k};
  }

  lemma TotalInsert<K>(m: map<K, nat>, k: K, v: nat)
    requires k !in m
    ensures Total(m[k := v]) == Total(m) + v
  {
    TotalUpdate(m, k, v);
    assert m - {k} == m;
  }

  lemma {:induction false} TotalSubmap<K>(sub: map<K, nat>, m: map<K, nat>)
    requires forall k :: k in sub ==> k in m && m[k] == sub[k]
    ensures Total(sub) <= Total(m)
    decreases |sub|
  {
    if sub == map[] {
    } else {
      var k := Pick(sub);
      assert sub.Keys == (sub - {k}).Keys + {k};
      TotalRemove(sub, k);
      TotalRemove(m, k);
      TotalSubmap(sub - {k}, m - {k});
    }
  }

  /** The largest value of a finite map, 0 when it is empty. */
  ghost function Largest<K>(m: map<K, nat>): nat
    decreases |m|
  {
    if m == map[] then 0 else
      var k := Pick(m);
      assert m.Keys == (m - {k}).Keys + {k};
      var rest := Largest(m - {k});
      if m[k] < rest then rest else m[k]
  }

  /** The largest value bounds every value and is no larger than any bound. */
  lemma {:induction false} LargestIsLeastBound<K>(m: map<K, nat>, bound: nat)
    ensures forall k :: k in m ==> m[k] <= Largest(m)
    ensures (forall k :: k in m ==> m[k] <= bound) ==> Largest(m) <= bound
    decreases |m|
  {
    if m == map[] {
    } else {
      var p := Pick(m);
      assert m.Keys == (m - {p}).Keys + {p};
      LargestIsLeastBound(m - {p}, bound);
      forall k | k in m
        ensures m[k] <= Largest(m)
      {
        assert k == p || k in m - {p};
      }
    }
  }
}
