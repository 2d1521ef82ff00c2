/** Sums over the values of a finite map. */
module MapSums {
  import opened MeshTypes

  ghost function MapSum<V(!new)>(m: map<Id, V>, w: V -> nat): nat
    decreases |m|
  {
    if m == map[] then 0
    else
      var k :| k in m;
      w(m[k]) + MapSum(m - {k}, w)
  }

  /** The sum does not depend on the order in which keys are taken. */
  lemma {:induction false} MapSumRemove<V(!new)>(m: map<Id, V>, k: Id, w: V -> nat)
    requires k in m
    ensures MapSum(m, w) == w(m[k]) + MapSum(m - {k}, w)
    decreases |m|
  {
    var j :| j in m && MapSum(m, w) == w(m[j]) + MapSum(m - {j}, w);
    if j != k {
      MapSumRemove(m - {j}, k, w);
      MapSumRemove(m - {k}, j, w);
      assert m - {j} - {k} == m - {k} - {j};
    }
  }

  lemma MapSumUpdate<V(!new)>(m: map<Id, V>, k: Id, v: V, w: V -> nat)
    ensures MapSum(m[k := v], w) + (if k in m then w(m[k]) else 0) == MapSum(m, w) + w(v)
  {
    var n := m[k := v];
    MapSumRemove(n, k, w);
    if k in m {
      MapSumRemove(m, k, w);
      assert n - {k} == m - {k};
    } else {
      assert n - {k} == m;
    }
  }

  lemma MapSumWithout<V(!new)>(m: map<Id, V>, k: Id, w: V -> nat)
    ensures MapSum(m - {k}, w) + (if k in m then w(m[k]) else 0) == MapSum(m, w)
  {
    if k in m {
      MapSumRemove(m, k, w);
    } else {
      assert m - {k} == m;
    }
  }
}
