/** Finite sums over the collections the model keeps its state in. */
module Sums {

  /** One copy of x fewer. */
  function Less<T(==)>(m: multiset<T>, x: T): multiset<T> {
    if x in m then m[x := m[x] - 1] else m
  }

  /** One copy of x more. */
  function More<T(==)>(m: multiset<T>, x: T): multiset<T> {
    m[x := m[x] + 1]
  }

  lemma LessCommutes<T>(m: multiset<T>, x: T, y: T)
    ensures Less(Less(m, x), y) == Less(Less(m, y), x)
  {
    forall z
      ensures Less(Less(m, x), y)[z] == Less(Less(m, y), x)[z]
    {
    }
  }

  /** The total weight of a multiset. */
  ghost function Total<T(!new)>(m: multiset<T>, weight: T -> int): (sum: int)
    decreases |m|
  {
    if m == multiset{} then 0
    else
      var x :| x in m;
      weight(x) + Total(Less(m, x), weight)
  }

  lemma {:induction false} TotalLess<T(!new)>(m: multiset<T>, x: T, weight: T -> int)
    requires x in m
    ensures Total(m, weight) == weight(x) + Total(Less(m, x), weight)
    decreases |m|
  {
    var y :| y in m && Total(m, weight) == weight(y) + Total(Less(m, y), weight);
    if y != x {
      TotalLess(Less(m, y), x, weight);
      TotalLess(Less(m, x), y, weight);
      LessCommutes(m, x, y);
    }
  }

  lemma TotalMore<T(!new)>(m: multiset<T>, x: T, weight: T -> int)
    ensures Total(More(m, x), weight) == Total(m, weight) + weight(x)
  {
    TotalLess(More(m, x), x, weight);
    assert Less(More(m, x), x) == m;
  }

  lemma {:induction false} TotalNonNegative<T(!new)>(m: multiset<T>, weight: T -> int)
    requires forall x :: x in m ==> weight(x) >= 0
    ensures Total(m, weight) >= 0
    decreases |m|
  {
    if m != multiset{} {
      var x :| x in m;
      TotalLess(m, x, weight);
      TotalNonNegative(Less(m, x), weight);
    }
  }

  lemma {:induction false} TotalZero<T(!new)>(m: multiset<T>, weight: T -> int)
    requires forall x :: x in m ==> weight(x) == 0
    ensures Total(m, weight) == 0
    decreases |m|
  {
    if m != multiset{} {
      var x :| x in m;
      TotalLess(m, x, weight);
      TotalZero(Less(m, x), weight);
    }
  }

  /** The sum of a real-valued field over a map. */
  ghost function MapSum<K(!new), V(!new)>(m: map<K, V>, value: V -> real): (sum: real)
    decreases |m|
  {
    if m == map[] then 0.0
    else
      var k :| k in m;
      value(m[k]) + MapSum(m - {k}, value)
  }

  lemma {:induction false} MapSumRemove<K(!new), V(!new)>(m: map<K, V>, k: K, value: V -> real)
    requires k in m
    ensures MapSum(m, value) == value(m[k]) + MapSum(m - {k}, value)
    decreases |m|
  {
    var j :| j in m && MapSum(m, value) == value(m[j]) + MapSum(m - {j}, value);
    if j != k {
      MapSumRemove(m - {j}, k, value);
      MapSumRemove(m - {k}, j, value);
      assert m - {j} - {k} == m - {k} - {j};
    }
  }

  /** Writing one entry moves the sum by what that entry moves. */
  lemma MapSumUpdate<K(!new), V(!new)>(m: map<K, V>, k: K, v: V, value: V -> real)
    ensures k in m ==> MapSum(m[k := v], value) == MapSum(m, value) - value(m[k]) + value(v)
    ensures k !in m ==> MapSum(m[k := v], value) == MapSum(m, value) + value(v)
  {
    MapSumRemove(m[k := v], k, value);
    assert m[k := v] - {k} == m - {k};
    if k in m {
      MapSumRemove(m, k, value);
    } else {
      assert m - {k} == m;
    }
  }
}
