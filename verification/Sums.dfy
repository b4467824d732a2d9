/** Totals over the entries of a map, and how one update or removal changes them. */
module Sums {

  ghost function Total<K, V>(m: map<K, V>, weight: (K, V) -> int): int
    decreases |m|
  {
    if m == map[] then 0
    else
      var k :| k in m;
      weight(k, m[k]) + Total(m - {k}, weight)
  }

  lemma {:induction false} TotalRemove<K, V>(m: map<K, V>, weight: (K, V) -> int, k: K)
    requires k in m
    ensures Total(m, weight) == weight(k, m[k]) + Total(m - {k}, weight)
    decreases |m|
  {
    var first :| first in m && Total(m, weight) == weight(first, m[first]) + Total(m - {first}, weight);
    if first != k {
      TotalRemove(m - {first}, weight, k);
      TotalRemove(m - {k}, weight, first);
      assert m - {first} - {k} == m - {k} - {first};
    }
  }

  function WeightAt<K, V>(m: map<K, V>, weight: (K, V) -> int, k: K): int {
    if k in m then weight(k, m[k]) else 0
  }

  /** Two maps that differ at most at `k` have totals that differ by what they hold there. */
  lemma TotalChange<K, V>(m: map<K, V>, m': map<K, V>, weight: (K, V) -> int, k: K)
    requires m - {k} == m' - {k}
    ensures Total(m', weight) == Total(m, weight) - WeightAt(m, weight, k) + WeightAt(m', weight, k)
  {
    if k in m {
      TotalRemove(m, weight, k);
    } else {
      assert m - {k} == m;
    }
    if k in m' {
      TotalRemove(m', weight, k);
    } else {
      assert m' - {k} == m';
    }
  }

  /** With non-negative weights the total bounds every entry. */
  lemma {:induction false} TotalBounds<K, V>(m: map<K, V>, weight: (K, V) -> int)
    requires forall k :: k in m ==> 0 <= weight(k, m[k])
    ensures 0 <= Total(m, weight)
    ensures forall k :: k in m ==> weight(k, m[k]) <= Total(m, weight)
    decreases |m|
  {
    if m != map[] {
      forall k | k in m
        ensures weight(k, m[k]) <= Total(m, weight) && 0 <= Total(m, weight)
      {
        TotalRemove(m, weight, k);
        TotalBounds(m - {k}, weight);
      }
      var k :| k in m;
    }
  }

  /** Entries without weight total zero. */
  lemma {:induction false} TotalZero<K, V>(m: map<K, V>, weight: (K, V) -> int)
    requires forall k :: k in m ==> weight(k, m[k]) == 0
    ensures Total(m, weight) == 0
    decreases |m|
  {
    if m != map[] {
      var k :| k in m;
      TotalRemove(m, weight, k);
      TotalZero(m - {k}, weight);
    }
  }

  /** Removing entries without weight keeps the total. */
  lemma {:induction false} TotalWithout<K, V>(m: map<K, V>, keys: set<K>, weight: (K, V) -> int)
    requires forall k :: k in keys && k in m ==> weight(k, m[k]) == 0
    ensures Total(m - keys, weight) == Total(m, weight)
    decreases |keys|
  {
    if keys == {} {
      assert m - keys == m;
    } else {
      var k :| k in keys;
      TotalWithout(m - {k}, keys - {k}, weight);
      assert m - {k} - (keys - {k}) == m - keys;
      if k in m {
        TotalRemove(m, weight, k);
      } else {
        assert m - {k} == m;
      }
    }
  }
}
