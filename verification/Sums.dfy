/**
 Sums of a weight over the values of an unbounded finite map.

 The two ledgers of this project (the budget ledger and the progress measure of the
 workflow engine) are sums over tables that grow without bound.  A table is a `map`,
 so the sum is defined by taking the entries out in some order; `MapSumRemove` shows
 that the order does not matter, and the rest follows from it.
 */
module Sums {

  ghost function MapSum<K, V>(m: map<K, V>, w: V -> int): int
  {
    if m == map[] then 0
    else
      var k :| k in m;
      w(m[k]) + MapSum(m - {k}, w)
  }

  /** Any entry can be taken out first. */
  lemma {:induction false} MapSumRemove<K, V>(m: map<K, V>, w: V -> int, k: K)
    requires k in m
    ensures MapSum(m, w) == w(m[k]) + MapSum(m - {k}, w)
    decreases |m|
  {
    var j :| j in m && MapSum(m, w) == w(m[j]) + MapSum(m - {j}, w);
    if j != k {
      assert k in m - {j} && j in m - {k};
      MapSumRemove(m - {j}, w, k);
      MapSumRemove(m - {k}, w, j);
      assert (m - {j}) - {k} == (m - {k}) - {j};
    }
  }

  /** Writing one row moves the sum by the difference of the two weights. */
  lemma MapSumUpdate<K, V>(m: map<K, V>, w: V -> int, k: K, v: V)
    ensures MapSum(m[k := v], w) == MapSum(m, w) + w(v) - (if k in m then w(m[k]) else 0)
  {
    var m' := m[k := v];
    MapSumRemove(m', w, k);
    if k in m {
      MapSumRemove(m, w, k);
      assert m' - {k} == m - {k};
    } else {
      assert m' - {k} == m;
    }
  }

  lemma {:induction false} MapSumNonNegative<K, V>(m: map<K, V>, w: V -> int)
    requires forall k :: k in m ==> w(m[k]) >= 0
    ensures MapSum(m, w) >= 0
    decreases |m|
  {
    if m != map[] {
      var k :| k in m;
      MapSumRemove(m, w, k);
      MapSumNonNegative(m - {k}, w);
    }
  }

  /** One row never weighs more than the whole table. */
  lemma MapSumEntry<K, V>(m: map<K, V>, w: V -> int, k: K)
    requires k in m
    requires forall j :: j in m ==> w(m[j]) >= 0
    ensures w(m[k]) <= MapSum(m, w)
  {
    MapSumRemove(m, w, k);
    MapSumNonNegative(m - {k}, w);
  }

  /** Row-wise comparison of two tables with the same keys. */
  lemma {:induction false} MapSumMonotone<K, V>(m: map<K, V>, n: map<K, V>, w: V -> int)
    requires m.Keys == n.Keys
    requires forall k :: k in m ==> w(m[k]) <= w(n[k])
    ensures MapSum(m, w) <= MapSum(n, w)
    decreases |m|
  {
    if m != map[] {
      var k :| k in m;
      MapSumRemove(m, w, k);
      MapSumRemove(n, w, k);
      MapSumMonotone(m - {k}, n - {k}, w);
    } else {
      assert n == map[];
    }
  }

  /** Two tables whose rows weigh the same weigh the same. */
  lemma {:induction false} MapSumSame<K, V, W>(m: map<K, V>, n: map<K, W>, v: V -> int, w: W -> int)
    requires m.Keys == n.Keys
    requires forall k :: k in m ==> v(m[k]) == w(n[k])
    ensures MapSum(m, v) == MapSum(n, w)
    decreases |m|
  {
    if m != map[] {
      var k :| k in m;
      MapSumRemove(m, v, k);
      MapSumRemove(n, w, k);
      MapSumSame(m - {k}, n - {k}, v, w);
    } else {
      assert n == map[];
    }
  }

  lemma {:induction false} MapSumZero<K, V>(m: map<K, V>, w: V -> int)
    requires forall k :: k in m ==> w(m[k]) == 0
    ensures MapSum(m, w) == 0
    decreases |m|
  {
    if m != map[] {
      var k :| k in m;
      MapSumRemove(m, w, k);
      MapSumZero(m - {k}, w);
    }
  }
}
