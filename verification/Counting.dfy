/** Counting the entries of a map that satisfy a predicate.

The concurrent components keep counters (lock references, queue depths, semaphore
permits) that stand for "how many suspended tasks are in such a position". The model
keeps the suspended tasks in a map, so those claims become `counter == Count(tasks, p)`.
*/
module Counting {

  /** The keys whose value satisfies `p`. */
  ghost function Select<K, V>(m: map<K, V>, p: V -> bool): set<K> {
    set k | k in m && p(m[k])
  }

  ghost function Count<K, V>(m: map<K, V>, p: V -> bool): nat {
    |Select(m, p)|
  }

  /** 1 when the entry at `k` satisfies `p`, 0 when it does not or is absent. */
  ghost function Weight<K, V>(m: map<K, V>, k: K, p: V -> bool): nat {
    if k in m && p(m[k]) then 1 else 0
  }

  /** Writing one entry changes the count by the difference of that entry's weights. */
  lemma CountUpdate<K, V>(m: map<K, V>, k: K, v: V, p: V -> bool)
    ensures Count(m[k := v], p) == Count(m, p) - Weight(m, k, p) + (if p(v) then 1 else 0)
  {
    hide Select, Count;
    CountWith(m, k, p);
    CountWith(m[k := v], k, p);
    SelectOthers(m, k, v, p);
  }

  lemma SelectOthers<K, V>(m: map<K, V>, k: K, v: V, p: V -> bool)
    ensures Select(m[k := v], p) - {k} == Select(m, p) - {k}
  {
  }

  /** The count is that of the other keys plus the weight of the one singled out. */
  lemma CountWith<K, V>(m: map<K, V>, k: K, p: V -> bool)
    ensures Count(m, p) == |Select(m, p) - {k}| + Weight(m, k, p)
  {
  }

  /** A positive count has a witness, and an entry that satisfies `p` makes it positive. */
  lemma CountPositive<K, V>(m: map<K, V>, p: V -> bool)
    ensures Count(m, p) > 0 <==> exists k :: k in m && p(m[k])
  {
    if exists k :: k in m && p(m[k]) {
      var k :| k in m && p(m[k]);
      assert k in Select(m, p);
    }
    if Count(m, p) > 0 {
      var k :| k in Select(m, p);
      assert k in m && p(m[k]);
    }
  }

  lemma CountNone<K, V>(m: map<K, V>, p: V -> bool)
    requires m == map[]
    ensures Count(m, p) == 0
  {
    assert Select(m, p) == {};
  }

  lemma SubsetSize<T>(a: set<T>, b: set<T>)
    requires a <= b
    ensures |a| <= |b|
  {
    assert b == a + (b - a);
  }
}
