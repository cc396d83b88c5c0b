/** The per-cycle working counters of a collector: a `Counter` maps a label to a count and
    an `IdSets` maps a label to the set of ids seen under it (the source's `Counter()` and
    `defaultdict(set)`), with the flattening of sets to their cardinalities. */
module Counters {

  type Counter<K> = map<K, int>
  type IdSets<K> = map<K, set<int>>

  /** A counter reads 0 for a label it has never seen. */
  function Get<K>(c: Counter<K>, k: K): int
  {
    if k in c then c[k] else 0
  }

  /** `c[k] += n`: creates the label when it is missing, even when `n` is 0. */
  function Bump<K>(c: Counter<K>, k: K, n: int): (r: Counter<K>)
  {
    c[k := Get(c, k) + n]
  }

  /** The set a `defaultdict(set)` yields for a label: empty when it was never touched. */
  function Ids<K>(s: IdSets<K>, k: K): set<int>
  {
    if k in s then s[k] else {}
  }

  /** `s[k].add(x)`. */
  function AddId<K>(s: IdSets<K>, k: K, x: int): (r: IdSets<K>)
  {
    s[k := Ids(s, k) + {x}]
  }

  /** `for key, value in s.items(): counter[key] = len(value)`, as the labels it produces. */
  function Flatten<K>(s: IdSets<K>): (r: Counter<K>)
    ensures r.Keys == s.Keys
    ensures forall k :: k in s ==> r[k] == |s[k]|
  {
    map k | k in s :: |s[k]|
  }

  /** The sum of all counts of a counter. */
  ghost function MapSum<K>(c: Counter<K>): int
    decreases |c|
  {
    if c == map[] then 0
    else
      var k :| k in c;
      c[k] + MapSum(c - {k})
  }

  /** Removing any one label from the sum takes exactly its count away. */
  lemma {:induction false} MapSumRemove<K>(c: Counter<K>, k: K)
    requires k in c
    ensures MapSum(c) == c[k] + MapSum(c - {k})
    decreases |c|
  {
    var j :| j in c && MapSum(c) == c[j] + MapSum(c - {j});
    if j != k {
      var c' := c - {j};
      assert k in c';
      MapSumRemove(c', k);
      var ck := c - {k};
      assert j in ck;
      MapSumRemove(ck, j);
      assert c' - {k} == ck - {j};
    }
  }

  /** `c[k] += n` raises the sum of the counter by exactly `n`. */
  lemma MapSumBump<K>(c: Counter<K>, k: K, n: int)
    ensures MapSum(Bump(c, k, n)) == MapSum(c) + n
  {
    var r := Bump(c, k, n);
    MapSumRemove(r, k);
    assert r - {k} == c - {k};
    if k in c {
      MapSumRemove(c, k);
    } else {
      assert c - {k} == c;
    }
  }
}
