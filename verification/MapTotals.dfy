/**
 Totals over the values of a finite map. The program accumulates counters by iterating over
 hash maps; a total does not depend on the iteration order, and these lemmas say how it moves
 when one entry changes.
 */
module MapTotals {

  ghost function Total<K>(w: map<K, int>): int
    decreases w.Keys
  {
    if w.Keys == {} then 0
    else
      var k :| k in w.Keys;
      w[k] + Total(w - {k})
  }

  ghost function ValueOr<K>(w: map<K, int>, k: K, default: int): int {
    if k in w then w[k] else default
  }

  /** The total can be split at any key, not only at the one the definition picked. */
  lemma {:induction false} TotalRemove<K>(w: map<K, int>, k: K)
    requires k in w
    ensures Total(w) == w[k] + Total(w - {k})
    decreases w.Keys
  {
    var j :| j in w.Keys && Total(w) == w[j] + Total(w - {j});
    if j != k {
      TotalRemove(w - {j}, k);
      TotalRemove(w - {k}, j);
      assert (w - {j}) - {k} == (w - {k}) - {j};
    }
  }

  lemma TotalUpdate<K>(w: map<K, int>, k: K, v: int)
    ensures Total(w[k := v]) == Total(w) - ValueOr(w, k, 0) + v
  {
    TotalRemove(w[k := v], k);
    assert w[k := v] - {k} == w - {k};
    if k in w {
      TotalRemove(w, k);
    } else {
      assert w - {k} == w;
    }
  }
}
