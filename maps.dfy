/**
 * Ranging over a Go map visits its keys in an unspecified order. Flatten
 * concatenates one piece per key in some fixed but unknown key order; only
 * its multiset of elements is meant to be relied upon, and FlattenPick says
 * that a loop may visit the keys in any order and still gather that multiset.
 */
module MapIteration {

  ghost function Flatten<K, V, T>(m: map<K, V>, f: (K, V) -> seq<T>): seq<T>
    decreases |m|
  {
    if |m| == 0 then []
    else
      assert m.Keys != {};
      var k :| k in m;
      assert (m - {k}).Keys == m.Keys - {k};
      f(k, m[k]) + Flatten(m - {k}, f)
  }

  /** Taking any key first gathers the same multiset. */
  lemma {:induction false} FlattenPick<K, V, T>(m: map<K, V>, f: (K, V) -> seq<T>, k: K)
    requires k in m
    ensures multiset(Flatten(m, f)) == multiset(f(k, m[k])) + multiset(Flatten(m - {k}, f))
    decreases |m|
  {
    assert |m| != 0 by { assert k in m.Keys; }
    var j :| j in m && Flatten(m, f) == f(j, m[j]) + Flatten(m - {j}, f);
    if j != k {
      assert (m - {j}).Keys == m.Keys - {j};
      assert (m - {k}).Keys == m.Keys - {k};
      assert m - {j} - {k} == m - {k} - {j};
      FlattenPick(m - {j}, f, k);
      FlattenPick(m - {k}, f, j);
    }
  }

  /** An element is gathered exactly when some key's piece holds it. */
  lemma {:induction false} FlattenMembers<K, V, T>(m: map<K, V>, f: (K, V) -> seq<T>, x: T)
    ensures x in Flatten(m, f) <==> exists k :: k in m && x in f(k, m[k])
    decreases |m|
  {
    if |m| != 0 {
      assert m.Keys != {};
      var j :| j in m && Flatten(m, f) == f(j, m[j]) + Flatten(m - {j}, f);
      assert (m - {j}).Keys == m.Keys - {j};
      FlattenMembers(m - {j}, f, x);
      if exists k :: k in m && x in f(k, m[k]) {
        var k :| k in m && x in f(k, m[k]);
        if k != j {
          assert k in m - {j} && (m - {j})[k] == m[k];
        }
      }
    }
  }

  /** When every key contributes one element, there are as many elements as keys. */
  lemma {:induction false} FlattenLength<K, V, T>(m: map<K, V>, f: (K, V) -> seq<T>)
    requires forall k, v :: |f(k, v)| == 1
    ensures |Flatten(m, f)| == |m|
    decreases |m|
  {
    if |m| != 0 {
      assert m.Keys != {};
      var j :| j in m && Flatten(m, f) == f(j, m[j]) + Flatten(m - {j}, f);
      assert (m - {j}).Keys == m.Keys - {j};
      FlattenLength(m - {j}, f);
    }
  }
}
