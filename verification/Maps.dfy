/** Finite maps with string keys, compared key by key. */
module Maps {
  import opened Wrappers

  function At<V>(m: map<string, V>, key: string): Option<V> {
    if key in m then Some(m[key]) else None
  }

  /** Maps that agree at every key are equal. */
  lemma SameEverywhere<V>(a: map<string, V>, b: map<string, V>)
    requires forall k :: At(a, k) == At(b, k)
    ensures a == b
  {
    forall k ensures (k in a <==> k in b) && (k in a ==> a[k] == b[k]) {
      assert At(a, k) == At(b, k);
    }
  }
}
