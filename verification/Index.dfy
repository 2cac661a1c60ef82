/** A family of lists and the reverse index that says which list an element is in.
    The registry keeps two of them: outputs to handles, and workspaces to surfaces.
 */
module Index {
  import opened Seqs

  function At<K, V>(lists: map<K, seq<V>>, k: K): seq<V> {
    if k in lists then lists[k] else []
  }

  /** Every element occurs once, in exactly the list the index names. */
  ghost predicate Inverse<K(!new), V(!new)>(lists: map<K, seq<V>>, index: map<V, K>) {
    && (forall k :: Distinct(At(lists, k)))
    && (forall k, v {:trigger v in At(lists, k)} :: v in At(lists, k) ==> v in index && index[v] == k)
    && (forall v :: v in index ==> v in At(lists, index[v]))
  }

  /** Equal lists under every key, whether or not an empty one is stored. */
  ghost predicate Agree<K(!new), V(!new)>(a: map<K, seq<V>>, b: map<K, seq<V>>) {
    forall k :: At(a, k) == At(b, k)
  }

  lemma AgreeUpdate<K(!new), V(!new)>(a: map<K, seq<V>>, b: map<K, seq<V>>, k: K, l: seq<V>)
    requires Agree(a, b)
    ensures Agree(a[k := l], b[k := l])
  {
    var a', b' := a[k := l], b[k := l];
    forall j ensures At(a', j) == At(b', j) {
      if j != k { assert At(a', j) == At(a, j) && At(b', j) == At(b, j); }
    }
  }

  lemma SameLists<K(!new), V(!new)>(lists: map<K, seq<V>>, lists': map<K, seq<V>>, index: map<V, K>)
    requires Inverse(lists, index)
    requires Agree(lists', lists)
    ensures Inverse(lists', index)
  {
  }

  /** List `k` is replaced by one with the elements the new index gives it. */
  lemma Replace<K(!new), V(!new)>(lists: map<K, seq<V>>, index: map<V, K>, k: K, l: seq<V>, index': map<V, K>)
    requires Inverse(lists, index) && Distinct(l)
    requires forall v :: v in l <==> v in index' && index'[v] == k
    requires forall v :: v in index' && index'[v] != k ==> v in index && index[v] == index'[v]
    requires forall v :: v in index && index[v] != k ==> v in index' && index'[v] == index[v]
    ensures Inverse(lists[k := l], index')
  {
    var l' := lists[k := l];
    forall j ensures Distinct(At(l', j)) {
      assert j != k ==> At(l', j) == At(lists, j);
    }
    forall j, v | v in At(l', j) ensures v in index' && index'[v] == j {
      if j != k { assert v in At(lists, j); }
    }
    forall v | v in index' ensures v in At(l', index'[v]) {
      if index'[v] != k { assert v in At(lists, index[v]); }
    }
  }

  /** `v` joins list `k` at either end. */
  lemma Join<K(!new), V(!new)>(lists: map<K, seq<V>>, index: map<V, K>, k: K, v: V, tail: bool)
    requires Inverse(lists, index) && v !in index
    ensures Inverse(lists[k := if tail then At(lists, k) + [v] else [v] + At(lists, k)], index[v := k])
  {
    var l := At(lists, k);
    assert v !in l;
    DistinctConcat(l, [v]);
    DistinctConcat([v], l);
    Replace(lists, index, k, if tail then l + [v] else [v] + l, index[v := k]);
  }

  lemma Leave<K(!new), V(!new)>(lists: map<K, seq<V>>, index: map<V, K>, v: V)
    requires Inverse(lists, index) && v in index
    ensures Inverse(lists[index[v] := Remove(At(lists, index[v]), v)], index - {v})
  {
    var l := At(lists, index[v]);
    RemoveFacts(l, v);
    Replace(lists, index, index[v], Remove(l, v), index - {v});
  }

  lemma Move<K(!new), V(!new)>(lists: map<K, seq<V>>, index: map<V, K>, v: V, k: K)
    requires Inverse(lists, index) && v in index && k != index[v]
    ensures Inverse(lists[index[v] := Remove(At(lists, index[v]), v)][k := At(lists, k) + [v]], index[v := k])
  {
    Leave(lists, index, v);
    MoveIn(lists, index, v, k, Remove(At(lists, index[v]), v));
  }

  lemma MoveIn<K(!new), V(!new)>(lists: map<K, seq<V>>, index: map<V, K>, v: V, k: K, l: seq<V>)
    requires v in index && k != index[v] && Inverse(lists[index[v] := l], index - {v})
    ensures Inverse(lists[index[v] := l][k := At(lists, k) + [v]], index[v := k])
  {
    Join(lists[index[v] := l], index - {v}, k, v, true);
    assert (index - {v})[v := k] == index[v := k];
  }

  /** List `h` is emptied onto the tail of list `t`. */
  lemma Merge<K(!new), V(!new)>(lists: map<K, seq<V>>, index: map<V, K>, h: K, t: K)
    requires Inverse(lists, index) && h != t
    ensures Inverse((lists - {h})[t := At(lists, t) + At(lists, h)], index + map x | x in At(lists, h) :: t)
  {
    var a, b := At(lists, t), At(lists, h);
    var index' := index + map x | x in b :: t;
    DistinctConcat(a, b);
    Vacate(lists, index, h);
    var rest := map v | v in index && index[v] != h :: index[v];
    assert At(lists - {h}, t) == a;
    Replace(lists - {h}, rest, t, a + b, index');
  }

  lemma Vacate<K(!new), V(!new)>(lists: map<K, seq<V>>, index: map<V, K>, h: K)
    requires Inverse(lists, index)
    ensures Inverse(lists - {h}, map v | v in index && index[v] != h :: index[v])
  {
    var l' := lists - {h};
    forall j ensures Distinct(At(l', j)) {
      assert j != h ==> At(l', j) == At(lists, j);
    }
    forall j, v | v in At(l', j) ensures v in index && index[v] != h && index[v] == j {
      assert v in At(lists, j);
    }
    forall v | v in index && index[v] != h ensures v in At(l', index[v]) {
      assert v in At(lists, index[v]);
    }
  }

  lemma Permute<K(!new), V(!new)>(lists: map<K, seq<V>>, index: map<V, K>, k: K, l: seq<V>)
    requires Inverse(lists, index) && Distinct(l) && forall v :: v in l <==> v in At(lists, k)
    ensures Inverse(lists[k := l], index)
  {
    Replace(lists, index, k, l, index);
  }
}
