/** Asset copying, shared by every revision: each asset is a (source,
    destination) pair, the destination is joined onto the output directory
    and must stay below it. Hash-map iteration order is not modelled; an
    enumeration of the keys is a parameter instead. */
module Assets {
  import opened Paths

  datatype Copy = Copy(from: Path, to: Path)

  /** `order` lists every key of the map exactly once. */
  ghost predicate IsEnumeration<K(!new)>(order: seq<K>, keys: set<K>) {
    && (forall i, j :: 0 <= i < j < |order| ==> order[i] != order[j])
    && (forall k :: k in keys <==> k in order)
  }

  /** Two enumerations of the same keys hold the same elements. */
  lemma EnumerationsArePermutations<K(!new)>(a: seq<K>, b: seq<K>, keys: set<K>)
    requires IsEnumeration(a, keys) && IsEnumeration(b, keys)
    ensures multiset(a) == multiset(b)
  {
    DistinctMultiset(a);
    DistinctMultiset(b);
    assert multiset(a) == multiset(keys) == multiset(b);
  }

  lemma {:induction false} DistinctMultiset<K(!new)>(a: seq<K>)
    requires forall i, j :: 0 <= i < j < |a| ==> a[i] != a[j]
    ensures multiset(a) == multiset(set k | k in a)
  {
    if |a| > 0 {
      var last := a[|a| - 1];
      var init := a[..|a| - 1];
      assert a == init + [last];
      DistinctMultiset(init);
      assert last !in init;
      assert (set k | k in a) == (set k | k in init) + {last};
    }
  }

  /** Every entry of an enumerated map appears in the enumeration, and
      every element of the enumeration is an entry. */
  lemma EnumeratedMap<K(!new), V(!new)>(order: seq<(K, V)>, m: map<K, V>)
    requires IsEnumeration(order, m.Items)
    ensures forall k :: k in m ==> (k, m[k]) in order
    ensures forall i :: 0 <= i < |order| ==> order[i].0 in m && m[order[i].0] == order[i].1
  {
    forall k | k in m
      ensures (k, m[k]) in order
    {
      assert (k, m[k]) in m.Items;
    }
    forall i | 0 <= i < |order|
      ensures order[i].0 in m && m[order[i].0] == order[i].1
    {
      assert order[i] in m.Items;
    }
  }

  /** The destination `out_dir.join(dest)` stays in the output directory. */
  predicate Inside(outDir: Path, dest: Path) {
    StartsWith(Join(outDir, dest), outDir)
  }
}
