/** Lists with an index from identifiers to positions, as the stores keep them. */
module Indexes {
  import opened Outcomes
  import opened Sorting

  type Id = string

  /** Every identifier leads to the last position that holds it, and nothing else is indexed. */
  ghost predicate Indexed<T>(xs: seq<T>, key: T -> Id, index: map<Id, nat>) {
    && (forall id <- index :: index[id] < |xs| && key(xs[index[id]]) == id)
    && (forall i | 0 <= i < |xs| :: key(xs[i]) in index && i <= index[key(xs[i])])
  }

  /** No identifier leads outside the list, so no lookup can fail. */
  ghost predicate InRange<T>(xs: seq<T>, index: map<Id, nat>) {
    forall id <- index :: index[id] < |xs|
  }

  ghost predicate DistinctKeys<T>(xs: seq<T>, key: T -> Id) {
    forall i, j | 0 <= i < j < |xs| :: key(xs[i]) != key(xs[j])
  }

  /** The list as a map; of several elements with one identifier, the last counts. */
  function Contents<T>(xs: seq<T>, key: T -> Id): map<Id, T> {
    if xs == [] then map[] else Contents(xs[..|xs| - 1], key)[key(xs[|xs| - 1]) := xs[|xs| - 1]]
  }

  /** A lookup through the index. */
  function At<T>(xs: seq<T>, index: map<Id, nat>, id: Id): Option<T>
    requires forall i <- index :: index[i] < |xs|
  {
    if id in index then Some(xs[index[id]]) else None
  }

  function Lookup<T>(m: map<Id, T>, id: Id): Option<T> {
    if id in m then Some(m[id]) else None
  }

  lemma {:induction false} ContentsHas<T>(xs: seq<T>, key: T -> Id, id: Id)
    ensures id in Contents(xs, key) <==> exists i :: 0 <= i < |xs| && key(xs[i]) == id
    decreases |xs|
  {
    if xs != [] {
      var front := xs[..|xs| - 1];
      ContentsHas(front, key, id);
      if i :| 0 <= i < |front| && key(front[i]) == id {
        assert key(xs[i]) == id;
      }
      if i :| 0 <= i < |xs| && key(xs[i]) == id && i < |front| {
        assert key(front[i]) == id;
      }
    }
  }

  lemma {:induction false} ContentsLast<T>(xs: seq<T>, key: T -> Id, i: nat)
    requires i < |xs| && forall j | i < j < |xs| :: key(xs[j]) != key(xs[i])
    ensures key(xs[i]) in Contents(xs, key) && Contents(xs, key)[key(xs[i])] == xs[i]
    decreases |xs|
  {
    if i < |xs| - 1 {
      ContentsLast(xs[..|xs| - 1], key, i);
    }
  }

  /** With an index in order, lookups are lookups in the map. */
  lemma LookupsAgree<T>(xs: seq<T>, key: T -> Id, index: map<Id, nat>, id: Id)
    requires Indexed(xs, key, index)
    ensures At(xs, index, id) == Lookup(Contents(xs, key), id)
  {
    ContentsHas(xs, key, id);
    if id in index {
      ContentsLast(xs, key, index[id]);
    }
  }

  /** Without repetitions, the index is the exact inverse of the list. */
  lemma IndexInverts<T>(xs: seq<T>, key: T -> Id, index: map<Id, nat>)
    requires Indexed(xs, key, index) && DistinctKeys(xs, key)
    ensures forall i | 0 <= i < |xs| :: index[key(xs[i])] == i
  {
  }

  lemma IndexedPush<T>(xs: seq<T>, key: T -> Id, index: map<Id, nat>, x: T)
    requires Indexed(xs, key, index)
    ensures Indexed(xs + [x], key, index[key(x) := |xs|])
    ensures Contents(xs + [x], key) == Contents(xs, key)[key(x) := x]
  {
    var ys, index' := xs + [x], index[key(x) := |xs|];
    assert ys[..|xs|] == xs;
    forall i | 0 <= i < |ys| ensures key(ys[i]) in index' && i <= index'[key(ys[i])] {
      assert i < |xs| ==> ys[i] == xs[i];
    }
    forall id | id in index' ensures index'[id] < |ys| && key(ys[index'[id]]) == id {
      assert id != key(x) ==> id in index;
    }
  }

  /** A new identifier keeps the identifiers distinct. */
  lemma DistinctPush<T>(xs: seq<T>, key: T -> Id, x: T)
    requires DistinctKeys(xs, key) && key(x) !in Contents(xs, key)
    ensures DistinctKeys(xs + [x], key)
  {
    ContentsHas(xs, key, key(x));
    forall i, j | 0 <= i < j < |xs + [x]| ensures key((xs + [x])[i]) != key((xs + [x])[j]) {
      assert (xs + [x])[i] == xs[i];
    }
  }

  lemma DistinctUpdate<T>(xs: seq<T>, key: T -> Id, i: nat, x: T)
    requires DistinctKeys(xs, key) && i < |xs| && key(x) == key(xs[i])
    ensures DistinctKeys(xs[i := x], key)
  {
  }

  lemma IndexedUpdate<T>(xs: seq<T>, key: T -> Id, index: map<Id, nat>, i: nat, x: T)
    requires Indexed(xs, key, index) && i < |xs| && key(x) == key(xs[i]) && index[key(x)] == i
    ensures Indexed(xs[i := x], key, index)
    ensures Contents(xs[i := x], key) == Contents(xs, key)[key(x) := x]
  {
    var ys := xs[i := x];
    forall id ensures Lookup(Contents(ys, key), id) == Lookup(Contents(xs, key)[key(x) := x], id) {
      LookupsAgree(xs, key, index, id);
      LookupsAgree(ys, key, index, id);
    }
    SameLookups(Contents(ys, key), Contents(xs, key)[key(x) := x]);
  }

  lemma SameLookups<T>(m: map<Id, T>, n: map<Id, T>)
    requires forall id :: Lookup(m, id) == Lookup(n, id)
    ensures m == n
  {
    forall id ensures id in m <==> id in n {
      assert Lookup(m, id) == Lookup(n, id);
    }
    forall id | id in m ensures m[id] == n[id] {
      assert Lookup(m, id) == Lookup(n, id);
    }
  }

  /** Without repetitions, the contents are the pairs of identifier and element. */
  lemma DistinctContents<T>(xs: seq<T>, key: T -> Id, id: Id)
    requires DistinctKeys(xs, key)
    ensures id in Contents(xs, key) ==> Contents(xs, key)[id] in xs && key(Contents(xs, key)[id]) == id
    ensures forall x | x in xs && key(x) == id :: id in Contents(xs, key) && Contents(xs, key)[id] == x
  {
    ContentsHas(xs, key, id);
    if i :| 0 <= i < |xs| && key(xs[i]) == id {
      ContentsLast(xs, key, i);
    }
  }

  /** Without repetitions, the order of the list does not matter. */
  lemma SameElementsSameContents<T>(xs: seq<T>, ys: seq<T>, key: T -> Id)
    requires DistinctKeys(xs, key) && DistinctKeys(ys, key) && forall x :: x in xs <==> x in ys
    ensures Contents(xs, key) == Contents(ys, key)
  {
    forall id ensures Lookup(Contents(xs, key), id) == Lookup(Contents(ys, key), id) {
      DistinctContents(xs, key, id);
      DistinctContents(ys, key, id);
    }
    SameLookups(Contents(xs, key), Contents(ys, key));
  }

  function Without<T>(xs: seq<T>, i: nat): (ys: seq<T>)
    requires i < |xs|
    ensures |ys| == |xs| - 1 && forall j | 0 <= j < |ys| :: ys[j] == xs[if j < i then j else j + 1]
  {
    xs[..i] + xs[i + 1..]
  }

  lemma WithoutMembers<T>(xs: seq<T>, key: T -> Id, i: nat)
    requires DistinctKeys(xs, key) && i < |xs|
    ensures DistinctKeys(Without(xs, i), key)
    ensures forall x :: x in Without(xs, i) <==> x in xs && x != xs[i]
  {
    var ys := Without(xs, i);
    forall x | x in xs && x != xs[i] ensures x in ys {
      var j :| 0 <= j < |xs| && xs[j] == x;
      assert ys[if j < i then j else j - 1] == x;
    }
    forall j, k | 0 <= j < k < |ys| ensures key(ys[j]) != key(ys[k]) {
      assert ys[j] == xs[if j < i then j else j + 1] && ys[k] == xs[if k < i then k else k + 1];
    }
    forall j | 0 <= j < |ys| ensures ys[j] in xs && ys[j] != xs[i] {
      assert ys[j] == xs[if j < i then j else j + 1];
    }
  }

  /** Removing an element removes its identifier, if it had no other. */
  lemma RemovedContents<T>(xs: seq<T>, key: T -> Id, i: nat)
    requires DistinctKeys(xs, key) && i < |xs|
    ensures DistinctKeys(Without(xs, i), key) && Contents(Without(xs, i), key) == Contents(xs, key) - {key(xs[i])}
  {
    WithoutMembers(xs, key, i);
    forall id ensures Lookup(Contents(Without(xs, i), key), id) == Lookup(Contents(xs, key) - {key(xs[i])}, id) {
      RemovedLookup(xs, Without(xs, i), key, xs[i], id);
    }
    SameLookups(Contents(Without(xs, i), key), Contents(xs, key) - {key(xs[i])});
  }

  lemma RemovedLookup<T>(xs: seq<T>, ys: seq<T>, key: T -> Id, gone: T, id: Id)
    requires DistinctKeys(xs, key) && DistinctKeys(ys, key) && gone in xs && forall x :: x in ys <==> x in xs && x != gone
    ensures Lookup(Contents(ys, key), id) == Lookup(Contents(xs, key) - {key(gone)}, id)
  {
    KeysDistinct(xs, key);
    DistinctContents(xs, key, id);
    DistinctContents(ys, key, id);
  }

  /** The loop of `rebuild_index`. */
  method Rebuild<T>(xs: seq<T>, key: T -> Id) returns (index: map<Id, nat>)
    ensures Indexed(xs, key, index)
  {
    index := map[];
    for i := 0 to |xs|
      invariant Indexed(xs[..i], key, index)
    {
      IndexedPush(xs[..i], key, index, xs[i]);
      assert xs[..i + 1] == xs[..i] + [xs[i]];
      index := index[key(xs[i]) := i];
    }
    assert xs[..|xs|] == xs;
  }

  // ---------- sorting without rebuilding the index ----------

  lemma {:induction false} SortOfSorted<T(!new)>(xs: seq<T>, le: (T, T) -> bool)
    requires Sorted(xs, le)
    ensures Sort(xs, le) == xs
  {
    if xs != [] {
      SortOfSorted(xs[1..], le);
    }
  }

  lemma SortedDistinctKeys<T(!new)>(xs: seq<T>, key: T -> Id, le: (T, T) -> bool)
    requires DistinctKeys(xs, key)
    ensures DistinctKeys(Sort(xs, le), key) && Contents(Sort(xs, le), key) == Contents(xs, key)
  {
    var ys := Sort(xs, le);
    KeysDistinct(xs, key);
    SortKeeps(xs, le);
    SortPermutes(xs, le);
    DistinctPermuted(xs, ys);
    forall i, j | 0 <= i < j < |ys| ensures key(ys[i]) != key(ys[j]) {
      assert ys[i] != ys[j] && ys[i] in xs && ys[j] in xs;
    }
    SameElementsSameContents(xs, ys, key);
  }

  lemma KeysDistinct<T>(xs: seq<T>, key: T -> Id)
    requires DistinctKeys(xs, key)
    ensures Distinct(xs) && forall x, y | x in xs && y in xs && key(x) == key(y) :: x == y
  {
  }

  /** An old index gives the right answers for a sorted list exactly if the list was in order already. */
  lemma SortedAgreement<T(!new)>(xs: seq<T>, key: T -> Id, index: map<Id, nat>, le: (T, T) -> bool)
    requires Ordering(le) && DistinctKeys(xs, key) && Indexed(xs, key, index)
    ensures InRange(Sort(xs, le), index)
    ensures (forall id :: At(Sort(xs, le), index, id) == Lookup(Contents(Sort(xs, le), key), id)) <==> Sorted(xs, le)
  {
    var ys := Sort(xs, le);
    SortKeeps(xs, le);
    SortedDistinctKeys(xs, key, le);
    if Sorted(xs, le) {
      SortOfSorted(xs, le);
      forall id ensures At(ys, index, id) == Lookup(Contents(ys, key), id) {
        LookupsAgree(xs, key, index, id);
      }
    } else {
      SortSorts(xs, le);
      assert xs != ys;
      var i :| 0 <= i < |xs| && xs[i] != ys[i];
      IndexInverts(xs, key, index);
      DistinctContents(xs, key, key(xs[i]));
      assert At(ys, index, key(xs[i])) == Some(ys[i]) && xs[i] in xs;
    }
  }
}
