/** The stable sort behind `sort_by`, and what it promises for an ordering. */
module Sorting {

  ghost predicate Ordering<T(!new)>(le: (T, T) -> bool) {
    && (forall x, y :: le(x, y) || le(y, x))
    && (forall x, y, z :: le(x, y) && le(y, z) ==> le(x, z))
  }

  ghost predicate Sorted<T>(xs: seq<T>, le: (T, T) -> bool) {
    forall i, j | 0 <= i < j < |xs| :: le(xs[i], xs[j])
  }

  function Insert<T>(x: T, ys: seq<T>, le: (T, T) -> bool): seq<T> {
    if ys == [] then [x]
    else if le(x, ys[0]) then [x] + ys
    else [ys[0]] + Insert(x, ys[1..], le)
  }

  function Sort<T>(xs: seq<T>, le: (T, T) -> bool): seq<T> {
    if xs == [] then [] else Insert(xs[0], Sort(xs[1..], le), le)
  }

  lemma {:induction false} InsertPermutes<T>(x: T, ys: seq<T>, le: (T, T) -> bool)
    ensures multiset(Insert(x, ys, le)) == multiset([x] + ys)
  {
    if ys != [] && !le(x, ys[0]) {
      InsertPermutes(x, ys[1..], le);
      assert [x] + ys == [x, ys[0]] + ys[1..];
    }
  }

  lemma {:induction false} SortPermutes<T>(xs: seq<T>, le: (T, T) -> bool)
    ensures multiset(Sort(xs, le)) == multiset(xs)
  {
    if xs != [] {
      SortPermutes(xs[1..], le);
      InsertPermutes(xs[0], Sort(xs[1..], le), le);
      assert xs == [xs[0]] + xs[1..];
    }
  }

  lemma {:induction false} InsertSorts<T(!new)>(x: T, ys: seq<T>, le: (T, T) -> bool)
    requires Ordering(le) && Sorted(ys, le)
    ensures Sorted(Insert(x, ys, le), le)
  {
    if ys != [] && !le(x, ys[0]) {
      var tail := Insert(x, ys[1..], le);
      InsertSorts(x, ys[1..], le);
      InsertPermutes(x, ys[1..], le);
      forall y | y in tail ensures le(ys[0], y) {
        assert y in multiset([x] + ys[1..]);
      }
    }
  }

  lemma {:induction false} SortSorts<T(!new)>(xs: seq<T>, le: (T, T) -> bool)
    requires Ordering(le)
    ensures Sorted(Sort(xs, le), le)
  {
    if xs != [] {
      SortSorts(xs[1..], le);
      InsertSorts(xs[0], Sort(xs[1..], le), le);
    }
  }

  /** Sorting only rearranges. */
  lemma SortKeeps<T>(xs: seq<T>, le: (T, T) -> bool)
    ensures |Sort(xs, le)| == |xs| && forall x :: x in Sort(xs, le) <==> x in xs
  {
    SortPermutes(xs, le);
    assert |multiset(Sort(xs, le))| == |multiset(xs)|;
    forall x ensures x in Sort(xs, le) <==> x in xs {
      assert x in multiset(Sort(xs, le)) <==> x in multiset(xs);
    }
  }

  /** An order without ties leaves one way to sort. */
  lemma {:induction false} SortedUnique<T(!new)>(xs: seq<T>, ys: seq<T>, le: (T, T) -> bool)
    requires Sorted(xs, le) && Sorted(ys, le) && multiset(xs) == multiset(ys)
    requires forall x, y :: x in xs && y in xs && le(x, y) && le(y, x) ==> x == y
    ensures xs == ys
    decreases |xs|
  {
    assert |multiset(xs)| == |multiset(ys)|;
    if xs != [] {
      HeadLeast(xs, ys, le);
      HeadLeast(ys, xs, le);
      assert xs[0] in xs && ys[0] in ys;
      TailOf(xs);
      TailOf(ys);
      SortedUnique(xs[1..], ys[1..], le);
    }
  }

  lemma TailOf<T>(xs: seq<T>)
    requires xs != []
    ensures xs == [xs[0]] + xs[1..] && multiset(xs[1..]) == multiset(xs) - multiset{xs[0]}
    ensures forall x :: x in xs[1..] ==> x in xs
  {
    assert xs == [xs[0]] + xs[1..];
  }

  lemma HeadLeast<T>(xs: seq<T>, ys: seq<T>, le: (T, T) -> bool)
    requires Sorted(xs, le) && multiset(xs) == multiset(ys) && xs != [] && ys != []
    ensures ys[0] in xs && (ys[0] == xs[0] || le(xs[0], ys[0]))
  {
    assert ys[0] in multiset(xs);
  }

  // ---------- ties ----------

  /** The members that the order does not tell apart from `z`, in the order in which they stand. */
  function Ties<T>(xs: seq<T>, z: T, le: (T, T) -> bool): seq<T> {
    if xs == [] then [] else (if le(xs[0], z) && le(z, xs[0]) then [xs[0]] else []) + Ties(xs[1..], z, le)
  }

  lemma {:induction false} InsertKeepsTies<T(!new)>(x: T, ys: seq<T>, le: (T, T) -> bool, z: T)
    requires Ordering(le)
    ensures Ties(Insert(x, ys, le), z, le) == Ties([x] + ys, z, le)
  {
    assert ([x] + ys)[1..] == ys;
    if ys != [] && !le(x, ys[0]) {
      InsertKeepsTies(x, ys[1..], le, z);
      assert ([x] + ys[1..])[1..] == ys[1..];
      assert Insert(x, ys, le)[1..] == Insert(x, ys[1..], le);
      assert !(le(x, z) && le(z, ys[0]));
    }
  }

  /** The sort is stable: what the order does not tell apart stays in the order in which it stood. */
  lemma {:induction false} SortIsStable<T(!new)>(xs: seq<T>, le: (T, T) -> bool, z: T)
    requires Ordering(le)
    ensures Ties(Sort(xs, le), z, le) == Ties(xs, z, le)
  {
    if xs != [] {
      var tail := Sort(xs[1..], le);
      SortIsStable(xs[1..], le, z);
      InsertKeepsTies(xs[0], tail, le, z);
      assert ([xs[0]] + tail)[1..] == tail;
    }
  }

  lemma {:induction false} TiesAre<T>(xs: seq<T>, z: T, le: (T, T) -> bool)
    ensures forall x :: x in Ties(xs, z, le) <==> x in xs && le(x, z) && le(z, x)
  {
    if xs != [] {
      TiesAre(xs[1..], z, le);
      assert xs == [xs[0]] + xs[1..];
    }
  }

  /** A sorted sequence begins with the first member tied to its head. */
  lemma HeadTies<T(!new)>(xs: seq<T>, ys: seq<T>, le: (T, T) -> bool)
    requires Ordering(le) && Sorted(xs, le) && Sorted(ys, le) && xs != [] && forall z :: Ties(xs, z, le) == Ties(ys, z, le)
    ensures ys != [] && xs[0] == ys[0]
  {
    TiesAre(xs, xs[0], le);
    TiesAre(ys, xs[0], le);
    assert xs[0] in Ties(xs, xs[0], le);
    assert ys != [];
    TiesAre(xs, ys[0], le);
    TiesAre(ys, ys[0], le);
    assert ys[0] in Ties(ys, ys[0], le);
    assert le(ys[0], xs[0]) && le(xs[0], ys[0]);
    assert Ties(xs, xs[0], le)[0] == xs[0] && Ties(ys, xs[0], le)[0] == ys[0];
  }

  /** So sorting and keeping ties leaves no choice. */
  lemma {:induction false} StablyUnique<T(!new)>(xs: seq<T>, ys: seq<T>, le: (T, T) -> bool)
    requires Ordering(le) && Sorted(xs, le) && Sorted(ys, le) && forall z :: Ties(xs, z, le) == Ties(ys, z, le)
    ensures xs == ys
    decreases |xs|
  {
    if xs != [] {
      HeadTies(xs, ys, le);
      forall z ensures Ties(xs[1..], z, le) == Ties(ys[1..], z, le) {
        assert Ties(xs, z, le) == Ties(ys, z, le);
        var head := if le(xs[0], z) && le(z, xs[0]) then [xs[0]] else [];
        assert Ties(xs[1..], z, le) == Ties(xs, z, le)[|head|..] && Ties(ys[1..], z, le) == Ties(ys, z, le)[|head|..];
      }
      StablyUnique(xs[1..], ys[1..], le);
    } else if ys != [] {
      HeadTies(ys, xs, le);
    }
  }

  lemma {:induction false} TiesOfBeginning<T>(xs: seq<T>, n: nat, z: T, le: (T, T) -> bool)
    requires n <= |xs|
    ensures Ties(xs[..n], z, le) <= Ties(xs, z, le)
  {
    if n > 0 {
      assert xs[..n][1..] == xs[1..][..n - 1];
      TiesOfBeginning(xs[1..], n - 1, z, le);
    }
  }

  ghost predicate Distinct<T>(xs: seq<T>) {
    forall i, j | 0 <= i < j < |xs| :: xs[i] != xs[j]
  }

  lemma DistinctConcat<T>(xs: seq<T>, ys: seq<T>)
    requires Distinct(xs) && Distinct(ys) && forall x :: !(x in xs && x in ys)
    ensures Distinct(xs + ys)
  {
    forall i, j | 0 <= i < j < |xs + ys| ensures (xs + ys)[i] != (xs + ys)[j] {
      assert i < |xs| <= j ==> (xs + ys)[i] in xs && (xs + ys)[j] in ys;
    }
  }

  lemma {:induction false} DistinctMultiplicity<T>(xs: seq<T>, x: T)
    requires Distinct(xs)
    ensures multiset(xs)[x] == if x in xs then 1 else 0
  {
    if xs != [] {
      assert xs == [xs[0]] + xs[1..];
      DistinctMultiplicity(xs[1..], x);
    }
  }

  lemma DistinctPermuted<T>(xs: seq<T>, ys: seq<T>)
    requires Distinct(xs) && multiset(xs) == multiset(ys)
    ensures Distinct(ys)
  {
    forall i, j | 0 <= i < j < |ys| ensures ys[i] != ys[j] {
      DistinctMultiplicity(xs, ys[j]);
      assert ys == ys[..j] + [ys[j]] + ys[j + 1..];
      assert ys[i] in multiset(ys[..j]);
    }
  }

  /** Without repetitions, the same members are the same multiset. */
  lemma DistinctSame<T>(xs: seq<T>, ys: seq<T>)
    requires Distinct(xs) && Distinct(ys) && forall x :: x in xs <==> x in ys
    ensures multiset(xs) == multiset(ys)
  {
    forall x ensures multiset(xs)[x] == multiset(ys)[x] {
      DistinctMultiplicity(xs, x);
      DistinctMultiplicity(ys, x);
    }
  }
}
