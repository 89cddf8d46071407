/** The order of paths: component by component, each component character by character. */
module PathOrder {
  import opened Disks
  import opened Sorting

  predicate NameBefore(a: Name, b: Name) {
    b != [] && (a == [] || a[0] < b[0] || (a[0] == b[0] && NameBefore(a[1..], b[1..])))
  }

  predicate Before(p: Path, q: Path) {
    q != [] && (p == [] || NameBefore(p[0], q[0]) || (p[0] == q[0] && Before(p[1..], q[1..])))
  }

  lemma {:induction false} NamesCompare(a: Name, b: Name)
    ensures !(NameBefore(a, b) && NameBefore(b, a))
    ensures NameBefore(a, b) || NameBefore(b, a) <==> a != b
  {
    if a != [] && b != [] {
      NamesCompare(a[1..], b[1..]);
      assert a == [a[0]] + a[1..] && b == [b[0]] + b[1..];
    }
  }

  lemma {:induction false} NamesTransitive(a: Name, b: Name, c: Name)
    requires NameBefore(a, b) && NameBefore(b, c)
    ensures NameBefore(a, c)
  {
    if a != [] && a[0] == b[0] == c[0] {
      NamesTransitive(a[1..], b[1..], c[1..]);
    }
  }

  /** Exactly one of two different paths comes before the other. */
  lemma {:induction false} PathsCompare(p: Path, q: Path)
    ensures !(Before(p, q) && Before(q, p))
    ensures Before(p, q) || Before(q, p) <==> p != q
  {
    if p != [] && q != [] {
      NamesCompare(p[0], q[0]);
      PathsCompare(p[1..], q[1..]);
      assert p == [p[0]] + p[1..] && q == [q[0]] + q[1..];
    }
  }

  lemma {:induction false} PathsTransitive(p: Path, q: Path, r: Path)
    requires Before(p, q) && Before(q, r)
    ensures Before(p, r)
  {
    if p != [] {
      NamesCompare(p[0], q[0]);
      NamesCompare(q[0], r[0]);
      if p[0] == q[0] == r[0] {
        PathsTransitive(p[1..], q[1..], r[1..]);
      } else if p[0] != q[0] && q[0] != r[0] {
        NamesTransitive(p[0], q[0], r[0]);
      }
    }
  }

  /** A directory comes before what lies in it. */
  lemma {:induction false} PrefixBefore(p: Path, q: Path)
    requires p < q
    ensures Before(p, q)
  {
    if p != [] {
      PrefixBefore(p[1..], q[1..]);
    }
  }

  /** The order of names as a relation to sort by. */
  function NameOrder(): (Name, Name) -> bool {
    (a: Name, b: Name) => a == b || NameBefore(a, b)
  }

  lemma NameOrders()
    ensures Ordering(NameOrder())
  {
    var le := NameOrder();
    forall a: Name, b: Name ensures le(a, b) || le(b, a) {
      NamesCompare(a, b);
    }
    forall a: Name, b: Name, c: Name | le(a, b) && le(b, c) ensures le(a, c) {
      if NameBefore(a, b) && NameBefore(b, c) {
        NamesTransitive(a, b, c);
      }
    }
  }
}
