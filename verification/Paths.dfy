/** Comparing and remapping paths: `overlaps`, `same_path` and `remap_path`. */
module Paths {
  import opened Outcomes
  import opened Disks

  /** A component of a path as the caller wrote it. */
  datatype Component = Up | Normal(name: Name)

  datatype Written = Written(absolute: bool, components: seq<Component>)

  /** What `path_parts` compares: the components, folded where the platform ignores case. */
  function Parts(components: seq<Component>, fold: Name -> Name): (r: seq<Name>)
    ensures |r| == |components|
  {
    if components == [] then []
    else [if components[0].Up? then ".." else fold(components[0].name)] + Parts(components[1..], fold)
  }

  predicate Overlaps(left: seq<Name>, right: seq<Name>) {
    left <= right || right <= left
  }

  predicate Beneath(p: seq<Name>, root: seq<Name>) {
    root <= p
  }

  /** Roots overlap exactly if some path lies beneath both; so writing beneath one cannot touch what lies beneath the other. */
  lemma OverlapMeans(left: seq<Name>, right: seq<Name>)
    ensures Overlaps(left, right) <==> Overlaps(right, left)
    ensures Overlaps(left, right) <==> exists p: seq<Name> :: Beneath(p, left) && Beneath(p, right)
  {
    if Overlaps(left, right) {
      var longer := if left <= right then right else left;
      assert Beneath(longer, left) && Beneath(longer, right);
    }
    forall p: seq<Name> | Beneath(p, left) && Beneath(p, right) ensures Overlaps(left, right) {
      assert left == p[..|left|] && right == p[..|right|];
    }
  }

  function Remap(value: Written, source: seq<Component>, destination: seq<Component>, fold: Name -> Name): Option<seq<Component>> {
    if !value.absolute || Up in value.components then None
    else if !(Parts(source, fold) <= Parts(value.components, fold)) then None
    else Some(destination + value.components[|Parts(source, fold)|..])
  }

  /** The path is that of the source, component by component up to folding, continued by `suffix`. */
  ghost predicate LiesBeneath(value: seq<Component>, source: seq<Component>, suffix: seq<Component>, fold: Name -> Name) {
    && |value| == |source| + |suffix| && value[|source|..] == suffix
    && forall i | 0 <= i < |source| :: SameComponent(value[i], source[i], fold)
  }

  predicate SameComponent(a: Component, b: Component, fold: Name -> Name) {
    (if a.Up? then ".." else fold(a.name)) == (if b.Up? then ".." else fold(b.name))
  }

  lemma {:induction false} PartsAt(components: seq<Component>, fold: Name -> Name, i: nat)
    requires i < |components|
    ensures Parts(components, fold)[i] == if components[i].Up? then ".." else fold(components[i].name)
  {
    if i > 0 {
      PartsAt(components[1..], fold, i - 1);
    }
  }

  lemma PrefixPointwise(a: seq<Name>, b: seq<Name>)
    requires |a| <= |b|
    ensures a <= b <==> forall i | 0 <= i < |a| :: a[i] == b[i]
  {
  }

  lemma PartsPrefix(source: seq<Component>, value: seq<Component>, fold: Name -> Name)
    ensures Parts(source, fold) <= Parts(value, fold) <==>
              |source| <= |value| && forall i | 0 <= i < |source| :: SameComponent(value[i], source[i], fold)
  {
    var a, b := Parts(source, fold), Parts(value, fold);
    if |source| <= |value| {
      forall i | 0 <= i < |source| ensures a[i] == b[i] <==> SameComponent(value[i], source[i], fold) {
        PartsAt(source, fold, i);
        PartsAt(value, fold, i);
      }
      PrefixPointwise(a, b);
    }
  }

  /** Remapping succeeds exactly on absolute paths without parent components beneath the source, and moves just the root. */
  lemma RemapExactly(value: Written, source: seq<Component>, destination: seq<Component>, fold: Name -> Name)
    ensures Remap(value, source, destination, fold).Some? <==>
              value.absolute && Up !in value.components && exists suffix :: LiesBeneath(value.components, source, suffix, fold)
    ensures forall suffix :: value.absolute && Up !in value.components && LiesBeneath(value.components, source, suffix, fold) ==>
              Remap(value, source, destination, fold) == Some(destination + suffix)
  {
    PartsPrefix(source, value.components, fold);
    if |source| <= |value.components| && forall i | 0 <= i < |source| :: SameComponent(value.components[i], source[i], fold) {
      assert LiesBeneath(value.components, source, value.components[|source|..], fold);
    }
  }

  /** Remapping there and back recovers the path, spelled as the source is where only folding made it match. */
  lemma RemapRoundTrip(value: Written, source: seq<Component>, destination: seq<Component>, fold: Name -> Name)
    requires Remap(value, source, destination, fold).Some? && Up !in destination
    ensures var there := Written(true, Remap(value, source, destination, fold).value);
            var back := Remap(there, destination, source, fold);
            && back.Some? && Parts(back.value, fold) == Parts(value.components, fold)
            && back.value[|source|..] == value.components[|source|..]
            && (source <= value.components ==> back.value == value.components)
  {
    var suffix := value.components[|source|..];
    var there := Written(true, destination + suffix);
    PartsPrefix(source, value.components, fold);
    PartsPrefix(destination, there.components, fold);
    assert there.components[|destination|..] == suffix;
    var back := source + suffix;
    assert Remap(there, destination, source, fold) == Some(back);
    forall i | 0 <= i < |back| ensures Parts(back, fold)[i] == Parts(value.components, fold)[i] {
      PartsAt(back, fold, i);
      PartsAt(value.components, fold, i);
      assert i >= |source| ==> back[i] == value.components[i];
    }
  }
}
