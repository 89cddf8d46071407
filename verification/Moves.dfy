/** `execute_with_cleanup`: a move that undoes itself on failure, and cleans the source up only after the commit. */
module Moves {
  import opened Outcomes
  import opened Disks
  import opened Worlds
  import opened Effects
  import opened Paths
  import opened PathOrder
  import opened Scans
  import opened Plans
  import opened Checks
  import opened Preparing
  import opened Publishing
  import opened Copying
  import opened Overlays
  import opened Additions
  import opened SameFiles
  import opened Undoing
  import opened Creations

  // ---------- cleaning up one entry ----------

  /**
    At instant `t` an entry of the source was removed by its path. A file was seen before with the size and time
    of the snapshot and was then found equal to its copy, up to two instants before; the one in between was a
    step of the others.
  */
  ghost predicate Cleaned(log: seq<Instant>, a: nat, t: nat, plan: Plan, e: Entry) {
    && a < t < |log| && 1 < t && log[t].step.Removed? && log[t - 1].step.Outside?
    && AtPath(log[t - 1].after, SourceOf(plan, e), log[t].step.dir, log[t].step.name)
    && Removable(log[t - 1].after, SourceOf(plan, e), e.directory)
    && (!e.directory ==> Unmodified(log[..t], a, plan, e) && ReadEqual(log, a, t - 2, SourceOf(plan, e), TargetOf(plan, e)))
  }

  ghost predicate Unmodified(log: seq<Instant>, a: nat, plan: Plan, e: Entry) {
    exists i :: a <= i < |log| && PathStamp(log[i].after, SourceOf(plan, e)) == Some((e.size, e.modified))
  }

  lemma CleanedStays(log: seq<Instant>, log': seq<Instant>, a: nat, a': nat, t: nat, plan: Plan, e: Entry)
    requires log <= log' && a <= a' && Cleaned(log, a', t, plan, e)
    ensures Cleaned(log', a, t, plan, e)
  {
    assert log'[..t] == log[..t];
    if !e.directory {
      var i, j, x, y :| ReadEqualAt(log, a', t - 2, SourceOf(plan, e), TargetOf(plan, e), i, j, x, y);
      assert ReadEqualAt(log', a, t - 2, SourceOf(plan, e), TargetOf(plan, e), i, j, x, y);
    }
  }

  /** If nobody acts while an entry is cleaned up, a file that is removed has an equal copy at that very moment. */
  lemma RemovesOnlyCopied(log: seq<Instant>, horizon: nat, a: nat, t: nat, plan: Plan, e: Entry)
    requires Chain(log, horizon) && 0 < a && Cleaned(log, a, t, plan, e) && !e.directory
    requires forall i | a <= i < t :: !log[i].step.Changes() && (log[i].step.Outside? ==> log[i].after == log[i].before)
    ensures View(log[t].before, SourceOf(plan, e)).AFile?
    ensures View(log[t].before, TargetOf(plan, e)) == View(log[t].before, SourceOf(plan, e))
  {
    CalmUntil(log, horizon, a - 1, t);
    ReadEqualAtRest(log, a, t - 2, SourceOf(plan, e), TargetOf(plan, e), log[t].before);
  }

  /** Whether the file is as in the snapshot and equal to its copy. */
  method SafeToRemove(world: World, plan: Plan, e: Entry) returns (safe: bool)
    requires world.Valid()
    modifies world
    ensures world.Looked()
    ensures safe ==> Unmodified(world.log, |old(world.log)|, plan, e) && |old(world.log)| < |world.log|
                     && ReadEqual(world.log, |old(world.log)|, |world.log| - 1, SourceOf(plan, e), TargetOf(plan, e))
    ensures old(world.Quiet() && world.Faultless()) ==>
              |SourceOf(plan, e)| > 1 && |TargetOf(plan, e)| > 1 && View(old(world.disk), SourceOf(plan, e)).AFile? ==>
                View(old(world.disk), TargetOf(plan, e)) == View(old(world.disk), SourceOf(plan, e)) ==>
                  PathStamp(old(world.disk), SourceOf(plan, e)) == Some((e.size, e.modified)) ==> safe
  {
    ghost var a := |world.log|;
    var stamp := FileStamp(world, SourceOf(plan, e));
    if stamp != Some((e.size, e.modified)) {
      return false;
    }
    ghost var b := |world.log|;
    assert PathStamp(world.log[b - 1].after, SourceOf(plan, e)) == Some((e.size, e.modified));
    var same := SameContents(world, SourceOf(plan, e), TargetOf(plan, e));
    if same == Ok(true) {
      ReadEqualEarlier(world.log, a, b, |world.log| - 1, SourceOf(plan, e), TargetOf(plan, e));
    }
    return same == Ok(true);
  }

  /** On a disk at rest: what cleaning up this entry takes. */
  ghost predicate Cleanable(d: Disk, plan: Plan, e: Entry) {
    var source, target := SourceOf(plan, e), TargetOf(plan, e);
    && |source| > 1 && |target| > 1 && View(d, source[..|source| - 1]) == ADir && Removable(d, source, e.directory)
    && (!e.directory ==> View(d, source).AFile? && View(d, target) == View(d, source) && PathStamp(d, source) == Some((e.size, e.modified)))
  }

  lemma CleanedNow(log: seq<Instant>, log': seq<Instant>, a: nat, a': nat, plan: Plan, e: Entry)
    requires log <= log' && |log'| == |log| + 2 && 0 < a <= a' <= |log|
    requires log'[|log|].step.Outside? && log'[|log| + 1].step.Removed?
    requires AtPath(log'[|log|].after, SourceOf(plan, e), log'[|log| + 1].step.dir, log'[|log| + 1].step.name)
    requires Removable(log'[|log|].after, SourceOf(plan, e), e.directory)
    requires !e.directory ==> Unmodified(log, a', plan, e) && ReadEqual(log, a', |log| - 1, SourceOf(plan, e), TargetOf(plan, e))
    ensures Cleaned(log', a, |log| + 1, plan, e)
  {
    if !e.directory {
      var k :| a' <= k < |log| && PathStamp(log[k].after, SourceOf(plan, e)) == Some((e.size, e.modified));
      assert PathStamp(log'[..|log| + 1][k].after, SourceOf(plan, e)) == Some((e.size, e.modified));
      var i, j, x, y :| ReadEqualAt(log, a', |log| - 1, SourceOf(plan, e), TargetOf(plan, e), i, j, x, y);
      assert ReadEqualAt(log', a, |log| - 1, SourceOf(plan, e), TargetOf(plan, e), i, j, x, y);
    }
  }

  /** The removal, right after the check. */
  method RemoveSource(world: World, plan: Plan, e: Entry, ghost a: nat, ghost a': nat) returns (gone: bool)
    requires world.Valid() && e.relative != [] && 0 < a <= a' <= |world.log|
    requires !e.directory ==> Unmodified(world.log, a', plan, e) && ReadEqual(world.log, a', |world.log| - 1, SourceOf(plan, e), TargetOf(plan, e))
    modifies world
    ensures world.Continued() && world.Untouched() && old(world.deeds) <= world.deeds
    ensures !gone ==> world.Looked()
    ensures gone ==> |world.deeds| == |old(world.deeds)| + 1 && Cleaned(world.log, a, world.deeds[|old(world.deeds)|], plan, e)
    ensures old(world.Quiet()) && gone ==> RemovedFrom(old(world.disk), world.disk, SourceOf(plan, e))
    ensures old(world.Quiet() && world.Faultless()) && Removable(old(world.disk), SourceOf(plan, e), e.directory) ==> gone
  {
    ghost var log := world.log;
    var removed := world.RemoveAt(SourceOf(plan, e), e.directory);
    if removed.Ok? {
      CleanedNow(log, world.log, a, a', plan, e);
    }
    return removed.Ok?;
  }

  /** The loop body of the cleanup. */
  method CleanOne(world: World, plan: Plan, e: Entry) returns (gone: bool)
    requires world.Valid() && e.relative != []
    modifies world
    ensures world.Continued() && world.Untouched() && old(world.deeds) <= world.deeds
    ensures !gone ==> world.Looked()
    ensures gone ==> |world.deeds| == |old(world.deeds)| + 1 && Cleaned(world.log, |old(world.log)|, world.deeds[|old(world.deeds)|], plan, e)
    ensures old(world.Quiet()) && gone ==> RemovedFrom(old(world.disk), world.disk, SourceOf(plan, e))
    ensures old(world.Quiet() && world.Faultless()) && Cleanable(old(world.disk), plan, e) ==> gone
  {
    var source := SourceOf(plan, e);
    ghost var a := |world.log|;
    var checked := CheckedDirectory(world, source[..|source| - 1]);
    if checked.Err? {
      return false;
    }
    ghost var a' := |world.log|;
    if !e.directory {
      var safe := SafeToRemove(world, plan, e);
      if !safe {
        return false;
      }
    }
    gone := RemoveSource(world, plan, e, a, a');
  }

  // ---------- the whole cleanup ----------

  ghost predicate CleanedOneOf(log: seq<Instant>, a: nat, t: nat, plan: Plan) {
    exists e :: e in plan.entries && Cleaned(log, a, t, plan, e)
  }

  /** Every deed is the removal of an entry of the source that could safely go. */
  ghost predicate OnlyCleans(log: seq<Instant>, a: nat, deeds: seq<nat>, u: nat, plan: Plan) {
    forall k | u <= k < |deeds| :: CleanedOneOf(log, a, deeds[k], plan)
  }

  /** The entry is listed as left over, or a deed removed it. */
  ghost predicate Accounted(log: seq<Instant>, a: nat, deeds: seq<nat>, u: nat, plan: Plan, e: Entry, leftovers: seq<Path>) {
    SourceOf(plan, e) in leftovers || exists k :: u <= k < |deeds| && Cleaned(log, a, deeds[k], plan, e)
  }

  ghost predicate AllAccounted(log: seq<Instant>, a: nat, deeds: seq<nat>, u: nat, plan: Plan, n: nat, leftovers: seq<Path>)
    requires n <= |plan.entries|
  {
    && (forall i | n <= i < |plan.entries| :: Accounted(log, a, deeds, u, plan, plan.entries[i], leftovers))
    && (forall q | q in leftovers :: exists i :: n <= i < |plan.entries| && q == SourceOf(plan, plan.entries[i]))
  }

  lemma AccountedStays(log: seq<Instant>, log': seq<Instant>, a: nat, deeds: seq<nat>, deeds': seq<nat>, u: nat, plan: Plan, e: Entry,
                       leftovers: seq<Path>, more: seq<Path>)
    requires log <= log' && deeds <= deeds' && Accounted(log, a, deeds, u, plan, e, leftovers)
    ensures Accounted(log', a, deeds', u, plan, e, leftovers + more)
  {
    if SourceOf(plan, e) !in leftovers {
      var k :| u <= k < |deeds| && Cleaned(log, a, deeds[k], plan, e);
      CleanedStays(log, log', a, a, deeds[k], plan, e);
      assert deeds'[k] == deeds[k];
    }
  }

  /** One entry further: removed by the new deed, or left over. */
  lemma AccountedMore(log: seq<Instant>, log': seq<Instant>, a: nat, deeds: seq<nat>, deeds': seq<nat>, u: nat, plan: Plan, n: nat,
                      leftovers: seq<Path>, more: seq<Path>)
    requires log <= log' && deeds <= deeds' && a <= |log| && u <= |deeds| && n < |plan.entries|
    requires AllAccounted(log, a, deeds, u, plan, n + 1, leftovers) && OnlyCleans(log, a, deeds, u, plan)
    requires if more == [] then |deeds'| == |deeds| + 1 && Cleaned(log', |log|, deeds'[|deeds|], plan, plan.entries[n])
             else deeds' == deeds && more == [SourceOf(plan, plan.entries[n])]
    ensures AllAccounted(log', a, deeds', u, plan, n, leftovers + more) && OnlyCleans(log', a, deeds', u, plan)
  {
    if more == [] {
      CleanedStays(log', log', a, |log|, deeds'[|deeds|], plan, plan.entries[n]);
    }
    forall k | u <= k < |deeds'| ensures CleanedOneOf(log', a, deeds'[k], plan) {
      if k < |deeds| {
        assert CleanedOneOf(log, a, deeds[k], plan);
        var e :| e in plan.entries && Cleaned(log, a, deeds[k], plan, e);
        CleanedStays(log, log', a, a, deeds[k], plan, e);
      } else {
        assert plan.entries[n] in plan.entries;
      }
    }
    forall i | n <= i < |plan.entries| ensures Accounted(log', a, deeds', u, plan, plan.entries[i], leftovers + more) {
      if i > n {
        AccountedStays(log, log', a, deeds, deeds', u, plan, plan.entries[i], leftovers, more);
      }
    }
  }

  /** Mentioning these unfolds `Books`, `CleanedFrom` and `Cleansable`, which are kept folded elsewhere to keep proofs small. */
  ghost predicate UnfoldBooks(leftovers: seq<Path>, once: nat) {
    true
  }

  ghost predicate UnfoldCleaned(d: Disk, once: nat) {
    true
  }

  ghost predicate UnfoldCleansable(d: Disk, once: nat) {
    true
  }

  /** Every deed is a removal that could safely be done, and every entry from `n` on is accounted for. */
  ghost predicate Books(log: seq<Instant>, a: nat, deeds: seq<nat>, u: nat, plan: Plan, n: nat, leftovers: seq<Path>)
    requires n <= |plan.entries|
  {
    forall once: nat {:trigger UnfoldBooks(leftovers, once)} :: UnfoldBooks(leftovers, once) ==>
      OnlyCleans(log, a, deeds, u, plan) && AllAccounted(log, a, deeds, u, plan, n, leftovers)
  }

  lemma BooksMean(log: seq<Instant>, a: nat, deeds: seq<nat>, u: nat, plan: Plan, n: nat, leftovers: seq<Path>)
    requires n <= |plan.entries| && Books(log, a, deeds, u, plan, n, leftovers)
    ensures OnlyCleans(log, a, deeds, u, plan) && AllAccounted(log, a, deeds, u, plan, n, leftovers)
  {
    assert UnfoldBooks(leftovers, 0);
  }

  // ---------- on a disk at rest ----------

  /** The path leads to the same, with the same contents, size and time. */
  ghost predicate SamePath(d: Disk, e: Disk, q: Path) {
    Resolve(e, q) == Resolve(d, q) && View(e, q) == View(d, q) && MetaAt(e, q) == MetaAt(d, q)
  }

  lemma RemovedPath(d: Disk, e: Disk, path: Path)
    requires WellFormed(d) && RemovedFrom(d, e, path)
    ensures WellFormed(e) && Resolve(e, path).None?
    ensures forall q: Path | q != path :: SamePath(d, e, q)
  {
    var up, name := path[..|path| - 1], path[|path| - 1];
    assert path == up + [name];
    RemoveNameGrows(d, Resolve(d, up).value, name);
    RemovingTakes(d, up, name);
    forall q: Path | q != path ensures SamePath(d, e, q) {
      RemovingLeaves(d, up, name, q);
      ResolveInside(d, q);
    }
  }

  ghost predicate IsSource(plan: Plan, n: nat, q: Path) {
    exists i :: n <= i < |plan.entries| && q == SourceOf(plan, plan.entries[i])
  }

  /** An entry from `n` on is gone, unless it is left over; every other path is as it was. */
  ghost predicate PathCleaned(d: Disk, e: Disk, plan: Plan, n: nat, leftovers: seq<Path>, q: Path) {
    if IsSource(plan, n, q) && q !in leftovers then Resolve(e, q).None? else SamePath(d, e, q)
  }

  /** So it is for every path. */
  ghost predicate CleanedFrom(d: Disk, e: Disk, plan: Plan, n: nat, leftovers: seq<Path>) {
    forall once: nat {:trigger UnfoldCleaned(e, once)} :: UnfoldCleaned(e, once) ==>
      WellFormed(e) && forall q: Path :: PathCleaned(d, e, plan, n, leftovers, q)
  }

  lemma CleanedMeans(d: Disk, e: Disk, plan: Plan, n: nat, leftovers: seq<Path>, q: Path)
    requires CleanedFrom(d, e, plan, n, leftovers)
    ensures WellFormed(e) && PathCleaned(d, e, plan, n, leftovers, q)
  {
    assert UnfoldCleaned(e, 0);
  }

  lemma NothingCleaned(world: World, plan: Plan)
    requires world.Valid()
    ensures CleanedFrom(world.disk, world.disk, plan, |plan.entries|, [])
    ensures Books(world.log, |world.log|, world.deeds, |world.deeds|, plan, |plan.entries|, [])
  {
    world.Sound();
    var d := world.disk;
    forall q: Path ensures PathCleaned(d, d, plan, |plan.entries|, [], q) {
      assert !IsSource(plan, |plan.entries|, q);
    }
  }

  lemma SourceOrLater(plan: Plan, n: nat, q: Path)
    requires SoundPlan(plan) && n < |plan.entries|
    ensures !IsSource(plan, n + 1, SourceOf(plan, plan.entries[n]))
    ensures IsSource(plan, n, q) <==> q == SourceOf(plan, plan.entries[n]) || IsSource(plan, n + 1, q)
  {
    forall i | n + 1 <= i < |plan.entries| ensures SourceOf(plan, plan.entries[i]) != SourceOf(plan, plan.entries[n]) {
      TargetsDistinct(plan, i, n);
    }
  }

  /** The leftovers after one entry more. */
  function LeftAfter(leftovers: seq<Path>, t: Path, gone: bool): seq<Path> {
    if gone then leftovers else leftovers + [t]
  }

  lemma PathFurther(d: Disk, e: Disk, f: Disk, plan: Plan, n: nat, leftovers: seq<Path>, gone: bool, q: Path)
    requires SoundPlan(plan) && n < |plan.entries| && PathCleaned(d, e, plan, n + 1, leftovers, q)
    requires forall p | p in leftovers :: IsSource(plan, n + 1, p)
    requires var t := SourceOf(plan, plan.entries[n]);
             if gone then (if q == t then Resolve(f, t).None? else SamePath(e, f, q)) else f == e
    ensures PathCleaned(d, f, plan, n, LeftAfter(leftovers, SourceOf(plan, plan.entries[n]), gone), q)
  {
    SourceOrLater(plan, n, q);
  }

  lemma CleanedFurther(d: Disk, e: Disk, f: Disk, plan: Plan, n: nat, leftovers: seq<Path>, gone: bool)
    requires SoundPlan(plan) && n < |plan.entries| && CleanedFrom(d, e, plan, n + 1, leftovers)
    requires forall q | q in leftovers :: IsSource(plan, n + 1, q)
    requires if gone then RemovedFrom(e, f, SourceOf(plan, plan.entries[n])) else f == e
    ensures CleanedFrom(d, f, plan, n, LeftAfter(leftovers, SourceOf(plan, plan.entries[n]), gone))
  {
    var t := SourceOf(plan, plan.entries[n]);
    CleanedMeans(d, e, plan, n + 1, leftovers, t);
    if gone {
      RemovedPath(e, f, t);
    }
    forall q: Path ensures PathCleaned(d, f, plan, n, LeftAfter(leftovers, t, gone), q) {
      CleanedMeans(d, e, plan, n + 1, leftovers, q);
      PathFurther(d, e, f, plan, n, leftovers, gone, q);
    }
  }

  lemma ChildAfter(entries: seq<Entry>, n: nat, i: nat)
    requires Snapshot(entries) && n < |entries| && i < |entries| && entries[n].relative < entries[i].relative
    ensures n < i
  {
    PrefixBefore(entries[n].relative, entries[i].relative);
    PathsCompare(entries[n].relative, entries[i].relative);
  }

  /** The source is as in the snapshot, and every file has an equal copy. */
  ghost predicate Cleansable(d: Disk, plan: Plan) {
    forall once: nat {:trigger UnfoldCleansable(d, once)} :: UnfoldCleansable(d, once) ==>
      Listing(d, plan.source.path, plan.entries) && FilesEqual(d, plan, |plan.entries|)
  }

  lemma CleansableEntry(d: Disk, plan: Plan, n: nat)
    requires SoundPlan(plan) && Cleansable(d, plan) && n < |plan.entries|
    ensures Matches(d, plan.source.path, plan.entries[n]) && plan.entries[n].relative != []
    ensures !plan.entries[n].directory ==> View(d, SourceOf(plan, plan.entries[n])).AFile?
                                           && View(d, TargetOf(plan, plan.entries[n])) == View(d, SourceOf(plan, plan.entries[n]))
  {
    assert UnfoldCleansable(d, 0) && plan.entries[n] in plan.entries;
  }

  /** What lies in a directory of the source is listed. */
  lemma ChildListed(d: Disk, plan: Plan, p: Path) returns (i: nat)
    requires Cleansable(d, plan) && p != [] && Resolve(d, plan.source.path + p).Some?
    ensures i < |plan.entries| && plan.entries[i].relative == p
  {
    assert UnfoldCleansable(d, 0);
    var f :| f in plan.entries && f.relative == p;
    i :| 0 <= i < |plan.entries| && plan.entries[i] == f;
  }

  /** It is listed after the directory, and so it is gone. */
  lemma ChildGone(d: Disk, e: Disk, plan: Plan, n: nat, name: Name)
    requires Snapshot(plan.entries) && n < |plan.entries| && CleanedFrom(d, e, plan, n + 1, [])
    requires Resolve(d, SourceOf(plan, plan.entries[n]) + [name]).Some? ==>
               exists i :: 0 <= i < |plan.entries| && plan.entries[i].relative == plan.entries[n].relative + [name]
    ensures Resolve(e, SourceOf(plan, plan.entries[n]) + [name]).None?
  {
    var q := SourceOf(plan, plan.entries[n]) + [name];
    CleanedMeans(d, e, plan, n + 1, [], q);
    if Resolve(d, q).Some? {
      var i :| 0 <= i < |plan.entries| && plan.entries[i].relative == plan.entries[n].relative + [name];
      ChildAfter(plan.entries, n, i);
      assert SourceOf(plan, plan.entries[i]) == q;
    }
  }

  lemma DirectoryEmptied(d: Disk, e: Disk, plan: Plan, n: nat)
    requires SoundPlan(plan) && Cleansable(d, plan) && n < |plan.entries|
    requires CleanedFrom(d, e, plan, n + 1, []) && View(e, SourceOf(plan, plan.entries[n])) == ADir
    ensures Removable(e, SourceOf(plan, plan.entries[n]), true)
  {
    var t := SourceOf(plan, plan.entries[n]);
    var x := Resolve(e, t).value;
    forall name: Name ensures name !in e.nodes[x].children {
      ResolveSnoc(e, t, name);
      assert plan.source.path + (plan.entries[n].relative + [name]) == t + [name];
      if Resolve(d, t + [name]).Some? {
        var i := ChildListed(d, plan, plan.entries[n].relative + [name]);
      }
      ChildGone(d, e, plan, n, name);
    }
  }

  /** The entry itself, and its copy, are as they were. */
  lemma NextAsItWas(d: Disk, e: Disk, plan: Plan, n: nat)
    requires SoundPlan(plan) && n < |plan.entries| && CleanedFrom(d, e, plan, n + 1, [])
    ensures WellFormed(e) && SamePath(d, e, SourceOf(plan, plan.entries[n])) && SamePath(d, e, TargetOf(plan, plan.entries[n]))
  {
    var f := plan.entries[n];
    SourceOrLater(plan, n, []);
    TargetNotSource(plan, f);
    CleanedMeans(d, e, plan, n + 1, [], SourceOf(plan, f));
    CleanedMeans(d, e, plan, n + 1, [], TargetOf(plan, f));
  }

  lemma NextCleanable(d: Disk, e: Disk, plan: Plan, n: nat)
    requires SoundPlan(plan) && Cleansable(d, plan) && n < |plan.entries|
    requires CleanedFrom(d, e, plan, n + 1, [])
    ensures Cleanable(e, plan, plan.entries[n])
  {
    var f := plan.entries[n];
    CleansableEntry(d, plan, n);
    NotAlike(plan, f);
    NextAsItWas(d, e, plan, n);
    SourceStands(d, e, plan, f);
    if f.directory {
      DirectoryEmptied(d, e, plan, n);
    }
  }

  /** An entry that is as it was matches the snapshot still. */
  lemma SourceStands(d: Disk, e: Disk, plan: Plan, f: Entry)
    requires WellFormed(e) && f.relative != [] && Matches(d, plan.source.path, f) && SamePath(d, e, SourceOf(plan, f))
    ensures var source := SourceOf(plan, f);
            && View(e, source[..|source| - 1]) == ADir && Resolve(e, source).Some? && View(e, source) == View(d, source)
            && (if f.directory then View(e, source) == ADir
                else Removable(e, source, false) && PathStamp(e, source) == Some((f.size, f.modified)))
  {
    PrefixIsDirectory(e, SourceOf(plan, f), |SourceOf(plan, f)| - 1);
  }

  lemma TargetNotSource(plan: Plan, e: Entry)
    requires SoundPlan(plan)
    ensures !IsSource(plan, 0, TargetOf(plan, e)) && forall n :: !IsSource(plan, n, TargetOf(plan, e))
  {
    OverlapMeans(plan.source.path, plan.destination.path);
    assert Beneath(TargetOf(plan, e), plan.destination.path);
    forall i | 0 <= i < |plan.entries| ensures SourceOf(plan, plan.entries[i]) != TargetOf(plan, e) {
      assert Beneath(SourceOf(plan, plan.entries[i]), plan.source.path);
    }
  }

  /** One entry, and what it adds to the books. */
  method CleanNext(world: World, plan: Plan, k: nat, leftovers: seq<Path>, ghost rest: bool, ghost d: Disk, ghost a: nat, ghost u: nat)
    returns (left: seq<Path>)
    requires world.Valid() && Prepared(plan) && k < |plan.entries| && a <= |world.log| && u <= |world.deeds|
    requires Books(world.log, a, world.deeds, u, plan, k + 1, leftovers)
    requires rest ==> world.Quiet() && CleanedFrom(d, world.disk, plan, k + 1, leftovers)
    modifies world
    ensures world.Continued() && world.Untouched() && old(world.deeds) <= world.deeds
    ensures Books(world.log, a, world.deeds, u, plan, k, left)
    ensures rest ==> CleanedFrom(d, world.disk, plan, k, left)
    ensures rest && old(world.Faultless()) && Cleansable(d, plan) && leftovers == [] ==> left == []
  {
    PreparedMeans(plan);
    BooksMean(world.log, a, world.deeds, u, plan, k + 1, leftovers);
    ghost var e, log, deeds := world.disk, world.log, world.deeds;
    var entry := plan.entries[k];
    assert entry in plan.entries;
    if rest && leftovers == [] && Cleansable(d, plan) {
      NextCleanable(d, e, plan, k);
    }
    var gone := CleanOne(world, plan, entry);
    left := LeftAfter(leftovers, SourceOf(plan, entry), gone);
    AccountedMore(log, world.log, a, deeds, world.deeds, u, plan, k, leftovers, if gone then [] else [SourceOf(plan, entry)]);
    assert gone ==> leftovers + [] == leftovers;
    if rest {
      CleanedFurther(d, e, world.disk, plan, k, leftovers, gone);
    }
  }

  /**
    The cleanup, from the last entry to the first. Every entry is either removed, and a file only right after it
    was found equal to its copy, or listed as left over.
  */
  method CleanUp(world: World, plan: Plan, ghost rest: bool) returns (leftovers: seq<Path>)
    requires world.Valid() && Prepared(plan) && (rest ==> world.Quiet())
    modifies world
    ensures world.Continued() && world.Untouched() && old(world.deeds) <= world.deeds
    ensures Books(world.log, |old(world.log)|, world.deeds, |old(world.deeds)|, plan, 0, leftovers)
    ensures rest ==> CleanedFrom(old(world.disk), world.disk, plan, 0, leftovers)
    ensures rest && old(world.Faultless()) && Cleansable(old(world.disk), plan) ==> leftovers == []
  {
    ghost var a, u, d := |world.log|, |world.deeds|, world.disk;
    NothingCleaned(world, plan);
    leftovers := [];
    for k := |plan.entries| downto 0
      invariant world.Continued() && world.Untouched() && old(world.deeds) <= world.deeds
      invariant Books(world.log, a, world.deeds, u, plan, k, leftovers)
      invariant rest ==> CleanedFrom(d, world.disk, plan, k, leftovers)
      invariant rest && old(world.Faultless()) && Cleansable(d, plan) ==> leftovers == []
    {
      leftovers := CleanNext(world, plan, k, leftovers, rest, d, a, u);
    }
  }

  // ---------- the whole move ----------

  /** What the caller is told: the entries left over or, on failure, whether the rollback was incomplete. */
  datatype Outcome = Done(leftovers: seq<Path>) | Failed(incomplete: bool)

  /** Where a run that failed turned back: what it had created, how many deeds that took, and the instant at which the rollback began. */
  datatype Turn = Turn(made: seq<Creation>, deeds: nat, at: nat)

  /** The first deeds only add; those after the turn only undo what was added. */
  ghost predicate TurnedBack(log: seq<Instant>, deeds: seq<nat>, u: nat, plan: Plan, turn: Turn) {
    && u <= turn.deeds <= |deeds| && turn.at <= |log| && MadeOf(plan, turn.made)
    && AddsOnly(log, deeds[..turn.deeds], u) && OnlyUndoes(log, turn.at, deeds, turn.deeds, turn.made)
  }

  /** A run that succeeded: the instants of its commit and of the beginning of the cleanup, and how many deeds came before. */
  datatype Passage = Passage(deeds: nat, commit: nat, cleanup: nat)

  /** Before the commit the run only adds; after it, it only removes what could safely go, and accounts for every entry. */
  ghost predicate WentThrough(log: seq<Instant>, a: nat, deeds: seq<nat>, u: nat, plan: Plan, leftovers: seq<Path>, w: Passage) {
    && u <= w.deeds <= |deeds| && CommittedAt(log, a, w.commit) && w.commit < w.cleanup
    && (forall k | 0 <= k < w.deeds :: deeds[k] < w.commit) && AddsOnly(log, deeds[..w.deeds], u)
    && OnlyCleans(log, w.cleanup, deeds, w.deeds, plan)
  }

  /** On a disk at rest: every target shows what its source showed, and every source entry is gone or left over as it was. */
  ghost predicate Moved(d0: Disk, d: Disk, plan: Plan, leftovers: seq<Path>, cleanup: bool) {
    && TargetsCopied(d0, d, plan, |plan.entries|)
    && (forall i | 0 <= i < |plan.entries| :: SourceMoved(d0, d, SourceOf(plan, plan.entries[i]), leftovers, cleanup))
    && (forall q: Path :: IsSource(plan, 0, q) || IsTargetOf(plan, q) || (Resolve(d, q) == Resolve(d0, q) && View(d, q) == View(d0, q)))
  }

  ghost predicate SourceMoved(d0: Disk, d: Disk, source: Path, leftovers: seq<Path>, cleanup: bool) {
    if cleanup && source !in leftovers then Resolve(d, source).None? else Resolve(d, source) == Resolve(d0, source) && View(d, source) == View(d0, source)
  }

  ghost predicate IsTargetOf(plan: Plan, q: Path) {
    exists i :: 0 <= i < |plan.entries| && q == TargetOf(plan, plan.entries[i])
  }

  /** What was created, at rest, and nothing cleaned up. */
  lemma MadeMoved(d0: Disk, d: Disk, plan: Plan, made: seq<Creation>)
    requires SoundPlan(plan) && Undoable(d0, d, made) && MadeOf(plan, made) && TargetsCopied(d0, d, plan, |plan.entries|)
    ensures Moved(d0, d, plan, [], false)
  {
    PartlyMeans(d0, d, made, |made|);
    forall i | 0 <= i < |plan.entries| ensures SourceMoved(d0, d, SourceOf(plan, plan.entries[i]), [], false) {
      NotCreated(plan, made, SourceOf(plan, plan.entries[i]));
      assert SameAt(d0, d, SourceOf(plan, plan.entries[i]));
    }
    forall q: Path ensures IsSource(plan, 0, q) || IsTargetOf(plan, q) || (Resolve(d, q) == Resolve(d0, q) && View(d, q) == View(d0, q)) {
      if Listed(made, q) {
        var m :| m in made && m.path == q;
        var i :| 0 <= i < |made| && made[i] == m;
        assert q == TargetOf(plan, plan.entries[i]);
      } else {
        assert SameAt(d0, d, q);
      }
    }
  }

  /** And cleaned up. */
  lemma CleanedMoved(d0: Disk, d: Disk, e: Disk, plan: Plan, leftovers: seq<Path>)
    requires SoundPlan(plan) && Moved(d0, d, plan, [], false) && CleanedFrom(d, e, plan, 0, leftovers)
    ensures Moved(d0, e, plan, leftovers, true)
  {
    forall i | 0 <= i < |plan.entries| ensures View(e, TargetOf(plan, plan.entries[i])) == View(d0, SourceOf(plan, plan.entries[i])) {
      TargetNotSource(plan, plan.entries[i]);
      CleanedMeans(d, e, plan, 0, leftovers, TargetOf(plan, plan.entries[i]));
    }
    forall i | 0 <= i < |plan.entries| ensures SourceMoved(d0, e, SourceOf(plan, plan.entries[i]), leftovers, true) {
      assert IsSource(plan, 0, SourceOf(plan, plan.entries[i])) && SourceMoved(d0, d, SourceOf(plan, plan.entries[i]), [], false);
      CleanedMeans(d, e, plan, 0, leftovers, SourceOf(plan, plan.entries[i]));
    }
    forall q: Path ensures IsSource(plan, 0, q) || IsTargetOf(plan, q) || (Resolve(e, q) == Resolve(d0, q) && View(e, q) == View(d0, q)) {
      CleanedMeans(d, e, plan, 0, leftovers, q);
    }
  }

  /** The checks before anything is created. */
  method CheckMove(world: World, plan: Plan) returns (r: Result<()>)
    requires world.Valid() && Prepared(plan)
    modifies world
    ensures world.Looked()
    ensures old(world.Quiet()) && r.Ok? ==> MoveReady(world.disk, plan)
    ensures old(world.Quiet() && world.Faultless()) && MoveReady(old(world.disk), plan) ==> r.Ok?
  {
    world.Sound();
    var _ :- Revalidate(world, plan);
    r := CheckConflicts(world, plan.destination.path, plan.entries);
  }

  /** The end of a run that failed. */
  method TurnBack(world: World, plan: Plan, made: seq<Creation>, ghost rest: bool, ghost d0: Disk, ghost u: nat) returns (incomplete: bool, ghost turn: Turn)
    requires world.Valid() && Prepared(plan) && MadeOf(plan, made) && u <= |world.deeds| && AddsOnly(world.log, world.deeds, u)
    requires rest ==> world.Quiet() && Undoable(d0, world.disk, made)
    modifies world
    ensures world.Continued() && world.Untouched() && TurnedBack(world.log, world.deeds, u, plan, turn)
    ensures turn.made == made && turn.at == |old(world.log)|
    ensures rest && !incomplete ==> Restored(d0, world.disk)
    ensures rest ==> Partly(d0, world.disk, made, 0)
    ensures rest && old(world.Faultless()) && Stamped(made) ==> !incomplete
  {
    ghost var log, deeds := world.log, world.deeds;
    PreparedMeans(plan);
    forall m | m in made ensures m.path != [] {
      var i :| 0 <= i < |made| && made[i] == m;
      assert plan.entries[i] in plan.entries;
    }
    turn := Turn(made, |deeds|, |log|);
    incomplete := RollBack(world, made, rest, d0);
    AddsKept(log, world.log, deeds, u);
    assert world.deeds[..|deeds|] == deeds;
  }

  lemma ThroughKept(log: seq<Instant>, log': seq<Instant>, a: nat, deeds: seq<nat>, u: nat, plan: Plan, leftovers: seq<Path>, w: Passage)
    requires log <= log' && WentThrough(log, a, deeds, u, plan, leftovers, w)
    requires AllAccounted(log, w.cleanup, deeds, w.deeds, plan, 0, leftovers)
    ensures WentThrough(log', a, deeds, u, plan, leftovers, w)
    ensures AllAccounted(log', w.cleanup, deeds, w.deeds, plan, 0, leftovers)
  {
    AddsKept(log, log', deeds[..w.deeds], u);
    forall k | w.deeds <= k < |deeds| ensures CleanedOneOf(log', w.cleanup, deeds[k], plan) {
      assert CleanedOneOf(log, w.cleanup, deeds[k], plan);
      var e :| e in plan.entries && Cleaned(log, w.cleanup, deeds[k], plan, e);
      CleanedStays(log, log', w.cleanup, w.cleanup, deeds[k], plan, e);
    }
    forall i | 0 <= i < |plan.entries| ensures Accounted(log', w.cleanup, deeds, w.deeds, plan, plan.entries[i], leftovers) {
      AccountedStays(log, log', w.cleanup, deeds, deeds, w.deeds, plan, plan.entries[i], leftovers, []);
      assert leftovers + [] == leftovers;
    }
  }

  /** The cleanup, after the commit. */
  method CleanCommitted(world: World, plan: Plan, ghost rest: bool, ghost d0: Disk, ghost a: nat, ghost u: nat, ghost c: nat)
    returns (leftovers: seq<Path>, ghost w: Passage)
    requires world.Valid() && Prepared(plan) && u <= |world.deeds| && AddsOnly(world.log, world.deeds, u)
    requires CommittedAt(world.log, a, c) && forall k | 0 <= k < |world.deeds| :: world.deeds[k] < c
    requires rest ==> world.Quiet() && Moved(d0, world.disk, plan, [], false)
    modifies world
    ensures world.Continued() && world.Untouched()
    ensures WentThrough(world.log, a, world.deeds, u, plan, leftovers, w)
    ensures AllAccounted(world.log, w.cleanup, world.deeds, w.deeds, plan, 0, leftovers)
    ensures rest ==> Moved(d0, world.disk, plan, leftovers, true)
    ensures rest && old(world.Faultless()) && Cleansable(old(world.disk), plan) ==> leftovers == []
  {
    ghost var log, deeds, d := world.log, world.deeds, world.disk;
    PreparedMeans(plan);
    w := Passage(|deeds|, c, |log|);
    leftovers := CleanUp(world, plan, rest);
    BooksMean(world.log, |log|, world.deeds, |deeds|, plan, 0, leftovers);
    AddsKept(log, world.log, deeds, u);
    assert world.deeds[..|deeds|] == deeds;
    if rest {
      CleanedMoved(d0, d, world.disk, plan, leftovers);
    }
  }

  /** The end of a run that has committed. */
  method GoThrough(world: World, plan: Plan, ghost rest: bool, ghost d0: Disk, ghost made: seq<Creation>, ghost a: nat, ghost u: nat, ghost c: nat)
    returns (leftovers: seq<Path>, ghost w: Passage)
    requires world.Valid() && Prepared(plan) && u <= |world.deeds| && AddsOnly(world.log, world.deeds, u)
    requires CommittedAt(world.log, a, c) && forall k | 0 <= k < |world.deeds| :: world.deeds[k] < c
    requires rest ==> world.Quiet() && MoveReady(d0, plan) && Undoable(d0, world.disk, made) && MadeOf(plan, made)
                      && TargetsCopied(d0, world.disk, plan, |plan.entries|)
    modifies world
    ensures world.Continued() && world.commits == old(world.commits)
    ensures WentThrough(world.log, a, world.deeds, u, plan, leftovers, w)
    ensures AllAccounted(world.log, w.cleanup, world.deeds, w.deeds, plan, 0, leftovers)
    ensures rest ==> Moved(d0, world.disk, plan, leftovers, true)
    ensures rest && old(world.Faultless()) ==> leftovers == []
  {
    PreparedMeans(plan);
    if rest {
      MadeVerifiable(d0, world.disk, plan, made);
      MadeMoved(d0, world.disk, plan, made);
    }
    leftovers, w := CleanCommitted(world, plan, rest, d0, a, u, c);
    ghost var log := world.log;
    var _ := world.Report(plan.bytes, plan.bytes);
    ThroughKept(log, world.log, a, world.deeds, u, plan, leftovers, w);
  }

  /**
    `execute_with_cleanup`, for any interference: before the commit it only adds; if it fails it undoes only what
    it added; and only after the commit does it remove anything else. At rest, a failure whose rollback is complete
    leaves every path as it was, and a success is a move; and if no call fails it succeeds exactly when the source
    is still as in the snapshot and nothing stands in the way.
  */
  method Execute(world: World, plan: Plan, cleanup: bool, ghost rest: bool) returns (r: Outcome, ghost turn: Turn, ghost w: Passage)
    requires world.Valid() && Prepared(plan) && (rest ==> world.Quiet())
    modifies world
    ensures world.Continued() && old(world.commits) <= world.commits <= old(world.commits) + 1
    ensures r.Done? ==> world.commits == old(world.commits) + 1
    ensures r.Done? ==> WentThrough(world.log, |old(world.log)|, world.deeds, |old(world.deeds)|, plan, r.leftovers, w)
    ensures r.Done? && cleanup ==> AllAccounted(world.log, w.cleanup, world.deeds, w.deeds, plan, 0, r.leftovers)
    ensures r.Done? && !cleanup ==> r.leftovers == [] && w.deeds == |world.deeds|
    ensures r.Failed? ==> TurnedBack(world.log, world.deeds, |old(world.deeds)|, plan, turn)
    ensures rest && r.Done? ==> MoveReady(old(world.disk), plan) && Moved(old(world.disk), world.disk, plan, r.leftovers, cleanup)
    ensures rest && r.Failed? ==> Partly(old(world.disk), world.disk, turn.made, 0)
    ensures rest && r.Failed? && !r.incomplete ==> Restored(old(world.disk), world.disk)
    ensures rest && r.Failed? && Stamped(turn.made) && (forall n | turn.at <= n :: !world.fails(n)) ==> !r.incomplete
    ensures rest && old(world.Faultless()) ==> (r.Done? <==> MoveReady(old(world.disk), plan)) && (r.Done? ==> r.leftovers == [])
  {
    world.Sound();
    ghost var a, u, d0 := |world.log|, |world.deeds|, world.disk;
    turn, w := Turn([], u, a), Passage(u, 0, 0);
    AddedNothing(world, u);
    assert world.deeds[..u] == world.deeds;
    if rest {
      NothingMade(d0);
    }
    var checked := CheckMove(world, plan);
    AddedNothing(world, u);
    if checked.Err? {
      return Failed(false), turn, w;
    }
    var committed, made;
    ghost var c;
    committed, made, c := MakeAndCommit(world, plan, rest);
    if committed.Err? {
      var incomplete;
      incomplete, turn := TurnBack(world, plan, made, rest, d0, u);
      return Failed(incomplete), turn, w;
    }
    if !cleanup {
      w := Passage(|world.deeds|, c, c + 1);
      assert world.deeds[..|world.deeds|] == world.deeds;
      if rest {
        PreparedMeans(plan);
        MadeMoved(d0, world.disk, plan, made);
      }
      return Done([]), turn, w;
    }
    var leftovers;
    leftovers, w := GoThrough(world, plan, rest, d0, made, a, u, c);
    return Done(leftovers), turn, w;
  }
}
