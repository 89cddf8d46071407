/** What a migration makes of a disk at rest: the old contents overlaid by the source trees. */
module Overlays {
  import opened Outcomes
  import opened Disks
  import opened Worlds
  import opened Effects
  import opened Retained
  import opened Scans
  import opened Plans
  import opened Paths
  import opened Checks
  import opened Preparing
  import opened Staging
  import opened Copying
  import opened Entries

  function Target(plan: Plan, h: Held): Path {
    plan.destination.path + h.entry.relative
  }

  // ---------- one path ----------

  ghost predicate Planned(d0: Disk, d: Disk, plans: seq<Plan>, q: Path) {
    OneLink(d, q) && exists plan, h :: plan in plans && h in plan.held && q == Target(plan, h) && View(d, q) == Wanted(d0, h)
  }

  /** If a file stands there, it has no second link. */
  ghost predicate OneLink(d: Disk, q: Path) {
    View(d, q).AFile? ==> d.nodes[Resolve(d, q).value].Regular()
  }

  /** A staging file left beneath a destination, where nothing was before. */
  ghost predicate Leftover(d0: Disk, d: Disk, plans: seq<Plan>, q: Path) {
    && (exists plan :: plan in plans && plan.destination.path < q) && q != [] && IsStaging(q[|q| - 1])
    && View(d0, q) == Absent && View(d, q).AFile?
  }

  /** Partway through, every path has what it had, or what is planned for it, or is a new staging file. */
  ghost predicate Midway(d0: Disk, d: Disk, plans: seq<Plan>) {
    forall q: Path :: SameAt(d0, d, q) || Planned(d0, d, plans, q) || Leftover(d0, d, plans, q)
  }

  /** The old contents overlaid by the first `n` entries, and nothing else. */
  ghost predicate Laid(d0: Disk, d: Disk, plan: Plan, n: nat)
    requires n <= |plan.held|
  {
    && WellFormed(d)
    && (forall i | 0 <= i < n :: View(d, Target(plan, plan.held[i])) == Wanted(d0, plan.held[i]) && OneLink(d, Target(plan, plan.held[i])))
    && (forall q: Path :: (exists i :: 0 <= i < n && q == Target(plan, plan.held[i])) || SameAt(d0, d, q))
  }

  ghost predicate IsTarget(plans: seq<Plan>, q: Path) {
    exists plan, h :: plan in plans && h in plan.held && q == Target(plan, h)
  }

  /** Nothing changed but targets. */
  ghost predicate OnlyTargets(d0: Disk, d: Disk, plans: seq<Plan>) {
    forall q: Path :: SameAt(d0, d, q) || IsTarget(plans, q)
  }

  /** The old contents overlaid by all source trees, and nothing else. */
  ghost predicate Overlaid(d0: Disk, d: Disk, plans: seq<Plan>) {
    && OnlyTargets(d0, d, plans)
    && forall plan, h | plan in plans && h in plan.held :: View(d, Target(plan, h)) == Wanted(d0, h)
  }

  // ---------- beside the destination nothing changes ----------

  /** The disk differs from `d` at one path only. */
  ghost predicate OnlyAt(d: Disk, e: Disk, path: Path) {
    forall q: Path | q != path :: SameAt(d, e, q)
  }

  lemma OnlyAtOn(d: Disk, e: Disk, f: Disk, path: Path)
    requires OnlyAt(d, e, path) && OnlyAt(e, f, path)
    ensures OnlyAt(d, f, path)
  {
    forall q: Path | q != path ensures SameAt(d, f, q) {
      SameAtOn(d, e, f, q);
    }
  }

  ghost predicate Beside(d: Disk, e: Disk, root: Path) {
    forall q: Path :: root < q || SameAt(d, e, q)
  }

  lemma EntriesGoDown(plan: Plan, h: Held)
    requires Shaped(plan) && h in plan.held
    ensures h.entry.relative != [] && plan.destination.path < Target(plan, h)
  {
    var i :| 0 <= i < |plan.held| && plan.held[i] == h;
    assert plan.entries[i] in plan.entries;
  }

  lemma LaidBeside(d: Disk, e: Disk, plan: Plan, n: nat)
    requires Shaped(plan) && n <= |plan.held| && Laid(d, e, plan, n)
    ensures Beside(d, e, plan.destination.path)
  {
    forall q: Path ensures plan.destination.path < q || SameAt(d, e, q) {
      if i :| 0 <= i < n && q == Target(plan, plan.held[i]) {
        EntriesGoDown(plan, plan.held[i]);
      }
    }
  }

  lemma ChainBeside(d: Disk, e: Disk, root: Path, dir: Directory)
    requires Beside(d, e, root) && ChainHolds(d, dir) && !(root < dir.path)
    ensures ChainHolds(e, dir)
  {
    forall k | 0 <= k <= |dir.path| ensures Resolve(e, dir.path[..k]) == Some(dir.chain[k]) {
      assert root < dir.path[..k] ==> root < dir.path;
      assert SameAt(d, e, dir.path[..k]);
    }
    assert SameAt(d, e, dir.path);
  }

  /** A path beneath a root that does not overlap lies beside. */
  lemma ApartBeside(root: Path, other: Path, p: Path)
    requires !Overlaps(root, other)
    ensures !(root < other + p)
  {
    OverlapMeans(root, other);
    assert Beneath(other + p, root) ==> !Beneath(other + p, other);
    assert Beneath(other + p, other);
  }

  lemma MetaBeside(d: Disk, e: Disk, q: Path)
    requires WellFormed(d) && SameAt(d, e, q)
    ensures MetaAt(e, q) == MetaAt(d, q) && View(e, q) == View(d, q) && Resolve(e, q) == Resolve(d, q)
    ensures Resolve(d, q).Some? ==> Resolve(d, q).value in d.nodes && Resolve(d, q).value in e.nodes
                                    && SameNode(d.nodes[Resolve(d, q).value], e.nodes[Resolve(d, q).value])
  {
    ResolveInside(d, q);
  }

  lemma ListingBeside(d: Disk, e: Disk, root: Path, other: Path, entries: seq<Entry>)
    requires WellFormed(d) && Beside(d, e, root) && !Overlaps(root, other) && Listing(d, other, entries)
    ensures Listing(e, other, entries)
  {
    forall p: Path ensures SameAt(d, e, other + p) {
      ApartBeside(root, other, p);
    }
    assert other + [] == other;
    forall f | f in entries ensures Matches(e, other, f) {
      assert Matches(d, other, f);
      MetaBeside(d, e, other + f.relative);
    }
    forall p: Path | p != [] && Resolve(e, other + p).Some?
      ensures exists f :: f in entries && f.relative == p
    {
      assert SameAt(d, e, other + p);
    }
  }

  /** Changes beneath a root that does not overlap the source leave the source as recorded. */
  lemma SourceBeside(d: Disk, e: Disk, root: Path, plan: Plan)
    requires WellFormed(d) && Beside(d, e, root) && SourceHolds(d, plan)
    requires !Overlaps(root, plan.source.path) && !(root < plan.destination.path)
    ensures SourceHolds(e, plan)
    ensures forall h | h in plan.held :: Wanted(e, h) == Wanted(d, h)
  {
    var other := plan.source.path;
    ChainBeside(d, e, root, plan.destination);
    ApartBeside(root, other, []);
    assert other + [] == other;
    ChainBeside(d, e, root, plan.source);
    ListingBeside(d, e, root, other, plan.entries);
    forall h | h in plan.held
      ensures EntryHolds(e, other, h) && StampHolds(e, h) && Wanted(e, h) == Wanted(d, h)
    {
      assert EntryHolds(d, other, h) && StampHolds(d, h);
      ApartBeside(root, other, h.entry.relative);
      MetaBeside(d, e, other + h.entry.relative);
    }
  }

  lemma FitsBeside(d: Disk, e: Disk, t: Path, directory: bool)
    requires WellFormed(d) && SameAt(d, e, t)
    ensures TargetFits(d, t, directory) ==> TargetFits(e, t, directory)
  {
    ResolveInside(d, t);
  }

  lemma CompatibleBeside(d: Disk, e: Disk, root: Path, other: Path, entries: seq<Entry>)
    requires WellFormed(d) && Beside(d, e, root) && !Overlaps(root, other) && Compatible(d, other, entries)
    ensures Compatible(e, other, entries)
  {
    forall f | f in entries ensures Fits(e, other, f) {
      assert Fits(d, other, f);
      forall k | 0 < k < |f.relative| ensures View(e, other + f.relative[..k]) in {Absent, ADir} {
        ApartBeside(root, other, f.relative[..k]);
        assert SameAt(d, e, other + f.relative[..k]);
      }
      ApartBeside(root, other, f.relative);
      FitsBeside(d, e, other + f.relative, f.directory);
    }
  }

  // ---------- one entry further ----------

  lemma TargetsDiffer(plan: Plan, i: nat, j: nat)
    requires Shaped(plan) && i < |plan.held| && j < |plan.held| && i != j
    ensures Target(plan, plan.held[i]) != Target(plan, plan.held[j])
  {
    SnapshotDistinct(plan.entries);
    var root := plan.destination.path;
    assert Target(plan, plan.held[i])[|root|..] == plan.entries[i].relative;
    assert Target(plan, plan.held[j])[|root|..] == plan.entries[j].relative;
  }

  /** One more entry in place. */
  lemma LaidMore(d0: Disk, d: Disk, e: Disk, plan: Plan, n: nat, x: Ino)
    requires Shaped(plan) && n < |plan.held| && Laid(d0, d, plan, n)
    requires Placed(d, e, Target(plan, plan.held[n]), x, Wanted(d0, plan.held[n]))
    ensures Laid(d0, e, plan, n + 1)
  {
    var t := Target(plan, plan.held[n]);
    forall i | 0 <= i < n + 1 ensures View(e, Target(plan, plan.held[i])) == Wanted(d0, plan.held[i]) && OneLink(e, Target(plan, plan.held[i])) {
      if i < n {
        TargetsDiffer(plan, i, n);
        assert SameAt(d, e, Target(plan, plan.held[i]));
      }
    }
    forall q: Path ensures (exists i :: 0 <= i < n + 1 && q == Target(plan, plan.held[i])) || SameAt(d0, e, q) {
      if q != t && SameAt(d0, d, q) {
        assert SameAt(d, e, q);
        SameAtOn(d0, d, e, q);
      }
    }
  }

  lemma LaidMidway(d0: Disk, d: Disk, plan: Plan, n: nat)
    requires n <= |plan.held| && Laid(d0, d, plan, n)
    ensures Midway(d0, d, [plan])
  {
    forall q: Path ensures SameAt(d0, d, q) || Planned(d0, d, [plan], q) {
      if i :| 0 <= i < n && q == Target(plan, plan.held[i]) {
        assert plan in [plan] && plan.held[i] in plan.held;
      }
    }
  }

  /** A staged copy beside what is already in place. */
  lemma StagedMidway(d0: Disk, d: Disk, e: Disk, plan: Plan, n: nat, p: Path, tmp: Name, x: Ino)
    requires n <= |plan.held| && Laid(d0, d, plan, n) && IsStaging(tmp) && Staged(d, e, p, tmp, x) && plan.destination.path <= p
    requires forall h | h in plan.held :: Wanted(d0, h) != Absent
    ensures Midway(d0, e, [plan])
  {
    StagedMeans(d, e, p, tmp, x);
    LaidMidway(d0, d, plan, n);
    var t := p + [tmp];
    forall q: Path ensures SameAt(d0, e, q) || Planned(d0, e, [plan], q) || Leftover(d0, e, [plan], q) {
      if q == t {
        assert SameAt(d0, d, t);
        assert plan in [plan] && plan.destination.path < t;
        assert Leftover(d0, e, [plan], t);
      } else {
        UnchangedPath(d0, d, e, [plan], q);
      }
    }
  }

  /** A step that leaves a path alone leaves its state. */
  lemma UnchangedPath(d0: Disk, d: Disk, e: Disk, plans: seq<Plan>, q: Path)
    requires SameAt(d, e, q) && (SameAt(d0, d, q) || Planned(d0, d, plans, q) || Leftover(d0, d, plans, q))
    ensures SameAt(d0, e, q) || Planned(d0, e, plans, q) || Leftover(d0, e, plans, q)
  {
    if SameAt(d0, d, q) {
      SameAtOn(d0, d, e, q);
    } else if Planned(d0, d, plans, q) {
      var plan, h :| plan in plans && h in plan.held && q == Target(plan, h) && View(d, q) == Wanted(d0, h);
      assert View(e, q) == Wanted(d0, h);
    }
  }

  /** The finished copy beside what is already in place. */
  lemma PlacedMidway(d0: Disk, d: Disk, e: Disk, plan: Plan, n: nat, x: Ino)
    requires Shaped(plan) && n < |plan.held| && Laid(d0, d, plan, n) && Placed(d, e, Target(plan, plan.held[n]), x, Wanted(d0, plan.held[n]))
    ensures Midway(d0, e, [plan])
  {
    LaidMore(d0, d, e, plan, n, x);
    LaidMidway(d0, e, plan, n + 1);
  }

  lemma EntryMidway(d0: Disk, d: Disk, e: Disk, plan: Plan, n: nat)
    requires Shaped(plan) && n < |plan.held| && Laid(d0, d, plan, n) && plan.held[n].entry.relative != []
    requires forall h | h in plan.held :: Wanted(d0, h) != Absent
    requires var h := plan.held[n];
             EntryStep(d, e, plan.destination.path + Scans.Parent(h.entry.relative), NameOf(h), Wanted(d0, h))
    ensures Midway(d0, e, [plan])
  {
    var h := plan.held[n];
    var p := plan.destination.path + Scans.Parent(h.entry.relative);
    assert p + [NameOf(h)] == Target(plan, h);
    if tmp, x :| IsStaging(tmp) && Staged(d, e, p, tmp, x) {
      StagedMidway(d0, d, e, plan, n, p, tmp, x);
    } else {
      var x :| Placed(d, e, p + [NameOf(h)], x, Wanted(d0, h));
      PlacedMidway(d0, d, e, plan, n, x);
    }
  }

  // ---------- the records of the outputs ----------

  ghost predicate OutputHolds(d: Disk, root: Path, out: Held) {
    EntryHolds(d, root, out) && StampHolds(d, out)
  }

  lemma OutputsKept(d: Disk, e: Disk, plan: Plan, outputs: seq<Held>, n: nat, x: Ino, seen: Seen)
    requires WellFormed(d) && Shaped(plan) && n < |plan.held| && |outputs| == n
    requires forall i | 0 <= i < n :: outputs[i].entry == plan.held[i].entry && OutputHolds(d, plan.destination.path, outputs[i])
    requires Placed(d, e, Target(plan, plan.held[n]), x, seen)
    ensures forall i | 0 <= i < n :: OutputHolds(e, plan.destination.path, outputs[i])
  {
    forall i | 0 <= i < n ensures OutputHolds(e, plan.destination.path, outputs[i]) {
      TargetsDiffer(plan, i, n);
      MetaBeside(d, e, Target(plan, plan.held[i]));
    }
  }

  // ---------- one plan further ----------

  /** A source that is as recorded, then and now, has the same contents then and now. */
  lemma WantedSame(d0: Disk, d: Disk, plan: Plan)
    requires WellFormed(d0) && Grows(d0, d) && SourceHolds(d0, plan) && SourceHolds(d, plan)
    ensures forall h | h in plan.held :: Wanted(d, h) == Wanted(d0, h) && Wanted(d, h) != Absent
  {
    forall h | h in plan.held ensures Wanted(d, h) == Wanted(d0, h) && Wanted(d, h) != Absent {
      assert EntryHolds(d0, plan.source.path, h) && StampHolds(d0, h) && EntryHolds(d, plan.source.path, h) && StampHolds(d, h);
      if !h.entry.directory {
        SameStampSameFile(d0, d, h.ino);
      }
    }
  }

  /** A staging file that was not there yet was not there before. */
  lemma LeftoverOnwards(d0: Disk, d: Disk, e: Disk, plan: Plan, plans: seq<Plan>, q: Path)
    requires Leftover(d, e, [plan], q) && plan in plans && (SameAt(d0, d, q) || Planned(d0, d, plans, q) || Leftover(d0, d, plans, q))
    requires forall p, h | p in plans && h in p.held :: Wanted(d0, h) != Absent
    ensures Leftover(d0, e, plans, q)
  {
    forall p, h | p in plans && h in p.held && q == Target(p, h) ensures View(d, q) != Wanted(d0, h) {
      assert Wanted(d0, h) != Absent;
    }
    assert !Planned(d0, d, plans, q) && !Leftover(d0, d, plans, q);
  }

  lemma MidwayOnwards(d0: Disk, d: Disk, e: Disk, plan: Plan, plans: seq<Plan>)
    requires Midway(d0, d, plans) && Midway(d, e, [plan]) && plan in plans
    requires forall p, h | p in plans && h in p.held :: Wanted(d0, h) != Absent
    requires forall h | h in plan.held :: Wanted(d, h) == Wanted(d0, h)
    ensures Midway(d0, e, plans)
  {
    forall q: Path ensures SameAt(d0, e, q) || Planned(d0, e, plans, q) || Leftover(d0, e, plans, q) {
      if SameAt(d, e, q) {
        UnchangedPath(d0, d, e, plans, q);
      } else if Planned(d, e, [plan], q) {
        var h :| h in plan.held && q == Target(plan, h) && View(e, q) == Wanted(d, h);
      } else {
        LeftoverOnwards(d0, d, e, plan, plans, q);
      }
    }
  }

  lemma OnlyTargetsOnwards(d0: Disk, d: Disk, e: Disk, plan: Plan, plans: seq<Plan>)
    requires OnlyTargets(d0, d, plans) && Laid(d, e, plan, |plan.held|) && plan in plans
    ensures OnlyTargets(d0, e, plans)
  {
    forall q: Path ensures SameAt(d0, e, q) || IsTarget(plans, q) {
      if SameAt(d0, d, q) && SameAt(d, e, q) {
        SameAtOn(d0, d, e, q);
      } else if !SameAt(d, e, q) {
        var i :| 0 <= i < |plan.held| && q == Target(plan, plan.held[i]);
        assert plan.held[i] in plan.held;
      }
    }
  }
}
