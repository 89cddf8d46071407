/** Copying one entry, and all entries of a plan with a report, `copy_files`. */
module Entries {
  import opened Outcomes
  import opened Disks
  import opened Worlds
  import opened Effects
  import opened Retained
  import opened Scans
  import opened Plans
  import opened Checks
  import opened Preparing
  import opened Publishing
  import opened Meters
  import opened Staging
  import opened Copying

  function NameOf(h: Held): Name
    requires h.entry.relative != []
  {
    h.entry.relative[|h.entry.relative| - 1]
  }

  /** A file that was opened is a file for good. */
  lemma OpenedIsFile(world: World, a: nat, root: Directory, held: seq<Held>, h: Held)
    requires world.Valid() && root.Shaped() && HeldSeen(world.log, a, root, held, h) && !h.entry.directory
    ensures IsFile(world.disk, h.ino)
  {
    var i :| a <= i < |world.log| && h.ino in world.log[i].after.nodes && world.log[i].after.nodes[h.ino].Regular();
    Properly(world.log, world.deeds, world.horizon, world.environment);
    KindStays(world.log, world.horizon, i, |world.log| - 1, h.ino);
  }

  /** Mentioning this unfolds `SeenDirectory`, which is kept folded elsewhere to keep proofs small. */
  ghost predicate UnfoldSeen(dir: Directory, once: nat) {
    true
  }

  /** The directory is the one the entry goes to, and was seen in its place from instant `a` on. */
  ghost predicate SeenDirectory(log: seq<Instant>, a: nat, plan: Plan, outputs: seq<Held>, h: Held, dir: Directory) {
    forall once: nat {:trigger UnfoldSeen(dir, once)} :: UnfoldSeen(dir, once) ==>
      && plan.destination.Shaped() && h.entry.relative != [] && dir == TargetDirectory(plan, outputs, h)
      && HandleOf(plan.destination, outputs, Scans.Parent(h.entry.relative)) == Some(dir.Handle()) && ChainSeen(log, a, dir)
  }

  lemma SeenStays(log: seq<Instant>, log': seq<Instant>, a: nat, b: nat, plan: Plan, outputs: seq<Held>, h: Held, dir: Directory)
    requires log <= log' && a <= b && SeenDirectory(log, b, plan, outputs, h, dir)
    ensures SeenDirectory(log', a, plan, outputs, h, dir)
  {
    assert UnfoldSeen(dir, 0);
    ChainStays(log, log', a, b, dir);
  }

  lemma SeenPlanned(log: seq<Instant>, a: nat, plans: seq<Plan>, plan: Plan, outputs: seq<Held>, h: Held, dir: Directory)
    requires plan in plans && h in plan.held && h.entry.relative != [] && SeenDirectory(log, a, plan, outputs, h, dir)
    ensures dir.Shaped() && PlannedAt(plans, plan, outputs, h, dir, NameOf(h)) && ChainSeen(log, a, dir)
  {
    assert UnfoldSeen(dir, 0);
  }

  /** The directory the copy goes to, checked from the root of the disk on. */
  method OpenTargetDirectory(world: World, plan: Plan, outputs: seq<Held>, h: Held, ghost rest: bool) returns (r: Result<Directory>)
    requires world.Valid() && plan.destination.Shaped() && h.entry.relative != []
    requires rest ==> world.Quiet() && ChainHolds(world.disk, plan.destination)
    modifies world
    ensures world.Looked()
    ensures r.Ok? ==> r.value.Shaped() && r.value.path == plan.destination.path + Scans.Parent(h.entry.relative)
    ensures r.Ok? ==> SeenDirectory(world.log, |old(world.log)|, plan, outputs, h, r.value)
    ensures rest && r.Ok? ==> ChainHolds(world.disk, r.value)
    ensures rest && old(world.Faultless()) && WayHolds(old(world.disk), plan.destination, outputs, h.entry.relative) ==> r.Ok?
  {
    ghost var d := world.disk;
    var p := h.entry.relative;
    var parent :- OpenParent(world, plan.destination, outputs, p);
    if rest {
      world.AtRest();
      WayAtRest(world.log, |old(world.log)|, plan.destination, outputs, p, d);
      forall k | 0 < k <= |Scans.Parent(p)| ensures Scans.Parent(p)[..k] == p[..k] {
      }
      PinnedHolds(d, plan.destination, outputs, Scans.Parent(p));
    }
    ghost var v := |world.log|;
    var _ :- Verify(world, parent);
    ChainStays(world.log, world.log, |old(world.log)|, v, parent);
    return Ok(parent);
  }

  /** On a disk at rest, the entry is as recorded, and its target can take it. */
  ghost predicate EntryReady(d: Disk, plan: Plan, outputs: seq<Held>, h: Held, serial: nat)
    requires plan.source.Shaped() && h.entry.relative != []
  {
    && Reachable(d, plan.source, plan.held, h) && StampHolds(d, h) && WayHolds(d, plan.destination, outputs, h.entry.relative)
    && TargetFits(d, plan.destination.path + h.entry.relative, h.entry.directory)
    && (!h.entry.directory ==> h.stamp.Some? && h.stamp.value.size <= h.entry.size && !FreshName(NameOf(h), serial))
  }

  lemma ReadyTarget(d: Disk, plan: Plan, h: Held, parent: Directory)
    requires WellFormed(d) && h.entry.relative != [] && parent.path == plan.destination.path + Scans.Parent(h.entry.relative)
    requires ChainHolds(d, parent)
    ensures parent.path + [NameOf(h)] == plan.destination.path + h.entry.relative
    ensures TargetFits(d, plan.destination.path + h.entry.relative, h.entry.directory)
            <==> ChildOf(d, parent.Handle(), NameOf(h), h.entry.directory) != Err(Other)
  {
    assert parent.path + [NameOf(h)] == plan.destination.path + h.entry.relative;
    assert parent.path[..|parent.path|] == parent.path;
    ResolveSnoc(d, parent.path, NameOf(h));
    ResolveInside(d, plan.destination.path + h.entry.relative);
  }

  /** The body of the copy, once input and target directory are open. */
  method CopyInto(world: World, h: Held, parent: Directory, meter: Meter, done: nat, ghost plans: seq<Plan>, ghost plan: Plan, ghost outputs: seq<Held>,
                  ghost v: nat, ghost start: nat, ghost last: nat, ghost rest: bool)
    returns (r: Result<Ino>, done': nat)
    requires world.Valid() && meter.Sane() && parent.Shaped() && h.entry.relative != [] && PlannedAt(plans, plan, outputs, h, parent, NameOf(h))
    requires ChainSeen(world.log, v, parent) && Latest(world.deeds, v)
    requires !h.entry.directory ==> IsFile(world.disk, h.ino)
    requires Told(world.reported, start, meter, last, done)
    requires rest ==> world.Quiet() && ChainHolds(world.disk, parent)
    modifies world
    ensures world.Advanced() && Careful(world.log, |old(world.log)|, world.deeds, |old(world.deeds)|, plans)
    ensures Bounded(world.reported, start, meter)
    ensures r.Ok? ==> OutputFrom(world.log, |old(world.log)|, world.deeds, |old(world.deeds)|, plans, plan, outputs, h, r.value)
    ensures r.Ok? ==> StampFits(h) && done' == done + StampSize(h) && Told(world.reported, start, meter, last, done')
    ensures rest ==> EntrySteps(world.log, world.deeds, |old(world.deeds)|, old(world.disk), parent.path, NameOf(h), Wanted(old(world.disk), h))
    ensures rest && r.Ok? ==> Placed(old(world.disk), world.disk, parent.path + [NameOf(h)], r.value, Wanted(old(world.disk), h))
    ensures rest && old(world.Faultless()) && Takes(old(world.disk), h, parent, old(world.serial)) ==> r.Ok?
  {
    if h.entry.directory {
      done' := done;
      ToldBounded(world.reported, start, meter, last, done);
      r := CopyDirectory(world, h, parent, NameOf(h), plans, plan, outputs, v, rest);
    } else {
      r, done' := PlaceCopy(world, h, parent, NameOf(h), meter, done, plans, plan, outputs, start, last, rest);
    }
  }

  /** A file that was copied was no longer, when it was captured, than when it was listed. */
  predicate StampFits(h: Held) {
    !h.entry.directory ==> h.stamp.Some? && h.stamp.value.size <= h.entry.size
  }

  function StampSize(h: Held): nat {
    if h.entry.directory || h.stamp.None? then 0 else h.stamp.value.size
  }

  ghost predicate Takes(d: Disk, h: Held, parent: Directory, serial: nat)
    requires parent.Shaped() && h.entry.relative != []
  {
    if h.entry.directory then ChildOf(d, parent.Handle(), NameOf(h), true) != Err(Other)
    else Copyable(d, h, parent, NameOf(h), serial)
  }

  /** Opens the input. */
  method OpenInput(world: World, plan: Plan, h: Held) returns (r: Result<()>)
    requires world.Valid() && plan.source.Shaped() && h.entry.relative != []
    modifies world
    ensures world.Looked()
    ensures r.Ok? && !h.entry.directory ==> IsFile(world.disk, h.ino)
    ensures old(world.Quiet() && world.Faultless()) && Reachable(old(world.disk), plan.source, plan.held, h) ==> r.Ok?
  {
    ghost var a := |world.log|;
    r := OpenEntry(world, plan.source, plan.held, h);
    if r.Ok? && !h.entry.directory {
      OpenedIsFile(world, a, plan.source, plan.held, h);
    }
  }

  /** Opens the input and the directory of the target. */
  method OpenEnds(world: World, plan: Plan, outputs: seq<Held>, h: Held, ghost rest: bool) returns (r: Result<Directory>)
    requires world.Valid() && plan.source.Shaped() && plan.destination.Shaped() && h.entry.relative != []
    requires rest ==> world.Quiet() && ChainHolds(world.disk, plan.destination)
    modifies world
    ensures world.Looked()
    ensures r.Ok? ==> r.value.Shaped() && r.value.path == plan.destination.path + Scans.Parent(h.entry.relative)
    ensures r.Ok? ==> SeenDirectory(world.log, |old(world.log)|, plan, outputs, h, r.value)
    ensures r.Ok? && !h.entry.directory ==> IsFile(world.disk, h.ino)
    ensures rest && r.Ok? ==> ChainHolds(world.disk, r.value)
    ensures rest && old(world.Faultless()) ==>
              Reachable(old(world.disk), plan.source, plan.held, h) && WayHolds(old(world.disk), plan.destination, outputs, h.entry.relative) ==> r.Ok?
  {
    var _ :- OpenInput(world, plan, h);
    ghost var k := |world.log| - 1;
    r := OpenTargetDirectory(world, plan, outputs, h, rest);
    if r.Ok? {
      SeenStays(world.log, world.log, |old(world.log)|, k + 1, plan, outputs, h, r.value);
    }
    if !h.entry.directory {
      world.Unchanged(k, k, h.ino);
    }
  }

  /** Flushes the directory and records what now stands at the target. */
  method RecordOutput(world: World, entry: Entry, output: Ino) returns (r: Result<Held>)
    requires world.Valid()
    modifies world
    ensures world.Looked()
    ensures r.Ok? ==> r.value.entry == entry && r.value.ino == output && (r.value.stamp.Some? <==> !entry.directory)
    ensures old(world.Quiet()) && r.Ok? ==> StampHolds(world.disk, r.value)
    ensures old(world.Quiet() && world.Faultless()) && output in old(world.disk).nodes ==> r.Ok?
  {
    var _ :- world.Sync();
    if entry.directory {
      return Ok(Held(entry, output, None));
    }
    var stamp :- world.Stat(output);
    return Ok(Held(entry, output, Some(stamp)));
  }

  lemma CareFrom(log: seq<Instant>, a: nat, a': nat, deeds: seq<nat>, u: nat, plans: seq<Plan>)
    requires a <= a' && Careful(log, a', deeds, u, plans)
    ensures Careful(log, a, deeds, u, plans)
  {
    CarefulMeans(log, a', deeds, u, plans);
    forall k | u <= k < |deeds| ensures DeedOk(log, a, deeds, u, k, plans) {
      CareStays(log, a', deeds, u, plans, log, a, deeds, u, plans, k);
    }
  }

  ghost predicate EntryStepsAt(log: seq<Instant>, deeds: seq<nat>, u: nat, d: Disk, plan: Plan, h: Held)
    requires h.entry.relative != []
  {
    EntrySteps(log, deeds, u, d, plan.destination.path + Scans.Parent(h.entry.relative), NameOf(h), Wanted(d, h))
  }

  lemma StepsKept(log: seq<Instant>, log': seq<Instant>, deeds: seq<nat>, u: nat, d: Disk, plan: Plan, h: Held)
    requires h.entry.relative != [] && log <= log' && EntryStepsAt(log, deeds, u, d, plan, h)
    ensures EntryStepsAt(log', deeds, u, d, plan, h)
  {
  }

  /** The closure in `copy_files`: one entry, with its record for the final verification. */
  method CopyEntry(world: World, plan: Plan, outputs: seq<Held>, h: Held, meter: Meter, done: nat, ghost plans: seq<Plan>, ghost start: nat,
                   ghost last: nat, ghost rest: bool)
    returns (r: Result<Held>, done': nat)
    requires world.Valid() && meter.Sane() && plan.source.Shaped() && plan.destination.Shaped()
    requires plan in plans && h in plan.held && h.entry.relative != []
    requires Told(world.reported, start, meter, last, done)
    requires rest ==> world.Quiet() && ChainHolds(world.disk, plan.destination)
    modifies world
    ensures world.Advanced() && Careful(world.log, |old(world.log)|, world.deeds, |old(world.deeds)|, plans)
    ensures Bounded(world.reported, start, meter)
    ensures r.Ok? ==> r.value.entry == h.entry && (r.value.stamp.Some? <==> !h.entry.directory)
    ensures r.Ok? ==> OutputFrom(world.log, |old(world.log)|, world.deeds, |old(world.deeds)|, plans, plan, outputs, h, r.value.ino)
    ensures r.Ok? ==> StampFits(h) && done' == done + StampSize(h) && Told(world.reported, start, meter, last, done')
    ensures rest ==> EntryStepsAt(world.log, world.deeds, |old(world.deeds)|, old(world.disk), plan, h)
    ensures rest && r.Ok? ==> StampHolds(world.disk, r.value)
                              && Placed(old(world.disk), world.disk, plan.destination.path + h.entry.relative, r.value.ino, Wanted(old(world.disk), h))
    ensures rest && old(world.Faultless()) && EntryReady(old(world.disk), plan, outputs, h, old(world.serial)) ==> r.Ok?
  {
    world.Sound();
    ghost var a, u, d := |world.log|, |world.deeds|, world.disk;
    ToldBounded(world.reported, start, meter, last, done);
    InLogHolds(world);
    var parent := OpenEnds(world, plan, outputs, h, rest);
    if parent.Err? {
      NoDeeds(world, a, u, plans);
      return Err(parent.fault), done;
    }
    ghost var a' := |world.log|;
    SeenPlanned(world.log, a, plans, plan, outputs, h, parent.value);
    if rest {
      ReadyTarget(d, plan, h, parent.value);
    }
    var output;
    output, done' := CopyInto(world, h, parent.value, meter, done, plans, plan, outputs, a, start, last, rest);
    CareFrom(world.log, a, a', world.deeds, u, plans);
    if output.Err? {
      return Err(output.fault), done';
    }
    ghost var log := world.log;
    r := RecordOutput(world, h.entry, output.value);
    CareOn(world, log, a, u, plans);
    InLogHolds(world);
    OutputStays(log, a', world.deeds, u, plans, world.log, a, world.deeds, u, plan, outputs, h, output.value);
    if rest {
      StepsKept(log, world.log, world.deeds, u, d, plan, h);
    }
  }
}
