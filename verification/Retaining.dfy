/** Copying to destinations that have none of the entries, `copy_verified` and `copy_retaining_sources`. */
module Retaining {
  import opened Outcomes
  import opened Disks
  import opened Worlds
  import opened Compare
  import opened Effects
  import opened Retained
  import opened Scans
  import opened Plans
  import opened Checks
  import opened Preparing
  import opened Publishing
  import opened Meters
  import opened Staging
  import opened Copying
  import opened Entries
  import opened Overlays
  import opened Copies
  import opened Verifying
  import opened Batches
  import opened Commits
  import opened Additions
  import opened Placements
  import opened FreePlans

  // ---------- one entry ----------

  /** Adding something right after its directory was seen in its place. */
  lemma PlacedNow(l1: seq<Instant>, l2: seq<Instant>, d1: seq<nat>, d2: seq<nat>, plans: seq<Plan>, plan: Plan, outputs: seq<Held>,
                  h: Held, parent: Directory, name: Name, v: nat)
    requires l1 <= l2 && InLog(l2, d2) && parent.Shaped() && PlannedAt(plans, plan, outputs, h, parent, name)
    requires ChainSeen(l1, v, parent) && Latest(d1, v) && d2 == d1 + [|l1| + 1] && |l1| + 1 < |l2|
    requires var step := l2[|l1| + 1].step;
             (if h.entry.directory then step.MadeDirectory? else step.Created?) && step.dir == parent.Handle() && step.name == name
    ensures AddedAs(l2, d2, |d1|, plans, Making(plan, outputs, h, v)) && AddsPlanned(l2, d2, |d1|, plans)
  {
    assert UnfoldPlanned(name, 0);
    ChainStays(l1, l2[..|l1| + 1], v, v, parent);
    assert AddedAs(l2, d2, |d1|, plans, Making(plan, outputs, h, v));
    forall k | |d1| <= k < |d2| ensures AddingDeed(l2, d2, |d1|, k) && PlacedDeed(l2, d2, k, plans) {
    }
  }

  /** `child(name, false, true)`, which must not find the name in use. */
  method NewFile(world: World, parent: Directory, name: Name, ghost input: Ino, ghost plans: seq<Plan>, ghost plan: Plan, ghost outputs: seq<Held>,
                 ghost h: Held, ghost v: nat, ghost rest: bool)
    returns (r: Result<Ino>)
    requires world.Valid() && IsFile(world.disk, input) && parent.Shaped() && PlannedAt(plans, plan, outputs, h, parent, name) && !h.entry.directory
    requires ChainSeen(world.log, v, parent) && Latest(world.deeds, v)
    requires rest ==> world.Quiet() && View(world.disk, parent.path) == ADir && Resolve(world.disk, parent.path) == Some(parent.Handle())
    modifies world
    ensures world.Advanced() && world.reported == old(world.reported) && AddsPlanned(world.log, world.deeds, |old(world.deeds)|, plans)
    ensures r.Ok? ==> r.value != input && IsFile(world.disk, input) && |world.deeds| == |old(world.deeds)| + 1 && InLog(world.log, world.deeds)
                      && CreatedBy(world.log, world.deeds, |old(world.deeds)|, r.value)
                      && AddedAs(world.log, world.deeds, |old(world.deeds)|, plans, Making(plan, outputs, h, v))
    ensures rest ==> OnlyAt(old(world.disk), world.disk, parent.path + [name])
    ensures rest && r.Ok? ==> Staged(old(world.disk), world.disk, parent.path, name, r.value) && Is(world.disk, input, old(world.disk).nodes[input])
                              && IsFile(world.disk, r.value) && world.disk.nodes[r.value].bytes == []
    ensures rest && old(world.Faultless()) && Edge(old(world.disk), parent.Handle(), name).None? ==> r.Ok?
  {
    world.Sound();
    ghost var i, d, log, deeds := |world.log| - 1, world.disk, world.log, world.deeds;
    if rest {
      ReachedLinked(d, parent.path);
    }
    r := world.CreateNew(parent.Handle(), name);
    InLogHolds(world);
    if world.deeds == deeds {
      PlannedNothing(world, |deeds|, plans);
    } else {
      PlacedNow(log, world.log, deeds, world.deeds, plans, plan, outputs, h, parent, name, v);
      NewNumber(world, i, i + 2, input);
      if rest {
        CreatedStaged(d, parent.path, name);
        CreateFilePuts(d, parent.path, name);
      }
    }
  }

  /** The file is as recorded. */
  ghost predicate FileReady(d: Disk, h: Held) {
    IsFile(d, h.ino) && d.nodes[h.ino].Regular() && h.stamp == Some(StampOf(d.nodes[h.ino])) && h.stamp.value.size <= h.entry.size
  }

  /** A filled file that is equal to its source is in place. */
  lemma FilledPlaced(d: Disk, s: Disk, p: Path, name: Name, x: Ino, input: Ino)
    requires Staged(d, s, p, name, x)
    ensures OnlyAt(d, s, p + [name])
    ensures IsFile(s, x) && s.nodes[x].Regular()
    ensures IsFile(d, input) && Is(s, input, d.nodes[input]) && SameBytes(s, input, x) ==> Placed(d, s, p + [name], x, AFile(d.nodes[input].bytes))
  {
    StagedMeans(d, s, p, name, x);
  }

  /** Fills the new file, and compares it with its source. */
  method FillNew(world: World, h: Held, output: Ino, meter: Meter, done: nat, ghost start: nat, ghost last: nat,
                 ghost rest: bool, ghost d: Disk, ghost p: Path, ghost name: Name)
    returns (r: Result<()>, done': nat)
    requires world.Valid() && meter.Sane() && IsFile(world.disk, h.ino) && output != h.ino && Told(world.reported, start, meter, last, done)
    requires rest ==> world.Quiet() && Staged(d, world.disk, p, name, output) && IsFile(world.disk, output) && world.disk.nodes[output].bytes == []
                      && IsFile(d, h.ino) && Is(world.disk, h.ino, d.nodes[h.ino])
    modifies world
    ensures world.Advanced() && OnlyWrote(world.log, world.deeds, |old(world.deeds)|, output)
    ensures Bounded(world.reported, start, meter)
    ensures r.Ok? ==> h.stamp.Some? && h.stamp.value.size <= h.entry.size && done' == done + h.stamp.value.size && Told(world.reported, start, meter, last, done')
    ensures rest ==> OnlyAt(d, world.disk, p + [name])
    ensures rest && r.Ok? ==> Placed(d, world.disk, p + [name], output, AFile(d.nodes[h.ino].bytes))
    ensures rest && old(world.Faultless()) && FileReady(d, h) ==> r.Ok?
  {
    r, done' := FillStaged(world, h.ino, output, h.stamp, h.entry.size, meter, done, start, last, rest, d, p, name);
    if rest {
      FilledPlaced(d, world.disk, p, name, output, h.ino);
    }
    if r.Err? {
      return;
    }
    var equal := RetainedEqual(world, h.ino, output);
    if equal.Err? || !equal.value {
      r := Err(Other);
    }
  }

  /** The body of the copy of a file: created under its final name, filled, and compared with its source. */
  method CopyNewFile(world: World, h: Held, parent: Directory, name: Name, meter: Meter, done: nat, ghost plans: seq<Plan>, ghost plan: Plan,
                     ghost outputs: seq<Held>, ghost v: nat, ghost start: nat, ghost last: nat, ghost rest: bool)
    returns (r: Result<Ino>, done': nat)
    requires world.Valid() && meter.Sane() && IsFile(world.disk, h.ino) && parent.Shaped() && PlannedAt(plans, plan, outputs, h, parent, name)
    requires !h.entry.directory && ChainSeen(world.log, v, parent) && Latest(world.deeds, v)
    requires Told(world.reported, start, meter, last, done)
    requires rest ==> world.Quiet() && View(world.disk, parent.path) == ADir && Resolve(world.disk, parent.path) == Some(parent.Handle())
    modifies world
    ensures world.Advanced() && AddsPlanned(world.log, world.deeds, |old(world.deeds)|, plans)
    ensures Bounded(world.reported, start, meter)
    ensures r.Ok? ==> AddedOutput(world.log, world.deeds, |old(world.deeds)|, plans, plan, outputs, h, r.value)
    ensures r.Ok? ==> h.stamp.Some? && h.stamp.value.size <= h.entry.size && done' == done + h.stamp.value.size && Told(world.reported, start, meter, last, done')
    ensures rest ==> OnlyAt(old(world.disk), world.disk, parent.path + [name])
    ensures rest && r.Ok? ==> Placed(old(world.disk), world.disk, parent.path + [name], r.value, AFile(old(world.disk).nodes[h.ino].bytes))
    ensures rest && old(world.Faultless()) && Edge(old(world.disk), parent.Handle(), name).None? && FileReady(old(world.disk), h) ==> r.Ok?
  {
    ghost var u, d := |world.deeds|, world.disk;
    done' := done;
    ToldBounded(world.reported, start, meter, last, done);
    r := NewFile(world, parent, name, h.ino, plans, plan, outputs, h, v, rest);
    if r.Err? {
      ToldBounded(world.reported, start, meter, last, done);
      return;
    }
    ghost var log, deeds := world.log, world.deeds;
    var filled;
    filled, done' := FillNew(world, h, r.value, meter, done, start, last, rest, d, parent.path, name);
    InLogHolds(world);
    NewFileFilled(log, world.log, deeds, world.deeds, u, plans, Making(plan, outputs, h, v), r.value);
    if filled.Err? {
      r := Err(filled.fault);
    }
  }

  lemma NewFileFilled(log: seq<Instant>, log': seq<Instant>, deeds: seq<nat>, deeds': seq<nat>, u: nat, plans: seq<Plan>, w: Making, x: Ino)
    requires log <= log' && deeds <= deeds' && InLog(log, deeds) && InLog(log', deeds') && |deeds| == u + 1 && CreatedBy(log, deeds, u, x)
    requires AddedAs(log, deeds, u, plans, w) && OnlyWrote(log', deeds', u + 1, x) && !w.h.entry.directory
    ensures AddsPlanned(log', deeds', u, plans) && AddedOutput(log', deeds', u, plans, w.plan, w.outputs, w.h, x)
  {
    AddedStays(log, deeds, log', deeds', u, plans, w);
    assert CreatedBy(log', deeds', u, x);
    FilledPlanned(log', deeds', u, x, plans, w);
    assert AddsOutput(log', deeds', u, u, plans, w, x);
  }

  /** `child_directory(name, true)`, which must not find the name in use. */
  method NewDirectory(world: World, h: Held, parent: Directory, name: Name, ghost plans: seq<Plan>, ghost plan: Plan,
                      ghost outputs: seq<Held>, ghost v: nat, ghost rest: bool)
    returns (r: Result<Ino>)
    requires world.Valid() && parent.Shaped() && PlannedAt(plans, plan, outputs, h, parent, name) && h.entry.directory
    requires ChainSeen(world.log, v, parent) && Latest(world.deeds, v)
    requires rest ==> world.Quiet() && View(world.disk, parent.path) == ADir && Resolve(world.disk, parent.path) == Some(parent.Handle())
    modifies world
    ensures world.Advanced() && world.reported == old(world.reported) && AddsPlanned(world.log, world.deeds, |old(world.deeds)|, plans)
    ensures r.Ok? ==> AddedOutput(world.log, world.deeds, |old(world.deeds)|, plans, plan, outputs, h, r.value)
    ensures rest ==> OnlyAt(old(world.disk), world.disk, parent.path + [name])
    ensures rest && r.Ok? ==> Placed(old(world.disk), world.disk, parent.path + [name], r.value, ADir)
    ensures rest && old(world.Faultless()) && Edge(old(world.disk), parent.Handle(), name).None? ==> r.Ok?
  {
    world.Sound();
    ghost var d, seen, deeds := world.disk, world.log, world.deeds;
    if rest {
      ReachedLinked(d, parent.path);
    }
    var made := world.MakeDir(parent.Handle(), name);
    InLogHolds(world);
    if made.Err? {
      PlannedNothing(world, |deeds|, plans);
      return Err(made.fault);
    }
    PlacedNow(seen, world.log, deeds, world.deeds, plans, plan, outputs, h, parent, name, v);
    if rest {
      MadeInPlace(d, parent, name);
    }
    r := OpenNew(world, h, parent, name, seen, deeds, plans, plan, outputs, v);
  }

  lemma MadeInPlace(d: Disk, parent: Directory, name: Name)
    requires WellFormed(d) && parent.Shaped() && View(d, parent.path) == ADir && Resolve(d, parent.path) == Some(parent.Handle())
    requires Edge(d, parent.Handle(), name).None?
    ensures var e := MakeDirectory(d, parent.Handle(), name);
            && OnlyAt(d, e, parent.path + [name]) && Placed(d, e, parent.path + [name], d.next, ADir)
            && ChildOf(e, parent.Handle(), name, true) == Ok(d.next)
  {
    MakeDirectoryPuts(d, parent.path, name);
    MakeDirectoryGrows(d, parent.Handle(), name);
  }

  /** Opens the directory just made. */
  method OpenNew(world: World, h: Held, parent: Directory, name: Name, ghost l1: seq<Instant>, ghost d1: seq<nat>, ghost plans: seq<Plan>,
                 ghost plan: Plan, ghost outputs: seq<Held>, ghost v: nat)
    returns (r: Result<Ino>)
    requires world.Valid() && parent.Shaped() && PlannedAt(plans, plan, outputs, h, parent, name) && h.entry.directory
    requires InLog(world.log, world.deeds) && world.deeds == d1 + [|l1| + 1] && |l1| + 1 < |world.log| && world.log[|l1| + 1].step.MadeDirectory?
    requires AddedAs(world.log, world.deeds, |d1|, plans, Making(plan, outputs, h, v)) && AddsPlanned(world.log, world.deeds, |d1|, plans)
    modifies world
    ensures world.Looked() && AddsPlanned(world.log, world.deeds, |d1|, plans)
    ensures r.Ok? ==> AddedOutput(world.log, world.deeds, |d1|, plans, plan, outputs, h, r.value)
    ensures old(world.Quiet()) ==> r == ChildOf(old(world.disk), parent.Handle(), name, true) || (r == Err(Other) && !old(world.Faultless()))
  {
    ghost var log := world.log;
    r := world.OpenChild(parent.Handle(), name, true);
    InLogHolds(world);
    StillPlanned(world, log, |d1|, plans);
    if r.Ok? {
      AddedStays(log, world.deeds, world.log, world.deeds, |d1|, plans, Making(plan, outputs, h, v));
      SeenOutput(world.log, |l1| + 2, |log|, plans, plan, outputs, h, parent, name, r.value);
      assert AddsOutput(world.log, world.deeds, |d1|, |d1|, plans, Making(plan, outputs, h, v), r.value);
    }
  }

  /** The body of the copy, once input and target directory are open. */
  method AddInto(world: World, h: Held, parent: Directory, meter: Meter, done: nat, ghost plans: seq<Plan>, ghost plan: Plan, ghost outputs: seq<Held>,
                 ghost v: nat, ghost start: nat, ghost last: nat, ghost rest: bool)
    returns (r: Result<Ino>, done': nat)
    requires world.Valid() && meter.Sane() && parent.Shaped() && h.entry.relative != [] && PlannedAt(plans, plan, outputs, h, parent, NameOf(h))
    requires ChainSeen(world.log, v, parent) && Latest(world.deeds, v)
    requires !h.entry.directory ==> IsFile(world.disk, h.ino)
    requires Told(world.reported, start, meter, last, done)
    requires rest ==> world.Quiet() && View(world.disk, parent.path) == ADir && Resolve(world.disk, parent.path) == Some(parent.Handle())
    modifies world
    ensures world.Advanced() && AddsPlanned(world.log, world.deeds, |old(world.deeds)|, plans)
    ensures Bounded(world.reported, start, meter)
    ensures r.Ok? ==> AddedOutput(world.log, world.deeds, |old(world.deeds)|, plans, plan, outputs, h, r.value)
    ensures r.Ok? ==> StampFits(h) && done' == done + StampSize(h) && Told(world.reported, start, meter, last, done')
    ensures rest ==> OnlyAt(old(world.disk), world.disk, parent.path + [NameOf(h)])
    ensures rest && r.Ok? ==> Placed(old(world.disk), world.disk, parent.path + [NameOf(h)], r.value, Wanted(old(world.disk), h))
    ensures rest && old(world.Faultless()) && Edge(old(world.disk), parent.Handle(), NameOf(h)).None? ==>
              (h.entry.directory || FileReady(old(world.disk), h)) ==> r.Ok?
  {
    if h.entry.directory {
      done' := done;
      ToldBounded(world.reported, start, meter, last, done);
      r := NewDirectory(world, h, parent, NameOf(h), plans, plan, outputs, v, rest);
    } else {
      r, done' := CopyNewFile(world, h, parent, NameOf(h), meter, done, plans, plan, outputs, v, start, last, rest);
    }
  }

  /** What an entry that is free means for the directory it goes to. */
  lemma FreePlace(d: Disk, plan: Plan, h: Held, parent: Directory)
    requires WellFormed(d) && h.entry.relative != [] && parent.path == plan.destination.path + Scans.Parent(h.entry.relative) && ChainHolds(d, parent)
    ensures parent.path + [NameOf(h)] == Target(plan, h) && Resolve(d, parent.path) == Some(parent.Handle()) && View(d, parent.path) == ADir
    ensures Resolve(d, Target(plan, h)) == Edge(d, parent.Handle(), NameOf(h))
  {
    assert parent.path + [NameOf(h)] == Target(plan, h);
    assert parent.path[..|parent.path|] == parent.path;
    ResolveSnoc(d, parent.path, NameOf(h));
  }

  /** The loop body of `copy_verified`. */
  method CopyNewEntry(world: World, plan: Plan, outputs: seq<Held>, h: Held, meter: Meter, done: nat, ghost plans: seq<Plan>, ghost start: nat,
                      ghost last: nat, ghost rest: bool)
    returns (r: Result<Held>, done': nat)
    requires world.Valid() && meter.Sane() && plan.source.Shaped() && plan.destination.Shaped()
    requires plan in plans && h in plan.held && h.entry.relative != []
    requires Told(world.reported, start, meter, last, done)
    requires rest ==> world.Quiet() && ChainHolds(world.disk, plan.destination)
    modifies world
    ensures world.Advanced() && AddsPlanned(world.log, world.deeds, |old(world.deeds)|, plans)
    ensures Bounded(world.reported, start, meter)
    ensures r.Ok? ==> r.value.entry == h.entry && (r.value.stamp.Some? <==> !h.entry.directory)
    ensures r.Ok? ==> AddedOutput(world.log, world.deeds, |old(world.deeds)|, plans, plan, outputs, h, r.value.ino)
    ensures r.Ok? ==> StampFits(h) && done' == done + StampSize(h) && Told(world.reported, start, meter, last, done')
    ensures rest ==> OnlyAt(old(world.disk), world.disk, Target(plan, h))
    ensures rest && r.Ok? ==> StampHolds(world.disk, r.value)
                              && Placed(old(world.disk), world.disk, Target(plan, h), r.value.ino, Wanted(old(world.disk), h))
    ensures rest && old(world.Faultless()) && EntryFree(old(world.disk), plan, outputs, h) ==> r.Ok?
  {
    world.Sound();
    ghost var a, u, d := |world.log|, |world.deeds|, world.disk;
    ToldBounded(world.reported, start, meter, last, done);
    InLogHolds(world);
    var parent := OpenEnds(world, plan, outputs, h, rest);
    if parent.Err? {
      PlannedNothing(world, u, plans);
      return Err(parent.fault), done;
    }
    SeenPlanned(world.log, a, plans, plan, outputs, h, parent.value);
    if rest {
      FreePlace(d, plan, h, parent.value);
    }
    var output;
    output, done' := AddInto(world, h, parent.value, meter, done, plans, plan, outputs, a, start, last, rest);
    if output.Err? {
      return Err(output.fault), done';
    }
    ghost var log := world.log;
    r := RecordOutput(world, h.entry, output.value);
    StillPlanned(world, log, u, plans);
    InLogHolds(world);
    AddedOutputStays(log, world.deeds, u, world.log, world.deeds, u, plans, plan, outputs, h, output.value);
  }

  // ---------- one plan ----------

  /** What copying the entries of one plan adds to the record of the run; kept folded. */
  ghost predicate PlanAdded(log: seq<Instant>, deeds: seq<nat>, u: nat, plans: seq<Plan>, plan: Plan, outputs: seq<Held>) {
    AddsPlanned(log, deeds, u, plans) && OutputsAdded(log, deeds, u, plans, plan, outputs) && RecordsSofar(plan, outputs)
  }

  lemma PlanAddedMore(world: World, log: seq<Instant>, deeds: seq<nat>, u: nat, plans: seq<Plan>, plan: Plan, outputs: seq<Held>, out: Held)
    requires world.Valid() && log <= world.log && deeds <= world.deeds && u <= |deeds| && |outputs| < |plan.held|
    requires PlanAdded(log, deeds, u, plans, plan, outputs) && AddsPlanned(world.log, world.deeds, |deeds|, plans)
    requires out.entry == plan.held[|outputs|].entry && (out.stamp.Some? <==> !out.entry.directory) && StampFits(plan.held[|outputs|])
    requires AddedOutput(world.log, world.deeds, |deeds|, plans, plan, outputs, plan.held[|outputs|], out.ino)
    ensures PlanAdded(world.log, world.deeds, u, plans, plan, outputs + [out])
  {
    InLogHolds(world);
    PlannedContinue(log, deeds, u, world.log, world.deeds, plans);
    OutputsAddedMore(log, deeds, u, world.log, world.deeds, plans, plan, outputs, out);
  }

  /** The next entry, with what it does to a disk at rest. */
  method CopyNextNew(world: World, plan: Plan, outputs: seq<Held>, meter: Meter, done: nat, ghost plans: seq<Plan>, ghost start: nat,
                     ghost last: nat, ghost rest: bool, ghost d0: Disk, ghost u: nat)
    returns (r: Result<Held>, done': nat)
    requires world.Valid() && meter.Sane() && Prepared(plan) && plan in plans && |outputs| < |plan.held| && u <= |world.deeds|
    requires PlanAdded(world.log, world.deeds, u, plans, plan, outputs)
    requires done == StampBytes(plan.held[..|outputs|]) && Told(world.reported, start, meter, last, done)
    requires rest ==> world.Quiet() && WellFormed(d0) && Free(d0, plan) && InPlace(d0, world.disk, plan, outputs, |outputs|)
    modifies world
    ensures world.Advanced() && AddsPlanned(world.log, world.deeds, u, plans)
    ensures Bounded(world.reported, start, meter)
    ensures r.Ok? ==> PlanAdded(world.log, world.deeds, u, plans, plan, outputs + [r.value])
    ensures r.Ok? ==> done' == StampBytes(plan.held[..|outputs| + 1]) && Told(world.reported, start, meter, last, done')
    ensures rest && r.Ok? ==> InPlace(d0, world.disk, plan, outputs + [r.value], |outputs| + 1)
    ensures rest && r.Err? ==> OnlyTargets(d0, world.disk, [plan])
    ensures rest && old(world.Faultless()) ==> r.Ok?
  {
    world.Sound();
    PlanShapes(plan);
    ghost var n, d, log, deeds := |outputs|, world.disk, world.log, world.deeds;
    if rest {
      BeforeFree(d0, d, plan, outputs);
    }
    r, done' := CopyNewEntry(world, plan, outputs, plan.held[|outputs|], meter, done, plans, start, last, rest);
    PlannedContinue(log, deeds, u, world.log, world.deeds, plans);
    if r.Ok? {
      PlanAddedMore(world, log, deeds, u, plans, plan, outputs, r.value);
      assert plan.held[..n + 1][..n] == plan.held[..n];
    }
    if rest {
      AfterNew(d0, d, world.disk, plan, outputs, if r.Ok? then Some(r.value) else None);
    }
  }

  lemma AfterNew(d0: Disk, d: Disk, e: Disk, plan: Plan, outputs: seq<Held>, out: Option<Held>)
    requires WellFormed(d) && Prepared(plan) && SourceHolds(d0, plan) && |outputs| < |plan.held| && InPlace(d0, d, plan, outputs, |outputs|)
    requires OnlyAt(d, e, Target(plan, plan.held[|outputs|]))
    requires out.Some? ==> out.value.entry == plan.held[|outputs|].entry && StampHolds(e, out.value)
                           && Placed(d, e, Target(plan, plan.held[|outputs|]), out.value.ino, Wanted(d0, plan.held[|outputs|]))
    ensures OnlyTargets(d0, e, [plan]) && (out.Some? ==> InPlace(d0, e, plan, outputs + [out.value], |outputs| + 1))
  {
    PreparedMeans(plan);
    TargetTouched(d0, d, e, plan, outputs, |outputs|);
    if out.Some? {
      InPlaceMeans(d0, d, plan, outputs, |outputs|);
      NextInPlace(d0, d, e, plan, outputs, |outputs|, out.value);
    }
  }

  /** Copying the entries, without the checks before and after. */
  method CopyNewEntries(world: World, plan: Plan, meter: Meter, ghost plans: seq<Plan>, ghost start: nat, ghost last: nat, ghost rest: bool)
    returns (r: Result<seq<Held>>)
    requires world.Valid() && meter.Sane() && Prepared(plan) && plan in plans
    requires Told(world.reported, start, meter, last, 0)
    requires rest ==> world.Quiet() && Free(world.disk, plan)
    modifies world
    ensures world.Advanced() && AddsPlanned(world.log, world.deeds, |old(world.deeds)|, plans)
    ensures Bounded(world.reported, start, meter)
    ensures r.Ok? ==> PlanAdded(world.log, world.deeds, |old(world.deeds)|, plans, plan, r.value) && |r.value| == |plan.held|
    ensures rest && r.Ok? ==> InPlace(old(world.disk), world.disk, plan, r.value, |plan.held|)
    ensures rest && r.Err? ==> OnlyTargets(old(world.disk), world.disk, [plan])
    ensures rest && old(world.Faultless()) ==> r.Ok?
  {
    world.Sound();
    ghost var u, d0 := |world.deeds|, world.disk;
    PlannedNothing(world, u, plans);
    var outputs: seq<Held> := [];
    var done := 0;
    if rest {
      NothingLaid(d0, plan);
    }
    while |outputs| < |plan.held|
      invariant world.Advanced() && |outputs| <= |plan.held| && PlanAdded(world.log, world.deeds, u, plans, plan, outputs)
      invariant done == StampBytes(plan.held[..|outputs|]) && Told(world.reported, start, meter, last, done)
      invariant rest ==> InPlace(d0, world.disk, plan, outputs, |outputs|)
    {
      var out;
      out, done := CopyNextNew(world, plan, outputs, meter, done, plans, start, last, rest, d0, u);
      if out.Err? {
        return Err(out.fault);
      }
      outputs := outputs + [out.value];
    }
    ToldBounded(world.reported, start, meter, last, done);
    return Ok(outputs);
  }

  /** What `copy_verified` checks before it copies anything. */
  method VerifyFree(world: World, plan: Plan) returns (r: Result<()>)
    requires world.Valid() && Prepared(plan)
    modifies world
    ensures world.Looked()
    ensures old(world.Quiet()) && r.Ok? ==> Free(world.disk, plan)
    ensures old(world.Quiet() && world.Faultless()) && Free(old(world.disk), plan) ==> r.Ok?
  {
    PreparedMeans(plan);
    var blame;
    r, blame := VerifySource(world, plan);
    if r.Err? {
      return;
    }
    if old(world.Quiet()) {
      world.AtRest();
      SourceAtRest(world.log, |old(world.log)|, plan, world.disk);
    }
    r := CheckConflicts(world, plan.destination.path, plan.entries);
  }

  lemma InPlaceHolds(d0: Disk, d: Disk, plan: Plan, outputs: seq<Held>)
    requires WellFormed(d0) && Prepared(plan) && SourceHolds(d0, plan) && InPlace(d0, d, plan, outputs, |plan.held|)
    ensures CopyHolds(d, plan, outputs) && OnlyTargets(d0, d, [plan])
  {
    PreparedMeans(plan);
    InPlaceMeans(d0, d, plan, outputs, |plan.held|);
    CopyHoldsOnce(d0, d, plan, outputs);
    AllInPlace(d0, d, plan, outputs);
  }

  /** The end of `copy_verified`. */
  method VerifyAndReport(world: World, plan: Plan, outputs: seq<Held>, meter: Meter, ghost start: nat) returns (r: Result<()>)
    requires world.Valid() && meter.Sane() && Prepared(plan) && RecordsSofar(plan, outputs)
    requires Bounded(world.reported, start, meter)
    modifies world
    ensures world.Advanced() && world.deeds == old(world.deeds) && (old(world.Quiet()) ==> world.disk == old(world.disk))
    ensures Rising(world.reported, start, meter.completed + meter.bytes, meter.total, r.Ok?)
    ensures old(world.Quiet() && world.Faultless()) && CopyHolds(old(world.disk), plan, outputs) ==> r.Ok?
  {
    var copied, _ := VerifyCopy(world, plan, outputs);
    if copied.Err? {
      return Err(copied.fault);
    }
    RisingMore(world.reported, start, meter.completed + meter.bytes, meter.completed + meter.bytes, meter.total, false);
    var _ := world.Report(meter.completed + meter.bytes, meter.total);
    return Ok(());
  }

  /** The copying of `copy_verified`, and the check of it. */
  method CopyAndCheck(world: World, plan: Plan, meter: Meter, ghost plans: seq<Plan>, ghost start: nat, ghost rest: bool) returns (r: Result<seq<Held>>)
    requires world.Valid() && meter.Sane() && Prepared(plan) && plan in plans
    requires Told(world.reported, start, meter, meter.completed, 0)
    requires rest ==> world.Quiet() && Free(world.disk, plan)
    modifies world
    ensures world.Advanced() && AddsPlanned(world.log, world.deeds, |old(world.deeds)|, plans)
    ensures Rising(world.reported, start, meter.completed + meter.bytes, meter.total, r.Ok?)
    ensures r.Ok? ==> PlanAdded(world.log, world.deeds, |old(world.deeds)|, plans, plan, r.value) && |r.value| == |plan.held|
    ensures rest && r.Ok? ==> InPlace(old(world.disk), world.disk, plan, r.value, |plan.held|)
    ensures rest ==> OnlyTargets(old(world.disk), world.disk, [plan])
    ensures rest && old(world.Faultless()) ==> r.Ok?
  {
    world.Sound();
    ghost var u := |world.deeds|;
    r := CopyNewEntries(world, plan, meter, plans, start, meter.completed, rest);
    if r.Err? {
      return;
    }
    if rest {
      InPlaceHolds(old(world.disk), world.disk, plan, r.value);
    }
    ghost var log := world.log;
    var copied := VerifyAndReport(world, plan, r.value, meter, start);
    StillPlanned(world, log, u, plans);
    InLogHolds(world);
    OutputsAddedStay(log, world.deeds, u, world.log, world.deeds, u, plans, plan, r.value);
    if copied.Err? {
      r := Err(copied.fault);
    }
  }

  /** `copy_verified`. */
  method CopyVerified(world: World, plan: Plan, meter: Meter, ghost plans: seq<Plan>, ghost start: nat, ghost rest: bool) returns (r: Result<seq<Held>>)
    requires world.Valid() && meter.Sane() && Prepared(plan) && plan in plans && (rest ==> world.Quiet())
    requires Rising(world.reported, start, meter.completed, meter.total, false)
    modifies world
    ensures world.Advanced() && AddsPlanned(world.log, world.deeds, |old(world.deeds)|, plans)
    ensures Rising(world.reported, start, meter.completed + meter.bytes, meter.total, r.Ok?)
    ensures r.Ok? ==> PlanAdded(world.log, world.deeds, |old(world.deeds)|, plans, plan, r.value) && |r.value| == |plan.held|
    ensures rest && r.Ok? ==> Free(old(world.disk), plan) && InPlace(old(world.disk), world.disk, plan, r.value, |plan.held|)
    ensures rest ==> OnlyTargets(old(world.disk), world.disk, [plan])
    ensures rest && old(world.Faultless()) && Free(old(world.disk), plan) ==> r.Ok?
  {
    ghost var u := |world.deeds|;
    NothingTouched(world.disk, [plan]);
    RisingMore(world.reported, start, meter.completed, meter.completed + meter.bytes, meter.total, false);
    var checked := VerifyFree(world, plan);
    PlannedNothing(world, u, plans);
    if checked.Err? {
      return Err(checked.fault);
    }
    RisingMore(world.reported, start, meter.completed, meter.completed, meter.total, false);
    var _ := world.Report(meter.completed, meter.total);
    r := CopyAndCheck(world, plan, meter, plans, start, rest);
  }
}
