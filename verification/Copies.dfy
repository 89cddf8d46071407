/** Copying all entries of a plan, `copy_files`. */
module Copies {
  import opened Outcomes
  import opened Disks
  import opened Worlds
  import opened Effects
  import opened Retained
  import opened Paths
  import opened Scans
  import opened Plans
  import opened Checks
  import opened Preparing
  import opened Publishing
  import opened Meters
  import opened Staging
  import opened Copying
  import opened Entries
  import opened Overlays
  import opened Reports

  /** After every deed from `u` on, the disk is partway from `d` to the overlay. */
  ghost predicate MidwayThroughout(log: seq<Instant>, deeds: seq<nat>, u: nat, d: Disk, plans: seq<Plan>) {
    forall k | u <= k < |deeds| :: deeds[k] < |log| && Midway(d, log[deeds[k]].after, plans)
  }

  function StampBytes(held: seq<Held>): nat {
    if held == [] then 0 else StampBytes(held[..|held| - 1]) + StampSize(held[|held| - 1])
  }

  /** The first `n` outputs are in place and recorded as they are; kept folded. */
  ghost predicate InPlace(d0: Disk, d: Disk, plan: Plan, outputs: seq<Held>, n: nat) {
    forall once: nat {:trigger UnfoldPlan(plan, once)} :: UnfoldPlan(plan, once) ==> OutputsInPlace(d0, d, plan, outputs, n)
  }

  lemma InPlaceMeans(d0: Disk, d: Disk, plan: Plan, outputs: seq<Held>, n: nat)
    requires InPlace(d0, d, plan, outputs, n)
    ensures OutputsInPlace(d0, d, plan, outputs, n)
  {
    assert UnfoldPlan(plan, 0);
  }

  ghost predicate OutputsInPlace(d0: Disk, d: Disk, plan: Plan, outputs: seq<Held>, n: nat) {
    && |outputs| == n <= |plan.held| && Laid(d0, d, plan, n) && ChainHolds(d, plan.destination)
    && forall i | 0 <= i < n :: outputs[i].entry == plan.held[i].entry && OutputHolds(d, plan.destination.path, outputs[i])
  }

  /** The plan can be carried out: what `prepare` found, and no entry has a staging name that is still to come. */
  ghost predicate Feasible(d: Disk, plan: Plan, serial: nat) {
    && SourceHolds(d, plan) && Compatible(d, plan.destination.path, plan.entries) && SizesAgree(plan.held)
    && forall h | h in plan.held :: h.entry.relative != [] && !FreshName(NameOf(h), serial)
  }

  lemma WantedStays(d0: Disk, d: Disk, plan: Plan, n: nat)
    requires WellFormed(d0) && SoundPlan(plan) && SourceHolds(d0, plan) && n <= |plan.held| && Laid(d0, d, plan, n)
    ensures SourceHolds(d, plan) && forall h | h in plan.held :: Wanted(d, h) == Wanted(d0, h)
  {
    LaidBeside(d0, d, plan, n);
    SourceBeside(d0, d, plan.destination.path, plan);
  }

  lemma WantedExists(d: Disk, plan: Plan)
    requires SourceHolds(d, plan)
    ensures forall h | h in plan.held :: Wanted(d, h) != Absent
  {
  }

  lemma OutputWay(d: Disk, plan: Plan, outputs: seq<Held>, n: nat)
    requires Shaped(plan) && n < |plan.held| && |outputs| == n && ChainHolds(d, plan.destination)
    requires forall i | 0 <= i < n :: outputs[i].entry == plan.held[i].entry && (outputs[i].stamp.Some? <==> !outputs[i].entry.directory)
    requires forall i | 0 <= i < n :: OutputHolds(d, plan.destination.path, outputs[i])
    ensures WayHolds(d, plan.destination, outputs, plan.held[n].entry.relative)
  {
    SnapshotBeginning(plan.entries, n);
    assert plan.entries[n] in plan.entries;
    assert Records(outputs, plan.entries[..n]);
    RecordsHold(d, plan.destination, outputs, plan.entries[..n], plan.entries[n].relative);
  }

  lemma NextReady(d0: Disk, d: Disk, plan: Plan, outputs: seq<Held>, n: nat, serial: nat)
    requires WellFormed(d0) && SoundPlan(plan) && n < |plan.held| && plan.held[n].entry.relative != []
    requires OutputsInPlace(d0, d, plan, outputs, n) && forall i | 0 <= i < n :: (outputs[i].stamp.Some? <==> !outputs[i].entry.directory)
    requires Feasible(d0, plan, serial)
    ensures EntryReady(d, plan, outputs, plan.held[n], serial)
  {
    var h := plan.held[n];
    WantedStays(d0, d, plan, n);
    SourceReachable(d, plan, h);
    OutputWay(d, plan, outputs, n);
    assert h.entry in plan.entries;
    if i :| 0 <= i < n && Target(plan, h) == Target(plan, plan.held[i]) {
      TargetsDiffer(plan, i, n);
    }
    FitsBeside(d0, d, Target(plan, h), h.entry.directory);
  }

  lemma PlanShapes(plan: Plan)
    requires Prepared(plan)
    ensures plan.source.Shaped() && plan.destination.Shaped() && |plan.held| == |plan.entries|
    ensures forall i | 0 <= i < |plan.held| :: plan.held[i].entry == plan.entries[i] && plan.held[i].entry.relative != []
  {
    PreparedMeans(plan);
    forall i | 0 <= i < |plan.held| ensures plan.held[i].entry == plan.entries[i] && plan.held[i].entry.relative != [] {
      assert plan.entries[i] in plan.entries;
    }
  }

  lemma BeforeNext(d0: Disk, d: Disk, plan: Plan, outputs: seq<Held>, serial: nat)
    requires WellFormed(d0) && Prepared(plan) && SourceHolds(d0, plan) && RecordsSofar(plan, outputs) && |outputs| < |plan.held|
    requires InPlace(d0, d, plan, outputs, |outputs|)
    ensures plan.source.Shaped() && plan.destination.Shaped() && plan.held[|outputs|].entry.relative != []
    ensures ChainHolds(d, plan.destination) && Wanted(d, plan.held[|outputs|]) == Wanted(d0, plan.held[|outputs|])
    ensures Feasible(d0, plan, serial) ==> EntryReady(d, plan, outputs, plan.held[|outputs|], serial)
  {
    PreparedMeans(plan);
    PlanShapes(plan);
    InPlaceMeans(d0, d, plan, outputs, |outputs|);
    WantedStays(d0, d, plan, |outputs|);
    if Feasible(d0, plan, serial) {
      NextReady(d0, d, plan, outputs, |outputs|, serial);
    }
  }

  lemma AfterNext(log: seq<Instant>, deeds: seq<nat>, u: nat, d0: Disk, d: Disk, e: Disk, plan: Plan, outputs: seq<Held>, out: Option<Held>)
    requires WellFormed(d) && Prepared(plan) && SourceHolds(d0, plan) && |outputs| < |plan.held| && InPlace(d0, d, plan, outputs, |outputs|)
    requires plan.held[|outputs|].entry.relative != [] && EntryStepsAt(log, deeds, u, d, plan, plan.held[|outputs|])
    requires Wanted(d, plan.held[|outputs|]) == Wanted(d0, plan.held[|outputs|])
    requires out.Some? ==> out.value.entry == plan.held[|outputs|].entry && StampHolds(e, out.value)
                           && Placed(d, e, Target(plan, plan.held[|outputs|]), out.value.ino, Wanted(d0, plan.held[|outputs|]))
    ensures MidwayThroughout(log, deeds, u, d0, [plan])
    ensures out.Some? ==> InPlace(d0, e, plan, outputs + [out.value], |outputs| + 1)
  {
    PreparedMeans(plan);
    InPlaceMeans(d0, d, plan, outputs, |outputs|);
    StepsMidway(log, deeds, u, d0, d, plan, |outputs|);
    if out.Some? {
      NextInPlace(d0, d, e, plan, outputs, |outputs|, out.value);
    }
  }

  /** The next entry, with what it does to a disk at rest. */
  method CopyNext(world: World, plan: Plan, outputs: seq<Held>, meter: Meter, done: nat, ghost plans: seq<Plan>, ghost start: nat,
                  ghost last: nat, ghost rest: bool, ghost d0: Disk)
    returns (r: Result<Held>, done': nat)
    requires world.Valid() && meter.Sane() && Prepared(plan) && plan in plans && |outputs| < |plan.held| && RecordsSofar(plan, outputs)
    requires Told(world.reported, start, meter, last, done)
    requires rest ==> world.Quiet() && WellFormed(d0) && SourceHolds(d0, plan) && InPlace(d0, world.disk, plan, outputs, |outputs|)
    modifies world
    ensures world.Advanced() && Careful(world.log, |old(world.log)|, world.deeds, |old(world.deeds)|, plans)
    ensures Bounded(world.reported, start, meter)
    ensures r.Ok? ==> r.value.entry == plan.held[|outputs|].entry && (r.value.stamp.Some? <==> !r.value.entry.directory)
    ensures r.Ok? ==> OutputFrom(world.log, |old(world.log)|, world.deeds, |old(world.deeds)|, plans, plan, outputs, plan.held[|outputs|], r.value.ino)
    ensures r.Ok? ==> StampFits(plan.held[|outputs|]) && done' == done + StampSize(plan.held[|outputs|]) && Told(world.reported, start, meter, last, done')
    ensures rest ==> MidwayThroughout(world.log, world.deeds, |old(world.deeds)|, d0, [plan])
    ensures rest && r.Ok? ==> InPlace(d0, world.disk, plan, outputs + [r.value], |outputs| + 1)
    ensures rest && old(world.Faultless()) && Feasible(d0, plan, old(world.serial)) ==> r.Ok?
  {
    world.Sound();
    PlanShapes(plan);
    ghost var d := world.disk;
    if rest {
      BeforeNext(d0, d, plan, outputs, world.serial);
    }
    r, done' := CopyEntry(world, plan, outputs, plan.held[|outputs|], meter, done, plans, start, last, rest);
    if rest {
      AfterNext(world.log, world.deeds, |old(world.deeds)|, d0, d, world.disk, plan, outputs, if r.Ok? then Some(r.value) else None);
    }
  }

  lemma StepsMidway(log: seq<Instant>, deeds: seq<nat>, u: nat, d0: Disk, d: Disk, plan: Plan, n: nat)
    requires Shaped(plan) && n < |plan.held| && Laid(d0, d, plan, n) && plan.held[n].entry.relative != []
    requires SourceHolds(d0, plan) && Wanted(d, plan.held[n]) == Wanted(d0, plan.held[n])
    requires EntryStepsAt(log, deeds, u, d, plan, plan.held[n])
    ensures MidwayThroughout(log, deeds, u, d0, [plan])
  {
    WantedExists(d0, plan);
    forall k | u <= k < |deeds| ensures deeds[k] < |log| && Midway(d0, log[deeds[k]].after, [plan]) {
      EntryMidway(d0, d, log[deeds[k]].after, plan, n);
    }
  }

  lemma NextInPlace(d0: Disk, d: Disk, e: Disk, plan: Plan, outputs: seq<Held>, n: nat, out: Held)
    requires WellFormed(d) && Shaped(plan) && n < |plan.held| && OutputsInPlace(d0, d, plan, outputs, n) && SourceHolds(d0, plan)
    requires out.entry == plan.held[n].entry && StampHolds(e, out)
    requires Placed(d, e, Target(plan, plan.held[n]), out.ino, Wanted(d0, plan.held[n]))
    ensures InPlace(d0, e, plan, outputs + [out], n + 1)
  {
    LaidMore(d0, d, e, plan, n, out.ino);
    OutputsKept(d, e, plan, outputs, n, out.ino, Wanted(d0, plan.held[n]));
    EntriesGoDown(plan, plan.held[n]);
    ChainKept(d, e, plan.destination, Target(plan, plan.held[n]), Wanted(d0, plan.held[n]));
    assert EntryHolds(d0, plan.source.path, plan.held[n]);
  }

  lemma MidwayOn(log: seq<Instant>, log': seq<Instant>, deeds: seq<nat>, deeds': seq<nat>, u: nat, d: Disk, plans: seq<Plan>)
    requires log <= log' && deeds <= deeds' && u <= |deeds|
    requires MidwayThroughout(log, deeds, u, d, plans) && MidwayThroughout(log', deeds', |deeds|, d, plans)
    ensures MidwayThroughout(log', deeds', u, d, plans)
  {
    forall k | u <= k < |deeds'| ensures deeds'[k] < |log'| && Midway(d, log'[deeds'[k]].after, plans) {
      assert k < |deeds| ==> deeds'[k] == deeds[k] && log'[deeds[k]] == log[deeds[k]];
    }
  }

  lemma NothingLaid(d: Disk, plan: Plan)
    requires WellFormed(d) && ChainHolds(d, plan.destination)
    ensures InPlace(d, d, plan, [], 0)
  {
  }

  /** Every step is accounted for: what was done so far was done with care, and stays midway; kept folded. */
  ghost predicate Sofar(log: seq<Instant>, a: nat, deeds: seq<nat>, u: nat, plans: seq<Plan>, rest: bool, d: Disk, plan: Plan) {
    forall once: nat {:trigger UnfoldPlan(plan, once)} :: UnfoldPlan(plan, once) ==>
      Careful(log, a, deeds, u, plans) && (rest ==> MidwayThroughout(log, deeds, u, d, [plan]))
  }

  lemma SofarMeans(log: seq<Instant>, a: nat, deeds: seq<nat>, u: nat, plans: seq<Plan>, rest: bool, d: Disk, plan: Plan)
    requires Sofar(log, a, deeds, u, plans, rest, d, plan)
    ensures Careful(log, a, deeds, u, plans) && (rest ==> MidwayThroughout(log, deeds, u, d, [plan]))
  {
    assert UnfoldPlan(plan, 0);
  }

  lemma SofarOn(log: seq<Instant>, log': seq<Instant>, a: nat, a': nat, deeds: seq<nat>, deeds': seq<nat>, u: nat,
                plans: seq<Plan>, rest: bool, d: Disk, plan: Plan)
    requires log <= log' && deeds <= deeds' && u <= |deeds| && a <= a'
    requires Sofar(log, a, deeds, u, plans, rest, d, plan) && Sofar(log', a', deeds', |deeds|, plans, rest, d, plan)
    ensures Sofar(log', a, deeds', u, plans, rest, d, plan)
  {
    SofarMeans(log, a, deeds, u, plans, rest, d, plan);
    SofarMeans(log', a', deeds', |deeds|, plans, rest, d, plan);
    CareContinues(log, a, deeds, u, plans, log', a', deeds', |deeds|, plans);
    if rest {
      MidwayOn(log, log', deeds, deeds', u, d, [plan]);
    }
  }

  /** The records belong to the first entries. */
  ghost predicate RecordsSofar(plan: Plan, outputs: seq<Held>) {
    && |outputs| <= |plan.held|
    && forall i | 0 <= i < |outputs| :: outputs[i].entry == plan.held[i].entry && (outputs[i].stamp.Some? <==> !outputs[i].entry.directory)
                                        && StampFits(plan.held[i])
  }

  /** Mentioning this unfolds `OutputsFrom`, which is kept folded elsewhere to keep proofs small. */
  ghost predicate UnfoldOutputs(outputs: seq<Held>, once: nat) {
    true
  }

  /** Every recorded output is what this run published, or saw as a directory, where its entry goes. */
  ghost predicate OutputsFrom(log: seq<Instant>, a: nat, deeds: seq<nat>, u: nat, plans: seq<Plan>, plan: Plan, outputs: seq<Held>) {
    forall once: nat {:trigger UnfoldOutputs(outputs, once)} :: UnfoldOutputs(outputs, once) ==>
      |outputs| <= |plan.held| && forall i | 0 <= i < |outputs| :: OutputFromAt(log, a, deeds, u, plans, plan, outputs, i)
  }

  ghost predicate OutputFromAt(log: seq<Instant>, a: nat, deeds: seq<nat>, u: nat, plans: seq<Plan>, plan: Plan, outputs: seq<Held>, i: nat)
    requires i < |outputs| <= |plan.held|
  {
    OutputFrom(log, a, deeds, u, plans, plan, outputs[..i], plan.held[i], outputs[i].ino)
  }

  lemma OutputsStay(log: seq<Instant>, a: nat, deeds: seq<nat>, u: nat, plans: seq<Plan>, log': seq<Instant>, a': nat, deeds': seq<nat>, u': nat,
                    plan: Plan, outputs: seq<Held>)
    requires log <= log' && deeds <= deeds' && InLog(log', deeds') && a' <= a && u' <= u && OutputsFrom(log, a, deeds, u, plans, plan, outputs)
    ensures OutputsFrom(log', a', deeds', u', plans, plan, outputs)
  {
    assert UnfoldOutputs(outputs, 0);
    forall i | 0 <= i < |outputs| ensures OutputFromAt(log', a', deeds', u', plans, plan, outputs, i) {
      assert OutputFromAt(log, a, deeds, u, plans, plan, outputs, i);
      OutputStays(log, a, deeds, u, plans, log', a', deeds', u', plan, outputs[..i], plan.held[i], outputs[i].ino);
    }
  }

  lemma OutputsMore(log: seq<Instant>, a: nat, deeds: seq<nat>, u: nat, plans: seq<Plan>, log': seq<Instant>, deeds': seq<nat>,
                    plan: Plan, outputs: seq<Held>, out: Held)
    requires log <= log' && deeds <= deeds' && InLog(log', deeds') && a <= |log| && u <= |deeds| && |outputs| < |plan.held|
    requires OutputsFrom(log, a, deeds, u, plans, plan, outputs)
    requires OutputFrom(log', |log|, deeds', |deeds|, plans, plan, outputs, plan.held[|outputs|], out.ino)
    ensures OutputsFrom(log', a, deeds', u, plans, plan, outputs + [out])
  {
    OutputsStay(log, a, deeds, u, plans, log', a, deeds', u, plan, outputs);
    OutputStays(log', |log|, deeds', |deeds|, plans, log', a, deeds', u, plan, outputs, plan.held[|outputs|], out.ino);
    assert UnfoldOutputs(outputs, 0);
    var more := outputs + [out];
    forall i | 0 <= i < |more| ensures OutputFromAt(log', a, deeds', u, plans, plan, more, i) {
      if i < |outputs| {
        assert more[..i] == outputs[..i] && OutputFromAt(log', a, deeds', u, plans, plan, outputs, i);
      } else {
        assert more[..i] == outputs;
      }
    }
  }

  /** One entry and its line in the report. */
  method CopyAndCount(world: World, plan: Plan, outputs: seq<Held>, meter: Meter, done: nat, report: MigrationReport,
                      ghost plans: seq<Plan>, ghost start: nat, ghost last: nat, ghost rest: bool, ghost d0: Disk,
                      ghost serial: nat, ghost a: nat, ghost u: nat, ghost t: Tally)
    returns (r: Result<Held>, done': nat)
    requires world.Valid() && meter.Sane() && Prepared(plan) && plan in plans && |outputs| < |plan.held| == |plan.entries|
    requires RecordsSofar(plan, outputs) && Told(world.reported, start, meter, last, done)
    requires rest ==> world.Quiet() && WellFormed(d0) && SourceHolds(d0, plan) && InPlace(d0, world.disk, plan, outputs, |outputs|)
    requires a <= |world.log| && u <= |world.deeds| && Sofar(world.log, a, world.deeds, u, plans, rest, d0, plan)
    requires OutputsFrom(world.log, a, world.deeds, u, plans, plan, outputs)
    requires done == StampBytes(plan.held[..|outputs|]) && report.Contents() == CountedUpTo(t, plan.entries, |outputs|)
    modifies world, report
    ensures world.Advanced() && Sofar(world.log, a, world.deeds, u, plans, rest, d0, plan)
    ensures Bounded(world.reported, start, meter)
    ensures r.Ok? ==> OutputsFrom(world.log, a, world.deeds, u, plans, plan, outputs + [r.value])
    ensures r.Ok? ==> RecordsSofar(plan, outputs + [r.value]) && done' == StampBytes(plan.held[..|outputs| + 1])
    ensures r.Ok? ==> Told(world.reported, start, meter, last, done')
    ensures rest && r.Ok? ==> InPlace(d0, world.disk, plan, outputs + [r.value], |outputs| + 1)
    ensures rest && old(world.Faultless()) && serial <= old(world.serial) && Feasible(d0, plan, serial) ==> r.Ok?
    ensures report.moveSource == old(report.moveSource)
    ensures if r.Ok? then report.Contents() == CountedUpTo(t, plan.entries, |outputs| + 1)
            else StoppedAt(t, report.Contents(), plan, |outputs|)
  {
    if serial <= world.serial {
      FeasibleOn(d0, plan, serial, world.serial);
    }
    ghost var n, log, deeds := |outputs|, world.log, world.deeds;
    r, done' := CopyNext(world, plan, outputs, meter, done, plans, start, last, rest, d0);
    PlanShapes(plan);
    SofarOn(log, world.log, a, |log|, deeds, world.deeds, u, plans, rest, d0, plan);
    assert plan.held[..n + 1][..n] == plan.held[..n];
    CountedNext(t, plan.entries, n);
    var entry := plan.held[|outputs|].entry;
    if r.Ok? {
      InLogHolds(world);
      OutputsMore(log, a, deeds, u, plans, world.log, world.deeds, plan, outputs, r.value);
      report.CountCopied(entry);
    } else {
      report.AddFailure(entry, plan.source.path + entry.relative);
    }
  }

  /** The loop of `copy_files`. */
  method CopyLoop(world: World, plan: Plan, meter: Meter, report: MigrationReport, ghost plans: seq<Plan>, ghost start: nat, ghost last: nat, ghost rest: bool)
    returns (r: Result<seq<Held>>)
    requires world.Valid() && meter.Sane() && Prepared(plan) && plan in plans
    requires Told(world.reported, start, meter, last, 0)
    requires rest ==> world.Quiet() && SourceHolds(world.disk, plan)
    modifies world, report
    ensures world.Advanced() && Sofar(world.log, |old(world.log)|, world.deeds, |old(world.deeds)|, plans, rest, old(world.disk), plan)
    ensures Bounded(world.reported, start, meter)
    ensures r.Ok? ==> RecordsSofar(plan, r.value) && |r.value| == |plan.held|
    ensures r.Ok? ==> OutputsFrom(world.log, |old(world.log)|, world.deeds, |old(world.deeds)|, plans, plan, r.value)
    ensures r.Ok? ==> Told(world.reported, start, meter, last, StampBytes(plan.held))
    ensures rest && r.Ok? ==> InPlace(old(world.disk), world.disk, plan, r.value, |plan.held|)
    ensures rest && old(world.Faultless()) && Feasible(old(world.disk), plan, old(world.serial)) ==> r.Ok?
    ensures report.moveSource == old(report.moveSource)
    ensures r.Ok? ==> report.Contents() == CountedUpTo(old(report.Contents()), plan.entries, |plan.entries|)
    ensures r.Err? ==> exists n :: StoppedAt(old(report.Contents()), report.Contents(), plan, n)
  {
    world.Sound();
    ghost var a, u, d0, t := |world.log|, |world.deeds|, world.disk, report.Contents();
    PlanShapes(plan);
    var outputs: seq<Held> := [];
    var done := 0;
    if rest {
      NothingLaid(d0, plan);
    }
    NoDeeds(world, a, u, plans);
    while |outputs| < |plan.held|
      invariant world.Advanced() && a <= |world.log| && Sofar(world.log, a, world.deeds, u, plans, rest, d0, plan) && RecordsSofar(plan, outputs)
      invariant OutputsFrom(world.log, a, world.deeds, u, plans, plan, outputs)
      invariant done == StampBytes(plan.held[..|outputs|]) && Told(world.reported, start, meter, last, done)
      invariant rest ==> InPlace(d0, world.disk, plan, outputs, |outputs|)
      invariant report.Contents() == CountedUpTo(t, plan.entries, |outputs|) && report.moveSource == old(report.moveSource)
    {
      var out;
      out, done := CopyAndCount(world, plan, outputs, meter, done, report, plans, start, last, rest, d0, old(world.serial), a, u, t);
      if out.Err? {
        return Err(out.fault);
      }
      outputs := outputs + [out.value];
    }
    assert plan.held[..|plan.held|] == plan.held;
    ToldBounded(world.reported, start, meter, last, done);
    return Ok(outputs);
  }

  lemma FeasibleOn(d: Disk, plan: Plan, serial: nat, serial': nat)
    requires serial <= serial'
    ensures Feasible(d, plan, serial) ==> Feasible(d, plan, serial')
  {
  }

  /** `copy_files`. */
  method CopyFiles(world: World, plan: Plan, meter: Meter, report: MigrationReport, ghost plans: seq<Plan>, ghost start: nat, ghost last: nat, ghost rest: bool)
    returns (r: Result<seq<Held>>)
    requires world.Valid() && meter.Sane() && Prepared(plan) && plan in plans
    requires Told(world.reported, start, meter, last, 0)
    requires rest ==> world.Quiet()
    modifies world, report
    ensures world.Advanced() && Sofar(world.log, |old(world.log)|, world.deeds, |old(world.deeds)|, plans, rest, old(world.disk), plan)
    ensures Bounded(world.reported, start, meter)
    ensures r.Ok? ==> RecordsSofar(plan, r.value) && |r.value| == |plan.held|
    ensures r.Ok? ==> OutputsFrom(world.log, |old(world.log)|, world.deeds, |old(world.deeds)|, plans, plan, r.value)
    ensures r.Ok? ==> Told(world.reported, start, meter, last, StampBytes(plan.held))
    ensures rest && (r.Ok? || world.deeds != old(world.deeds)) ==> SourceHolds(old(world.disk), plan)
    ensures rest && r.Ok? ==> InPlace(old(world.disk), world.disk, plan, r.value, |plan.held|)
    ensures rest && old(world.Faultless()) && Feasible(old(world.disk), plan, old(world.serial)) ==> r.Ok?
    ensures report.moveSource == old(report.moveSource)
    ensures r.Ok? ==> report.Contents() == CountedUpTo(old(report.Contents()), plan.entries, |plan.entries|)
    ensures r.Err? ==> exists n :: StoppedAt(old(report.Contents()), report.Contents(), plan, n)
  {
    world.Sound();
    ghost var a, u, d0, t := |world.log|, |world.deeds|, world.disk, report.Contents();
    ToldBounded(world.reported, start, meter, last, 0);
    assert plan.entries[..0] == [] && StoppedAt(t, t, plan, 0);
    var verified := VerifyTargetsAndSource(world, plan, rest);
    NoDeeds(world, a, u, plans);
    if verified.Err? {
      assert report.Contents() == t;
      return Err(verified.fault);
    }
    ghost var log := world.log;
    r := CopyLoop(world, plan, meter, report, plans, start, last, rest);
    if r.Ok? {
      InLogHolds(world);
      OutputsStay(world.log, |log|, world.deeds, u, plans, world.log, a, world.deeds, u, plan, r.value);
    }
    SofarFrom(world.log, a, |log|, world.deeds, u, plans, rest, d0, plan);
  }

  lemma SofarFrom(log: seq<Instant>, a: nat, a': nat, deeds: seq<nat>, u: nat, plans: seq<Plan>, rest: bool, d: Disk, plan: Plan)
    requires a <= a' && Sofar(log, a', deeds, u, plans, rest, d, plan)
    ensures Sofar(log, a, deeds, u, plans, rest, d, plan)
  {
    SofarMeans(log, a', deeds, u, plans, rest, d, plan);
    CareFrom(log, a, a', deeds, u, plans);
  }

  /** What `copy_files` checks before it copies anything. */
  method VerifyTargetsAndSource(world: World, plan: Plan, ghost rest: bool) returns (r: Result<()>)
    requires world.Valid() && Prepared(plan) && (rest ==> world.Quiet())
    modifies world
    ensures world.Looked()
    ensures rest && r.Ok? ==> SourceHolds(world.disk, plan)
    ensures rest && old(world.Faultless()) && SourceHolds(old(world.disk), plan) ==>
              Compatible(old(world.disk), plan.destination.path, plan.entries) ==> r.Ok?
  {
    PreparedMeans(plan);
    var blame;
    r, blame := VerifySource(world, plan);
    if r.Err? {
      return;
    }
    if rest {
      world.AtRest();
      SourceAtRest(world.log, |old(world.log)|, plan, world.disk);
    }
    r := CheckTargets(world, plan.destination, plan.entries);
  }
}
