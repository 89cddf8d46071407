/** A batch: copy every plan, verify every plan again, and commit once. */
module Batches {
  import opened Outcomes
  import opened Disks
  import opened Worlds
  import opened Effects
  import opened Retained
  import opened Paths
  import opened Scans
  import opened Plans
  import opened Checks
  import opened Preparing
  import opened Publishing
  import opened Meters
  import opened Staging
  import opened Copying
  import opened Entries
  import opened Overlays
  import opened Reports
  import opened Copies
  import opened Verifying

  function TotalBytes(plans: seq<Plan>): nat {
    if plans == [] then 0 else TotalBytes(plans[..|plans| - 1]) + plans[|plans| - 1].bytes
  }

  function TotalFiles(plans: seq<Plan>): nat {
    if plans == [] then 0 else TotalFiles(plans[..|plans| - 1]) + plans[|plans| - 1].files
  }

  lemma {:induction false} PrefixTotals(plans: seq<Plan>, n: nat)
    requires n <= |plans|
    ensures TotalBytes(plans[..n]) <= TotalBytes(plans) && TotalFiles(plans[..n]) <= TotalFiles(plans)
    decreases |plans|
  {
    if n < |plans| {
      var front := plans[..|plans| - 1];
      assert front[..n] == plans[..n];
      PrefixTotals(front, n);
    } else {
      assert plans[..n] == plans;
    }
  }

  lemma NextTotals(plans: seq<Plan>, n: nat)
    requires n < |plans|
    ensures TotalBytes(plans[..n + 1]) == TotalBytes(plans[..n]) + plans[n].bytes
    ensures TotalFiles(plans[..n + 1]) == TotalFiles(plans[..n]) + plans[n].files
  {
    assert plans[..n + 1][..n] == plans[..n];
  }

  /** `checked_add`. */
  function CheckedAdd(a: nat, b: nat): Result<nat> {
    if a + b <= U64_MAX then Ok(a + b) else Err(Other)
  }

  method SumBytes(plans: seq<Plan>) returns (r: Result<nat>)
    ensures r.Ok? <==> TotalBytes(plans) <= U64_MAX
    ensures r.Ok? ==> r.value == TotalBytes(plans)
  {
    var total := 0;
    for k := 0 to |plans|
      invariant total == TotalBytes(plans[..k]) <= U64_MAX
    {
      NextTotals(plans, k);
      PrefixTotals(plans, k + 1);
      total :- CheckedAdd(total, plans[k].bytes);
    }
    assert plans[..|plans|] == plans;
    return Ok(total);
  }

  // ---------- the state between plans ----------

  ghost predicate AllPrepared(plans: seq<Plan>) {
    forall plan | plan in plans :: Prepared(plan)
  }

  ghost predicate AllHeldAt(d: Disk, plans: seq<Plan>) {
    forall plan | plan in plans :: SourceHolds(d, plan)
  }

  /** No source overlaps a destination, and no two destinations overlap. */
  ghost predicate Apart(plans: seq<Plan>) {
    && (forall i, j | 0 <= i < |plans| && 0 <= j < |plans| :: !Overlaps(plans[i].destination.path, plans[j].source.path))
    && (forall i, j | 0 <= i < |plans| && 0 <= j < |plans| && i != j :: !Overlaps(plans[i].destination.path, plans[j].destination.path))
  }

  /** Mentioning this unfolds the predicates on batches, which are kept folded elsewhere to keep proofs small. */
  ghost predicate UnfoldPlans(plans: seq<Plan>, once: nat) {
    true
  }

  ghost predicate Carried(d: Disk, plans: seq<Plan>, copied: seq<seq<Held>>, serial: nat) {
    forall once: nat {:trigger UnfoldPlans(plans, once)} :: UnfoldPlans(plans, once) ==> CarriedSofar(d, plans, copied, serial)
  }

  /** The first plans are carried out on `d`, and the others can be. */
  ghost predicate CarriedSofar(d: Disk, plans: seq<Plan>, copied: seq<seq<Held>>, serial: nat) {
    && |copied| <= |plans|
    && (forall i | 0 <= i < |copied| :: CopyHolds(d, plans[i], copied[i]))
    && (forall i | |copied| <= i < |plans| :: Feasible(d, plans[i], serial))
  }

  lemma CopyHoldsOnce(d0: Disk, d: Disk, plan: Plan, outputs: seq<Held>)
    requires WellFormed(d0) && SoundPlan(plan) && SourceHolds(d0, plan) && OutputsInPlace(d0, d, plan, outputs, |plan.held|)
    ensures CopyHolds(d, plan, outputs)
  {
    WantedStays(d0, d, plan, |plan.held|);
    forall i | 0 <= i < |outputs| ensures TargetHolds(d, plan, plan.held[i], outputs[i]) {
      var h, out := plan.held[i], outputs[i];
      assert OutputHolds(d, plan.destination.path, out);
      assert View(d, Target(plan, h)) == Wanted(d0, h) == Wanted(d, h);
      assert EntryHolds(d, plan.source.path, h);
    }
  }

  lemma CopyHoldsBeside(d: Disk, e: Disk, root: Path, plan: Plan, outputs: seq<Held>)
    requires WellFormed(d) && Beside(d, e, root) && CopyHolds(d, plan, outputs)
    requires !Overlaps(root, plan.source.path) && !Overlaps(root, plan.destination.path)
    ensures CopyHolds(e, plan, outputs)
  {
    SourceBeside(d, e, root, plan);
    forall i | 0 <= i < |outputs| ensures TargetHolds(e, plan, plan.held[i], outputs[i]) {
      var h, out := plan.held[i], outputs[i];
      assert TargetHolds(d, plan, h, out) && EntryHolds(d, plan.source.path, h) && EntryHolds(e, plan.source.path, h);
      ApartBeside(root, plan.destination.path, out.entry.relative);
      MetaBeside(d, e, plan.destination.path + out.entry.relative);
      ApartBeside(root, plan.source.path, h.entry.relative);
      MetaBeside(d, e, plan.source.path + h.entry.relative);
    }
  }

  lemma CarriedMore(d: Disk, e: Disk, plans: seq<Plan>, copied: seq<seq<Held>>, outputs: seq<Held>, serial: nat)
    requires WellFormed(d) && Apart(plans) && AllPrepared(plans) && |copied| < |plans| && Carried(d, plans, copied, serial)
    requires InPlace(d, e, plans[|copied|], outputs, |plans[|copied|].held|)
    ensures Carried(e, plans, copied + [outputs], serial)
  {
    assert UnfoldPlans(plans, 0);
    var n := |copied|;
    var plan := plans[n];
    var root := plan.destination.path;
    PreparedMeans(plan);
    InPlaceMeans(d, e, plan, outputs, |plan.held|);
    LaidBeside(d, e, plan, |plan.held|);
    CopyHoldsOnce(d, e, plan, outputs);
    forall i | 0 <= i < n ensures CopyHolds(e, plans[i], copied[i]) {
      CopyHoldsBeside(d, e, root, plans[i], copied[i]);
    }
    forall i | n < i < |plans| ensures Feasible(e, plans[i], serial) {
      assert Feasible(d, plans[i], serial);
      SourceBeside(d, e, root, plans[i]);
      CompatibleBeside(d, e, root, plans[i].destination.path, plans[i].entries);
    }
  }

  // ---------- the report ----------

  /** After the first `n` plans, everything is counted and nothing has failed. */
  ghost predicate CountedPlans(t: Tally, plans: seq<Plan>, n: nat)
    requires n <= |plans|
  {
    t == Tally(TotalFiles(plans), TotalFiles(plans[..n]), TotalBytes(plans[..n]), [], [])
  }

  /** The books balance: no file is counted twice, and there is an error in one of the lists. */
  ghost predicate Stopped(t: Tally, plans: seq<Plan>) {
    && t.total == TotalFiles(plans) && t.copied + |t.failed| <= t.total && t.bytes <= TotalBytes(plans)
    && (t.failed == [] || t.errors == [])
  }

  lemma StoppedInPlan(t: Tally, t': Tally, plans: seq<Plan>, n: nat, k: nat)
    requires n < |plans| && SoundPlan(plans[n]) && CountedPlans(t, plans, n) && StoppedAt(t, t', plans[n], k)
    ensures Stopped(t', plans)
  {
    NextTotals(plans, n);
    PrefixTotals(plans, n + 1);
    PrefixCounts(plans[n].entries, k);
    assert k == 0 ==> plans[n].entries[..k] == [];
  }

  lemma CountedPlan(t: Tally, t': Tally, plans: seq<Plan>, n: nat)
    requires n < |plans| && SoundPlan(plans[n]) && CountedPlans(t, plans, n) && t' == CountedUpTo(t, plans[n].entries, |plans[n].entries|)
    ensures CountedPlans(t', plans, n + 1)
  {
    NextTotals(plans, n);
    assert plans[n].entries[..|plans[n].entries|] == plans[n].entries;
  }

  // ---------- the last report ----------

  /** What was captured is no longer than what was listed; so it is for every plan that was copied. */
  ghost predicate StampsFit(held: seq<Held>) {
    forall h | h in held :: StampFits(h)
  }

  lemma {:induction false} StampBytesFit(held: seq<Held>, entries: seq<Entry>)
    requires Records(held, entries) && StampsFit(held)
    ensures StampBytes(held) <= Bytes(entries)
    ensures StampBytes(held) == Bytes(entries) <==> SizesAgree(held)
    decreases |held|
  {
    if held != [] {
      var n := |held| - 1;
      assert held[n] in held && held == held[..n] + [held[n]];
      StampBytesFit(held[..n], entries[..n]);
    }
  }

  ghost predicate AllStampsFit(plans: seq<Plan>) {
    forall plan | plan in plans :: StampsFit(plan.held)
  }

  /** What the last report of a batch names, if all its plans were copied: files without bytes are not reported. */
  function LastLevel(plans: seq<Plan>): nat {
    if plans == [] then 0 else
      var front, plan := plans[..|plans| - 1], plans[|plans| - 1];
      if StampBytes(plan.held) > 0 then TotalBytes(front) + StampBytes(plan.held) else LastLevel(front)
  }

  /** The last plan with something to report was captured as it was listed, and nothing was listed to be copied after it. */
  ghost predicate ReportsAll(plans: seq<Plan>) {
    plans == [] ||
    var front, plan := plans[..|plans| - 1], plans[|plans| - 1];
    if StampBytes(plan.held) > 0 then SizesAgree(plan.held) else plan.bytes == 0 && ReportsAll(front)
  }

  /** The last report names the total exactly then. */
  lemma {:induction false} LastLevelIs(plans: seq<Plan>)
    requires AllPrepared(plans) && AllStampsFit(plans)
    ensures LastLevel(plans) <= TotalBytes(plans)
    ensures LastLevel(plans) == TotalBytes(plans) <==> ReportsAll(plans)
  {
    if plans != [] {
      var front, plan := plans[..|plans| - 1], plans[|plans| - 1];
      assert plan in plans && forall p :: p in front ==> p in plans;
      LastLevelIs(front);
      PreparedMeans(plan);
      StampBytesFit(plan.held, plan.entries);
      assert TotalBytes(plans) == TotalBytes(front) + plan.bytes;
    }
  }

  /** For one plan: exactly if every file was captured as it was listed. */
  lemma OneReportsAll(plan: Plan)
    requires Prepared(plan) && StampsFit(plan.held)
    ensures ReportsAll([plan]) <==> SizesAgree(plan.held)
  {
    PreparedMeans(plan);
    StampBytesFit(plan.held, plan.entries);
    assert [plan][..0] == [];
  }

  /** On a disk at rest a source that is as recorded has the sizes that were listed. */
  lemma HeldSizesAgree(d: Disk, plan: Plan)
    requires Shaped(plan) && SourceHolds(d, plan)
    ensures SizesAgree(plan.held) && forall h | h in plan.held :: StampFits(h)
  {
    forall h | h in plan.held && !h.entry.directory ensures h.stamp.Some? && h.stamp.value.size == h.entry.size {
      var i :| 0 <= i < |plan.held| && plan.held[i] == h;
      assert plan.entries[i] in plan.entries && Matches(d, plan.source.path, plan.entries[i]);
      assert EntryHolds(d, plan.source.path, h) && StampHolds(d, h);
    }
    forall h | h in plan.held && h.stamp.Some? ensures h.stamp.value.size == h.entry.size {
      var i :| 0 <= i < |plan.held| && plan.held[i] == h;
    }
  }

  /** So at rest nothing falls short. */
  lemma {:induction false} HeldReportsAll(d: Disk, plans: seq<Plan>)
    requires AllPrepared(plans) && AllHeldAt(d, plans)
    ensures ReportsAll(plans)
  {
    if plans != [] {
      var front, plan := plans[..|plans| - 1], plans[|plans| - 1];
      assert plan in plans && forall p :: p in front ==> p in plans;
      HeldReportsAll(d, front);
      PreparedMeans(plan);
      HeldSizesAgree(d, plan);
      StampBytesFit(plan.held, plan.entries);
    }
  }

  // ---------- copying all plans ----------

  ghost predicate Between(d0: Disk, d: Disk, plans: seq<Plan>) {
    forall once: nat {:trigger UnfoldPlans(plans, once)} :: UnfoldPlans(plans, once) ==> BetweenPlans(d0, d, plans)
  }

  /** What is true between two plans of a batch on a disk at rest. */
  ghost predicate BetweenPlans(d0: Disk, d: Disk, plans: seq<Plan>) {
    WellFormed(d0) && Grows(d0, d) && WellFormed(d) && AllHeldAt(d0, plans) && Midway(d0, d, plans) && OnlyTargets(d0, d, plans)
  }

  lemma BetweenStart(d: Disk, plans: seq<Plan>)
    requires WellFormed(d) && AllHeldAt(d, plans)
    ensures Between(d, d, plans)
  {
    forall q: Path ensures SameAt(d, d, q) {
    }
  }

  lemma BetweenNext(d0: Disk, d: Disk, e: Disk, plans: seq<Plan>, n: nat, outputs: seq<Held>)
    requires Between(d0, d, plans) && n < |plans| && Prepared(plans[n]) && SourceHolds(d, plans[n])
    requires Grows(d, e) && WellFormed(e) && InPlace(d, e, plans[n], outputs, |plans[n].held|)
    ensures Between(d0, e, plans)
  {
    assert UnfoldPlans(plans, 0);
    var plan := plans[n];
    InPlaceMeans(d, e, plan, outputs, |plan.held|);
    GrowsTransitively(d0, d, e);
    LaidMidway(d, e, plan, |plan.held|);
    WantedSame(d0, d, plan);
    forall p, h | p in plans && h in p.held ensures Wanted(d0, h) != Absent {
      assert EntryHolds(d0, p.source.path, h);
    }
    MidwayOnwards(d0, d, e, plan, plans);
    OnlyTargetsOnwards(d0, d, e, plan, plans);
  }
  /** At rest, what one plan does keeps the whole batch midway. */
  lemma PlanMidway(log: seq<Instant>, deeds: seq<nat>, u: nat, d0: Disk, d: Disk, plan: Plan, plans: seq<Plan>)
    requires WellFormed(d0) && Grows(d0, d) && AllHeldAt(d0, plans) && plan in plans && SourceHolds(d, plan)
    requires Midway(d0, d, plans) && MidwayThroughout(log, deeds, u, d, [plan])
    ensures MidwayThroughout(log, deeds, u, d0, plans)
  {
    WantedSame(d0, d, plan);
    forall p, h | p in plans && h in p.held ensures Wanted(d0, h) != Absent {
      assert EntryHolds(d0, p.source.path, h);
    }
    forall k | u <= k < |deeds| ensures deeds[k] < |log| && Midway(d0, log[deeds[k]].after, plans) {
      MidwayOnwards(d0, d, log[deeds[k]].after, plan, plans);
    }
  }

  /** The run of the batch so far was done with care, and stays midway; kept folded. */
  ghost predicate BatchSofar(log: seq<Instant>, a: nat, deeds: seq<nat>, u: nat, plans: seq<Plan>, rest: bool, d0: Disk) {
    forall once: nat {:trigger UnfoldPlans(plans, once)} :: UnfoldPlans(plans, once) ==>
      Careful(log, a, deeds, u, plans) && (rest ==> MidwayThroughout(log, deeds, u, d0, plans))
  }

  lemma BatchSofarOn(log: seq<Instant>, log': seq<Instant>, a: nat, a': nat, deeds: seq<nat>, deeds': seq<nat>, u: nat,
                     plans: seq<Plan>, rest: bool, d0: Disk, d: Disk, plan: Plan)
    requires log <= log' && deeds <= deeds' && u <= |deeds| && a <= a' && plan in plans
    requires BatchSofar(log, a, deeds, u, plans, rest, d0) && Sofar(log', a', deeds', |deeds|, plans, rest, d, plan)
    requires rest ==> Between(d0, d, plans) && (deeds != deeds' ==> SourceHolds(d, plan))
    ensures BatchSofar(log', a, deeds', u, plans, rest, d0)
  {
    assert UnfoldPlans(plans, 0);
    SofarMeans(log', a', deeds', |deeds|, plans, rest, d, plan);
    CareContinues(log, a, deeds, u, plans, log', a', deeds', |deeds|, plans);
    if rest {
      if deeds != deeds' {
        PlanMidway(log', deeds', |deeds|, d0, d, plan, plans);
      }
      MidwayOn(log, log', deeds, deeds', u, d0, plans);
    }
  }

  lemma CarriedNext(d: Disk, plans: seq<Plan>, copied: seq<seq<Held>>, serial: nat, serial': nat)
    requires Carried(d, plans, copied, serial) && |copied| < |plans| && serial <= serial'
    ensures Feasible(d, plans[|copied|], serial')
  {
    assert UnfoldPlans(plans, 0);
    FeasibleOn(d, plans[|copied|], serial, serial');
  }

  lemma CountedAfter(t: Tally, t': Tally, plans: seq<Plan>, n: nat, ok: bool)
    requires AllPrepared(plans) && n < |plans| && CountedPlans(t, plans, n)
    requires if ok then t' == CountedUpTo(t, plans[n].entries, |plans[n].entries|) else exists k :: StoppedAt(t, t', plans[n], k)
    ensures if ok then CountedPlans(t', plans, n + 1) else Stopped(t', plans)
  {
    PreparedMeans(plans[n]);
    if ok {
      CountedPlan(t, t', plans, n);
    } else {
      var k :| StoppedAt(t, t', plans[n], k);
      StoppedInPlan(t, t', plans, n, k);
    }
  }

  /** Mentioning this unfolds `ToldUpTo`, which is kept folded elsewhere to keep proofs small. */
  ghost predicate UnfoldTold(n: nat, once: nat) {
    true
  }

  /** After `n` plans the last report is the one it should be, and it stays within what they may reach. */
  ghost predicate ToldUpTo(reported: seq<(nat, nat)>, start: nat, plans: seq<Plan>, n: nat) {
    forall once: nat {:trigger UnfoldTold(n, once)} :: UnfoldTold(n, once) ==>
      n <= |plans| && Rising(reported, start, LastLevel(plans[..n]), TotalBytes(plans), true) && LastLevel(plans[..n]) <= TotalBytes(plans[..n])
  }

  function MeterOf(plans: seq<Plan>, n: nat): Meter
    requires n < |plans|
  {
    Meter(TotalBytes(plans[..n]), plans[n].bytes, TotalBytes(plans))
  }

  lemma MeterStarts(plans: seq<Plan>, n: nat, reported: seq<(nat, nat)>, start: nat)
    requires n < |plans| && TotalBytes(plans) <= U64_MAX && ToldUpTo(reported, start, plans, n)
    ensures Told(reported, start, MeterOf(plans, n), LastLevel(plans[..n]), 0)
  {
    assert UnfoldTold(n, 0);
    NextTotals(plans, n);
    PrefixTotals(plans, n + 1);
  }

  /** Within the batch, the reports stay below the total. */
  lemma MeterBounded(plans: seq<Plan>, n: nat, reported: seq<(nat, nat)>, start: nat)
    requires n < |plans| && Bounded(reported, start, MeterOf(plans, n))
    ensures Rising(reported, start, TotalBytes(plans), TotalBytes(plans), false)
  {
    RisingMore(reported, start, MeterOf(plans, n).completed + MeterOf(plans, n).bytes, TotalBytes(plans), TotalBytes(plans), false);
  }

  lemma RecordedFit(plan: Plan, outputs: seq<Held>)
    requires RecordsSofar(plan, outputs) && |outputs| == |plan.held|
    ensures StampsFit(plan.held)
  {
    forall h | h in plan.held ensures StampFits(h) {
      var i :| 0 <= i < |plan.held| && plan.held[i] == h;
      assert outputs[i].entry == plan.held[i].entry;
    }
  }

  /** The level that one more plan leaves. */
  lemma NextLevel(plans: seq<Plan>, n: nat)
    requires AllPrepared(plans) && n < |plans| && StampsFit(plans[n].held) && LastLevel(plans[..n]) <= TotalBytes(plans[..n])
    ensures var bytes := StampBytes(plans[n].held);
            && LastLevel(plans[..n + 1]) == (if bytes == 0 then LastLevel(plans[..n]) else TotalBytes(plans[..n]) + bytes)
            && LastLevel(plans[..n + 1]) <= TotalBytes(plans[..n + 1]) && bytes <= plans[n].bytes
  {
    PreparedMeans(plans[n]);
    StampBytesFit(plans[n].held, plans[n].entries);
    NextTotals(plans, n);
    assert plans[..n + 1][..n] == plans[..n];
  }

  /** A plan that has been copied leaves the level it should. */
  lemma MeterEnds(plans: seq<Plan>, n: nat, before: seq<(nat, nat)>, reported: seq<(nat, nat)>, start: nat, outputs: seq<Held>)
    requires AllPrepared(plans) && n < |plans| && RecordsSofar(plans[n], outputs) && |outputs| == |plans[n].held|
    requires ToldUpTo(before, start, plans, n)
    requires Told(reported, start, MeterOf(plans, n), LastLevel(plans[..n]), StampBytes(plans[n].held))
    ensures ToldUpTo(reported, start, plans, n + 1)
  {
    assert UnfoldTold(n, 0);
    RecordedFit(plans[n], outputs);
    NextLevel(plans, n);
    MeterOf(plans, n).LevelIs(StampBytes(plans[n].held));
  }

  /** One plan of the batch. */
  method CopyPlan(world: World, plans: seq<Plan>, copied: seq<seq<Held>>, report: MigrationReport, ghost start: nat, ghost rest: bool,
                  ghost d0: Disk, ghost serial: nat, ghost a: nat, ghost u: nat)
    returns (r: Result<seq<Held>>)
    requires world.Valid() && AllPrepared(plans) && |copied| < |plans| && TotalBytes(plans) <= U64_MAX
    requires CountedPlans(report.Contents(), plans, |copied|)
    requires ToldUpTo(world.reported, start, plans, |copied|)
    requires a <= |world.log| && u <= |world.deeds| && BatchSofar(world.log, a, world.deeds, u, plans, rest, d0)
    requires rest ==> world.Quiet() && Between(d0, world.disk, plans)
    modifies world, report
    ensures world.Advanced() && BatchSofar(world.log, a, world.deeds, u, plans, rest, d0)
    ensures Rising(world.reported, start, TotalBytes(plans), TotalBytes(plans), false)
    ensures r.Ok? ==> RecordsSofar(plans[|copied|], r.value) && |r.value| == |plans[|copied|].held|
    ensures r.Ok? ==> OutputsFrom(world.log, |old(world.log)|, world.deeds, |old(world.deeds)|, plans, plans[|copied|], r.value)
    ensures r.Ok? ==> ToldUpTo(world.reported, start, plans, |copied| + 1)
    ensures if r.Ok? then CountedPlans(report.Contents(), plans, |copied| + 1) else Stopped(report.Contents(), plans)
    ensures report.moveSource == old(report.moveSource)
    ensures rest && r.Ok? ==> Between(d0, world.disk, plans)
    ensures rest && old(world.Faultless()) && serial <= old(world.serial) && Apart(plans) && Carried(old(world.disk), plans, copied, serial) ==>
              r.Ok? && Carried(world.disk, plans, copied + [r.value], serial)
  {
    world.Sound();
    ghost var n, d, log, deeds, t := |copied|, world.disk, world.log, world.deeds, report.Contents();
    ghost var reported := world.reported;
    MeterStarts(plans, n, reported, start);
    if Carried(d, plans, copied, serial) && serial <= world.serial {
      CarriedNext(d, plans, copied, serial, world.serial);
    }
    r := CopyFiles(world, plans[|copied|], MeterOf(plans, |copied|), report, plans, start, LastLevel(plans[..n]), rest);
    MeterBounded(plans, n, world.reported, start);
    if r.Ok? {
      MeterEnds(plans, n, reported, world.reported, start, r.value);
    }
    CountedAfter(t, report.Contents(), plans, n, r.Ok?);
    BatchSofarOn(log, world.log, a, |log|, deeds, world.deeds, u, plans, rest, d0, d, plans[n]);
    if rest && r.Ok? {
      world.Grown();
      BetweenNext(d0, d, world.disk, plans, n, r.value);
      if Apart(plans) && Carried(d, plans, copied, serial) {
        CarriedMore(d, world.disk, plans, copied, r.value, serial);
      }
    }
  }
}
