/** The whole batch, `copy_batch_retaining_source_with_report`, and what it guarantees. */
module Commits {
  import opened Outcomes
  import opened Disks
  import opened Worlds
  import opened Effects
  import opened Paths
  import opened Scans
  import opened Plans
  import opened Checks
  import opened Preparing
  import opened Publishing
  import opened Meters
  import opened Copying
  import opened Entries
  import opened Overlays
  import opened Reports
  import opened Copies
  import opened Verifying
  import opened Batches

  /** The records of all plans belong to their entries. */
  ghost predicate AllRecorded(plans: seq<Plan>, copied: seq<seq<Held>>) {
    |copied| <= |plans| && forall i | 0 <= i < |copied| :: RecordsSofar(plans[i], copied[i]) && |copied[i]| == |plans[i].held|
  }

  lemma RecordedAllFit(plans: seq<Plan>, copied: seq<seq<Held>>)
    requires AllRecorded(plans, copied) && |copied| == |plans|
    ensures AllStampsFit(plans)
  {
    forall plan | plan in plans ensures StampsFit(plan.held) {
      var i :| 0 <= i < |plans| && plans[i] == plan;
      RecordedFit(plan, copied[i]);
    }
  }

  /** Mentioning this unfolds `AllFrom`, which is kept folded elsewhere to keep proofs small. */
  ghost predicate UnfoldFrom(copied: seq<seq<Held>>, once: nat) {
    true
  }

  /** The outputs recorded for every plan are what this run published, or saw as directories, where they go. */
  ghost predicate AllFrom(log: seq<Instant>, a: nat, deeds: seq<nat>, u: nat, plans: seq<Plan>, copied: seq<seq<Held>>) {
    forall once: nat {:trigger UnfoldFrom(copied, once)} :: UnfoldFrom(copied, once) ==>
      AllRecorded(plans, copied) && forall i | 0 <= i < |copied| :: OutputsFrom(log, a, deeds, u, plans, plans[i], copied[i])
  }

  lemma AllFromMeans(log: seq<Instant>, a: nat, deeds: seq<nat>, u: nat, plans: seq<Plan>, copied: seq<seq<Held>>)
    requires AllFrom(log, a, deeds, u, plans, copied)
    ensures AllRecorded(plans, copied) && forall i | 0 <= i < |copied| :: OutputsFrom(log, a, deeds, u, plans, plans[i], copied[i])
  {
    assert UnfoldFrom(copied, 0);
  }

  lemma AllFromStay(log: seq<Instant>, log': seq<Instant>, a: nat, a': nat, deeds: seq<nat>, deeds': seq<nat>, u: nat, plans: seq<Plan>, copied: seq<seq<Held>>)
    requires log <= log' && deeds <= deeds' && InLog(log', deeds') && a' <= a && AllFrom(log, a, deeds, u, plans, copied)
    ensures AllFrom(log', a', deeds', u, plans, copied)
  {
    assert UnfoldFrom(copied, 0);
    forall i | 0 <= i < |copied| ensures OutputsFrom(log', a', deeds', u, plans, plans[i], copied[i]) {
      OutputsStay(log, a, deeds, u, plans, log', a', deeds', u, plans[i], copied[i]);
    }
  }

  lemma AllFromMore(world: World, log: seq<Instant>, a: nat, deeds: seq<nat>, u: nat, plans: seq<Plan>, copied: seq<seq<Held>>, outputs: seq<Held>)
    requires world.Valid() && log <= world.log && deeds <= world.deeds && a <= |log| && u <= |deeds| && |copied| < |plans|
    requires RecordsSofar(plans[|copied|], outputs) && |outputs| == |plans[|copied|].held|
    requires AllFrom(log, a, deeds, u, plans, copied) && OutputsFrom(world.log, |log|, world.deeds, |deeds|, plans, plans[|copied|], outputs)
    ensures AllFrom(world.log, a, world.deeds, u, plans, copied + [outputs])
  {
    InLogHolds(world);
    AllFromStay(log, world.log, a, a, deeds, world.deeds, u, plans, copied);
    assert UnfoldFrom(copied, 0);
    OutputsStay(world.log, |log|, world.deeds, |deeds|, plans, world.log, a, world.deeds, u, plans[|copied|], outputs);
  }

  /** Mentioning this unfolds `Copying`, which is kept folded elsewhere to keep proofs small. */
  ghost predicate UnfoldCopying(copied: seq<seq<Held>>, once: nat) {
    true
  }

  /** What the copying loop of a batch keeps true of the log, the reports, the counts and a disk at rest. */
  ghost predicate CopyingPlans(log: seq<Instant>, a: nat, deeds: seq<nat>, u: nat, reported: seq<(nat, nat)>, start: nat, plans: seq<Plan>,
                               copied: seq<seq<Held>>, t: Tally, rest: bool, d0: Disk, d: Disk) {
    forall once: nat {:trigger UnfoldCopying(copied, once)} :: UnfoldCopying(copied, once) ==>
      && |copied| <= |plans| && a <= |log| && u <= |deeds| && BatchSofar(log, a, deeds, u, plans, rest, d0)
      && AllFrom(log, a, deeds, u, plans, copied) && ToldUpTo(reported, start, plans, |copied|)
      && CountedPlans(t, plans, |copied|) && (rest ==> Between(d0, d, plans))
  }

  /** The plans copied so far can be completed; kept folded. */
  ghost predicate Live(live: bool, d: Disk, plans: seq<Plan>, copied: seq<seq<Held>>, serial: nat, serial': nat) {
    live ==> serial <= serial' && Apart(plans) && Carried(d, plans, copied, serial)
  }

  /** The next plan of the batch. */
  method CopyNextPlan(world: World, plans: seq<Plan>, copied: seq<seq<Held>>, report: MigrationReport, ghost start: nat, ghost rest: bool,
                      ghost d0: Disk, ghost serial: nat, ghost a: nat, ghost u: nat, ghost live: bool)
    returns (r: Result<seq<Held>>)
    requires world.Valid() && AllPrepared(plans) && |copied| < |plans| && TotalBytes(plans) <= U64_MAX && (rest ==> world.Quiet())
    requires CopyingPlans(world.log, a, world.deeds, u, world.reported, start, plans, copied, report.Contents(), rest, d0, world.disk)
    requires Live(live, world.disk, plans, copied, serial, world.serial) && (live ==> rest && world.Faultless())
    modifies world, report
    ensures world.Advanced() && BatchSofar(world.log, a, world.deeds, u, plans, rest, d0)
    ensures Rising(world.reported, start, TotalBytes(plans), TotalBytes(plans), false)
    ensures r.Ok? ==> CopyingPlans(world.log, a, world.deeds, u, world.reported, start, plans, copied + [r.value], report.Contents(), rest, d0, world.disk)
    ensures r.Ok? ==> Live(live, world.disk, plans, copied + [r.value], serial, world.serial)
    ensures r.Err? ==> Stopped(report.Contents(), plans)
    ensures report.moveSource == old(report.moveSource) && (live ==> r.Ok?)
  {
    assert UnfoldCopying(copied, 0);
    ghost var log, deeds := world.log, world.deeds;
    r := CopyPlan(world, plans, copied, report, start, rest, d0, serial, a, u);
    if r.Ok? {
      AllFromMore(world, log, a, deeds, u, plans, copied, r.value);
    }
  }

  lemma CopyingStarts(world: World, start: nat, plans: seq<Plan>, t: Tally, rest: bool)
    requires world.Valid() && CountedPlans(t, plans, 0) && Rising(world.reported, start, 0, TotalBytes(plans), true)
    requires rest ==> Between(world.disk, world.disk, plans)
    ensures CopyingPlans(world.log, |world.log|, world.deeds, |world.deeds|, world.reported, start, plans, [], t, rest, world.disk, world.disk)
  {
    NothingDone(world, |world.log|, |world.deeds|, plans, rest, world.disk);
    ToldStarts(world.reported, start, plans);
  }

  lemma CopyingEnds(log: seq<Instant>, a: nat, deeds: seq<nat>, u: nat, reported: seq<(nat, nat)>, start: nat, plans: seq<Plan>,
                    copied: seq<seq<Held>>, t: Tally, rest: bool, d0: Disk, d: Disk)
    requires CopyingPlans(log, a, deeds, u, reported, start, plans, copied, t, rest, d0, d) && |copied| == |plans|
    ensures BatchSofar(log, a, deeds, u, plans, rest, d0) && AllRecorded(plans, copied) && AllFrom(log, a, deeds, u, plans, copied)
    ensures Rising(reported, start, LastLevel(plans), TotalBytes(plans), true) && Rising(reported, start, TotalBytes(plans), TotalBytes(plans), false)
    ensures CountedPlans(t, plans, |plans|) && (rest ==> Between(d0, d, plans))
  {
    assert UnfoldCopying(copied, 0);
    ToldEnds(reported, start, plans);
    AllFromMeans(log, a, deeds, u, plans, copied);
  }

  /** The copying loop of the batch. */
  method CopyPlans(world: World, plans: seq<Plan>, report: MigrationReport, ghost start: nat, ghost rest: bool)
    returns (r: Result<seq<seq<Held>>>)
    requires world.Valid() && AllPrepared(plans) && TotalBytes(plans) <= U64_MAX && CountedPlans(report.Contents(), plans, 0)
    requires Rising(world.reported, start, 0, TotalBytes(plans), true)
    requires rest ==> world.Quiet() && Between(world.disk, world.disk, plans)
    modifies world, report
    ensures world.Advanced() && BatchSofar(world.log, |old(world.log)|, world.deeds, |old(world.deeds)|, plans, rest, old(world.disk))
    ensures Rising(world.reported, start, TotalBytes(plans), TotalBytes(plans), false)
    ensures r.Ok? ==> Rising(world.reported, start, LastLevel(plans), TotalBytes(plans), true)
    ensures r.Ok? ==> AllRecorded(plans, r.value) && |r.value| == |plans|
    ensures r.Ok? ==> AllFrom(world.log, |old(world.log)|, world.deeds, |old(world.deeds)|, plans, r.value)
    ensures if r.Ok? then CountedPlans(report.Contents(), plans, |plans|) else Stopped(report.Contents(), plans)
    ensures report.moveSource == old(report.moveSource)
    ensures rest && r.Ok? ==> Between(old(world.disk), world.disk, plans)
    ensures rest && old(world.Faultless()) && Apart(plans) && Carried(old(world.disk), plans, [], old(world.serial)) ==>
              r.Ok? && Carried(world.disk, plans, r.value, old(world.serial))
  {
    ghost var a, u, d0, serial := |world.log|, |world.deeds|, world.disk, world.serial;
    ghost var live := rest && world.Faultless() && Apart(plans) && Carried(d0, plans, [], serial);
    CopyingStarts(world, start, plans, report.Contents(), rest);
    var copied: seq<seq<Held>> := [];
    while |copied| < |plans|
      invariant |copied| <= |plans| && world.Advanced() && report.moveSource == old(report.moveSource)
      invariant CopyingPlans(world.log, a, world.deeds, u, world.reported, start, plans, copied, report.Contents(), rest, d0, world.disk)
      invariant Live(live, world.disk, plans, copied, serial, world.serial)
    {
      var outputs :- CopyNextPlan(world, plans, copied, report, start, rest, d0, serial, a, u, live);
      copied := copied + [outputs];
    }
    CopyingEnds(world.log, a, world.deeds, u, world.reported, start, plans, copied, report.Contents(), rest, d0, world.disk);
    return Ok(copied);
  }

  lemma ToldStarts(reported: seq<(nat, nat)>, start: nat, plans: seq<Plan>)
    requires Rising(reported, start, 0, TotalBytes(plans), true)
    ensures ToldUpTo(reported, start, plans, 0)
  {
    assert plans[..0] == [];
  }

  lemma ToldEnds(reported: seq<(nat, nat)>, start: nat, plans: seq<Plan>)
    requires ToldUpTo(reported, start, plans, |plans|)
    ensures Rising(reported, start, LastLevel(plans), TotalBytes(plans), true) && Rising(reported, start, TotalBytes(plans), TotalBytes(plans), false)
  {
    assert UnfoldTold(|plans|, 0) && plans[..|plans|] == plans;
    RisingMore(reported, start, LastLevel(plans), TotalBytes(plans), TotalBytes(plans), true);
  }

  lemma NothingDone(world: World, a: nat, u: nat, plans: seq<Plan>, rest: bool, d0: Disk)
    requires world.Valid() && u == |world.deeds|
    ensures BatchSofar(world.log, a, world.deeds, u, plans, rest, d0)
  {
    NoDeeds(world, a, u, plans);
  }

  // ---------- the final verification ----------

  ghost predicate AllSeen(log: seq<Instant>, v: nat, plans: seq<Plan>, copied: seq<seq<Held>>, n: nat)
    requires n <= |plans| && n <= |copied|
  {
    forall i | 0 <= i < n :: CopySeen(log, v, plans[i], copied[i])
  }

  lemma AllSeenMore(log: seq<Instant>, log': seq<Instant>, v: nat, plans: seq<Plan>, copied: seq<seq<Held>>, n: nat)
    requires n < |plans| && n < |copied| && log <= log' && v <= |log|
    requires AllSeen(log, v, plans, copied, n) && CopySeen(log', |log|, plans[n], copied[n])
    ensures AllSeen(log', v, plans, copied, n + 1)
  {
    forall i | 0 <= i < n + 1 ensures CopySeen(log', v, plans[i], copied[i]) {
      if i < n {
        CopyStays(log, log', v, v, plans[i], copied[i]);
      } else {
        CopyStays(log', log', v, |log|, plans[n], copied[n]);
      }
    }
  }

  /** A file that had been counted as copied is now listed as failed; nothing saturates. */
  ghost predicate TakenBack(t: Tally, t': Tally, plan: Plan, e: Entry) {
    && e in plan.entries && !e.directory
    && t'.total == t.total && t'.copied + 1 == t.copied && t'.bytes + e.size == t.bytes
    && t'.failed == t.failed + [plan.source.path + e.relative] && t'.errors == t.errors
  }

  lemma FileCounted(entries: seq<Entry>, e: Entry)
    requires e in entries && !e.directory
    ensures Files(entries) >= 1 && Bytes(entries) >= e.size
  {
    var i :| 0 <= i < |entries| && entries[i] == e;
    PrefixCounts(entries, i);
  }

  lemma PlanCounted(plans: seq<Plan>, i: nat, e: Entry)
    requires AllPrepared(plans) && i < |plans| && e in plans[i].entries && !e.directory
    ensures TotalFiles(plans) >= 1 && TotalBytes(plans) >= e.size
  {
    PreparedMeans(plans[i]);
    FileCounted(plans[i].entries, e);
    NextTotals(plans, i);
    PrefixTotals(plans, i + 1);
  }

  /** `plan.entries.iter().any(..)`: the plan has a file at the path the error names. */
  predicate NamesFile(plan: Plan, blame: Entry) {
    !blame.directory && exists e :: e in plan.entries && !e.directory && e.relative == blame.relative
  }

  /** What the error of the final verification does to the report. */
  method ReportBlame(plans: seq<Plan>, i: nat, blame: Option<Entry>, report: MigrationReport)
    requires AllPrepared(plans) && i < |plans| && Blamed(plans[i], blame) && CountedPlans(report.Contents(), plans, |plans|)
    modifies report
    ensures report.Contents() == old(report.Contents()) || exists e :: TakenBack(old(report.Contents()), report.Contents(), plans[i], e)
    ensures report.moveSource == old(report.moveSource)
  {
    if blame.Some? && NamesFile(plans[i], blame.value) {
      assert plans[..|plans|] == plans;
      PlanCounted(plans, i, blame.value);
      ghost var t := report.Contents();
      report.TakeBack(blame.value, plans[i].source.path + blame.value.relative);
      assert TakenBack(t, report.Contents(), plans[i], blame.value);
    }
  }

  /** The loop that verifies every plan once more. */
  method VerifyPlans(world: World, plans: seq<Plan>, copied: seq<seq<Held>>, report: MigrationReport) returns (r: Result<()>)
    requires world.Valid() && AllPrepared(plans) && AllRecorded(plans, copied) && |copied| == |plans|
    requires CountedPlans(report.Contents(), plans, |plans|)
    modifies world, report
    ensures world.Looked()
    ensures r.Ok? ==> AllSeen(world.log, |old(world.log)|, plans, copied, |plans|) && report.Contents() == old(report.Contents())
    ensures r.Err? ==> Stopped(report.Contents(), plans)
    ensures report.moveSource == old(report.moveSource)
    ensures old(world.Quiet() && world.Faultless()) && AllCopied(old(world.disk), plans, copied) ==> r.Ok?
  {
    ghost var v := |world.log|;
    assert plans[..|plans|] == plans;
    for k := 0 to |plans|
      invariant world.Looked() && v <= |world.log| && AllSeen(world.log, v, plans, copied, k)
      invariant report.Contents() == old(report.Contents()) && report.moveSource == old(report.moveSource)
    {
      ghost var log := world.log;
      var verified, blame := VerifyCopy(world, plans[k], copied[k]);
      if verified.Err? {
        ReportBlame(plans, k, blame, report);
        return verified;
      }
      AllSeenMore(log, world.log, v, plans, copied, k);
    }
    return Ok(());
  }

  ghost predicate AllCopied(d: Disk, plans: seq<Plan>, copied: seq<seq<Held>>) {
    |copied| == |plans| && forall i | 0 <= i < |plans| :: CopyHolds(d, plans[i], copied[i])
  }

  // ---------- the commit ----------

  /**
    What was checked before the commit at instant `c`: from instant `v` on, which is after the last deed of the
    migration, every recorded source and every target of every plan was seen as recorded, and equal.
  */
  ghost predicate CheckedBefore(log: seq<Instant>, deeds: seq<nat>, v: nat, c: nat, plans: seq<Plan>, copied: seq<seq<Held>>) {
    && v <= c < |log| && log[c].step == Noted(Committed) && |copied| == |plans|
    && (forall k | 0 <= k < |deeds| :: deeds[k] < v)
    && AllSeen(log[..c], v, plans, copied, |plans|)
  }

  /** The gate: all was checked against the very outputs that the run, from instant `a` and deed `u` on, had recorded. */
  ghost predicate Gate(log: seq<Instant>, a: nat, deeds: seq<nat>, u: nat, v: nat, c: nat, plans: seq<Plan>, copied: seq<seq<Held>>) {
    a <= v && CheckedBefore(log, deeds, v, c, plans, copied) && AllFrom(log, a, deeds, u, plans, copied)
  }

  /** Seeing takes time. */
  lemma SeenLater(log: seq<Instant>, v: nat, plan: Plan, outputs: seq<Held>)
    requires CopySeen(log, v, plan, outputs)
    ensures v < |log|
  {
    assert ListsDirectory(plan.entries, []);
    assert NamesSeen(log, v, plan.source.path + [], ChildNames(plan.entries, []));
  }

  /** If others rest from the beginning of the final verification, all of it holds together at the commit. */
  lemma CommitsWhatHolds(log: seq<Instant>, a: nat, deeds: seq<nat>, u: nat, horizon: nat, v: nat, c: nat, plans: seq<Plan>, copied: seq<seq<Held>>)
    requires Chain(log, horizon) && Lists(deeds, log) && Gate(log, a, deeds, u, v, c, plans, copied) && AllPrepared(plans)
    requires forall t | v < t < c && log[t].step.Outside? :: log[t].after == log[t].before
    ensures AllCopied(log[c].before, plans, copied) && AllFrom(log, a, deeds, u, plans, copied)
  {
    CheckedHolds(log, deeds, horizon, v, c, plans, copied);
  }

  lemma CheckedHolds(log: seq<Instant>, deeds: seq<nat>, horizon: nat, v: nat, c: nat, plans: seq<Plan>, copied: seq<seq<Held>>)
    requires Chain(log, horizon) && Lists(deeds, log) && CheckedBefore(log, deeds, v, c, plans, copied) && AllPrepared(plans)
    requires forall t | v < t < c && log[t].step.Outside? :: log[t].after == log[t].before
    ensures AllCopied(log[c].before, plans, copied)
  {
    ChainStep(log, horizon, c);
    forall i | 0 <= i < |plans| ensures CopyHolds(log[c].before, plans[i], copied[i]) {
      PreparedMeans(plans[i]);
      SeenLater(log[..c], v, plans[i], copied[i]);
      CalmUntil(log, horizon, v, c);
      CopyAtRest(log[..c], v, plans[i], copied[i], log[c].before);
    }
  }

  lemma FirstReport(reported: seq<(nat, nat)>, total: nat)
    ensures Rising(reported + [(0, total)], |reported|, 0, total, true)
    ensures Rising(reported + [(0, total)], |reported|, total, total, false)
  {
    RisingMore(reported, |reported|, 0, 0, total, false);
    RisingMore(reported + [(0, total)], |reported|, 0, total, total, true);
  }

  lemma BatchSofarFrom(log: seq<Instant>, a: nat, a': nat, deeds: seq<nat>, u: nat, plans: seq<Plan>, rest: bool, d0: Disk)
    requires a <= a' && BatchSofar(log, a', deeds, u, plans, rest, d0)
    ensures BatchSofar(log, a, deeds, u, plans, rest, d0)
  {
    assert UnfoldPlans(plans, 0);
    CareFrom(log, a, a', deeds, u, plans);
  }

  lemma BatchSofarKept(world: World, log: seq<Instant>, a: nat, u: nat, plans: seq<Plan>, rest: bool, d0: Disk)
    requires world.Valid() && log <= world.log && u <= |world.deeds| && BatchSofar(log, a, world.deeds, u, plans, rest, d0)
    ensures BatchSofar(world.log, a, world.deeds, u, plans, rest, d0)
  {
    assert UnfoldPlans(plans, 0);
    CareOn(world, log, a, u, plans);
    if rest {
      MidwayOn(log, world.log, world.deeds, world.deeds, u, d0, plans);
    }
  }

  lemma AllSeenAtRest(log: seq<Instant>, v: nat, plans: seq<Plan>, copied: seq<seq<Held>>, d: Disk)
    requires WellFormed(d) && AllPrepared(plans) && |copied| == |plans| && AllSeen(log, v, plans, copied, |plans|)
    requires forall i | v <= i < |log| :: log[i].after == d
    ensures AllCopied(d, plans, copied)
  {
    forall i | 0 <= i < |plans| ensures CopyHolds(d, plans[i], copied[i]) {
      PreparedMeans(plans[i]);
      CopyAtRest(log, v, plans[i], copied[i], d);
    }
  }

  /** The last report names what it should, which is the total exactly if nothing to be reported fell short of what was listed. */
  ghost predicate EndsAt(reported: seq<(nat, nat)>, start: nat, plans: seq<Plan>) {
    && start < |reported| && Rising(reported, start, LastLevel(plans), TotalBytes(plans), true) && AllStampsFit(plans)
    && (reported[|reported| - 1] == (TotalBytes(plans), TotalBytes(plans)) <==> ReportsAll(plans))
  }

  /** The first report, and the copying. */
  method CopyAll(world: World, plans: seq<Plan>, report: MigrationReport, ghost rest: bool) returns (r: Result<seq<seq<Held>>>)
    requires world.Valid() && AllPrepared(plans) && TotalBytes(plans) <= U64_MAX && CountedPlans(report.Contents(), plans, 0)
    requires rest ==> world.Quiet() && AllHeldAt(world.disk, plans)
    modifies world, report
    ensures world.Advanced() && BatchSofar(world.log, |old(world.log)|, world.deeds, |old(world.deeds)|, plans, rest, old(world.disk))
    ensures Rising(world.reported, |old(world.reported)|, TotalBytes(plans), TotalBytes(plans), false)
    ensures r.Ok? ==> EndsAt(world.reported, |old(world.reported)|, plans)
    ensures |old(world.reported)| < |world.reported| && world.reported[|old(world.reported)|] == (0, TotalBytes(plans))
    ensures r.Ok? ==> AllRecorded(plans, r.value) && |r.value| == |plans|
    ensures r.Ok? ==> AllFrom(world.log, |old(world.log)|, world.deeds, |old(world.deeds)|, plans, r.value)
    ensures if r.Ok? then CountedPlans(report.Contents(), plans, |plans|) else Stopped(report.Contents(), plans)
    ensures report.moveSource == old(report.moveSource)
    ensures rest && r.Ok? ==> Between(old(world.disk), world.disk, plans)
    ensures rest && old(world.Faultless()) && Apart(plans) && Carried(old(world.disk), plans, [], old(world.serial)) ==>
              r.Ok? && Carried(world.disk, plans, r.value, old(world.serial))
  {
    world.Sound();
    ghost var start, a, u, d0 := |world.reported|, |world.log|, |world.deeds|, world.disk;
    FirstReport(world.reported, TotalBytes(plans));
    assert plans[..0] == [];
    var started := world.Report(0, TotalBytes(plans));
    NothingDone(world, a, u, plans, rest, d0);
    if started.Err? {
      return Err(started.fault);
    }
    if rest {
      BetweenStart(d0, plans);
    }
    ghost var l1 := world.log;
    r := CopyPlans(world, plans, report, start, rest);
    BatchSofarFrom(world.log, a, |l1|, world.deeds, u, plans, rest, d0);
    if r.Ok? {
      InLogHolds(world);
      AllFromStay(world.log, world.log, |l1|, a, world.deeds, world.deeds, u, plans, r.value);
      RecordedAllFit(plans, r.value);
      LastLevelIs(plans);
    }
  }

  /** The final verification, after the last deed. */
  method VerifyAll(world: World, plans: seq<Plan>, copied: seq<seq<Held>>, report: MigrationReport, ghost rest: bool,
                   ghost a: nat, ghost u: nat, ghost d0: Disk)
    returns (r: Result<()>)
    requires world.Valid() && AllPrepared(plans) && AllRecorded(plans, copied) && |copied| == |plans|
    requires CountedPlans(report.Contents(), plans, |plans|)
    requires u <= |world.deeds| && BatchSofar(world.log, a, world.deeds, u, plans, rest, d0) && (rest ==> world.Quiet())
    modifies world, report
    ensures world.Looked() && BatchSofar(world.log, a, world.deeds, u, plans, rest, d0)
    ensures forall k | 0 <= k < |world.deeds| :: world.deeds[k] < |old(world.log)|
    ensures r.Ok? ==> AllSeen(world.log, |old(world.log)|, plans, copied, |plans|)
    ensures if r.Ok? then report.Contents() == old(report.Contents()) else Stopped(report.Contents(), plans)
    ensures report.moveSource == old(report.moveSource)
    ensures rest && r.Ok? ==> AllCopied(world.disk, plans, copied)
    ensures rest && old(world.Faultless()) && AllCopied(old(world.disk), plans, copied) ==> r.Ok?
  {
    ghost var log := world.log;
    InLogHolds(world);
    r := VerifyPlans(world, plans, copied, report);
    BatchSofarKept(world, log, a, u, plans, rest, d0);
    if rest && r.Ok? {
      world.AtRest();
      AllSeenAtRest(world.log, |log|, plans, copied, world.disk);
    }
  }

  lemma CarriedAll(d: Disk, plans: seq<Plan>, copied: seq<seq<Held>>, serial: nat)
    requires Carried(d, plans, copied, serial) && |copied| == |plans|
    ensures AllCopied(d, plans, copied)
  {
    assert UnfoldPlans(plans, 0);
  }

  /** Where only targets have changed, and every target equals its source, the old contents are overlaid by the sources. */
  lemma OverlaidFrom(d0: Disk, d: Disk, plans: seq<Plan>, copied: seq<seq<Held>>)
    requires AllPrepared(plans) && WellFormed(d0) && Grows(d0, d) && AllHeldAt(d0, plans) && OnlyTargets(d0, d, plans) && AllCopied(d, plans, copied)
    ensures Overlaid(d0, d, plans) && AllHeldAt(d, plans)
  {
    forall plan, h | plan in plans && h in plan.held ensures View(d, Target(plan, h)) == Wanted(d0, h) {
      var i :| 0 <= i < |plans| && plans[i] == plan;
      var j :| 0 <= j < |plan.held| && plan.held[j] == h;
      assert CopyHolds(d, plan, copied[i]) && TargetHolds(d, plan, h, copied[i][j]);
      WantedSame(d0, d, plan);
      PreparedMeans(plan);
      assert EntryHolds(d, plan.source.path, h);
    }
    forall plan | plan in plans ensures SourceHolds(d, plan) {
      var i :| 0 <= i < |plans| && plans[i] == plan;
      assert CopyHolds(d, plan, copied[i]);
    }
  }

  /** What the batch leaves: the old contents overlaid by the sources, which are as they were. */
  lemma OverlaidNow(d0: Disk, d: Disk, plans: seq<Plan>, copied: seq<seq<Held>>)
    requires AllPrepared(plans) && Between(d0, d, plans) && AllCopied(d, plans, copied)
    ensures Overlaid(d0, d, plans) && AllHeldAt(d, plans)
  {
    assert UnfoldPlans(plans, 0);
    OverlaidFrom(d0, d, plans, copied);
  }

  /** Between the last deed and the end of the log, from instant `v` on, everything was seen once more. */
  ghost predicate Verified(log: seq<Instant>, deeds: seq<nat>, v: nat, plans: seq<Plan>, copied: seq<seq<Held>>) {
    && v <= |log| && |copied| == |plans| && (forall k | 0 <= k < |deeds| :: deeds[k] < v)
    && AllSeen(log, v, plans, copied, |plans|)
  }

  lemma VerifiedGate(log: seq<Instant>, log': seq<Instant>, deeds: seq<nat>, v: nat, plans: seq<Plan>, copied: seq<seq<Held>>)
    requires Verified(log, deeds, v, plans, copied) && log < log' && log'[|log|].step == Noted(Committed)
    ensures CheckedBefore(log', deeds, v, |log|, plans, copied)
  {
    assert log'[..|log|] == log;
  }

  /** The batch up to the commit. */
  method CopyAndVerify(world: World, plans: seq<Plan>, report: MigrationReport, ghost rest: bool)
    returns (r: Result<()>, ghost v: nat, ghost copied: seq<seq<Held>>)
    requires world.Valid() && AllPrepared(plans) && TotalBytes(plans) <= U64_MAX && CountedPlans(report.Contents(), plans, 0)
    requires rest ==> world.Quiet() && AllHeldAt(world.disk, plans)
    modifies world, report
    ensures world.Advanced() && BatchSofar(world.log, |old(world.log)|, world.deeds, |old(world.deeds)|, plans, rest, old(world.disk))
    ensures Rising(world.reported, |old(world.reported)|, TotalBytes(plans), TotalBytes(plans), false)
    ensures r.Ok? ==> EndsAt(world.reported, |old(world.reported)|, plans)
    ensures |old(world.reported)| < |world.reported| && world.reported[|old(world.reported)|] == (0, TotalBytes(plans))
    ensures r.Ok? ==> |old(world.log)| <= v && Verified(world.log, world.deeds, v, plans, copied)
    ensures r.Ok? ==> AllFrom(world.log, |old(world.log)|, world.deeds, |old(world.deeds)|, plans, copied)
    ensures if r.Ok? then CountedPlans(report.Contents(), plans, |plans|) else Stopped(report.Contents(), plans)
    ensures report.moveSource == old(report.moveSource)
    ensures rest && r.Ok? ==> Between(old(world.disk), world.disk, plans) && AllCopied(world.disk, plans, copied)
    ensures rest && old(world.Faultless()) && Apart(plans) && Carried(old(world.disk), plans, [], old(world.serial)) ==> r.Ok?
  {
    ghost var a, u, d0 := |world.log|, |world.deeds|, world.disk;
    v, copied := 0, [];
    var outputs := CopyAll(world, plans, report, rest);
    if outputs.Err? {
      r := Err(outputs.fault);
      return;
    }
    v, copied := |world.log|, outputs.value;
    if Carried(world.disk, plans, copied, old(world.serial)) {
      CarriedAll(world.disk, plans, copied, old(world.serial));
    }
    ghost var log := world.log;
    r := VerifyAll(world, plans, outputs.value, report, rest, a, u, d0);
    InLogHolds(world);
    AllFromStay(log, world.log, a, a, world.deeds, world.deeds, u, plans, copied);
  }

  /** The batch with the commit. */
  method CopyVerifyCommit(world: World, plans: seq<Plan>, report: MigrationReport, ghost rest: bool) returns (r: Result<()>)
    requires world.Valid() && AllPrepared(plans) && TotalBytes(plans) <= U64_MAX && CountedPlans(report.Contents(), plans, 0)
    requires rest ==> world.Quiet() && AllHeldAt(world.disk, plans)
    modifies world, report
    ensures world.Continued() && old(world.deeds) <= world.deeds
    ensures BatchSofar(world.log, |old(world.log)|, world.deeds, |old(world.deeds)|, plans, rest, old(world.disk))
    ensures Rising(world.reported, |old(world.reported)|, TotalBytes(plans), TotalBytes(plans), false)
    ensures r.Ok? ==> EndsAt(world.reported, |old(world.reported)|, plans)
    ensures |old(world.reported)| < |world.reported| && world.reported[|old(world.reported)|] == (0, TotalBytes(plans))
    ensures CommittedOnce(world, plans, |old(world.log)|, |old(world.deeds)|, old(world.commits), r.Ok?)
    ensures if r.Ok? then CountedPlans(report.Contents(), plans, |plans|) else Stopped(report.Contents(), plans)
    ensures report.moveSource == old(report.moveSource)
    ensures rest && r.Ok? ==> Overlaid(old(world.disk), world.disk, plans) && AllHeldAt(world.disk, plans)
    ensures rest && old(world.Faultless()) && Apart(plans) && Carried(old(world.disk), plans, [], old(world.serial)) ==> r.Ok?
  {
    ghost var a, u, d0 := |world.log|, |world.deeds|, world.disk;
    ghost var v, copied;
    r, v, copied := CopyAndVerify(world, plans, report, rest);
    if r.Err? {
      return;
    }
    if rest {
      OverlaidNow(d0, world.disk, plans, copied);
    }
    ghost var log := world.log;
    r := world.Commit();
    BatchSofarKept(world, log, a, u, plans, rest, d0);
    VerifiedGate(log, world.log, world.deeds, v, plans, copied);
    InLogHolds(world);
    AllFromStay(log, world.log, a, a, world.deeds, world.deeds, u, plans, copied);
    assert Gate(world.log, a, world.deeds, u, v, |log|, plans, copied);
    FullyCounted(report.Contents(), plans);
  }

  lemma FullyCounted(t: Tally, plans: seq<Plan>)
    requires CountedPlans(t, plans, |plans|)
    ensures Stopped(t, plans)
  {
    assert plans[..|plans|] == plans;
  }

  /** The commit ran at most once, always if all went well, and only through the gate. */
  ghost predicate CommittedOnce(world: World, plans: seq<Plan>, a: nat, u: nat, commits: nat, ok: bool)
    reads world
  {
    && (world.commits == commits || world.commits == commits + 1) && (ok ==> world.commits == commits + 1)
    && (world.commits == commits + 1 ==> exists v, c, copied :: Gate(world.log, a, world.deeds, u, v, c, plans, copied))
  }

  /** No error is listed without a failure, and none is missing after one. */
  ghost predicate Explained(t: Tally) {
    t.failed != [] || t.errors != []
  }

  /**
    `copy_batch_retaining_source_with_report`, for any interference. If `rest` is chosen, which requires that
    others rest and the sources are as recorded, the effect on the disk is known at every instant.
  */
  method CopyBatch(world: World, plans: seq<Plan>, report: MigrationReport, ghost rest: bool) returns (r: Result<()>)
    requires world.Valid() && AllPrepared(plans)
    requires rest ==> world.Quiet() && AllHeldAt(world.disk, plans)
    modifies world, report
    ensures world.Continued() && old(world.deeds) <= world.deeds
    ensures BatchSofar(world.log, |old(world.log)|, world.deeds, |old(world.deeds)|, plans, rest, old(world.disk))
    ensures CommittedOnce(world, plans, |old(world.log)|, |old(world.deeds)|, old(world.commits), r.Ok?)
    ensures Rising(world.reported, |old(world.reported)|, TotalBytes(plans), TotalBytes(plans), false)
    ensures r.Ok? ==> EndsAt(world.reported, |old(world.reported)|, plans)
    ensures |old(world.reported)| < |world.reported| ==> world.reported[|old(world.reported)|] == (0, TotalBytes(plans))
    ensures r.Ok? ==> report.Contents() == Tally(TotalFiles(plans), TotalFiles(plans), TotalBytes(plans), [], [])
    ensures r.Err? ==> Stopped(report.Contents(), plans) && (Explained(report.Contents()) <==> TotalBytes(plans) <= U64_MAX)
    ensures report.moveSource == old(report.moveSource)
    ensures rest && r.Ok? ==> Overlaid(old(world.disk), world.disk, plans) && AllHeldAt(world.disk, plans)
    ensures rest ==> ReportsAll(plans)
    ensures rest && old(world.Faultless()) && Apart(plans) && Carried(old(world.disk), plans, [], old(world.serial)) ==>
              (r.Ok? <==> TotalBytes(plans) <= U64_MAX)
  {
    report.Reset(TotalFiles(plans));
    assert plans[..0] == [] && plans[..|plans|] == plans;
    NothingDone(world, |world.log|, |world.deeds|, plans, rest, world.disk);
    PrefixTotals(plans, 0);
    if rest {
      HeldReportsAll(world.disk, plans);
    }
    var total := SumBytes(plans);
    if total.Err? {
      return Err(total.fault);
    }
    r := CopyVerifyCommit(world, plans, report, rest);
    if r.Err? {
      report.AddGeneral();
    }
  }
}
