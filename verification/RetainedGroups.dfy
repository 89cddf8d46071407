/** Copying a group of plans where nothing stands, and committing them once: `copy_retaining_sources`. */
module RetainedGroups {
  import opened Outcomes
  import opened Disks
  import opened Worlds
  import opened Effects
  import opened Scans
  import opened Plans
  import opened Checks
  import opened Preparing
  import opened Publishing
  import opened Meters
  import opened Copying
  import opened Overlays
  import opened Copies
  import opened Verifying
  import opened Batches
  import opened Commits
  import opened Additions
  import opened Placements
  import opened FreePlans
  import opened Retaining

  // ---------- what the run added ----------

  /** Mentioning this unfolds `AllAdded`, which is kept folded elsewhere to keep proofs small. */
  ghost predicate UnfoldCopied(copied: seq<seq<Held>>, once: nat) {
    true
  }

  /** The outputs recorded for every plan are what this run added where they go. */
  ghost predicate AllAdded(log: seq<Instant>, deeds: seq<nat>, u: nat, plans: seq<Plan>, copied: seq<seq<Held>>) {
    forall once: nat {:trigger UnfoldCopied(copied, once)} :: UnfoldCopied(copied, once) ==>
      AllRecorded(plans, copied) && forall i | 0 <= i < |copied| :: OutputsAdded(log, deeds, u, plans, plans[i], copied[i])
  }

  lemma AllAddedMeans(log: seq<Instant>, deeds: seq<nat>, u: nat, plans: seq<Plan>, copied: seq<seq<Held>>)
    requires AllAdded(log, deeds, u, plans, copied)
    ensures AllRecorded(plans, copied) && forall i | 0 <= i < |copied| :: OutputsAdded(log, deeds, u, plans, plans[i], copied[i])
  {
    assert UnfoldCopied(copied, 0);
  }

  lemma AllAddedStay(log: seq<Instant>, deeds: seq<nat>, u: nat, log': seq<Instant>, deeds': seq<nat>, plans: seq<Plan>, copied: seq<seq<Held>>)
    requires log <= log' && deeds <= deeds' && InLog(log', deeds') && AllAdded(log, deeds, u, plans, copied)
    ensures AllAdded(log', deeds', u, plans, copied)
  {
    assert UnfoldCopied(copied, 0);
    forall i | 0 <= i < |copied| ensures OutputsAdded(log', deeds', u, plans, plans[i], copied[i]) {
      OutputsAddedStay(log, deeds, u, log', deeds', u, plans, plans[i], copied[i]);
    }
  }

  /** The group so far: only planned additions, and a record of every output; kept folded. */
  ghost predicate GroupAdded(log: seq<Instant>, deeds: seq<nat>, u: nat, plans: seq<Plan>, copied: seq<seq<Held>>) {
    AddsPlanned(log, deeds, u, plans) && AllAdded(log, deeds, u, plans, copied)
  }

  lemma GroupAddedMore(world: World, log: seq<Instant>, deeds: seq<nat>, u: nat, plans: seq<Plan>, copied: seq<seq<Held>>, outputs: seq<Held>)
    requires world.Valid() && log <= world.log && deeds <= world.deeds && u <= |deeds| && |copied| < |plans|
    requires GroupAdded(log, deeds, u, plans, copied)
    requires PlanAdded(world.log, world.deeds, |deeds|, plans, plans[|copied|], outputs) && |outputs| == |plans[|copied|].held|
    ensures GroupAdded(world.log, world.deeds, u, plans, copied + [outputs])
  {
    InLogHolds(world);
    PlannedContinue(log, deeds, u, world.log, world.deeds, plans);
    AllAddedStay(log, deeds, u, world.log, world.deeds, plans, copied);
    assert UnfoldCopied(copied, 0);
    OutputsAddedStay(world.log, world.deeds, |deeds|, world.log, world.deeds, u, plans, plans[|copied|], outputs);
  }

  // ---------- copying ----------

  /** The next plan of the group. */
  method AddNextPlan(world: World, plans: seq<Plan>, copied: seq<seq<Held>>, ghost start: nat, ghost rest: bool, ghost d0: Disk, ghost u: nat)
    returns (r: Result<seq<Held>>)
    requires world.Valid() && AllPrepared(plans) && |copied| < |plans| && TotalBytes(plans) <= U64_MAX && u <= |world.deeds|
    requires Rising(world.reported, start, TotalBytes(plans[..|copied|]), TotalBytes(plans), false)
    requires GroupAdded(world.log, world.deeds, u, plans, copied)
    requires rest ==> world.Quiet() && GroupSofar(d0, world.disk, plans, copied)
    modifies world
    ensures world.Advanced() && AddsPlanned(world.log, world.deeds, u, plans)
    ensures Rising(world.reported, start, TotalBytes(plans), TotalBytes(plans), false)
    ensures r.Ok? ==> Rising(world.reported, start, TotalBytes(plans[..|copied| + 1]), TotalBytes(plans), false)
    ensures r.Ok? ==> GroupAdded(world.log, world.deeds, u, plans, copied + [r.value])
    ensures rest && r.Ok? ==> GroupSofar(d0, world.disk, plans, copied + [r.value])
    ensures rest && r.Err? ==> OnlyTargets(d0, world.disk, plans)
    ensures rest && old(world.Faultless()) && Apart(plans) && AllFree(d0, plans) ==> r.Ok?
  {
    world.Sound();
    ghost var n, d, log, deeds := |copied|, world.disk, world.log, world.deeds;
    NextTotals(plans, n);
    PrefixTotals(plans, n + 1);
    if rest && Apart(plans) && AllFree(d0, plans) {
      GroupFree(d0, d, plans, copied);
    }
    r := CopyVerified(world, plans[|copied|], MeterOf(plans, |copied|), plans, start, rest);
    RisingMore(world.reported, start, TotalBytes(plans[..n + 1]), TotalBytes(plans), TotalBytes(plans), r.Ok?);
    RisingMore(world.reported, start, TotalBytes(plans[..n + 1]), TotalBytes(plans[..n + 1]), TotalBytes(plans), r.Ok?);
    PlannedContinue(log, deeds, u, world.log, world.deeds, plans);
    if r.Ok? {
      GroupAddedMore(world, log, deeds, u, plans, copied, r.value);
    }
    if rest {
      world.Grown();
      GroupTouches(d0, d, world.disk, plans, copied, plans[n]);
      if r.Ok? {
        GroupNext(d0, d, world.disk, plans, copied, r.value);
      }
    }
  }

  /** The copying loop. */
  method CopyAllVerified(world: World, plans: seq<Plan>, ghost start: nat, ghost rest: bool) returns (r: Result<seq<seq<Held>>>)
    requires world.Valid() && AllPrepared(plans) && TotalBytes(plans) <= U64_MAX && (rest ==> world.Quiet())
    requires Rising(world.reported, start, 0, TotalBytes(plans), false)
    modifies world
    ensures world.Advanced() && AddsPlanned(world.log, world.deeds, |old(world.deeds)|, plans)
    ensures Rising(world.reported, start, TotalBytes(plans), TotalBytes(plans), false)
    ensures r.Ok? ==> |r.value| == |plans| && GroupAdded(world.log, world.deeds, |old(world.deeds)|, plans, r.value)
    ensures rest && r.Ok? ==> GroupSofar(old(world.disk), world.disk, plans, r.value)
    ensures rest && r.Err? ==> OnlyTargets(old(world.disk), world.disk, plans)
    ensures rest && old(world.Faultless()) && Apart(plans) && AllFree(old(world.disk), plans) ==> r.Ok?
  {
    world.Sound();
    ghost var u, d0 := |world.deeds|, world.disk;
    PlannedNothing(world, u, plans);
    GroupStarts(d0, plans);
    RisingMore(world.reported, start, 0, TotalBytes(plans), TotalBytes(plans), false);
    var copied: seq<seq<Held>> := [];
    assert plans[..0] == [];
    while |copied| < |plans|
      invariant |copied| <= |plans| && world.Advanced() && GroupAdded(world.log, world.deeds, u, plans, copied)
      invariant Rising(world.reported, start, TotalBytes(plans[..|copied|]), TotalBytes(plans), false)
      invariant Rising(world.reported, start, TotalBytes(plans), TotalBytes(plans), false)
      invariant rest ==> GroupSofar(d0, world.disk, plans, copied)
    {
      var outputs := AddNextPlan(world, plans, copied, start, rest, d0, u);
      if outputs.Err? {
        return Err(outputs.fault);
      }
      copied := copied + [outputs.value];
    }
    return Ok(copied);
  }

  // ---------- the final verification ----------

  /** The loop that verifies every plan once more. */
  method VerifyGroup(world: World, plans: seq<Plan>, copied: seq<seq<Held>>) returns (r: Result<()>)
    requires world.Valid() && AllPrepared(plans) && AllRecorded(plans, copied) && |copied| == |plans|
    modifies world
    ensures world.Looked()
    ensures r.Ok? ==> AllSeen(world.log, |old(world.log)|, plans, copied, |plans|)
    ensures old(world.Quiet()) && r.Ok? ==> AllCopied(world.disk, plans, copied)
    ensures old(world.Quiet() && world.Faultless()) && AllCopied(old(world.disk), plans, copied) ==> r.Ok?
  {
    ghost var v := |world.log|;
    for k := 0 to |plans|
      invariant world.Looked() && v <= |world.log| && AllSeen(world.log, v, plans, copied, k)
    {
      ghost var log := world.log;
      var verified, _ := VerifyCopy(world, plans[k], copied[k]);
      if verified.Err? {
        return verified;
      }
      AllSeenMore(log, world.log, v, plans, copied, k);
    }
    if old(world.Quiet()) {
      world.AtRest();
      AllSeenAtRest(world.log, v, plans, copied, world.disk);
    }
    return Ok(());
  }

  /** What a group at rest was and is, once it has been carried out. */
  ghost predicate GroupCarried(d0: Disk, d: Disk, plans: seq<Plan>) {
    AllFree(d0, plans) && Overlaid(d0, d, plans) && AllHeldAt(d, plans)
  }

  /** Every plan has been carried out on `d`: its source is as recorded, and every target equal to its source. */
  ghost predicate CarriedOut(d: Disk, plans: seq<Plan>) {
    exists copied :: AllCopied(d, plans, copied)
  }

  lemma GroupLeft(d0: Disk, d: Disk, plans: seq<Plan>, copied: seq<seq<Held>>)
    requires GroupSofar(d0, d, plans, copied) && |copied| == |plans| && AllPrepared(plans)
    ensures OnlyTargets(d0, d, plans) && (Apart(plans) ==> AllCopied(d, plans, copied) && GroupCarried(d0, d, plans))
  {
    assert UnfoldGroup(copied, 0);
    if Apart(plans) {
      GroupDone(d0, d, plans, copied);
    }
  }

  /** Copying and verifying, up to the commit. */
  method CopyGroup(world: World, plans: seq<Plan>, ghost rest: bool) returns (r: Result<()>, ghost v: nat, ghost copied: seq<seq<Held>>)
    requires world.Valid() && AllPrepared(plans) && TotalBytes(plans) <= U64_MAX && (rest ==> world.Quiet())
    modifies world
    ensures world.Advanced() && AddsPlanned(world.log, world.deeds, |old(world.deeds)|, plans)
    ensures Rising(world.reported, |old(world.reported)|, TotalBytes(plans), TotalBytes(plans), false)
    ensures r.Ok? ==> |old(world.log)| <= v && Verified(world.log, world.deeds, v, plans, copied)
    ensures r.Ok? ==> AllAdded(world.log, world.deeds, |old(world.deeds)|, plans, copied)
    ensures rest && r.Ok? ==> AllCopied(world.disk, plans, copied) && (Apart(plans) ==> GroupCarried(old(world.disk), world.disk, plans))
    ensures rest ==> OnlyTargets(old(world.disk), world.disk, plans)
    ensures rest && old(world.Faultless()) && Apart(plans) && AllFree(old(world.disk), plans) ==> r.Ok?
  {
    ghost var u, d0 := |world.deeds|, world.disk;
    v, copied := 0, [];
    var outputs := CopyAllVerified(world, plans, |world.reported|, rest);
    if outputs.Err? {
      r := Err(outputs.fault);
      return;
    }
    v, copied := |world.log|, outputs.value;
    if rest {
      GroupLeft(d0, world.disk, plans, copied);
    }
    AllAddedMeans(world.log, world.deeds, u, plans, copied);
    InLogHolds(world);
    ghost var log := world.log;
    r := VerifyGroup(world, plans, outputs.value);
    StillPlanned(world, log, u, plans);
    InLogHolds(world);
    AllAddedStay(log, world.deeds, u, world.log, world.deeds, plans, copied);
  }

  // ---------- the commit ----------

  /** The gate: all was checked against the very outputs that the run, from instant `a` and deed `u` on, had added and recorded. */
  ghost predicate GroupGate(log: seq<Instant>, a: nat, deeds: seq<nat>, u: nat, v: nat, c: nat, plans: seq<Plan>, copied: seq<seq<Held>>) {
    a <= v && CheckedBefore(log, deeds, v, c, plans, copied) && AllAdded(log, deeds, u, plans, copied)
  }

  /** The commit ran at most once, always if all went well, and only through the gate. */
  ghost predicate GroupCommitted(world: World, plans: seq<Plan>, a: nat, u: nat, commits: nat, ok: bool)
    reads world
  {
    && (world.commits == commits || world.commits == commits + 1) && (ok ==> world.commits == commits + 1)
    && (world.commits == commits + 1 ==> exists v, c, copied :: GroupGate(world.log, a, world.deeds, u, v, c, plans, copied))
  }

  lemma GateStays(log: seq<Instant>, log': seq<Instant>, a: nat, deeds: seq<nat>, u: nat, v: nat, c: nat, plans: seq<Plan>, copied: seq<seq<Held>>)
    requires log <= log' && InLog(log', deeds) && GroupGate(log, a, deeds, u, v, c, plans, copied)
    ensures GroupGate(log', a, deeds, u, v, c, plans, copied)
  {
    assert log'[..c] == log[..c];
    AllAddedStay(log, deeds, u, log', deeds, plans, copied);
  }

  /** The commit, and the last report. */
  method CommitVerified(world: World, total: nat, ghost plans: seq<Plan>, ghost a: nat, ghost u: nat, ghost v: nat, ghost copied: seq<seq<Held>>, ghost start: nat)
    returns (r: Result<()>)
    requires world.Valid() && total == TotalBytes(plans) && a <= v && u <= |world.deeds| && Verified(world.log, world.deeds, v, plans, copied)
    requires AllAdded(world.log, world.deeds, u, plans, copied) && AddsPlanned(world.log, world.deeds, u, plans)
    requires Rising(world.reported, start, TotalBytes(plans), TotalBytes(plans), false)
    modifies world
    ensures world.Continued() && world.deeds == old(world.deeds) && AddsPlanned(world.log, world.deeds, u, plans)
    ensures world.commits == old(world.commits) + 1
    ensures exists v, c, copied :: GroupGate(world.log, a, world.deeds, u, v, c, plans, copied)
    ensures Rising(world.reported, start, TotalBytes(plans), TotalBytes(plans), r.Ok?)
    ensures old(world.Quiet()) ==> world.disk == old(world.disk)
    ensures old(world.Faultless()) ==> r.Ok?
  {
    ghost var log := world.log;
    r := world.Commit();
    InLogHolds(world);
    VerifiedGate(log, world.log, world.deeds, v, plans, copied);
    StillPlanned(world, log, u, plans);
    AllAddedStay(log, world.deeds, u, world.log, world.deeds, plans, copied);
    if r.Err? {
      assert GroupGate(world.log, a, world.deeds, u, v, |log|, plans, copied);
      return;
    }
    ghost var log' := world.log;
    RisingMore(world.reported, start, total, total, total, false);
    var _ := world.Report(total, total);
    InLogHolds(world);
    GateStays(log', world.log, a, world.deeds, u, v, |log|, plans, copied);
    StillPlanned(world, log', u, plans);
  }

  /** The group with its commit. */
  method CommitGroup(world: World, plans: seq<Plan>, ghost rest: bool) returns (r: Result<()>)
    requires world.Valid() && AllPrepared(plans) && (rest ==> world.Quiet())
    modifies world
    ensures world.Continued() && old(world.deeds) <= world.deeds && AddsPlanned(world.log, world.deeds, |old(world.deeds)|, plans)
    ensures GroupCommitted(world, plans, |old(world.log)|, |old(world.deeds)|, old(world.commits), r.Ok?)
    ensures plans == [] || TotalBytes(plans) > U64_MAX ==> r.Err? && world.Looked()
    ensures Rising(world.reported, |old(world.reported)|, TotalBytes(plans), TotalBytes(plans), r.Ok?)
    ensures rest && r.Ok? ==> CarriedOut(world.disk, plans) && (Apart(plans) ==> GroupCarried(old(world.disk), world.disk, plans))
    ensures rest ==> OnlyTargets(old(world.disk), world.disk, plans)
    ensures rest && old(world.Faultless()) && Apart(plans) ==>
              (r.Ok? <==> plans != [] && TotalBytes(plans) <= U64_MAX && AllFree(old(world.disk), plans))
  {
    ghost var a, u := |world.log|, |world.deeds|;
    PlannedNothing(world, u, plans);
    NothingTouched(world.disk, plans);
    if plans == [] {
      return Err(Other);
    }
    var total := SumBytes(plans);
    if total.Err? {
      return Err(total.fault);
    }
    ghost var v, copied;
    r, v, copied := CopyGroup(world, plans, rest);
    if r.Err? {
      return;
    }
    r := CommitVerified(world, total.value, plans, a, u, v, copied, |old(world.reported)|);
  }

  /** The deeds of a run at rest kept what was there. */
  lemma AddedKeeps(world: World, log: seq<Instant>, deeds: seq<nat>, plans: seq<Plan>)
    requires world.Valid() && log <= world.log && deeds <= world.deeds && log != [] && world.horizon <= |log|
    requires Proper(log, deeds, world.horizon, world.environment) && AddsPlanned(world.log, world.deeds, |deeds|, plans)
    ensures KeepsAll(log[|log| - 1].after, log[|log| - 1].after, world.disk)
  {
    AddsPlannedMeans(world.log, world.deeds, |deeds|, plans);
    Properly(log, deeds, world.horizon, world.environment);
    Properly(world.log, world.deeds, world.horizon, world.environment);
    DeedsAreNew(log, world.log, deeds, world.deeds);
    AllIsKept(world.log, world.horizon, |log|, world.deeds, |deeds|, |world.log| - 1);
  }

  /** What a run at rest added to, still stands. */
  lemma AddedOnly(world: World, log: seq<Instant>, deeds: seq<nat>, plans: seq<Plan>)
    requires world.Valid() && log <= world.log && deeds <= world.deeds && log != [] && world.horizon <= |log|
    requires Proper(log, deeds, world.horizon, world.environment) && AddsPlanned(world.log, world.deeds, |deeds|, plans)
    ensures StillThere(log[|log| - 1].after, world.disk)
  {
    AddedKeeps(world, log, deeds, plans);
    Properly(log, deeds, world.horizon, world.environment);
    KeptStillThere(log[|log| - 1].after, world.disk);
  }

  /**
    `copy_retaining_sources`. For any interference: it commits at most once, only through the gate, and only ever
    adds what is planned, in directories seen in their place. If others rest then, whether it fails or not, nothing
    that stood before is touched and nothing appears but targets; and if no source overlaps a destination and no call
    fails, it succeeds exactly when the group is not empty, its sizes add up to a 64-bit number, every source is as
    recorded, and no target is taken. Success leaves the old contents overlaid by the sources.
  */
  method CopyRetaining(world: World, plans: seq<Plan>) returns (r: Result<()>)
    requires world.Valid() && AllPrepared(plans)
    modifies world
    ensures world.Continued() && old(world.deeds) <= world.deeds && AddsPlanned(world.log, world.deeds, |old(world.deeds)|, plans)
    ensures GroupCommitted(world, plans, |old(world.log)|, |old(world.deeds)|, old(world.commits), r.Ok?)
    ensures plans == [] || TotalBytes(plans) > U64_MAX ==> r.Err? && world.Looked()
    ensures Rising(world.reported, |old(world.reported)|, TotalBytes(plans), TotalBytes(plans), r.Ok?)
    ensures old(world.Quiet()) ==> StillThere(old(world.disk), world.disk) && OnlyTargets(old(world.disk), world.disk, plans)
    ensures old(world.Quiet()) && r.Ok? ==> CarriedOut(world.disk, plans)
    ensures old(world.Quiet()) && r.Ok? && Apart(plans) ==>
              AllFree(old(world.disk), plans) && Overlaid(old(world.disk), world.disk, plans) && AllHeldAt(world.disk, plans)
    ensures old(world.Quiet() && world.Faultless()) && Apart(plans) ==>
              (r.Ok? <==> plans != [] && TotalBytes(plans) <= U64_MAX && AllFree(old(world.disk), plans))
  {
    ghost var rest := world.Quiet();
    r := CommitGroup(world, plans, rest);
    if rest {
      AddedOnly(world, old(world.log), old(world.deeds), plans);
    }
  }
}
