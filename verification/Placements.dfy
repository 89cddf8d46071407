/** Runs that only add to the disk, at planned places, in directories that were seen in their place. */
module Placements {
  import opened Outcomes
  import opened Disks
  import opened Worlds
  import opened Retained
  import opened Plans
  import opened Publishing
  import opened Staging
  import opened Copying
  import opened Additions

  // ---------- what is added ----------

  /** The deed adds the planned entry of `w` in the directory it goes to, seen in its place since the deed before. */
  ghost predicate AddedAs(log: seq<Instant>, deeds: seq<nat>, k: nat, plans: seq<Plan>, w: Making)
    requires k < |deeds| && InLog(log, deeds) && (log[deeds[k]].step.Created? || log[deeds[k]].step.MadeDirectory?)
  {
    && w.plan in plans && Goes(w.plan, w.outputs, w.h, log[deeds[k]].step.dir, log[deeds[k]].step.name)
    && w.h.entry.directory == log[deeds[k]].step.MadeDirectory?
    && (k > 0 ==> deeds[k - 1] < w.verified) && ChainSeen(log[..deeds[k]], w.verified, TargetDirectory(w.plan, w.outputs, w.h))
  }

  ghost predicate PlacedDeed(log: seq<Instant>, deeds: seq<nat>, k: nat, plans: seq<Plan>)
    requires k < |deeds| && InLog(log, deeds)
  {
    log[deeds[k]].step.Created? || log[deeds[k]].step.MadeDirectory? ==> exists w :: AddedAs(log, deeds, k, plans, w)
  }

  /** Mentioning this unfolds `AddsPlanned`, which is kept folded elsewhere to keep proofs small. */
  ghost predicate UnfoldPlaced(deeds: seq<nat>, once: nat) {
    true
  }

  /** From deed `u` on, the migration only adds what is planned. */
  ghost predicate AddsPlanned(log: seq<Instant>, deeds: seq<nat>, u: nat, plans: seq<Plan>) {
    forall once: nat {:trigger UnfoldPlaced(deeds, once)} :: UnfoldPlaced(deeds, once) ==>
      AddsOnly(log, deeds, u) && InLog(log, deeds) && forall k | u <= k < |deeds| :: PlacedDeed(log, deeds, k, plans)
  }

  lemma AddsPlannedMeans(log: seq<Instant>, deeds: seq<nat>, u: nat, plans: seq<Plan>)
    requires AddsPlanned(log, deeds, u, plans)
    ensures AddsOnly(log, deeds, u) && InLog(log, deeds) && forall k | u <= k < |deeds| :: PlacedDeed(log, deeds, k, plans)
  {
    assert UnfoldPlaced(deeds, 0);
  }

  lemma AddedStays(log: seq<Instant>, deeds: seq<nat>, log': seq<Instant>, deeds': seq<nat>, k: nat, plans: seq<Plan>, w: Making)
    requires InLog(log, deeds) && InLog(log', deeds') && log <= log' && deeds <= deeds' && k < |deeds|
    requires (log[deeds[k]].step.Created? || log[deeds[k]].step.MadeDirectory?) && AddedAs(log, deeds, k, plans, w)
    ensures AddedAs(log', deeds', k, plans, w)
  {
    assert log'[..deeds[k]] == log[..deeds[k]];
  }

  lemma PlacedStays(log: seq<Instant>, deeds: seq<nat>, log': seq<Instant>, deeds': seq<nat>, k: nat, plans: seq<Plan>)
    requires InLog(log, deeds) && InLog(log', deeds') && log <= log' && deeds <= deeds' && k < |deeds| && PlacedDeed(log, deeds, k, plans)
    ensures PlacedDeed(log', deeds', k, plans)
  {
    if log[deeds[k]].step.Created? || log[deeds[k]].step.MadeDirectory? {
      var w :| AddedAs(log, deeds, k, plans, w);
      AddedStays(log, deeds, log', deeds', k, plans, w);
    }
  }

  lemma PlannedContinue(log: seq<Instant>, deeds: seq<nat>, u: nat, log': seq<Instant>, deeds': seq<nat>, plans: seq<Plan>)
    requires log <= log' && deeds <= deeds' && u <= |deeds| && AddsPlanned(log, deeds, u, plans) && AddsPlanned(log', deeds', |deeds|, plans)
    ensures AddsPlanned(log', deeds', u, plans)
  {
    AddsPlannedMeans(log, deeds, u, plans);
    AddsPlannedMeans(log', deeds', |deeds|, plans);
    AddsContinue(log, deeds, u, log', deeds');
    forall k | u <= k < |deeds'| ensures PlacedDeed(log', deeds', k, plans) {
      if k < |deeds| {
        PlacedStays(log, deeds, log', deeds', k, plans);
      }
    }
  }

  lemma PlannedNothing(world: World, u: nat, plans: seq<Plan>)
    requires world.Valid() && |world.deeds| <= u
    ensures AddsPlanned(world.log, world.deeds, u, plans)
  {
    InLogHolds(world);
    AddedNothing(world, u);
  }

  lemma StillPlanned(world: World, log: seq<Instant>, u: nat, plans: seq<Plan>)
    requires world.Valid() && log <= world.log && u <= |world.deeds| && AddsPlanned(log, world.deeds, u, plans)
    ensures AddsPlanned(world.log, world.deeds, u, plans)
  {
    PlannedNothing(world, |world.deeds|, plans);
    PlannedContinue(log, world.deeds, u, world.log, world.deeds, plans);
  }

  /** A file that was added and then only written to. */
  lemma FilledPlanned(log: seq<Instant>, deeds: seq<nat>, u: nat, x: Ino, plans: seq<Plan>, w: Making)
    requires InLog(log, deeds) && u < |deeds| && CreatedBy(log, deeds, u, x) && OnlyWrote(log, deeds, u + 1, x) && AddedAs(log, deeds, u, plans, w)
    ensures AddsPlanned(log, deeds, u, plans)
  {
    FilledAdds(log, deeds, u, x);
  }

  // ---------- where outputs come from ----------

  /** Mentioning this unfolds `AddedOutput`, which is kept folded elsewhere to keep proofs small. */
  ghost predicate UnfoldAdded(ino: Ino, once: nat) {
    true
  }

  /** The output is the file this run created for the entry, or the directory seen under its name after this run had made one there. */
  ghost predicate AddedOutput(log: seq<Instant>, deeds: seq<nat>, u: nat, plans: seq<Plan>, plan: Plan, outputs: seq<Held>, h: Held, ino: Ino) {
    forall once: nat {:trigger UnfoldAdded(ino, once)} :: UnfoldAdded(ino, once) ==>
      InLog(log, deeds) && exists k, v :: AddsOutput(log, deeds, u, k, plans, Making(plan, outputs, h, v), ino)
  }

  ghost predicate AddsOutput(log: seq<Instant>, deeds: seq<nat>, u: nat, k: nat, plans: seq<Plan>, w: Making, ino: Ino)
    requires InLog(log, deeds)
  {
    && u <= k < |deeds| && (log[deeds[k]].step.Created? || log[deeds[k]].step.MadeDirectory?) && AddedAs(log, deeds, k, plans, w)
    && if w.h.entry.directory then DirectoryOutput(log, deeds[k] + 1, w.plan, w.outputs, w.h, ino) else log[deeds[k]].step.ino == ino
  }

  lemma AddedOutputStays(log: seq<Instant>, deeds: seq<nat>, u: nat, log': seq<Instant>, deeds': seq<nat>, u': nat, plans: seq<Plan>,
                         plan: Plan, outputs: seq<Held>, h: Held, ino: Ino)
    requires log <= log' && deeds <= deeds' && InLog(log', deeds') && u' <= u && AddedOutput(log, deeds, u, plans, plan, outputs, h, ino)
    ensures AddedOutput(log', deeds', u', plans, plan, outputs, h, ino)
  {
    assert UnfoldAdded(ino, 0);
    var k, v :| AddsOutput(log, deeds, u, k, plans, Making(plan, outputs, h, v), ino);
    AddedStays(log, deeds, log', deeds', k, plans, Making(plan, outputs, h, v));
    assert AddsOutput(log', deeds', u', k, plans, Making(plan, outputs, h, v), ino);
  }

  /** Mentioning this unfolds `OutputsAdded`, which is kept folded elsewhere to keep proofs small. */
  ghost predicate UnfoldAdditions(outputs: seq<Held>, once: nat) {
    true
  }

  ghost predicate OutputsAdded(log: seq<Instant>, deeds: seq<nat>, u: nat, plans: seq<Plan>, plan: Plan, outputs: seq<Held>) {
    forall once: nat {:trigger UnfoldAdditions(outputs, once)} :: UnfoldAdditions(outputs, once) ==>
      |outputs| <= |plan.held| && forall i | 0 <= i < |outputs| :: OutputAddedAt(log, deeds, u, plans, plan, outputs, i)
  }

  ghost predicate OutputAddedAt(log: seq<Instant>, deeds: seq<nat>, u: nat, plans: seq<Plan>, plan: Plan, outputs: seq<Held>, i: nat)
    requires i < |outputs| <= |plan.held|
  {
    AddedOutput(log, deeds, u, plans, plan, outputs[..i], plan.held[i], outputs[i].ino)
  }

  lemma OutputsAddedStay(log: seq<Instant>, deeds: seq<nat>, u: nat, log': seq<Instant>, deeds': seq<nat>, u': nat, plans: seq<Plan>,
                         plan: Plan, outputs: seq<Held>)
    requires log <= log' && deeds <= deeds' && InLog(log', deeds') && u' <= u && OutputsAdded(log, deeds, u, plans, plan, outputs)
    ensures OutputsAdded(log', deeds', u', plans, plan, outputs)
  {
    assert UnfoldAdditions(outputs, 0);
    forall i | 0 <= i < |outputs| ensures OutputAddedAt(log', deeds', u', plans, plan, outputs, i) {
      assert OutputAddedAt(log, deeds, u, plans, plan, outputs, i);
      AddedOutputStays(log, deeds, u, log', deeds', u', plans, plan, outputs[..i], plan.held[i], outputs[i].ino);
    }
  }

  lemma OutputsAddedMore(log: seq<Instant>, deeds: seq<nat>, u: nat, log': seq<Instant>, deeds': seq<nat>, plans: seq<Plan>,
                         plan: Plan, outputs: seq<Held>, out: Held)
    requires log <= log' && deeds <= deeds' && InLog(log', deeds') && u <= |deeds| && |outputs| < |plan.held|
    requires OutputsAdded(log, deeds, u, plans, plan, outputs)
    requires AddedOutput(log', deeds', |deeds|, plans, plan, outputs, plan.held[|outputs|], out.ino)
    ensures OutputsAdded(log', deeds', u, plans, plan, outputs + [out])
  {
    OutputsAddedStay(log, deeds, u, log', deeds', u, plans, plan, outputs);
    AddedOutputStays(log', deeds', |deeds|, log', deeds', u, plans, plan, outputs, plan.held[|outputs|], out.ino);
    assert UnfoldAdditions(outputs, 0);
    var more := outputs + [out];
    forall i | 0 <= i < |more| ensures OutputAddedAt(log', deeds', u, plans, plan, more, i) {
      if i < |outputs| {
        assert more[..i] == outputs[..i] && OutputAddedAt(log', deeds', u, plans, plan, outputs, i);
      } else {
        assert more[..i] == outputs;
      }
    }
  }
}
