/** Runs that only add to the disk: whatever stood there before stays as it was. */
module Additions {
  import opened Outcomes
  import opened Disks
  import opened Worlds
  import opened Effects
  import opened Publishing
  import opened Staging

  /** The deed creates something, or writes to a file that an earlier deed created. */
  ghost predicate AddingDeed(log: seq<Instant>, deeds: seq<nat>, u: nat, k: nat)
    requires k < |deeds| && InLog(log, deeds)
  {
    match log[deeds[k]].step
    case Created(_, _, _) => true
    case MadeDirectory(_, _, _) => true
    case Wrote(ino, _, _) => exists c :: u <= c < k && CreatedBy(log, deeds, c, ino)
    case _ => false
  }

  ghost predicate CreatedBy(log: seq<Instant>, deeds: seq<nat>, c: nat, ino: Ino)
    requires c < |deeds| && InLog(log, deeds)
  {
    log[deeds[c]].step.Created? && log[deeds[c]].step.ino == ino
  }

  /** Mentioning this unfolds `AddsOnly`, which is kept folded elsewhere to keep proofs small. */
  ghost predicate UnfoldDeeds(deeds: seq<nat>, once: nat) {
    true
  }

  /** From deed `u` on, the migration only adds. */
  ghost predicate AddsOnly(log: seq<Instant>, deeds: seq<nat>, u: nat) {
    forall once: nat {:trigger UnfoldDeeds(deeds, once)} :: UnfoldDeeds(deeds, once) ==> AddingDeeds(log, deeds, u)
  }

  ghost predicate AddingDeeds(log: seq<Instant>, deeds: seq<nat>, u: nat) {
    InLog(log, deeds) && forall k | u <= k < |deeds| :: AddingDeed(log, deeds, u, k)
  }

  lemma AddsOnlyMeans(log: seq<Instant>, deeds: seq<nat>, u: nat)
    requires AddsOnly(log, deeds, u)
    ensures AddingDeeds(log, deeds, u)
  {
    assert UnfoldDeeds(deeds, 0);
  }

  lemma AddingStays(log: seq<Instant>, deeds: seq<nat>, u: nat, log': seq<Instant>, deeds': seq<nat>, u': nat, k: nat)
    requires InLog(log, deeds) && InLog(log', deeds') && log <= log' && deeds <= deeds' && u' <= u <= k < |deeds| && AddingDeed(log, deeds, u, k)
    ensures AddingDeed(log', deeds', u', k)
  {
    if log[deeds[k]].step.Wrote? {
      var c :| u <= c < k && CreatedBy(log, deeds, c, log[deeds[k]].step.ino);
      assert CreatedBy(log', deeds', c, log[deeds[k]].step.ino);
    }
  }

  lemma AddsKept(log: seq<Instant>, log': seq<Instant>, deeds: seq<nat>, u: nat)
    requires log <= log' && AddsOnly(log, deeds, u)
    ensures AddsOnly(log', deeds, u)
  {
    AddsOnlyMeans(log, deeds, u);
    forall k | u <= k < |deeds| ensures AddingDeed(log', deeds, u, k) {
      AddingStays(log, deeds, u, log', deeds, u, k);
    }
  }

  lemma AddsContinue(log: seq<Instant>, deeds: seq<nat>, u: nat, log': seq<Instant>, deeds': seq<nat>)
    requires log <= log' && deeds <= deeds' && u <= |deeds| && AddsOnly(log, deeds, u) && AddsOnly(log', deeds', |deeds|)
    ensures AddsOnly(log', deeds', u)
  {
    AddsOnlyMeans(log, deeds, u);
    AddsOnlyMeans(log', deeds', |deeds|);
    forall k | u <= k < |deeds'| ensures AddingDeed(log', deeds', u, k) {
      if k < |deeds| {
        AddingStays(log, deeds, u, log', deeds', u, k);
      } else {
        AddingStays(log', deeds', |deeds|, log', deeds', u, k);
      }
    }
  }

  lemma AddedNothing(world: World, u: nat)
    requires world.Valid() && |world.deeds| <= u
    ensures AddsOnly(world.log, world.deeds, u)
  {
    Properly(world.log, world.deeds, world.horizon, world.environment);
  }

  lemma StillAdds(world: World, log: seq<Instant>, u: nat)
    requires world.Valid() && log <= world.log && u <= |world.deeds| && AddsOnly(log, world.deeds, u)
    ensures AddsOnly(world.log, world.deeds, u)
  {
    AddedNothing(world, |world.deeds|);
    AddsContinue(log, world.deeds, u, world.log, world.deeds);
  }

  /** A file that was created and then only written to. */
  lemma FilledAdds(log: seq<Instant>, deeds: seq<nat>, u: nat, x: Ino)
    requires InLog(log, deeds) && u < |deeds| && CreatedBy(log, deeds, u, x) && OnlyWrote(log, deeds, u + 1, x)
    ensures AddsOnly(log, deeds, u)
  {
    forall k | u <= k < |deeds| ensures AddingDeed(log, deeds, u, k) {
    }
  }

  // ---------- nothing is lost ----------

  /** A file or link is the same; a directory has at least the entries it had. */
  ghost predicate Keeps(d: Disk, e: Disk, x: Ino) {
    && x in d.nodes && x in e.nodes
    && if d.nodes[x].Dir? then e.nodes[x].Dir? && forall n | Edge(d, x, n).Some? :: Edge(e, x, n) == Edge(d, x, n)
       else e.nodes[x] == d.nodes[x]
  }

  ghost predicate KeepsAll(d0: Disk, d: Disk, e: Disk) {
    forall x <- d0.nodes :: Keeps(d, e, x)
  }

  /** What an adding deed writes to was not there when the run began. */
  lemma WrittenIsAdded(log: seq<Instant>, horizon: nat, a: nat, deeds: seq<nat>, u: nat, k: nat)
    requires Chain(log, horizon) && NewDeeds(log, a, deeds, u) && AddsOnly(log, deeds, u) && 0 < a && u <= k < |deeds|
    requires log[deeds[k]].step.Wrote?
    ensures log[deeds[k]].step.ino !in log[a - 1].after.nodes
  {
    AddsOnlyMeans(log, deeds, u);
    assert AddingDeed(log, deeds, u, k);
    var c :| u <= c < k && CreatedBy(log, deeds, c, log[deeds[k]].step.ino);
    CreatedNumber(log, horizon, deeds[c]);
    ChainGrows(log, horizon, a - 1, a - 1);
    if a < deeds[c] {
      NumbersGrow(log, horizon, a - 1, deeds[c]);
    } else {
      ChainStep(log, horizon, a);
    }
  }

  lemma AddingKeeps(t: Instant, x: Ino)
    requires StepOk(t) && x in t.before.nodes
    requires t.step.Created? || t.step.MadeDirectory? || (t.step.Wrote? && t.step.ino != x)
    ensures Keeps(t.before, t.after, x)
  {
  }

  /** No deed of such a run changes or removes anything that stood on the disk when the run began, whatever others do. */
  lemma NothingLost(log: seq<Instant>, horizon: nat, a: nat, deeds: seq<nat>, u: nat, i: nat)
    requires Chain(log, horizon) && NewDeeds(log, a, deeds, u) && AddsOnly(log, deeds, u) && 0 < a <= i < |log| && log[i].step.Changes()
    ensures KeepsAll(log[a - 1].after, log[i].before, log[i].after)
  {
    AddsOnlyMeans(log, deeds, u);
    var k :| u <= k < |deeds| && deeds[k] == i;
    assert AddingDeed(log, deeds, u, k);
    ChainStep(log, horizon, i);
    ChainGrows(log, horizon, a - 1, i - 1);
    if log[i].step.Wrote? {
      WrittenIsAdded(log, horizon, a, deeds, u, k);
    }
    forall x <- log[a - 1].after.nodes ensures Keeps(log[i].before, log[i].after, x) {
      AddingKeeps(log[i], x);
    }
  }

  /** If others rest, all of it is still there at every instant. */
  lemma {:induction false} AllIsKept(log: seq<Instant>, horizon: nat, a: nat, deeds: seq<nat>, u: nat, i: nat)
    requires Chain(log, horizon) && NewDeeds(log, a, deeds, u) && AddsOnly(log, deeds, u) && 0 < a <= i + 1 <= |log| && horizon <= a
    ensures KeepsAll(log[a - 1].after, log[a - 1].after, log[i].after)
    decreases i
  {
    if a <= i {
      AllIsKept(log, horizon, a, deeds, u, i - 1);
      ChainStep(log, horizon, i);
      if log[i].step.Changes() {
        NothingLost(log, horizon, a, deeds, u, i);
        KeptOn(log[a - 1].after, log[i].before, log[i].after);
      }
    }
  }

  lemma KeptOn(d0: Disk, d: Disk, e: Disk)
    requires KeepsAll(d0, d0, d) && KeepsAll(d0, d, e)
    ensures KeepsAll(d0, d0, e)
  {
    forall x <- d0.nodes ensures Keeps(d0, e, x) {
      assert Keeps(d0, d, x) && Keeps(d, e, x);
    }
  }

  /** Every path that led somewhere leads there still. */
  ghost predicate StillThere(d0: Disk, d: Disk) {
    forall q: Path | Resolve(d0, q).Some? :: SameAt(d0, d, q)
  }

  lemma {:induction false} KeptResolves(d0: Disk, d: Disk, q: Path)
    requires WellFormed(d0) && KeepsAll(d0, d0, d) && Resolve(d0, q).Some?
    ensures Resolve(d, q) == Resolve(d0, q)
    decreases |q|
  {
    if q != [] {
      var up := q[..|q| - 1];
      KeptResolves(d0, d, up);
      ResolveInside(d0, up);
      assert Keeps(d0, d, Resolve(d0, up).value);
    }
  }

  lemma KeptStillThere(d0: Disk, d: Disk)
    requires WellFormed(d0) && KeepsAll(d0, d0, d)
    ensures StillThere(d0, d)
  {
    forall q: Path | Resolve(d0, q).Some? ensures SameAt(d0, d, q) {
      KeptResolves(d0, d, q);
      ResolveInside(d0, q);
      assert Keeps(d0, d, Resolve(d0, q).value);
    }
  }
}
