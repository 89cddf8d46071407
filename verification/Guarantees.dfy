/** What a batch guarantees as a whole, at every instant of its run. */
module Guarantees {
  import opened Outcomes
  import opened Disks
  import opened Worlds
  import opened Effects
  import opened Paths
  import opened Retained
  import opened Scans
  import opened Plans
  import opened Checks
  import opened Preparing
  import opened Publishing
  import opened Meters
  import opened Copying
  import opened Entries
  import opened Overlays
  import opened Reports
  import opened Copies
  import opened Verifying
  import opened Batches
  import opened Commits

  /**
    Whatever others do elsewhere, and however the batch ends: at every instant, a name that is not a staging
    name shows what it showed before, or a complete copy that passed the comparison, or a new directory.
  */
  lemma NeverPartial(world: World, a: nat, u: nat, plans: seq<Plan>, rest: bool, d0: Disk, dir: Ino, name: Name, i: nat)
    returns (shown: Shown)
    requires world.Valid() && 0 < a <= i + 1 <= |world.log| && NewDeeds(world.log, a, world.deeds, u) && !IsStaging(name)
    requires BatchSofar(world.log, a, world.deeds, u, plans, rest, d0) && InLog(world.log, world.deeds)
    requires forall t | a <= t < |world.log| && world.log[t].step.Outside? :: HandsOff(world.log, world.deeds, u, dir, name, t)
    ensures InLog(world.log, world.deeds) && Shows(world.log, a, world.deeds, u, plans, dir, name, i, shown)
  {
    assert UnfoldPlans(plans, 0);
    CarefulMeans(world.log, a, world.deeds, u, plans);
    Properly(world.log, world.deeds, world.horizon, world.environment);
    ChainGrows(world.log, world.horizon, a - 1, i);
    shown := AtomicReplacement(world.log, world.horizon, a, world.deeds, u, plans, dir, name, i);
  }

  // ---------- every instant ----------

  /** Between two deeds nothing changes, so a run at rest is midway at every instant. */
  lemma {:induction false} MidwayAtEveryInstant(log: seq<Instant>, horizon: nat, a: nat, deeds: seq<nat>, u: nat, d0: Disk, plans: seq<Plan>, i: nat)
    requires Chain(log, horizon) && NewDeeds(log, a, deeds, u) && MidwayThroughout(log, deeds, u, d0, plans)
    requires 0 < a <= i + 1 <= |log| && horizon <= a && log[a - 1].after == d0
    ensures Midway(d0, log[i].after, plans)
    decreases i
  {
    if i + 1 == a {
      Unmoved(d0, plans);
    } else if log[i].step.Changes() {
      var k :| u <= k < |deeds| && deeds[k] == i;
    } else {
      ChainStep(log, horizon, i);
      MidwayAtEveryInstant(log, horizon, a, deeds, u, d0, plans, i - 1);
    }
  }

  lemma Unmoved(d: Disk, plans: seq<Plan>)
    ensures Midway(d, d, plans)
  {
    forall q: Path ensures SameAt(d, d, q) {
    }
  }

  // ---------- the sources ----------

  ghost predicate SourcesApart(plans: seq<Plan>) {
    forall p, q | p in plans && q in plans :: !Overlaps(p.destination.path, q.source.path)
  }

  /** Midway or not, nothing in a source tree has changed. */
  lemma SourcesUntouched(d0: Disk, d: Disk, plans: seq<Plan>, plan: Plan, p: Path)
    requires SourcesApart(plans) && AllPrepared(plans) && plan in plans && Midway(d0, d, plans)
    ensures SameAt(d0, d, plan.source.path + p)
  {
    var q := plan.source.path + p;
    if Planned(d0, d, plans, q) {
      var other, h :| other in plans && h in other.held && q == Target(other, h);
      PreparedMeans(other);
      EntriesGoDown(other, h);
      ApartBeside(other.destination.path, plan.source.path, p);
    } else if Leftover(d0, d, plans, q) {
      var other :| other in plans && other.destination.path < q;
      ApartBeside(other.destination.path, plan.source.path, p);
    }
  }

  // ---------- one directory ----------

  /** No entry has a staging name that is still to come. */
  ghost predicate PlainNames(entries: seq<Entry>, serial: nat) {
    forall e | e in entries :: e.relative != [] ==> !FreshName(e.relative[|e.relative| - 1], serial)
  }

  lemma ReadyFeasible(d: Disk, plan: Plan, serial: nat)
    requires Prepared(plan) && Ready(d, plan) && PlainNames(plan.entries, serial)
    ensures Carried(d, [plan], [], serial)
  {
    PreparedMeans(plan);
    forall h | h in plan.held ensures h.entry.relative != [] && !FreshName(NameOf(h), serial) {
      var i :| 0 <= i < |plan.held| && plan.held[i] == h;
      assert plan.entries[i] in plan.entries;
    }
    assert Feasible(d, plan, serial);
  }

  /**
    `prepare` followed by `copy_retaining_source`. On a disk at rest, where no call fails, a request that is
    acceptable is carried out, and leaves the destination overlaid by the source and nothing else changed.
  */
  method Migrate(world: World, source: Path, destination: Path, protected: seq<Path>) returns (r: Result<()>)
    requires world.Valid()
    modifies world
    ensures world.Continued() && world.commits <= old(world.commits) + 1 && (r.Ok? ==> world.commits == old(world.commits) + 1)
    ensures old(world.Quiet()) && r.Ok? ==> Acceptable(old(world.disk), source, destination, protected)
    ensures old(world.Quiet()) && r.Ok? ==>
              exists plan: Plan :: plan.source.path == source && plan.destination.path == destination && Ready(old(world.disk), plan)
                             && Overlaid(old(world.disk), world.disk, [plan]) && SourceHolds(world.disk, plan)
    ensures old(world.Quiet() && world.Faultless()) && Acceptable(old(world.disk), source, destination, protected) ==>
              Small(old(world.disk), source, old(world.serial)) ==> r.Ok?
  {
    ghost var d := world.disk;
    var plan :- Prepare(world, source, destination, protected);
    ghost var rest := old(world.Quiet());
    if rest {
      if Small(d, source, world.serial) {
        ReadyFeasible(d, plan, world.serial);
      }
    }
    OnePlan(plan);
    var report := new MigrationReport(false);
    r := CopyBatch(world, [plan], report, rest);
    if rest && r.Ok? {
      assert plan in [plan];
    }
  }

  /** The sizes add up to a 64-bit number, and no staging name to come is among the names. */
  ghost predicate Small(d: Disk, source: Path, serial: nat) {
    forall entries | Listing(d, source, entries) :: Bytes(entries) <= U64_MAX && PlainNames(entries, serial)
  }

  lemma OnePlan(plan: Plan)
    requires Prepared(plan)
    ensures Apart([plan]) && AllPrepared([plan]) && TotalBytes([plan]) == Bytes(plan.entries)
  {
    PreparedMeans(plan);
    OverlapMeans(plan.source.path, plan.destination.path);
    assert [plan][..0] == [];
  }
}
