/** A second attempt after a batch that was stopped: it can be planned, and it ends where the first one would have. */
module Retries {
  import opened Outcomes
  import opened Disks
  import opened Worlds
  import opened Effects
  import opened Paths
  import opened Retained
  import opened Scans
  import opened Plans
  import opened Checks
  import opened Preparing
  import opened Publishing
  import opened Meters
  import opened Staging
  import opened Copying
  import opened Entries
  import opened Overlays
  import opened Reports
  import opened Copies
  import opened Verifying
  import opened Batches
  import opened Commits
  import opened Guarantees

  /** Every plan could be carried out on `d0`. */
  ghost predicate AllReady(d0: Disk, plans: seq<Plan>) {
    forall plan | plan in plans :: Ready(d0, plan)
  }

  /** No entry has a staging name. */
  ghost predicate NamesPlain(plans: seq<Plan>) {
    forall plan, e | plan in plans && e in plan.entries :: e.relative != [] ==> !IsStaging(e.relative[|e.relative| - 1])
  }

  // ---------- the sources ----------

  lemma ApartSources(plans: seq<Plan>)
    requires Apart(plans)
    ensures SourcesApart(plans)
  {
    forall p, q | p in plans && q in plans ensures !Overlaps(p.destination.path, q.source.path) {
      var i :| 0 <= i < |plans| && plans[i] == p;
      var j :| 0 <= j < |plans| && plans[j] == q;
    }
  }

  lemma ListingSame(d0: Disk, d1: Disk, root: Path, entries: seq<Entry>)
    requires WellFormed(d0) && Listing(d0, root, entries) && forall p: Path :: SameAt(d0, d1, root + p)
    ensures Listing(d1, root, entries)
  {
    assert root + [] == root && SameAt(d0, d1, root + []);
    forall f | f in entries ensures Matches(d1, root, f) {
      assert Matches(d0, root, f);
      MetaBeside(d0, d1, root + f.relative);
    }
    forall p: Path | p != [] && Resolve(d1, root + p).Some?
      ensures exists f :: f in entries && f.relative == p
    {
      assert SameAt(d0, d1, root + p);
    }
  }

  lemma MigratableSame(d0: Disk, d1: Disk, root: Path)
    requires WellFormed(d0) && Migratable(d0, root) && forall p: Path :: SameAt(d0, d1, root + p)
    ensures Migratable(d1, root)
  {
    assert root + [] == root && SameAt(d0, d1, root + []);
    forall p: Path | Resolve(d1, root + p).Some? ensures Movable(View(d1, root + p)) {
      assert SameAt(d0, d1, root + p);
    }
    forall p: Path | View(d1, root + p).AFile? ensures d1.nodes[Resolve(d1, root + p).value].Regular() {
      MetaBeside(d0, d1, root + p);
    }
  }

  // ---------- the destinations ----------

  /** Only one plan has its target there. */
  lemma TargetOfPlan(plans: seq<Plan>, i: nat, other: Plan, h: Held, p: Path)
    requires Apart(plans) && i < |plans| && other in plans && Target(other, h) == plans[i].destination.path + p
    ensures other == plans[i] && h.entry.relative == p
  {
    var j :| 0 <= j < |plans| && plans[j] == other;
    var q := Target(other, h);
    assert Beneath(q, plans[i].destination.path) && Beneath(q, other.destination.path);
    OverlapMeans(plans[j].destination.path, plans[i].destination.path);
    assert q[|other.destination.path|..] == h.entry.relative && q[|plans[i].destination.path|..] == p;
  }

  lemma DestinationStays(d0: Disk, d1: Disk, plans: seq<Plan>, i: nat)
    requires Apart(plans) && AllPrepared(plans) && i < |plans| && Midway(d0, d1, plans)
    ensures SameAt(d0, d1, plans[i].destination.path)
  {
    var t := plans[i].destination.path;
    assert t + [] == t;
    if Planned(d0, d1, plans, t) {
      var other, h :| other in plans && h in other.held && t == Target(other, h);
      PreparedMeans(other);
      EntriesGoDown(other, h);
      TargetOfPlan(plans, i, other, h, []);
    } else if Leftover(d0, d1, plans, t) {
      var other :| other in plans && other.destination.path < t;
      var j :| 0 <= j < |plans| && plans[j] == other;
      assert i != j && Overlaps(plans[j].destination.path, plans[i].destination.path);
    }
  }

  /** Where an entry goes there is what was there before, or what is planned for it. */
  lemma PlaceMidway(d0: Disk, d1: Disk, plans: seq<Plan>, i: nat, e: Entry)
    requires Apart(plans) && AllPrepared(plans) && NamesPlain(plans) && i < |plans| && Midway(d0, d1, plans) && e in plans[i].entries
    ensures var q := plans[i].destination.path + e.relative;
            SameAt(d0, d1, q) || (OneLink(d1, q) && exists h :: h in plans[i].held && h.entry == e && View(d1, q) == Wanted(d0, h))
  {
    var q := plans[i].destination.path + e.relative;
    PreparedMeans(plans[i]);
    assert e.relative != [] && q[|q| - 1] == e.relative[|e.relative| - 1];
    assert !Leftover(d0, d1, plans, q);
    if Planned(d0, d1, plans, q) {
      var other, h :| other in plans && h in other.held && q == Target(other, h) && View(d1, q) == Wanted(d0, h);
      TargetOfPlan(plans, i, other, h, e.relative);
      SameEntry(plans[i], h, e);
    }
  }

  lemma SameEntry(plan: Plan, h: Held, e: Entry)
    requires Shaped(plan) && h in plan.held && e in plan.entries && h.entry.relative == e.relative
    ensures h.entry == e
  {
    var i :| 0 <= i < |plan.held| && plan.held[i] == h;
    var j :| 0 <= j < |plan.entries| && plan.entries[j] == e;
    SnapshotDistinct(plan.entries);
  }

  /** A directory among the entries: nothing but a directory stands there. */
  lemma DirectoryMidway(d0: Disk, d1: Disk, plans: seq<Plan>, i: nat, e: Entry)
    requires Apart(plans) && AllPrepared(plans) && NamesPlain(plans) && i < |plans| && Midway(d0, d1, plans) && e in plans[i].entries && e.directory
    requires View(d0, plans[i].destination.path + e.relative) in {Absent, ADir}
    ensures View(d1, plans[i].destination.path + e.relative) in {Absent, ADir}
  {
    PlaceMidway(d0, d1, plans, i, e);
  }

  lemma TargetMidway(d0: Disk, d1: Disk, plans: seq<Plan>, i: nat, e: Entry)
    requires WellFormed(d0) && WellFormed(d1) && Apart(plans) && AllPrepared(plans) && NamesPlain(plans) && i < |plans| && Midway(d0, d1, plans)
    requires e in plans[i].entries && TargetFits(d0, plans[i].destination.path + e.relative, e.directory) && SourceHolds(d0, plans[i])
    ensures TargetFits(d1, plans[i].destination.path + e.relative, e.directory)
  {
    var q := plans[i].destination.path + e.relative;
    PlaceMidway(d0, d1, plans, i, e);
    if SameAt(d0, d1, q) {
      FitsBeside(d0, d1, q, e.directory);
    } else {
      var h :| h in plans[i].held && h.entry == e && View(d1, q) == Wanted(d0, h);
      assert EntryHolds(d0, plans[i].source.path, h);
      ResolveInside(d1, q);
    }
  }

  lemma FitsMidway(d0: Disk, d1: Disk, plans: seq<Plan>, i: nat, e: Entry)
    requires WellFormed(d0) && WellFormed(d1) && Apart(plans) && AllPrepared(plans) && NamesPlain(plans) && i < |plans| && Midway(d0, d1, plans)
    requires e in plans[i].entries && Fits(d0, plans[i].destination.path, e) && SourceHolds(d0, plans[i])
    ensures Fits(d1, plans[i].destination.path, e)
  {
    PreparedMeans(plans[i]);
    TargetMidway(d0, d1, plans, i, e);
    forall k | 0 < k < |e.relative| ensures View(d1, plans[i].destination.path + e.relative[..k]) in {Absent, ADir} {
      AncestorListed(plans[i].entries, e.relative, k);
      var up :| up in plans[i].entries && up.directory && up.relative == e.relative[..k];
      DirectoryMidway(d0, d1, plans, i, up);
    }
  }

  /** At every instant of a batch at rest, each of its requests could be prepared again. */
  lemma AcceptableMidway(d0: Disk, d1: Disk, plans: seq<Plan>, i: nat, protected: seq<Path>)
    requires WellFormed(d0) && WellFormed(d1) && Apart(plans) && AllPrepared(plans) && AllReady(d0, plans) && NamesPlain(plans) && i < |plans|
    requires Midway(d0, d1, plans) && forall root | root in protected :: !Overlaps(plans[i].destination.path, root)
    ensures Acceptable(d1, plans[i].source.path, plans[i].destination.path, protected)
  {
    var plan := plans[i];
    PreparedMeans(plan);
    ReadyAcceptable(d0, plan);
    ApartSources(plans);
    forall p: Path ensures SameAt(d0, d1, plan.source.path + p) {
      SourcesUntouched(d0, d1, plans, plan, p);
    }
    MigratableSame(d0, d1, plan.source.path);
    DestinationStays(d0, d1, plans, i);
    ListingSame(d0, d1, plan.source.path, plan.entries);
    forall entries | Listing(d1, plan.source.path, entries) ensures Compatible(d1, plan.destination.path, entries) {
      ListingUnique(d1, plan.source.path, entries, plan.entries);
      forall e | e in entries ensures Fits(d1, plan.destination.path, e) {
        FitsMidway(d0, d1, plans, i, e);
      }
    }
  }

  // ---------- the same migration, planned anew ----------

  /** The same migration, planned anew. */
  ghost predicate Again(plans: seq<Plan>, again: seq<Plan>) {
    && |again| == |plans|
    && forall i | 0 <= i < |plans| :: again[i].source.path == plans[i].source.path && again[i].destination.path == plans[i].destination.path
  }

  /** A source that has not changed is listed, and wanted, as before. */
  lemma SameListing(d0: Disk, d1: Disk, plan: Plan, plan': Plan)
    requires WellFormed(d0) && SoundPlan(plan) && SoundPlan(plan') && SourceHolds(d0, plan) && SourceHolds(d1, plan')
    requires plan.source.path == plan'.source.path && forall p: Path :: SameAt(d0, d1, plan.source.path + p)
    ensures plan'.entries == plan.entries
  {
    var root := plan.source.path;
    assert root + [] == root;
    assert SameAt(d0, d1, root + []);
    forall e | e in plan.entries ensures Matches(d1, root, e) {
      assert Matches(d0, root, e);
      MetaBeside(d0, d1, root + e.relative);
    }
    forall p: Path | p != [] && Resolve(d1, root + p).Some?
      ensures exists e :: e in plan.entries && e.relative == p
    {
      assert SameAt(d0, d1, root + p);
    }
    ListingUnique(d1, root, plan.entries, plan'.entries);
  }

  lemma SameWanted(d0: Disk, d1: Disk, plan: Plan, plan': Plan, i: nat)
    requires WellFormed(d0) && SoundPlan(plan) && SoundPlan(plan') && SourceHolds(d0, plan) && SourceHolds(d1, plan')
    requires plan.source.path == plan'.source.path && plan'.entries == plan.entries && i < |plan.held|
    requires SameAt(d0, d1, plan.source.path + plan.entries[i].relative)
    ensures Wanted(d1, plan'.held[i]) == Wanted(d0, plan.held[i])
  {
    assert EntryHolds(d0, plan.source.path, plan.held[i]) && EntryHolds(d1, plan'.source.path, plan'.held[i]);
    MetaBeside(d0, d1, plan.source.path + plan.entries[i].relative);
  }

  /** Both attempts have the same targets, and want the same there. */
  lemma SameTargets(d0: Disk, d1: Disk, plans: seq<Plan>, again: seq<Plan>, i: nat, j: nat)
    requires WellFormed(d0) && AllPrepared(plans) && AllPrepared(again) && AllHeldAt(d0, plans) && AllHeldAt(d1, again)
    requires SourcesApart(plans) && Again(plans, again) && Midway(d0, d1, plans) && i < |plans|
    ensures |again[i].held| == |plans[i].held|
    ensures j < |plans[i].held| ==> Target(again[i], again[i].held[j]) == Target(plans[i], plans[i].held[j])
                                    && Wanted(d1, again[i].held[j]) == Wanted(d0, plans[i].held[j])
  {
    PreparedMeans(plans[i]);
    PreparedMeans(again[i]);
    forall p: Path ensures SameAt(d0, d1, plans[i].source.path + p) {
      SourcesUntouched(d0, d1, plans, plans[i], p);
    }
    SameListing(d0, d1, plans[i], again[i]);
    if j < |plans[i].held| {
      SameWanted(d0, d1, plans[i], again[i], j);
    }
  }

  lemma TargetWas(d0: Disk, d1: Disk, plans: seq<Plan>, again: seq<Plan>, q: Path)
    requires WellFormed(d0) && AllPrepared(plans) && AllPrepared(again) && AllHeldAt(d0, plans) && AllHeldAt(d1, again)
    requires SourcesApart(plans) && Again(plans, again) && Midway(d0, d1, plans)
    ensures IsTarget(again, q) ==> IsTarget(plans, q)
  {
    if IsTarget(again, q) {
      var plan, h :| plan in again && h in plan.held && q == Target(plan, h);
      var i :| 0 <= i < |again| && again[i] == plan;
      var j :| 0 <= j < |plan.held| && plan.held[j] == h;
      SameTargets(d0, d1, plans, again, i, j);
      assert plans[i].held[j] in plans[i].held;
    }
  }

  // ---------- the second attempt ----------

  /** Every target has what its source had, and any other path is as it was or is a staging file left over. */
  ghost predicate Converged(d0: Disk, d: Disk, plans: seq<Plan>) {
    && (forall plan, h | plan in plans && h in plan.held :: View(d, Target(plan, h)) == Wanted(d0, h))
    && forall q: Path :: SameAt(d0, d, q) || IsTarget(plans, q) || Leftover(d0, d, plans, q)
  }

  /** Which is what a run without interruption leaves, but for the staging files. */
  lemma LikeStraight(d0: Disk, d: Disk, straight: Disk, plans: seq<Plan>, q: Path)
    requires Converged(d0, d, plans) && Overlaid(d0, straight, plans)
    ensures View(d, q) == View(straight, q) || Leftover(d0, d, plans, q)
  {
    if IsTarget(plans, q) {
      var plan, h :| plan in plans && h in plan.held && q == Target(plan, h);
    }
  }

  lemma Converging(d0: Disk, d1: Disk, d2: Disk, plans: seq<Plan>, again: seq<Plan>)
    requires WellFormed(d0) && AllPrepared(plans) && AllPrepared(again) && AllHeldAt(d0, plans) && AllHeldAt(d1, again)
    requires SourcesApart(plans) && Again(plans, again) && Midway(d0, d1, plans) && Overlaid(d1, d2, again)
    ensures Converged(d0, d2, plans)
  {
    forall plan, h | plan in plans && h in plan.held ensures View(d2, Target(plan, h)) == Wanted(d0, h) {
      var i :| 0 <= i < |plans| && plans[i] == plan;
      var j :| 0 <= j < |plan.held| && plan.held[j] == h;
      SameTargets(d0, d1, plans, again, i, j);
      assert again[i] in again && again[i].held[j] in again[i].held;
    }
    forall q: Path ensures SameAt(d0, d2, q) || IsTarget(plans, q) || Leftover(d0, d2, plans, q) {
      TargetWas(d0, d1, plans, again, q);
      if !IsTarget(plans, q) {
        assert !Planned(d0, d1, plans, q) && SameAt(d1, d2, q);
        if SameAt(d0, d1, q) {
          SameAtOn(d0, d1, d2, q);
        }
      }
    }
  }

  /**
    Stop a run at any instant, plan again on the disk it left, and run to the end: every path ends as it does
    after a run without interruption, except for staging files that were left behind.
  */
  lemma RetryConverges(d0: Disk, d1: Disk, d2: Disk, straight: Disk, plans: seq<Plan>, again: seq<Plan>, q: Path)
    requires WellFormed(d0) && AllPrepared(plans) && AllPrepared(again) && AllHeldAt(d0, plans) && AllHeldAt(d1, again)
    requires SourcesApart(plans) && Again(plans, again)
    requires Midway(d0, d1, plans) && Overlaid(d1, d2, again) && Overlaid(d0, straight, plans)
    ensures View(d2, q) == View(straight, q) || Leftover(d0, d2, plans, q)
  {
    Converging(d0, d1, d2, plans, again);
    LikeStraight(d0, d2, straight, plans, q);
  }

  datatype Request = Request(source: Path, destination: Path, protected: seq<Path>)

  /** The plans were made for these requests. */
  ghost predicate PlannedFor(plans: seq<Plan>, requests: seq<Request>) {
    |plans| == |requests| && forall i | 0 <= i < |plans| :: For(plans[i], requests[i])
  }

  ghost predicate For(plan: Plan, request: Request) {
    && Prepared(plan) && plan.source.path == request.source && plan.destination.path == request.destination
    && forall root | root in request.protected :: !Overlaps(plan.destination.path, root)
  }

  ghost predicate AllAcceptable(d: Disk, requests: seq<Request>) {
    forall q | q in requests :: Acceptable(d, q.source, q.destination, q.protected)
  }

  /** Planning every request anew. */
  method PrepareAll(world: World, requests: seq<Request>) returns (r: Result<seq<Plan>>)
    requires world.Valid()
    modifies world
    ensures world.Looked()
    ensures r.Ok? ==> PlannedFor(r.value, requests)
    ensures old(world.Quiet()) && r.Ok? ==> AllReady(world.disk, r.value)
    ensures old(world.Quiet() && world.Faultless()) && AllAcceptable(old(world.disk), requests) ==> r.Ok?
  {
    var plans: seq<Plan> := [];
    for k := 0 to |requests|
      invariant world.Looked() && |plans| == k && forall i | 0 <= i < k :: For(plans[i], requests[i])
      invariant old(world.Quiet()) ==> AllReady(world.disk, plans)
    {
      assert requests[k] in requests;
      var plan :- Prepare(world, requests[k].source, requests[k].destination, requests[k].protected);
      plans := plans + [plan];
    }
    return Ok(plans);
  }

  /** The second attempt: every request is planned anew and the batch is run. */
  method Attempt(world: World, requests: seq<Request>, report: MigrationReport) returns (r: Result<()>, ghost plans: seq<Plan>)
    requires world.Valid()
    modifies world, report
    ensures world.Continued() && world.commits <= old(world.commits) + 1 && (r.Ok? ==> world.commits == old(world.commits) + 1)
    ensures r.Ok? ==> PlannedFor(plans, requests)
    ensures old(world.Quiet()) && r.Ok? ==> AllReady(old(world.disk), plans) && Overlaid(old(world.disk), world.disk, plans)
    ensures old(world.Quiet() && world.Faultless()) && AllAcceptable(old(world.disk), requests) ==> PlannedFor(plans, requests) && AllReady(old(world.disk), plans)
    ensures old(world.Quiet() && world.Faultless()) && AllAcceptable(old(world.disk), requests) && Apart(plans) && NamesPlain(plans) ==>
              (r.Ok? <==> TotalBytes(plans) <= U64_MAX)
  {
    ghost var d := world.disk;
    plans := [];
    var prepared := PrepareAll(world, requests);
    if prepared.Err? {
      r := Err(prepared.fault);
      return;
    }
    plans := prepared.value;
    ghost var rest := old(world.Quiet());
    if rest && NamesPlain(plans) {
      AllCarried(d, plans, world.serial);
    }
    r := CopyBatch(world, prepared.value, report, rest);
  }

  lemma FreshIsStaging(name: Name, serial: nat)
    ensures FreshName(name, serial) ==> IsStaging(name)
  {
    if FreshName(name, serial) {
      var n: nat :| serial <= n && name == StagingName(n);
    }
  }

  lemma PlainHeld(plans: seq<Plan>, plan: Plan, h: Held, serial: nat)
    requires Shaped(plan) && plan in plans && h in plan.held && NamesPlain(plans)
    ensures h.entry.relative != [] && !FreshName(NameOf(h), serial)
  {
    var j :| 0 <= j < |plan.held| && plan.held[j] == h;
    assert plan.entries[j] in plan.entries && h.entry == plan.entries[j];
    FreshIsStaging(NameOf(h), serial);
  }

  lemma AllCarried(d: Disk, plans: seq<Plan>, serial: nat)
    requires AllPrepared(plans) && AllReady(d, plans) && NamesPlain(plans)
    ensures Carried(d, plans, [], serial)
  {
    forall i | 0 <= i < |plans| ensures Feasible(d, plans[i], serial) {
      assert plans[i] in plans;
      PreparedMeans(plans[i]);
      forall h | h in plans[i].held ensures h.entry.relative != [] && !FreshName(NameOf(h), serial) {
        PlainHeld(plans, plans[i], h, serial);
      }
    }
  }

  // ---------- both together ----------

  /** What the first run had before it: plans that could be carried out, apart from each other, under plain names. */
  ghost predicate Begun(d0: Disk, plans: seq<Plan>, requests: seq<Request>) {
    && WellFormed(d0) && PlannedFor(plans, requests) && AllReady(d0, plans) && Apart(plans) && NamesPlain(plans) && TotalBytes(plans) <= U64_MAX
  }

  lemma AcceptableAgain(d0: Disk, d1: Disk, plans: seq<Plan>, requests: seq<Request>)
    requires Begun(d0, plans, requests) && WellFormed(d1) && Midway(d0, d1, plans)
    ensures AllPrepared(plans) && AllAcceptable(d1, requests)
  {
    forall plan | plan in plans ensures Prepared(plan) {
      var i :| 0 <= i < |plans| && plans[i] == plan;
      assert For(plans[i], requests[i]);
    }
    forall q | q in requests ensures Acceptable(d1, q.source, q.destination, q.protected) {
      var i :| 0 <= i < |requests| && requests[i] == q;
      assert For(plans[i], requests[i]);
      AcceptableMidway(d0, d1, plans, i, q.protected);
    }
  }

  /** The plans made anew have the same entries, so they are apart, plain, and as large. */
  lemma SameAgain(d0: Disk, d1: Disk, plans: seq<Plan>, again: seq<Plan>, requests: seq<Request>)
    requires Begun(d0, plans, requests) && PlannedFor(again, requests) && AllReady(d1, again) && Midway(d0, d1, plans)
    ensures Again(plans, again) && AllPrepared(again) && AllHeldAt(d0, plans) && AllHeldAt(d1, again)
    ensures Apart(again) && NamesPlain(again) && TotalBytes(again) == TotalBytes(plans)
  {
    forall i | 0 <= i < |plans| ensures For(plans[i], requests[i]) && For(again[i], requests[i]) && again[i].entries == plans[i].entries {
      EntriesAgain(d0, d1, plans, again, requests, i);
    }
    forall plan, e | plan in again && e in plan.entries && e.relative != [] ensures !IsStaging(e.relative[|e.relative| - 1]) {
      var i :| 0 <= i < |again| && again[i] == plan;
      assert plans[i] in plans && e in plans[i].entries;
    }
    forall plan | plan in again ensures Prepared(plan) {
      var i :| 0 <= i < |again| && again[i] == plan;
    }
    SameTotals(plans, again);
  }

  lemma EntriesAgain(d0: Disk, d1: Disk, plans: seq<Plan>, again: seq<Plan>, requests: seq<Request>, i: nat)
    requires Begun(d0, plans, requests) && PlannedFor(again, requests) && AllReady(d1, again) && Midway(d0, d1, plans) && i < |plans|
    ensures For(plans[i], requests[i]) && For(again[i], requests[i]) && again[i].entries == plans[i].entries
  {
    assert For(plans[i], requests[i]) && For(again[i], requests[i]) && plans[i] in plans && again[i] in again;
    forall plan | plan in plans ensures Prepared(plan) {
      var j :| 0 <= j < |plans| && plans[j] == plan;
      assert For(plans[j], requests[j]);
    }
    PreparedMeans(plans[i]);
    PreparedMeans(again[i]);
    ApartSources(plans);
    forall p: Path ensures SameAt(d0, d1, plans[i].source.path + p) {
      SourcesUntouched(d0, d1, plans, plans[i], p);
    }
    SameListing(d0, d1, plans[i], again[i]);
  }

  lemma {:induction false} SameTotals(plans: seq<Plan>, again: seq<Plan>)
    requires |again| == |plans| && AllPrepared(plans) && AllPrepared(again) && forall i | 0 <= i < |plans| :: again[i].entries == plans[i].entries
    ensures TotalBytes(again) == TotalBytes(plans)
  {
    if plans != [] {
      var n := |plans| - 1;
      assert plans[n] in plans && again[n] in again;
      PreparedMeans(plans[n]);
      PreparedMeans(again[n]);
      SameTotals(plans[..n], again[..n]);
    }
  }

  /** A second attempt on a disk on which a first one was stopped. */
  method Retry(world: World, requests: seq<Request>, report: MigrationReport, ghost d0: Disk, ghost plans: seq<Plan>) returns (r: Result<()>)
    requires world.Valid()
    modifies world, report
    ensures world.Continued()
    ensures old(world.Quiet()) && Begun(d0, plans, requests) && Midway(d0, old(world.disk), plans) ==>
              && (r.Ok? ==> Converged(d0, world.disk, plans))
              && (old(world.Faultless()) ==> r.Ok?)
  {
    world.Sound();
    ghost var d1, again := world.disk, [];
    ghost var rest := world.Quiet() && Begun(d0, plans, requests) && Midway(d0, d1, plans);
    if rest {
      AcceptableAgain(d0, d1, plans, requests);
    }
    r, again := Attempt(world, requests, report);
    if rest && PlannedFor(again, requests) && AllReady(d1, again) {
      SameAgain(d0, d1, plans, again, requests);
      ApartSources(plans);
      if r.Ok? {
        Converging(d0, d1, world.disk, plans, again);
      }
    }
  }

  /** The disk as it was at some instant from just before `a` on. */
  ghost predicate StoppedIn(log: seq<Instant>, a: nat, stopped: Disk) {
    exists i: nat :: a <= i + 1 <= |log| && log[i].after == stopped
  }

  lemma StoppedMidway(world: World, a: nat, u: nat, d0: Disk, plans: seq<Plan>, stopped: Disk)
    requires world.Valid() && 0 < a <= |world.log| && world.horizon <= a && world.log[a - 1].after == d0 && NewDeeds(world.log, a, world.deeds, u)
    requires BatchSofar(world.log, a, world.deeds, u, plans, true, d0) && StoppedIn(world.log, a, stopped)
    ensures Midway(d0, stopped, plans) && WellFormed(stopped)
  {
    assert UnfoldPlans(plans, 0);
    Properly(world.log, world.deeds, world.horizon, world.environment);
    var i: nat :| a <= i + 1 <= |world.log| && world.log[i].after == stopped;
    MidwayAtEveryInstant(world.log, world.horizon, a, world.deeds, u, d0, plans, i);
    ChainGrows(world.log, world.horizon, i, i);
  }

  /**
    A batch, stopped at any instant of its run on a disk at rest, and then, on a machine of its own, the second
    attempt on the disk that was left. Where no call fails the second attempt succeeds, however far the first one got;
    and whenever it succeeds every path ends as after a run without interruption, but for staging files left over.
  */
  method StopAndRetry(first: World, plans: seq<Plan>, requests: seq<Request>, report: MigrationReport, stopped: Disk,
                      environment: (nat, Disk) -> Disk, fails: nat -> bool, amount: nat -> nat, horizon: nat)
    returns (r: Result<()>, second: World)
    requires first.Valid() && AllPrepared(plans) && WellFormed(stopped) && Lawful(environment, horizon)
    modifies first, report
    ensures second.Valid()
    ensures old(first.Quiet()) && horizon <= 1 && Begun(old(first.disk), plans, requests) && StoppedIn(first.log, |old(first.log)|, stopped) ==>
              && (r.Ok? ==> Converged(old(first.disk), second.disk, plans))
              && ((forall n: nat :: !fails(n)) ==> r.Ok?)
  {
    ghost var a, u, d0 := |first.log|, |first.deeds|, first.disk;
    ghost var rest := first.Quiet() && AllHeldAt(d0, plans);
    var _ := CopyBatch(first, plans, report, rest);
    if rest && StoppedIn(first.log, a, stopped) {
      first.Deeds();
      StoppedMidway(first, a, u, d0, plans, stopped);
    }
    second := new World(stopped, environment, fails, amount, horizon);
    r := Retry(second, requests, report, d0, plans);
  }
}
