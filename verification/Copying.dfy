/** Copying the entries of a plan, `copy_files`. */
module Copying {
  import opened Outcomes
  import opened Disks
  import opened Worlds
  import opened Compare
  import opened Effects
  import opened Retained
  import opened Scans
  import opened Plans
  import opened Publishing
  import opened Meters
  import opened Staging

  // ---------- the target ----------

  function VersionAt(d: Disk, dir: Ino, name: Name): Option<Version> {
    var edge := Edge(d, dir, name);
    if edge.None? || edge.value !in d.nodes then None else Some(Version(edge.value, StampOf(d.nodes[edge.value])))
  }

  /** Opens the target, if there is one, and reads its identity and stamp. */
  method ObserveTarget(world: World, dir: Ino, name: Name, directory: bool) returns (r: Result<Option<Version>>)
    requires world.Valid()
    modifies world
    ensures world.Looked() && |old(world.log)| < |world.log|
    ensures r.Ok? ==> VersionSeen(world.log, |old(world.log)|, |world.log|, dir, name, r.value)
    ensures r.Ok? && r.value.Some? ==> EdgeSeen(world.log, |old(world.log)|, dir, name, r.value.value.ino, directory)
    ensures old(world.Quiet()) && r.Ok? ==> r.value == VersionAt(world.disk, dir, name) && ChildOf(world.disk, dir, name, directory) != Err(Other)
    ensures old(world.Quiet() && world.Faultless()) && ChildOf(old(world.disk), dir, name, directory) != Err(Other) ==> r.Ok?
  {
    world.Sound();
    var file := world.OpenChild(dir, name, directory);
    if file.Err? {
      return if file.fault.NotFound? then Ok(None) else Err(file.fault);
    }
    ghost var seen := world.log;
    var stamp :- world.Stat(file.value);
    ObservedVersion(seen, world.log, |old(world.log)|, dir, name, directory, file.value, stamp);
    return Ok(Some(Version(file.value, stamp)));
  }

  lemma ObservedVersion(seen: seq<Instant>, log: seq<Instant>, a: nat, dir: Ino, name: Name, directory: bool, ino: Ino, stamp: Stamp)
    requires seen <= log && a < |log| && EdgeSeen(seen, a, dir, name, ino, directory)
    requires ino in log[|log| - 1].after.nodes && StampOf(log[|log| - 1].after.nodes[ino]) == stamp
    ensures VersionSeen(log, a, |log|, dir, name, Some(Version(ino, stamp)))
  {
    var i :| a <= i < |seen| && Edge(seen[i].after, dir, name) == Some(ino);
    assert Edge(log[i].after, dir, name) == Some(ino);
    assert StampOf(log[|log| - 1].after.nodes[ino]) == stamp;
  }

  /** Mentioning this unfolds `Replacing`, which is kept folded elsewhere to keep proofs small. */
  ghost predicate UnfoldReplacing(x: Ino, once: nat) {
    true
  }

  ghost predicate Replacing(log: seq<Instant>, a: nat, deeds: seq<nat>, before: seq<nat>, dir: Directory, from: Name, to: Name, x: Ino, version: Option<Version>) {
    forall once: nat {:trigger UnfoldReplacing(x, once)} :: UnfoldReplacing(x, once) ==> ReplacedLast(log, a, deeds, before, dir, from, to, x, version)
  }

  /** The last deed is a renaming of the staged file `x` over a target found once more as it was first seen, in a directory seen in its place. */
  ghost predicate ReplacedLast(log: seq<Instant>, a: nat, deeds: seq<nat>, before: seq<nat>, dir: Directory, from: Name, to: Name, x: Ino, version: Option<Version>) {
    && log != [] && deeds == before + [|log| - 1]
    && ChainSeen(log[..|log| - 1], a, dir)
    && EdgeWithin(log, a, |log| - 1, dir.Handle(), from, x)
    && VersionSeen(log, a, |log| - 1, dir.Handle(), to, version)
    && var step := log[|log| - 1].step;
       step.Renamed? && step.dir == dir.Handle() && step.from == from && step.to == to
  }

  lemma TargetReplaced(world: World, seen: seq<Instant>, a: nat, before: seq<nat>, dir: Directory, from: Name, to: Name, x: Ino, version: Option<Version>)
    requires seen <= world.log && a <= |seen| && dir.Shaped() && VersionSeen(seen, a, |seen|, dir.Handle(), to, version)
    requires |seen| < |world.log| && RenamedLast(world, dir, from, to, x, before, |seen|)
    ensures Replacing(world.log, a, world.deeds, before, dir, from, to, x, version)
  {
    VersionStays(seen, world.log, a, a, |seen|, dir.Handle(), to, version);
    StagedWithin(world.log, a, |seen|, dir.Handle(), from, x);
    ChainStays(world.log[..|world.log| - 1], world.log[..|world.log| - 1], a, |seen|, dir);
    SeenUntil(seen, world.log, a, |world.log| - 1, dir.Handle(), to, version);
  }

  /** Looks at the target once more and, if it is still the one first seen, renames the staged file over it. */
  method ReplaceTarget(world: World, parent: Directory, name: Name, tmp: Name, output: Ino, previous: Option<Version>) returns (r: Result<()>)
    requires world.Valid() && parent.Shaped()
    modifies world
    ensures world.Continued() && world.Untouched()
    ensures r.Err? ==> world.Looked()
    ensures r.Ok? ==> world.deeds == old(world.deeds) + [|world.log| - 1]
    ensures r.Ok? ==> Replacing(world.log, |old(world.log)|, world.deeds, old(world.deeds), parent, tmp, name, output, previous)
    ensures old(world.Quiet()) && r.Ok? ==>
              && Publishable(old(world.disk), parent, tmp, name, output)
              && world.disk == RenameOver(old(world.disk), parent.Handle(), tmp, name)
              && VersionAt(old(world.disk), parent.Handle(), name) == previous
              && ChildOf(old(world.disk), parent.Handle(), name, false) != Err(Other)
    ensures old(world.Quiet() && world.Faultless()) && Replaceable(old(world.disk), parent, name, tmp, output, previous) ==> r.Ok?
  {
    var current :- ObserveTarget(world, parent.Handle(), name, false);
    if current != previous {
      return Err(Other);
    }
    ghost var seen := world.log;
    r := ReplaceFile(world, parent, tmp, name, output);
    if r.Ok? {
      TargetReplaced(world, seen, |old(world.log)|, old(world.deeds), parent, tmp, name, output, previous);
    }
  }

  lemma StagedWithin(log: seq<Instant>, a: nat, b: nat, dir: Ino, tmp: Name, output: Ino)
    requires log != [] && a <= b && EdgeSeen(log[..|log| - 1], b, dir, tmp, output, false)
    ensures EdgeWithin(log, a, |log| - 1, dir, tmp, output)
  {
    var cut := log[..|log| - 1];
    var i :| b <= i < |cut| && Edge(cut[i].after, dir, tmp) == Some(output);
    assert Edge(log[i].after, dir, tmp) == Some(output);
  }

  ghost predicate Replaceable(d: Disk, parent: Directory, name: Name, tmp: Name, output: Ino, previous: Option<Version>) {
    && Publishable(d, parent, tmp, name, output) && VersionAt(d, parent.Handle(), name) == previous
    && ChildOf(d, parent.Handle(), name, false) != Err(Other)
  }

  // ---------- what publishing does to a disk at rest ----------

  /** A path not through the changed one leads through the same directories. */
  lemma ChainKept(d: Disk, e: Disk, dir: Directory, t: Path, seen: Seen)
    requires ChainHolds(d, dir) && PutAt(d, e, t, seen) && !(t <= dir.path)
    ensures ChainHolds(e, dir)
  {
    forall k | 0 <= k <= |dir.path| ensures Resolve(e, dir.path[..k]) == Some(dir.chain[k]) {
      assert t != dir.path[..k];
      assert SameAt(d, e, dir.path[..k]);
    }
    assert SameAt(d, e, dir.path);
  }

  /** On the disk with the staged file, everything else is as it was. */
  lemma BesideStaged(d: Disk, s: Disk, parent: Directory, tmp: Name, x: Ino, name: Name)
    requires WellFormed(d) && ChainHolds(d, parent) && Staged(d, s, parent.path, tmp, x)
    ensures WellFormed(s) && ChainHolds(s, parent) && Edge(s, parent.Handle(), tmp) == Some(x) && Edge(d, parent.Handle(), tmp).None?
    ensures IsFile(s, x) && s.nodes[x].Regular()
    ensures name != tmp ==> Edge(s, parent.Handle(), name) == Edge(d, parent.Handle(), name)
                            && VersionAt(s, parent.Handle(), name) == VersionAt(d, parent.Handle(), name)
                            && ChildOf(s, parent.Handle(), name, false) == ChildOf(d, parent.Handle(), name, false)
  {
    var p := parent.path;
    StagedMeans(d, s, p, tmp, x);
    ChainKept(d, s, parent, p + [tmp], AFile(s.nodes[x].bytes));
    assert p[..|p|] == p;
    ResolveSnoc(s, p, tmp);
    ResolveSnoc(d, p, tmp);
    ResolveSnoc(s, p, name);
    ResolveSnoc(d, p, name);
    if name != tmp {
      assert p + [name] != p + [tmp];
      assert SameAt(d, s, p + [name]);
      ResolveInside(d, p + [name]);
    }
  }

  /** The disk differs at one path only, where the copy `x` stands. */
  ghost predicate Placed(d: Disk, e: Disk, t: Path, x: Ino, seen: Seen) {
    && WellFormed(e) && PutAt(d, e, t, seen) && Resolve(e, t) == Some(x)
    && x in e.nodes && (seen.AFile? ==> e.nodes[x].Regular())
  }

  /** What is to stand at the target of an entry. */
  function Wanted(d: Disk, h: Held): Seen {
    if h.entry.directory then ADir
    else if IsFile(d, h.ino) then AFile(d.nodes[h.ino].bytes) else Absent
  }

  lemma ReplacingPuts(d: Disk, s: Disk, parent: Directory, tmp: Name, x: Ino, name: Name)
    requires WellFormed(d) && ChainHolds(d, parent) && Staged(d, s, parent.path, tmp, x)
    requires VersionAt(s, parent.Handle(), name) == VersionAt(d, parent.Handle(), name)
    requires ChildOf(s, parent.Handle(), name, false) != Err(Other)
    ensures CanRename(s, parent.Handle(), tmp, name) && IsFile(s, x)
    ensures Placed(d, RenameOver(s, parent.Handle(), tmp, name), parent.path + [name], x, AFile(s.nodes[x].bytes))
  {
    var p, dir := parent.path, parent.Handle();
    BesideStaged(d, s, parent, tmp, x, name);
    assert tmp != name;
    StagedMeans(d, s, p, tmp, x);
    RenameReplaces(s, dir, tmp, name);
    assert p[..|p|] == p;
    PublishPuts(d, s, RenameOver(s, dir, tmp, name), p, tmp, name, s.nodes[x].bytes);
  }

  lemma StagedReplaceable(d: Disk, s: Disk, parent: Directory, tmp: Name, x: Ino, name: Name)
    requires WellFormed(d) && ChainHolds(d, parent) && Staged(d, s, parent.path, tmp, x) && name != tmp
    requires ChildOf(d, parent.Handle(), name, false) != Err(Other)
    ensures Replaceable(s, parent, name, tmp, x, VersionAt(d, parent.Handle(), name))
  {
    BesideStaged(d, s, parent, tmp, x, name);
  }

  // ---------- care ----------

  lemma StagingIsCareful(log: seq<Instant>, a: nat, deeds: seq<nat>, u: nat, plans: seq<Plan>)
    requires InLog(log, deeds) && StagingDeeds(log, deeds, u)
    ensures Careful(log, a, deeds, u, plans)
  {
    forall k | u <= k < |deeds| ensures DeedOk(log, a, deeds, u, k, plans) {
      if k > u {
        assert StagedSince(log, deeds, u, k, log[deeds[u]].step.ino);
      }
    }
  }

  /** Mentioning this unfolds `PlannedAt`, which is kept folded elsewhere to keep proofs small. */
  ghost predicate UnfoldPlanned(name: Name, once: nat) {
    true
  }

  /** The entry `h` of the plan goes to this name in this directory. */
  ghost predicate PlannedAt(plans: seq<Plan>, plan: Plan, outputs: seq<Held>, h: Held, parent: Directory, name: Name) {
    forall once: nat {:trigger UnfoldPlanned(name, once)} :: UnfoldPlanned(name, once) ==> Planning(plans, plan, outputs, h, parent, name)
  }

  ghost predicate Planning(plans: seq<Plan>, plan: Plan, outputs: seq<Held>, h: Held, parent: Directory, name: Name) {
    && plan in plans && parent.Shaped() && Goes(plan, outputs, h, parent.Handle(), name) && parent == TargetDirectory(plan, outputs, h)
  }

  /** Observing, staging, comparing, checking again and renaming, in this order, is a publication. */
  lemma ReplacingIsCareful(l1: seq<Instant>, l2: seq<Instant>, l3: seq<Instant>, a: nat, d2: seq<nat>, d3: seq<nat>, u: nat, plans: seq<Plan>,
                           plan: Plan, outputs: seq<Held>, parent: Directory, tmp: Name, name: Name, x: Ino, h: Held, previous: Option<Version>)
    requires l1 <= l2 <= l3 && a <= |l1| && InLog(l2, d2) && parent.Shaped() && PlannedAt(plans, plan, outputs, h, parent, name) && !h.entry.directory
    requires VersionSeen(l1, a, |l1|, parent.Handle(), name, previous)
    requires CopyStaged(l2, |l1|, d2, u, parent.Handle(), tmp, x, h.ino)
    requires l3 != [] && d3 == d2 + [|l3| - 1] && Replacing(l3, |l2|, d3, d2, parent, tmp, name, x, previous)
    ensures Careful(l3, a, d3, u, plans) && FileOutput(l3, a, d3, u, plans, plan, outputs, h, x)
  {
    assert UnfoldReplacing(x, 0);
    StagingIsCareful(l2, a, d2, u, plans);
    var s :| d2[|d2| - 1] < s < |l2| && SameBytes(l2[s].after, h.ino, x);
    var t :| |l2| <= t < |l3| - 1 && Edge(l3[t].after, parent.Handle(), tmp) == Some(x);
    PublicationMade(l1, l2, l3, a, d2, d3, u, plans, plan, outputs, parent, tmp, name, x, h, previous, s, t);
    OneMoreCareful(l2, l3, a, d2, d3, u, plans);
  }

  lemma OneMoreCareful(l2: seq<Instant>, l3: seq<Instant>, a: nat, d2: seq<nat>, d3: seq<nat>, u: nat, plans: seq<Plan>)
    requires l2 <= l3 && InLog(l3, d3) && |d3| == |d2| + 1 && d2 <= d3 && u <= |d2| && Careful(l2, a, d2, u, plans) && DeedOk(l3, a, d3, u, |d2|, plans)
    ensures Careful(l3, a, d3, u, plans)
  {
    CarefulMeans(l2, a, d2, u, plans);
    forall k | u <= k < |d3| ensures DeedOk(l3, a, d3, u, k, plans) {
      if k < |d2| {
        CareStays(l2, a, d2, u, plans, l3, a, d3, u, plans, k);
      }
    }
  }

  lemma PublicationMade(l1: seq<Instant>, l2: seq<Instant>, l3: seq<Instant>, a: nat, d2: seq<nat>, d3: seq<nat>, u: nat, plans: seq<Plan>,
                        plan: Plan, outputs: seq<Held>, parent: Directory, tmp: Name, name: Name, x: Ino, h: Held, previous: Option<Version>, s: nat, t: nat)
    requires l1 <= l2 <= l3 && a <= |l1| && InLog(l2, d2) && parent.Shaped() && PlannedAt(plans, plan, outputs, h, parent, name) && !h.entry.directory
    requires VersionSeen(l1, a, |l1|, parent.Handle(), name, previous) && u < |d2| && |l1| <= d2[u]
    requires StagingDeeds(l2, d2, u) && l2[d2[u]].step == Created(parent.Handle(), tmp, x)
    requires l3 != [] && d3 == d2 + [|l3| - 1] && Replacing(l3, |l2|, d3, d2, parent, tmp, name, x, previous)
    requires d2[|d2| - 1] < s < |l2| && SameBytes(l2[s].after, h.ino, x)
    requires |l2| <= t < |l3| - 1 && Edge(l3[t].after, parent.Handle(), tmp) == Some(x)
    ensures InLog(l3, d3) && DeedOk(l3, a, d3, u, |d2|, plans) && FileOutput(l3, a, d3, u, plans, plan, outputs, h, x)
  {
    assert UnfoldPlanned(name, 0) && UnfoldReplacing(x, 0);
    var w := Publication(plan, outputs, h, u, s, t, |l2|, previous);
    SeenUntil(l1, l3, a, d2[u], parent.Handle(), name, previous);
    assert StagedSince(l3, d3, u, |d2|, x);
    assert PublishedAs(l3, a, d3, u, |d2|, plans, w);
    assert PublishesOutput(l3, a, d3, u, |d2|, plans, w, plan, outputs, h, x);
  }

  lemma SeenUntil(log: seq<Instant>, log': seq<Instant>, a: nat, b: nat, dir: Ino, name: Name, version: Option<Version>)
    requires log <= log' && |log| <= b <= |log'| && VersionSeen(log, a, |log|, dir, name, version)
    ensures VersionSeen(log', a, b, dir, name, version)
  {
  }

  // ---------- one file ----------

  /** After each deed, all that differs is a staged file, or the finished copy. */
  ghost predicate EntrySteps(log: seq<Instant>, deeds: seq<nat>, u: nat, d: Disk, p: Path, name: Name, seen: Seen) {
    forall k | u <= k < |deeds| :: deeds[k] < |log| && EntryStep(d, log[deeds[k]].after, p, name, seen)
  }

  ghost predicate EntryStep(d: Disk, e: Disk, p: Path, name: Name, seen: Seen) {
    (exists tmp, x :: IsStaging(tmp) && Staged(d, e, p, tmp, x)) || (exists x :: Placed(d, e, p + [name], x, seen))
  }

  lemma StepsSoFar(l2: seq<Instant>, l3: seq<Instant>, d2: seq<nat>, d3: seq<nat>, u: nat, d: Disk, p: Path, name: Name, seen: Seen, x: Ino)
    requires l2 <= l3 && l3 != [] && StagingOnly(l2, d2, u, d, p) && d3 == d2 + [|l3| - 1]
    requires Placed(d, l3[|l3| - 1].after, p + [name], x, seen)
    ensures EntrySteps(l3, d3, u, d, p, name, seen)
  {
    forall k | u <= k < |d3| ensures d3[k] < |l3| && EntryStep(d, l3[d3[k]].after, p, name, seen) {
      assert k < |d2| ==> d3[k] == d2[k] && l3[d2[k]] == l2[d2[k]];
    }
  }

  /** The first look at the target, before anything is staged. */
  method ObserveBefore(world: World, dir: Ino, name: Name, ghost input: Ino, ghost plans: seq<Plan>) returns (r: Result<Option<Version>>)
    requires world.Valid() && IsFile(world.disk, input)
    modifies world
    ensures world.Looked() && IsFile(world.disk, input) && Careful(world.log, |old(world.log)|, world.deeds, |old(world.deeds)|, plans)
    ensures r.Ok? ==> VersionSeen(world.log, |old(world.log)|, |world.log|, dir, name, r.value)
    ensures old(world.Quiet()) && r.Ok? ==> r.value == VersionAt(world.disk, dir, name) && ChildOf(world.disk, dir, name, false) != Err(Other)
    ensures old(world.Quiet() && world.Faultless()) && ChildOf(old(world.disk), dir, name, false) != Err(Other) ==> r.Ok?
  {
    ghost var k := |world.log| - 1;
    r := ObserveTarget(world, dir, name, false);
    world.Unchanged(k, k, input);
    InLogHolds(world);
  }

  /** Stages a copy and puts it in place of the target. */
  method PlaceCopy(world: World, h: Held, parent: Directory, name: Name, meter: Meter, done: nat, ghost plans: seq<Plan>, ghost plan: Plan,
                   ghost outputs: seq<Held>, ghost start: nat, ghost last: nat, ghost rest: bool)
    returns (r: Result<Ino>, done': nat)
    requires world.Valid() && meter.Sane() && parent.Shaped() && IsFile(world.disk, h.ino) && PlannedAt(plans, plan, outputs, h, parent, name)
    requires !h.entry.directory
    requires Told(world.reported, start, meter, last, done)
    requires rest ==> world.Quiet() && ChainHolds(world.disk, parent)
    modifies world
    ensures world.Advanced() && Careful(world.log, |old(world.log)|, world.deeds, |old(world.deeds)|, plans)
    ensures Bounded(world.reported, start, meter)
    ensures r.Ok? ==> FileOutput(world.log, |old(world.log)|, world.deeds, |old(world.deeds)|, plans, plan, outputs, h, r.value)
    ensures r.Ok? ==> h.stamp.Some? && h.stamp.value.size <= h.entry.size && done' == done + h.stamp.value.size && Told(world.reported, start, meter, last, done')
    ensures rest ==> EntrySteps(world.log, world.deeds, |old(world.deeds)|, old(world.disk), parent.path, name, AFile(old(world.disk).nodes[h.ino].bytes))
    ensures rest && r.Ok? ==> Placed(old(world.disk), world.disk, parent.path + [name], r.value, AFile(old(world.disk).nodes[h.ino].bytes))
    ensures rest && old(world.Faultless()) && Copyable(old(world.disk), h, parent, name, old(world.serial)) ==> r.Ok?
  {
    world.Sound();
    ghost var d := world.disk;
    assert rest ==> parent.path[..|parent.path|] == parent.path;
    done' := done;
    ToldBounded(world.reported, start, meter, last, done);
    var previous := ObserveBefore(world, parent.Handle(), name, h.ino, plans);
    if previous.Err? {
      return Err(previous.fault), done;
    }
    ghost var l1 := world.log;
    var staged;
    staged, done' := StageCopy(world, parent.Handle(), h.ino, h.stamp, h.entry.size, meter, done, start, last, rest, parent.path);
    InLogHolds(world);
    ghost var s, l2, d2 := world.disk, world.log, world.deeds;
    if staged.Err? {
      StagingIsCareful(world.log, |old(world.log)|, world.deeds, |old(world.deeds)|, plans);
      return Err(staged.fault), done';
    }
    var (tmp, output) := staged.value;
    if rest && name != tmp && ChildOf(d, parent.Handle(), name, false) != Err(Other) {
      StagedReplaceable(d, s, parent, tmp, output, name);
    }
    r := PlaceStaged(world, h, parent, name, tmp, output, previous.value, l1, |old(world.log)|, |old(world.deeds)|, plans, plan, outputs, rest, d);
  }

  /** The file is as recorded, and can be put where it is to go. */
  ghost predicate Copyable(d: Disk, h: Held, parent: Directory, name: Name, serial: nat)
    requires parent.Shaped()
  {
    && IsFile(d, h.ino) && d.nodes[h.ino].Regular() && h.stamp == Some(StampOf(d.nodes[h.ino])) && h.stamp.value.size <= h.entry.size
    && ChildOf(d, parent.Handle(), name, false) != Err(Other) && !FreshName(name, serial)
  }

  lemma InLogHolds(world: World)
    requires world.Valid()
    ensures InLog(world.log, world.deeds)
  {
    Properly(world.log, world.deeds, world.horizon, world.environment);
  }

  lemma PlacedAtRest(d: Disk, s: Disk, parent: Directory, tmp: Name, x: Ino, name: Name,
                     l2: seq<Instant>, l3: seq<Instant>, d2: seq<nat>, d3: seq<nat>, u: nat)
    requires WellFormed(d) && ChainHolds(d, parent) && Staged(d, s, parent.path, tmp, x)
    requires VersionAt(s, parent.Handle(), name) == VersionAt(d, parent.Handle(), name)
    requires ChildOf(s, parent.Handle(), name, false) != Err(Other) && CanRename(s, parent.Handle(), tmp, name)
    requires l2 <= l3 && l3 != [] && StagingOnly(l2, d2, u, d, parent.path) && d3 == d2 + [|l3| - 1]
    requires l3[|l3| - 1].after == RenameOver(s, parent.Handle(), tmp, name)
    ensures IsFile(s, x) && EntrySteps(l3, d3, u, d, parent.path, name, AFile(s.nodes[x].bytes))
    ensures Placed(d, l3[|l3| - 1].after, parent.path + [name], x, AFile(s.nodes[x].bytes))
  {
    ReplacingPuts(d, s, parent, tmp, x, name);
    StepsSoFar(l2, l3, d2, d3, u, d, parent.path, name, AFile(s.nodes[x].bytes), x);
  }

  /** The last step of publishing, in the light of those before. */
  method PlaceStaged(world: World, h: Held, parent: Directory, name: Name, tmp: Name, output: Ino, previous: Option<Version>,
                     ghost l1: seq<Instant>, ghost a: nat, ghost u: nat, ghost plans: seq<Plan>, ghost plan: Plan, ghost outputs: seq<Held>,
                     ghost rest: bool, ghost d: Disk)
    returns (r: Result<Ino>)
    requires world.Valid() && parent.Shaped() && l1 <= world.log && a <= |l1| && PlannedAt(plans, plan, outputs, h, parent, name)
    requires !h.entry.directory
    requires VersionSeen(l1, a, |l1|, parent.Handle(), name, previous)
    requires CopyStaged(world.log, |l1|, world.deeds, u, parent.Handle(), tmp, output, h.ino)
    requires rest ==> world.Quiet() && WellFormed(d) && ChainHolds(d, parent) && Staged(d, world.disk, parent.path, tmp, output)
                      && StagingOnly(world.log, world.deeds, u, d, parent.path) && SameBytes(world.disk, h.ino, output)
                      && previous == VersionAt(d, parent.Handle(), name)
                      && IsFile(d, h.ino) && Is(world.disk, h.ino, d.nodes[h.ino])
    modifies world
    ensures world.Advanced() && world.reported == old(world.reported) && Careful(world.log, a, world.deeds, u, plans)
    ensures r.Ok? ==> FileOutput(world.log, a, world.deeds, u, plans, plan, outputs, h, r.value)
    ensures rest ==> EntrySteps(world.log, world.deeds, u, d, parent.path, name, AFile(d.nodes[h.ino].bytes))
    ensures rest && r.Ok? ==> Placed(d, world.disk, parent.path + [name], r.value, AFile(d.nodes[h.ino].bytes))
    ensures rest && old(world.Faultless()) && Replaceable(old(world.disk), parent, name, tmp, output, previous) ==> r.Ok?
  {
    ghost var s, l2, d2 := world.disk, world.log, world.deeds;
    InLogHolds(world);
    var replaced := ReplaceTarget(world, parent, name, tmp, output, previous);
    if replaced.Err? {
      StagingIsCareful(world.log, a, world.deeds, u, plans);
      return Err(replaced.fault);
    }
    ReplacingIsCareful(l1, l2, world.log, a, d2, world.deeds, u, plans, plan, outputs, parent, tmp, name, output, h, previous);
    if rest {
      PlacedAtRest(d, s, parent, tmp, output, name, l2, world.log, d2, world.deeds, u);
    }
    return Ok(output);
  }

  // ---------- one directory ----------

  /** No deed since instant `v`. */
  ghost predicate Latest(deeds: seq<nat>, v: nat) {
    forall m | 0 <= m < |deeds| :: deeds[m] < v
  }

  /** Making a directory where its parent has just been seen is done with care. */
  lemma MakingIsCareful(l1: seq<Instant>, l2: seq<Instant>, a: nat, d1: seq<nat>, d2: seq<nat>, plans: seq<Plan>, plan: Plan, outputs: seq<Held>,
                        h: Held, parent: Directory, name: Name, v: nat)
    requires l1 <= l2 && InLog(l2, d2) && parent.Shaped() && PlannedAt(plans, plan, outputs, h, parent, name) && h.entry.directory
    requires ChainSeen(l1, v, parent) && Latest(d1, v)
    requires d2 == d1 || (d2 == d1 + [|l1| + 1] && |l1| + 1 < |l2| && l2[|l1| + 1].step.MadeDirectory?
                          && l2[|l1| + 1].step.dir == parent.Handle() && l2[|l1| + 1].step.name == name)
    ensures Careful(l2, a, d2, |d1|, plans)
  {
    if d2 != d1 {
      assert UnfoldPlanned(name, 0);
      ChainStays(l1, l2[..|l1| + 1], v, v, parent);
      assert MadeAs(l2, d2, |d1|, plans, Making(plan, outputs, h, v));
    }
  }

  lemma CareOn(world: World, log: seq<Instant>, a: nat, u: nat, plans: seq<Plan>)
    requires world.Valid() && log <= world.log && Careful(log, a, world.deeds, u, plans)
    ensures Careful(world.log, a, world.deeds, u, plans)
  {
    InLogHolds(world);
    CarefulMeans(log, a, world.deeds, u, plans);
    forall k | u <= k < |world.deeds| ensures DeedOk(world.log, a, world.deeds, u, k, plans) {
      CareStays(log, a, world.deeds, u, plans, world.log, a, world.deeds, u, plans, k);
    }
  }

  lemma NoDeeds(world: World, a: nat, u: nat, plans: seq<Plan>)
    requires world.Valid() && |world.deeds| <= u
    ensures Careful(world.log, a, world.deeds, u, plans)
  {
    InLogHolds(world);
  }

  /** A directory seen under the name of its entry, where it goes, is its output. */
  lemma SeenOutput(log: seq<Instant>, a: nat, b: nat, plans: seq<Plan>, plan: Plan, outputs: seq<Held>, h: Held, parent: Directory, name: Name, ino: Ino)
    requires a <= b && parent.Shaped() && PlannedAt(plans, plan, outputs, h, parent, name) && EdgeSeen(log, b, parent.Handle(), name, ino, true)
    ensures DirectoryOutput(log, a, plan, outputs, h, ino)
  {
    assert UnfoldPlanned(name, 0);
  }

  /** Takes the directory that is there, or makes one. */
  method CopyDirectory(world: World, h: Held, parent: Directory, name: Name, ghost plans: seq<Plan>, ghost plan: Plan, ghost outputs: seq<Held>,
                       ghost v: nat, ghost rest: bool)
    returns (r: Result<Ino>)
    requires world.Valid() && parent.Shaped() && PlannedAt(plans, plan, outputs, h, parent, name) && h.entry.directory
    requires ChainSeen(world.log, v, parent) && Latest(world.deeds, v)
    requires rest ==> world.Quiet() && ChainHolds(world.disk, parent)
    modifies world
    ensures world.Advanced() && world.reported == old(world.reported)
    ensures Careful(world.log, |old(world.log)|, world.deeds, |old(world.deeds)|, plans)
    ensures r.Ok? ==> DirectoryOutput(world.log, |old(world.log)|, plan, outputs, h, r.value)
    ensures rest ==> EntrySteps(world.log, world.deeds, |old(world.deeds)|, old(world.disk), parent.path, name, ADir)
    ensures rest && r.Ok? ==> Placed(old(world.disk), world.disk, parent.path + [name], r.value, ADir)
    ensures rest && old(world.Faultless()) && ChildOf(old(world.disk), parent.Handle(), name, true) != Err(Other) ==> r.Ok?
  {
    world.Sound();
    ghost var d := world.disk;
    if rest {
      assert parent.path[..|parent.path|] == parent.path;
      ResolveSnoc(d, parent.path, name);
      ReachedLinked(d, parent.path);
    }
    ghost var seen := world.log;
    var existing := ObserveTarget(world, parent.Handle(), name, true);
    if existing.Err? {
      NoDeeds(world, |old(world.log)|, |old(world.deeds)|, plans);
      return Err(existing.fault);
    }
    if existing.value.Some? {
      NoDeeds(world, |old(world.log)|, |old(world.deeds)|, plans);
      SeenOutput(world.log, |old(world.log)|, |old(world.log)|, plans, plan, outputs, h, parent, name, existing.value.value.ino);
      return Ok(existing.value.value.ino);
    }
    ChainStays(seen, world.log, v, v, parent);
    r := MakeDirectoryIn(world, h, parent, name, |old(world.log)|, plans, plan, outputs, v, rest);
  }

  /** `child_directory(name, true)`. */
  method MakeDirectoryIn(world: World, h: Held, parent: Directory, name: Name, ghost a: nat, ghost plans: seq<Plan>, ghost plan: Plan,
                         ghost outputs: seq<Held>, ghost v: nat, ghost rest: bool)
    returns (r: Result<Ino>)
    requires world.Valid() && parent.Shaped() && a <= |world.log| && PlannedAt(plans, plan, outputs, h, parent, name) && h.entry.directory
    requires ChainSeen(world.log, v, parent) && Latest(world.deeds, v)
    requires rest ==> world.Quiet() && View(world.disk, parent.path) == ADir && Resolve(world.disk, parent.path) == Some(parent.Handle())
                      && Edge(world.disk, parent.Handle(), name).None? && Linked(world.disk, parent.Handle())
    modifies world
    ensures world.Advanced() && world.reported == old(world.reported) && Careful(world.log, a, world.deeds, |old(world.deeds)|, plans)
    ensures r.Ok? ==> DirectoryOutput(world.log, a, plan, outputs, h, r.value)
    ensures rest ==> EntrySteps(world.log, world.deeds, |old(world.deeds)|, old(world.disk), parent.path, name, ADir)
    ensures rest && r.Ok? ==> Placed(old(world.disk), world.disk, parent.path + [name], r.value, ADir)
    ensures rest && old(world.Faultless()) ==> r.Ok?
  {
    world.Sound();
    ghost var d := world.disk;
    ghost var seen := world.log;
    var made := world.MakeDir(parent.Handle(), name);
    InLogHolds(world);
    MakingIsCareful(seen, world.log, a, old(world.deeds), world.deeds, plans, plan, outputs, h, parent, name, v);
    if made.Err? {
      return Err(made.fault);
    }
    if rest {
      MakeDirectoryPuts(d, parent.path, name);
      MakeDirectoryGrows(d, parent.Handle(), name);
      ResolveSnoc(world.disk, parent.path, name);
    }
    seen := world.log;
    r := world.OpenChild(parent.Handle(), name, true);
    CareOn(world, seen, a, |old(world.deeds)|, plans);
    if r.Ok? {
      SeenOutput(world.log, a, |seen|, plans, plan, outputs, h, parent, name, r.value);
    }
    if rest {
      world.Settled();
      assert Placed(d, world.disk, parent.path + [name], d.next, ADir);
    }
  }
}
