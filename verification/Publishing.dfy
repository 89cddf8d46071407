/**
  Atomic replacement, as a property of the record of a run: new contents are staged under a name of
  their own, compared, and renamed into place, so a planned name never shows part of a copy.
*/
module Publishing {
  import opened Outcomes
  import opened Disks
  import opened Worlds
  import opened Retained
  import opened Plans

  // ---------- what the migration does to files ----------

  /** The target was seen in this version within the instants from `a` up to `b`. */
  ghost predicate VersionSeen(log: seq<Instant>, a: nat, b: nat, dir: Ino, name: Name, version: Option<Version>) {
    if version.None? then exists i :: a <= i < b <= |log| && Edge(log[i].after, dir, name).None?
    else EdgeWithin(log, a, b, dir, name, version.value.ino) && StampWithin(log, a, b, version.value.ino, version.value.stamp)
  }

  ghost predicate EdgeWithin(log: seq<Instant>, a: nat, b: nat, dir: Ino, name: Name, ino: Ino) {
    exists i :: a <= i < b <= |log| && Edge(log[i].after, dir, name) == Some(ino)
  }

  ghost predicate StampWithin(log: seq<Instant>, a: nat, b: nat, ino: Ino, stamp: Stamp) {
    exists i :: a <= i < b <= |log| && ino in log[i].after.nodes && StampOf(log[i].after.nodes[ino]) == stamp
  }

  /** The name leads to this version. */
  ghost predicate TargetIs(d: Disk, dir: Ino, name: Name, version: Option<Version>) {
    if version.None? then Edge(d, dir, name).None?
    else Edge(d, dir, name) == Some(version.value.ino) && version.value.ino in d.nodes
         && StampOf(d.nodes[version.value.ino]) == version.value.stamp
  }

  /** Deed `c` created the staging file `x`, and up to deed `k` the migration only wrote to it. */
  ghost predicate StagedSince(log: seq<Instant>, deeds: seq<nat>, c: nat, k: nat, x: Ino)
    requires c < k <= |deeds| && forall m | 0 <= m < |deeds| :: deeds[m] < |log|
  {
    && log[deeds[c]].step.Created? && log[deeds[c]].step.ino == x && IsStaging(log[deeds[c]].step.name)
    && forall m | c < m < k :: log[deeds[m]].step.Wrote? && log[deeds[m]].step.ino == x
  }

  /** The directory an entry goes to, put together from the records of the directories copied before it. */
  function TargetDirectory(plan: Plan, outputs: seq<Held>, h: Held): Directory
    requires plan.destination.Shaped() && h.entry.relative != []
    ensures TargetDirectory(plan, outputs, h).Shaped()
  {
    PinnedAt(plan.destination, outputs, Scans.Parent(h.entry.relative))
  }

  /** With these records of earlier outputs, the entry `h` of the plan goes to this name in this directory. */
  ghost predicate Goes(plan: Plan, outputs: seq<Held>, h: Held, dir: Ino, name: Name) {
    && plan.destination.Shaped() && h in plan.held && h.entry.relative != [] && h.entry.relative[|h.entry.relative| - 1] == name
    && HandleOf(plan.destination, outputs, Scans.Parent(h.entry.relative)) == Some(dir)
    && TargetDirectory(plan, outputs, h).Handle() == dir
  }

  /**
    How a file was published: the planned file `h` it is a copy of and the records of the outputs before it, the
    deed `created` that staged it, the instants of the comparison, of the last look at the staging name, and of the
    beginning of the check of the target, and the version of the target that was seen before anything was staged
    and again by that check.
  */
  datatype Publication = Publication(plan: Plan, outputs: seq<Held>, h: Held, created: nat, compared: nat, staged: nat, rechecked: nat, version: Option<Version>)

  ghost predicate PublishedAs(log: seq<Instant>, a: nat, deeds: seq<nat>, u: nat, k: nat, plans: seq<Plan>, w: Publication)
    requires k < |deeds| && (forall m | 0 <= m < |deeds| :: deeds[m] < |log|) && log[deeds[k]].step.Renamed?
  {
    && u <= w.created < k && log[deeds[w.created]].step.Created?
    && var Created(dir, from, x) := log[deeds[w.created]].step;
       var to := log[deeds[k]].step.to;
    && StagedSince(log, deeds, w.created, k, x)
    && log[deeds[k]].step.dir == dir && log[deeds[k]].step.from == from
    && w.plan in plans && Goes(w.plan, w.outputs, w.h, dir, to) && !w.h.entry.directory
    && deeds[k - 1] < w.compared <= w.staged < deeds[k] && deeds[k - 1] < w.rechecked < deeds[k]
    && SameBytes(log[w.compared].after, w.h.ino, x)
    && Edge(log[w.staged].after, dir, from) == Some(x)
    && ChainSeen(log[..deeds[k]], w.rechecked, TargetDirectory(w.plan, w.outputs, w.h))
    && VersionSeen(log, a, deeds[w.created], dir, to, w.version)
    && VersionSeen(log, w.rechecked, deeds[k], dir, to, w.version)
  }

  /** How a directory was made: for the planned directory `h`, in a directory that was seen in its place since the deed before. */
  datatype Making = Making(plan: Plan, outputs: seq<Held>, h: Held, verified: nat)

  ghost predicate MadeAs(log: seq<Instant>, deeds: seq<nat>, k: nat, plans: seq<Plan>, w: Making)
    requires k < |deeds| && (forall m | 0 <= m < |deeds| :: deeds[m] < |log|) && log[deeds[k]].step.MadeDirectory?
  {
    && w.plan in plans && Goes(w.plan, w.outputs, w.h, log[deeds[k]].step.dir, log[deeds[k]].step.name) && w.h.entry.directory
    && (k > 0 ==> deeds[k - 1] < w.verified) && ChainSeen(log[..deeds[k]], w.verified, TargetDirectory(w.plan, w.outputs, w.h))
  }

  ghost predicate DeedOk(log: seq<Instant>, a: nat, deeds: seq<nat>, u: nat, k: nat, plans: seq<Plan>)
    requires k < |deeds| && forall m | 0 <= m < |deeds| :: deeds[m] < |log|
  {
    match log[deeds[k]].step
    case Created(_, name, _) => IsStaging(name)
    case Wrote(ino, _, _) => exists c :: u <= c < k && StagedSince(log, deeds, c, k, ino)
    case Renamed(_, _, _, _) => exists w :: PublishedAs(log, a, deeds, u, k, plans, w)
    case MadeDirectory(_, _, _) => exists w :: MadeAs(log, deeds, k, plans, w)
    case _ => false
  }

  ghost predicate InLog(log: seq<Instant>, deeds: seq<nat>) {
    forall m | 0 <= m < |deeds| :: deeds[m] < |log|
  }

  ghost predicate DeedsOk(log: seq<Instant>, a: nat, deeds: seq<nat>, u: nat, plans: seq<Plan>) {
    InLog(log, deeds) && forall k | u <= k < |deeds| :: DeedOk(log, a, deeds, u, k, plans)
  }

  /** From instant `a` and deed `u` on, files are only staged and published. Like `Proper`, this is kept folded. */
  ghost predicate Careful(log: seq<Instant>, a: nat, deeds: seq<nat>, u: nat, plans: seq<Plan>) {
    forall once: nat {:trigger Unfold(log, once)} :: Unfold(log, once) ==> DeedsOk(log, a, deeds, u, plans)
  }

  /** A file is a copy that was published for this entry, beneath these outputs. */
  ghost predicate PublishesOutput(log: seq<Instant>, a: nat, deeds: seq<nat>, u: nat, k: nat, plans: seq<Plan>, w: Publication,
                                  plan: Plan, outputs: seq<Held>, h: Held, ino: Ino)
    requires InLog(log, deeds)
  {
    && u <= k < |deeds| && log[deeds[k]].step.Renamed? && PublishedAs(log, a, deeds, u, k, plans, w)
    && w.plan == plan && w.outputs == outputs && w.h == h && log[deeds[w.created]].step.ino == ino
  }

  /** Mentioning this unfolds `FileOutput`, which is kept folded elsewhere to keep proofs small. */
  ghost predicate UnfoldOutput(ino: Ino, once: nat) {
    true
  }

  ghost predicate FileOutput(log: seq<Instant>, a: nat, deeds: seq<nat>, u: nat, plans: seq<Plan>, plan: Plan, outputs: seq<Held>, h: Held, ino: Ino) {
    forall once: nat {:trigger UnfoldOutput(ino, once)} :: UnfoldOutput(ino, once) ==>
      InLog(log, deeds) && exists k, w :: PublishesOutput(log, a, deeds, u, k, plans, w, plan, outputs, h, ino)
  }

  /** A directory was seen, from instant `a` on, under the name of its entry in the directory it goes to. */
  ghost predicate DirectoryOutput(log: seq<Instant>, a: nat, plan: Plan, outputs: seq<Held>, h: Held, ino: Ino) {
    && plan.destination.Shaped() && h.entry.relative != []
    && HandleOf(plan.destination, outputs, Scans.Parent(h.entry.relative)).Some?
    && EdgeSeen(log, a, HandleOf(plan.destination, outputs, Scans.Parent(h.entry.relative)).value, h.entry.relative[|h.entry.relative| - 1], ino, true)
  }

  /** Where an output recorded with this identity comes from. */
  ghost predicate OutputFrom(log: seq<Instant>, a: nat, deeds: seq<nat>, u: nat, plans: seq<Plan>, plan: Plan, outputs: seq<Held>, h: Held, ino: Ino) {
    if h.entry.directory then DirectoryOutput(log, a, plan, outputs, h, ino) else FileOutput(log, a, deeds, u, plans, plan, outputs, h, ino)
  }

  lemma OutputStays(log: seq<Instant>, a: nat, deeds: seq<nat>, u: nat, plans: seq<Plan>, log': seq<Instant>, a': nat, deeds': seq<nat>, u': nat,
                    plan: Plan, outputs: seq<Held>, h: Held, ino: Ino)
    requires log <= log' && deeds <= deeds' && InLog(log', deeds') && a' <= a && u' <= u && OutputFrom(log, a, deeds, u, plans, plan, outputs, h, ino)
    ensures OutputFrom(log', a', deeds', u', plans, plan, outputs, h, ino)
  {
    if !h.entry.directory {
      assert UnfoldOutput(ino, 0);
      var k, w :| PublishesOutput(log, a, deeds, u, k, plans, w, plan, outputs, h, ino);
      PublicationStays(log, a, deeds, u, plans, log', a', deeds', u', plans, k, w);
      assert PublishesOutput(log', a', deeds', u', k, plans, w, plan, outputs, h, ino);
    }
  }

  lemma CarefulMeans(log: seq<Instant>, a: nat, deeds: seq<nat>, u: nat, plans: seq<Plan>)
    requires Careful(log, a, deeds, u, plans)
    ensures DeedsOk(log, a, deeds, u, plans)
  {
    assert Unfold(log, 0);
  }

  lemma VersionStays(log: seq<Instant>, log': seq<Instant>, a: nat, a': nat, b: nat, dir: Ino, name: Name, version: Option<Version>)
    requires log <= log' && a' <= a && VersionSeen(log, a, b, dir, name, version)
    ensures VersionSeen(log', a', b, dir, name, version)
  {
  }

  /** Care taken in a later part of a run is care taken in the whole run. */
  lemma CareStays(log: seq<Instant>, a: nat, deeds: seq<nat>, u: nat, plans: seq<Plan>,
                  log': seq<Instant>, a': nat, deeds': seq<nat>, u': nat, plans': seq<Plan>, k: nat)
    requires InLog(log, deeds) && u <= k < |deeds| && DeedOk(log, a, deeds, u, k, plans)
    requires log <= log' && deeds <= deeds' && InLog(log', deeds') && a' <= a && u' <= u && forall plan | plan in plans :: plan in plans'
    ensures DeedOk(log', a', deeds', u', k, plans')
  {
    if log[deeds[k]].step.Wrote? {
      var c :| u <= c < k && StagedSince(log, deeds, c, k, log[deeds[k]].step.ino);
      assert StagedSince(log', deeds', c, k, log[deeds[k]].step.ino);
    } else if log[deeds[k]].step.Renamed? {
      var w :| PublishedAs(log, a, deeds, u, k, plans, w);
      PublicationStays(log, a, deeds, u, plans, log', a', deeds', u', plans', k, w);
    } else if log[deeds[k]].step.MadeDirectory? {
      var w :| MadeAs(log, deeds, k, plans, w);
      MakingStays(log, deeds, plans, log', deeds', plans', k, w);
    }
  }

  lemma MakingStays(log: seq<Instant>, deeds: seq<nat>, plans: seq<Plan>, log': seq<Instant>, deeds': seq<nat>, plans': seq<Plan>, k: nat, w: Making)
    requires InLog(log, deeds) && k < |deeds| && log[deeds[k]].step.MadeDirectory? && MadeAs(log, deeds, k, plans, w)
    requires log <= log' && deeds <= deeds' && InLog(log', deeds') && forall plan | plan in plans :: plan in plans'
    ensures MadeAs(log', deeds', k, plans', w)
  {
    assert log'[..deeds[k]] == log[..deeds[k]];
  }

  lemma PublicationStays(log: seq<Instant>, a: nat, deeds: seq<nat>, u: nat, plans: seq<Plan>,
                         log': seq<Instant>, a': nat, deeds': seq<nat>, u': nat, plans': seq<Plan>, k: nat, w: Publication)
    requires InLog(log, deeds) && u <= k < |deeds| && log[deeds[k]].step.Renamed? && PublishedAs(log, a, deeds, u, k, plans, w)
    requires log <= log' && deeds <= deeds' && InLog(log', deeds') && a' <= a && u' <= u && forall plan | plan in plans :: plan in plans'
    ensures PublishedAs(log', a', deeds', u', k, plans', w)
  {
    var dir, to := log[deeds[k]].step.dir, log[deeds[k]].step.to;
    assert log'[..deeds[k]] == log[..deeds[k]];
    VersionStays(log, log', a, a', deeds[w.created], dir, to, w.version);
    VersionStays(log, log', w.rechecked, w.rechecked, deeds[k], dir, to, w.version);
  }

  lemma CareContinues(log: seq<Instant>, a: nat, deeds: seq<nat>, u: nat, plans: seq<Plan>,
                      log': seq<Instant>, a': nat, deeds': seq<nat>, u': nat, plans': seq<Plan>)
    requires Careful(log, a, deeds, u, plans) && Careful(log', a', deeds', u', plans')
    requires log <= log' && deeds <= deeds' && a <= a' && u <= u' == |deeds| && forall plan | plan in plans' :: plan in plans
    ensures Careful(log', a, deeds', u, plans)
  {
    CarefulMeans(log, a, deeds, u, plans);
    CarefulMeans(log', a', deeds', u', plans');
    forall k | u <= k < |deeds'| ensures DeedOk(log', a, deeds', u, k, plans) {
      if k < |deeds| {
        CareStays(log, a, deeds, u, plans, log', a, deeds', u, plans, k);
      } else {
        CareStays(log', a', deeds', u', plans', log', a, deeds', u, plans, k);
      }
    }
  }

  // ---------- the overwritten version ----------

  lemma {:induction false} CalmBetween(log: seq<Instant>, horizon: nat, i: nat, j: nat)
    requires Chain(log, horizon) && i <= j < |log|
    requires forall t | i < t <= j :: !log[t].step.Changes() && (log[t].step.Outside? ==> log[t].after == log[t].before)
    ensures log[j].after == log[i].after
    decreases j
  {
    if i < j {
      ChainStep(log, horizon, j);
      CalmBetween(log, horizon, i, j - 1);
    }
  }

  /** With nothing done in between, the disk is what it was. */
  lemma CalmUntil(log: seq<Instant>, horizon: nat, r: nat, m: nat)
    requires Chain(log, horizon) && r < m < |log|
    requires forall t | r < t < m :: !log[t].step.Changes() && (log[t].step.Outside? ==> log[t].after == log[t].before)
    ensures forall t | r <= t < m :: log[t].after == log[m].before
  {
    ChainStep(log, horizon, m);
    forall t | r <= t < m ensures log[t].after == log[m].before {
      CalmBetween(log, horizon, t, m - 1);
    }
  }

  lemma BetweenDeeds(log: seq<Instant>, a: nat, deeds: seq<nat>, u: nat, k: nat)
    requires NewDeeds(log, a, deeds, u) && u < k < |deeds|
    ensures a <= deeds[k - 1] < deeds[k] < |log| && forall t | deeds[k - 1] < t < deeds[k] :: !log[t].step.Changes()
  {
    forall t | deeds[k - 1] < t < deeds[k] ensures !log[t].step.Changes() {
      forall j | u <= j < |deeds| ensures deeds[j] != t {
        assert if j < k - 1 then deeds[j] < deeds[k - 1] else j == k - 1 || j == k || deeds[k] < deeds[j];
      }
    }
  }

  lemma SeenIsThere(log: seq<Instant>, r: nat, m: nat, dir: Ino, name: Name, version: Option<Version>)
    requires m < |log| && VersionSeen(log, r, m, dir, name, version) && forall t | r <= t < m :: log[t].after == log[m].before
    ensures TargetIs(log[m].before, dir, name, version)
  {
  }

  /**
    If nobody else changes the disk between the last check of the target and the renaming, the version
    overwritten is the one seen before anything was copied.
  */
  lemma OverwritesWhatWasSeen(log: seq<Instant>, horizon: nat, a: nat, deeds: seq<nat>, u: nat, k: nat, plans: seq<Plan>, w: Publication)
    requires Chain(log, horizon) && InLog(log, deeds) && NewDeeds(log, a, deeds, u) && u < k < |deeds| && log[deeds[k]].step.Renamed?
    requires PublishedAs(log, a, deeds, u, k, plans, w)
    requires forall t | w.rechecked < t < deeds[k] && log[t].step.Outside? :: log[t].after == log[t].before
    ensures TargetIs(log[deeds[k]].before, log[deeds[k]].step.dir, log[deeds[k]].step.to, w.version)
    ensures VersionSeen(log, a, deeds[w.created], log[deeds[k]].step.dir, log[deeds[k]].step.to, w.version)
  {
    BetweenDeeds(log, a, deeds, u, k);
    CalmUntil(log, horizon, w.rechecked, deeds[k]);
    SeenIsThere(log, w.rechecked, deeds[k], log[deeds[k]].step.dir, log[deeds[k]].step.to, w.version);
  }

  // ---------- the contents under a name ----------

  /** The node is of the same kind and, if it is a file, has the same bytes. */
  ghost predicate SameContent(d: Disk, e: Disk, x: Ino) {
    && x in d.nodes && x in e.nodes && SameKind(d.nodes[x], e.nodes[x])
    && (d.nodes[x].File? ==> e.nodes[x].bytes == d.nodes[x].bytes)
  }

  ghost predicate NameKept(d: Disk, e: Disk, dir: Ino, name: Name) {
    Edge(e, dir, name) == Edge(d, dir, name) && (Edge(d, dir, name).Some? ==> SameContent(d, e, Edge(d, dir, name).value))
  }

  /** Others leave the name alone, and the file that is staged for it between its creation and its renaming. */
  ghost predicate HandsOff(log: seq<Instant>, deeds: seq<nat>, u: nat, dir: Ino, name: Name, t: nat)
    requires t < |log| && InLog(log, deeds)
  {
    && NameKept(log[t].before, log[t].after, dir, name)
    && forall c, k | u <= c < k < |deeds| && deeds[c] < t < deeds[k] && RenamesOnto(log, deeds, c, k, dir, name) :: StagingKept(log, deeds, c, t)
  }

  /** Deed `k` renames what deed `c` created to this name. */
  ghost predicate RenamesOnto(log: seq<Instant>, deeds: seq<nat>, c: nat, k: nat, dir: Ino, name: Name)
    requires c < k < |deeds| && InLog(log, deeds)
  {
    && log[deeds[c]].step.Created? && log[deeds[k]].step.Renamed? && log[deeds[k]].step.dir == dir && log[deeds[k]].step.to == name
    && log[deeds[c]].step.dir == dir && log[deeds[c]].step.name == log[deeds[k]].step.from
  }

  ghost predicate StagingKept(log: seq<Instant>, deeds: seq<nat>, c: nat, t: nat)
    requires t < |log| && c < |deeds| && deeds[c] < |log| && log[deeds[c]].step.Created?
  {
    var Created(dir, name, x) := log[deeds[c]].step;
    Edge(log[t].after, dir, name) == Edge(log[t].before, dir, name) && SameContent(log[t].before, log[t].after, x)
  }

  /** A run from instant `a` on, in which others keep their hands off one name. */
  ghost predicate Undisturbed(log: seq<Instant>, horizon: nat, a: nat, deeds: seq<nat>, u: nat, dir: Ino, name: Name) {
    && 0 < a <= |log| && Chain(log, horizon) && InLog(log, deeds) && NewDeeds(log, a, deeds, u) && !IsStaging(name)
    && forall t | a <= t < |log| && log[t].step.Outside? :: HandsOff(log, deeds, u, dir, name, t)
  }

  /** What a planned name may show at instant `i`. */
  datatype Shown = Old | Made(deed: nat) | Copy(deed: nat, publication: Publication)

  ghost predicate Shows(log: seq<Instant>, a: nat, deeds: seq<nat>, u: nat, plans: seq<Plan>, dir: Ino, name: Name, i: nat, shown: Shown)
    requires 0 < a <= i + 1 <= |log| && InLog(log, deeds)
  {
    var edge := Edge(log[i].after, dir, name);
    match shown
    case Old => NameKept(log[a - 1].after, log[i].after, dir, name)
    case Made(k) => u <= k < |deeds| && deeds[k] <= i && edge.Some? && log[deeds[k]].step == MadeDirectory(dir, name, edge.value)
                    && edge.value in log[i].after.nodes && log[i].after.nodes[edge.value].Dir?
    case Copy(k, w) =>
      && u <= k < |deeds| && deeds[k] <= i && log[deeds[k]].step.Renamed? && log[deeds[k]].step.dir == dir && log[deeds[k]].step.to == name
      && PublishedAs(log, a, deeds, u, k, plans, w) && edge == Some(log[deeds[w.created]].step.ino)
      && SameContent(log[w.compared].after, log[i].after, edge.value)
  }

  /** Steps that concern other names, and writing to other files, keep the name. */
  lemma StepKeepsName(t: Instant, dir: Ino, name: Name)
    requires StepOk(t) && !t.step.Outside? && !t.step.Removed?
    requires t.step.Created? ==> t.step.dir != dir || t.step.name != name
    requires t.step.MadeDirectory? ==> t.step.dir != dir || t.step.name != name
    requires t.step.Wrote? ==> Edge(t.before, dir, name) != Some(t.step.ino)
    requires t.step.Renamed? ==> t.step.dir != dir || (t.step.from != name && t.step.to != name)
    ensures NameKept(t.before, t.after, dir, name)
  {
    if Edge(t.before, dir, name).Some? {
      assert Hangs(t.before, Edge(t.before, dir, name).value, Place(dir, name));
    }
  }

  /** A renaming keeps the contents of every file. */
  lemma RenamingKeepsContent(t: Instant, x: Ino)
    requires StepOk(t) && t.step.Renamed? && x in t.before.nodes && t.before.nodes[x].File?
    ensures SameContent(t.before, t.after, x)
    ensures Edge(t.after, t.step.dir, t.step.to) == Some(t.step.ino)
  {
  }

  /** Between two deeds, the staged file and its name stay as they are. */
  lemma {:induction false} StagingKeptBetween(log: seq<Instant>, horizon: nat, a: nat, deeds: seq<nat>, u: nat, dir: Ino, name: Name, c: nat, k: nat, i: nat, j: nat)
    requires Undisturbed(log, horizon, a, deeds, u, dir, name) && u <= c < k < |deeds| && RenamesOnto(log, deeds, c, k, dir, name)
    requires deeds[c] <= i <= j < deeds[k]
    requires log[deeds[c]].step.ino in log[i].after.nodes && log[i].after.nodes[log[deeds[c]].step.ino].File?
    requires forall t | i < t <= j :: !log[t].step.Changes()
    ensures var Created(at, staging, x) := log[deeds[c]].step;
            Edge(log[j].after, at, staging) == Edge(log[i].after, at, staging) && SameContent(log[i].after, log[j].after, x)
    decreases j
  {
    if i < j {
      ChainStep(log, horizon, j);
      StagingKeptBetween(log, horizon, a, deeds, u, dir, name, c, k, i, j - 1);
      if log[j].step.Outside? {
        assert HandsOff(log, deeds, u, dir, name, j);
      }
    }
  }

  lemma CreatedNumber(log: seq<Instant>, horizon: nat, i: nat)
    requires Chain(log, horizon) && i < |log| && log[i].step.Created?
    ensures log[i].step.ino == log[i].before.next && log[i].after.next == log[i].before.next + 1
  {
    ChainStep(log, horizon, i);
  }

  lemma NumbersGrow(log: seq<Instant>, horizon: nat, i: nat, j: nat)
    requires Chain(log, horizon) && i < j < |log|
    ensures log[i].after.next <= log[j].before.next
  {
    ChainGrows(log, horizon, i, j - 1);
    ChainStep(log, horizon, j);
  }

  /** A number is given to one new file only. */
  lemma CreatedOnce(log: seq<Instant>, horizon: nat, i: nat, j: nat)
    requires Chain(log, horizon) && i < |log| && j < |log| && log[i].step.Created? && log[j].step.Created?
    requires log[i].step.ino == log[j].step.ino
    ensures i == j
  {
    CreatedNumber(log, horizon, i);
    CreatedNumber(log, horizon, j);
    if i < j {
      NumbersGrow(log, horizon, i, j);
    } else if j < i {
      NumbersGrow(log, horizon, j, i);
    }
  }

  /** The file being written is not one published before. */
  lemma PublishedNotWritten(log: seq<Instant>, horizon: nat, a: nat, deeds: seq<nat>, u: nat, plans: seq<Plan>, k: nat, k': nat, c: nat, w: Publication)
    requires Chain(log, horizon) && InLog(log, deeds) && NewDeeds(log, a, deeds, u)
    requires u <= k' < k < |deeds| && u <= c < k && log[deeds[k]].step.Wrote? && StagedSince(log, deeds, c, k, log[deeds[k]].step.ino)
    requires log[deeds[k']].step.Renamed? && PublishedAs(log, a, deeds, u, k', plans, w)
    ensures log[deeds[w.created]].step.ino != log[deeds[k]].step.ino
  {
    var c' := w.created;
    if log[deeds[c']].step.ino == log[deeds[k]].step.ino {
      CreatedOnce(log, horizon, deeds[c], deeds[c']);
    }
  }

  lemma EarlierDeed(log: seq<Instant>, a: nat, deeds: seq<nat>, u: nat, i: nat, j: nat)
    requires NewDeeds(log, a, deeds, u) && u <= i < |deeds| && u <= j < |deeds| && deeds[i] < deeds[j]
    ensures i < j
  {
  }

  lemma WritesElsewhereThanCopy(log: seq<Instant>, horizon: nat, a: nat, deeds: seq<nat>, u: nat, plans: seq<Plan>,
                                dir: Ino, name: Name, k: nat, c: nat, k': nat, w: Publication)
    requires Undisturbed(log, horizon, a, deeds, u, dir, name) && u <= c < k < |deeds| && a <= deeds[k] && log[deeds[k]].step.Wrote?
    requires StagedSince(log, deeds, c, k, log[deeds[k]].step.ino) && Shows(log, a, deeds, u, plans, dir, name, deeds[k] - 1, Copy(k', w))
    ensures Edge(log[deeds[k] - 1].after, dir, name) != Some(log[deeds[k]].step.ino)
  {
    EarlierDeed(log, a, deeds, u, k', k);
    PublishedNotWritten(log, horizon, a, deeds, u, plans, k, k', c, w);
  }

  /** The file being written is not the one the name shows. */
  lemma WritesElsewhere(log: seq<Instant>, horizon: nat, a: nat, deeds: seq<nat>, u: nat, plans: seq<Plan>,
                        dir: Ino, name: Name, k: nat, shown: Shown)
    requires Undisturbed(log, horizon, a, deeds, u, dir, name) && u <= k < |deeds| && DeedOk(log, a, deeds, u, k, plans)
    requires a <= deeds[k] && log[deeds[k]].step.Wrote? && Shows(log, a, deeds, u, plans, dir, name, deeds[k] - 1, shown)
    ensures Edge(log[deeds[k] - 1].after, dir, name) != Some(log[deeds[k]].step.ino)
  {
    var x := log[deeds[k]].step.ino;
    var c :| u <= c < k && StagedSince(log, deeds, c, k, x);
    if shown.Copy? {
      WritesElsewhereThanCopy(log, horizon, a, deeds, u, plans, dir, name, k, c, shown.deed, shown.publication);
    } else if shown.Old? {
      WrittenIsNew(log, horizon, a, deeds[c], dir, name);
    } else {
      WritesToFile(log, horizon, deeds[k]);
    }
  }

  lemma WritesToFile(log: seq<Instant>, horizon: nat, i: nat)
    requires Chain(log, horizon) && 0 < i < |log| && log[i].step.Wrote?
    ensures IsFile(log[i - 1].after, log[i].step.ino)
  {
    ChainStep(log, horizon, i);
  }

  lemma WrittenIsNew(log: seq<Instant>, horizon: nat, a: nat, i: nat, dir: Ino, name: Name)
    requires Chain(log, horizon) && 0 < a <= i < |log| && log[i].step.Created?
    ensures Edge(log[a - 1].after, dir, name) != Some(log[i].step.ino)
  {
    var d := log[a - 1].after;
    ChainGrows(log, horizon, a - 1, i - 1);
    ChainStep(log, horizon, i);
    assert Edge(d, dir, name).Some? ==> Hangs(d, Edge(d, dir, name).value, Place(dir, name));
  }

  /** What is shown is shown still after a step that keeps the name. */
  lemma ShownStill(log: seq<Instant>, a: nat, deeds: seq<nat>, u: nat, plans: seq<Plan>, dir: Ino, name: Name, i: nat, shown: Shown)
    requires 0 < a <= i + 1 < |log| && InLog(log, deeds) && Shows(log, a, deeds, u, plans, dir, name, i, shown)
    requires NameKept(log[i].after, log[i + 1].after, dir, name)
    ensures Shows(log, a, deeds, u, plans, dir, name, i + 1, shown)
  {
  }

  /** A renaming moves the very file that was compared. */
  lemma RenamesCompared(log: seq<Instant>, horizon: nat, a: nat, deeds: seq<nat>, u: nat, plans: seq<Plan>, dir: Ino, name: Name, k: nat, w: Publication)
    requires Undisturbed(log, horizon, a, deeds, u, dir, name) && u < k < |deeds| && log[deeds[k]].step.Renamed?
    requires log[deeds[k]].step.dir == dir && log[deeds[k]].step.to == name && PublishedAs(log, a, deeds, u, k, plans, w)
    ensures var at, from, x := log[deeds[w.created]].step.dir, log[deeds[w.created]].step.name, log[deeds[w.created]].step.ino;
            var d := log[deeds[k] - 1].after;
            Edge(d, at, from) == Some(x) && SameContent(log[w.compared].after, d, x) && IsFile(d, x)
  {
    var m := deeds[k];
    var x := log[deeds[w.created]].step.ino;
    BetweenDeeds(log, a, deeds, u, k);
    assert deeds[w.created] <= deeds[k - 1];
    assert RenamesOnto(log, deeds, w.created, k, dir, name);
    StagingKeptBetween(log, horizon, a, deeds, u, dir, name, w.created, k, w.compared, m - 1);
    StagedFile(log, horizon, w.compared, w.staged, x);
    StagingKeptBetween(log, horizon, a, deeds, u, dir, name, w.created, k, w.staged, m - 1);
  }

  /** A renaming puts what it moves in place. */
  lemma RenamingPuts(log: seq<Instant>, horizon: nat, i: nat, x: Ino)
    requires Chain(log, horizon) && 0 < i < |log| && log[i].step.Renamed?
    requires Edge(log[i - 1].after, log[i].step.dir, log[i].step.from) == Some(x) && IsFile(log[i - 1].after, x)
    ensures Edge(log[i].after, log[i].step.dir, log[i].step.to) == Some(x) && SameContent(log[i - 1].after, log[i].after, x)
  {
    ChainStep(log, horizon, i);
    RenamingKeepsContent(log[i], x);
  }

  lemma SameContentOn(d: Disk, e: Disk, f: Disk, x: Ino)
    requires SameContent(d, e, x) && SameContent(e, f, x)
    ensures SameContent(d, f, x)
  {
  }

  lemma RenamingShowsCopy(log: seq<Instant>, horizon: nat, a: nat, deeds: seq<nat>, u: nat, plans: seq<Plan>, dir: Ino, name: Name, k: nat, w: Publication)
    requires Undisturbed(log, horizon, a, deeds, u, dir, name) && u <= k < |deeds| && log[deeds[k]].step.Renamed?
    requires log[deeds[k]].step.dir == dir && log[deeds[k]].step.to == name && PublishedAs(log, a, deeds, u, k, plans, w)
    ensures a <= deeds[k] && Shows(log, a, deeds, u, plans, dir, name, deeds[k], Copy(k, w))
  {
    var x := log[deeds[w.created]].step.ino;
    BetweenDeeds(log, a, deeds, u, k);
    RenamesCompared(log, horizon, a, deeds, u, plans, dir, name, k, w);
    RenamingPuts(log, horizon, deeds[k], x);
    SameContentOn(log[w.compared].after, log[deeds[k] - 1].after, log[deeds[k]].after, x);
  }

  /** A renaming into place shows the complete copy. */
  lemma RenamingShows(log: seq<Instant>, horizon: nat, a: nat, deeds: seq<nat>, u: nat, plans: seq<Plan>, dir: Ino, name: Name, k: nat)
    returns (shown: Shown)
    requires Undisturbed(log, horizon, a, deeds, u, dir, name) && u <= k < |deeds| && DeedOk(log, a, deeds, u, k, plans)
    requires log[deeds[k]].step.Renamed? && log[deeds[k]].step.dir == dir && log[deeds[k]].step.to == name
    ensures 0 < a <= deeds[k] && Shows(log, a, deeds, u, plans, dir, name, deeds[k], shown)
  {
    var w :| PublishedAs(log, a, deeds, u, k, plans, w);
    RenamingShowsCopy(log, horizon, a, deeds, u, plans, dir, name, k, w);
    shown := Copy(k, w);
  }

  lemma StagedFile(log: seq<Instant>, horizon: nat, i: nat, j: nat, x: Ino)
    requires Chain(log, horizon) && i <= j < |log| && IsFile(log[i].after, x)
    ensures IsFile(log[j].after, x)
  {
    ChainGrows(log, horizon, i, j);
  }

  lemma OtherStepsKeepName(log: seq<Instant>, horizon: nat, i: nat, dir: Ino, name: Name)
    requires Chain(log, horizon) && 0 < i < |log| && !log[i].step.Outside? && !log[i].step.Removed?
    requires var step := log[i].step;
             && (step.Created? ==> step.dir != dir || step.name != name)
             && (step.MadeDirectory? ==> step.dir != dir || step.name != name)
             && (step.Wrote? ==> Edge(log[i - 1].after, dir, name) != Some(step.ino))
             && (step.Renamed? ==> step.dir != dir || (step.from != name && step.to != name))
    ensures NameKept(log[i - 1].after, log[i].after, dir, name)
  {
    ChainStep(log, horizon, i);
    StepKeepsName(log[i], dir, name);
  }

  lemma OutsidersKeepName(log: seq<Instant>, horizon: nat, a: nat, deeds: seq<nat>, u: nat, dir: Ino, name: Name, i: nat)
    requires Undisturbed(log, horizon, a, deeds, u, dir, name) && a <= i < |log| && log[i].step.Outside?
    ensures NameKept(log[i - 1].after, log[i].after, dir, name)
  {
    ChainStep(log, horizon, i);
    assert HandsOff(log, deeds, u, dir, name, i);
  }

  lemma MakingShows(log: seq<Instant>, horizon: nat, a: nat, deeds: seq<nat>, u: nat, plans: seq<Plan>, dir: Ino, name: Name, k: nat)
    requires Undisturbed(log, horizon, a, deeds, u, dir, name) && u <= k < |deeds| && log[deeds[k]].step.MadeDirectory?
    requires log[deeds[k]].step.dir == dir && log[deeds[k]].step.name == name
    ensures Shows(log, a, deeds, u, plans, dir, name, deeds[k], Made(k))
  {
    ChainStep(log, horizon, deeds[k]);
  }

  /** Deeds that do not put anything under the name keep it. */
  lemma OtherDeedKeepsName(log: seq<Instant>, horizon: nat, a: nat, deeds: seq<nat>, u: nat, plans: seq<Plan>, dir: Ino, name: Name, k: nat, shown: Shown)
    requires Undisturbed(log, horizon, a, deeds, u, dir, name) && u <= k < |deeds| && DeedOk(log, a, deeds, u, k, plans) && a <= deeds[k]
    requires log[deeds[k]].step.Changes() && Shows(log, a, deeds, u, plans, dir, name, deeds[k] - 1, shown)
    requires var step := log[deeds[k]].step;
             && (step.Renamed? ==> step.dir != dir || step.to != name) && (step.MadeDirectory? ==> step.dir != dir || step.name != name)
    ensures NameKept(log[deeds[k] - 1].after, log[deeds[k]].after, dir, name)
  {
    OtherNames(log, a, deeds, u, k, plans, name);
    if log[deeds[k]].step.Wrote? {
      WritesElsewhere(log, horizon, a, deeds, u, plans, dir, name, k, shown);
    }
    OtherStepsKeepName(log, horizon, deeds[k], dir, name);
  }

  lemma ShownAfterOther(log: seq<Instant>, horizon: nat, a: nat, deeds: seq<nat>, u: nat, plans: seq<Plan>, dir: Ino, name: Name, k: nat, shown: Shown)
    requires Undisturbed(log, horizon, a, deeds, u, dir, name) && u <= k < |deeds| && DeedOk(log, a, deeds, u, k, plans) && a <= deeds[k]
    requires log[deeds[k]].step.Changes() && Shows(log, a, deeds, u, plans, dir, name, deeds[k] - 1, shown)
    requires var step := log[deeds[k]].step;
             && (step.Renamed? ==> step.dir != dir || step.to != name) && (step.MadeDirectory? ==> step.dir != dir || step.name != name)
    ensures Shows(log, a, deeds, u, plans, dir, name, deeds[k], shown)
  {
    OtherDeedKeepsName(log, horizon, a, deeds, u, plans, dir, name, k, shown);
    ShownStill(log, a, deeds, u, plans, dir, name, deeds[k] - 1, shown);
  }

  /** One deed further. */
  lemma ShownAfterDeed(log: seq<Instant>, horizon: nat, a: nat, deeds: seq<nat>, u: nat, plans: seq<Plan>, dir: Ino, name: Name, k: nat, shown: Shown)
    returns (shown': Shown)
    requires Undisturbed(log, horizon, a, deeds, u, dir, name) && u <= k < |deeds| && DeedOk(log, a, deeds, u, k, plans) && a <= deeds[k]
    requires log[deeds[k]].step.Changes() && Shows(log, a, deeds, u, plans, dir, name, deeds[k] - 1, shown)
    ensures Shows(log, a, deeds, u, plans, dir, name, deeds[k], shown')
  {
    var step := log[deeds[k]].step;
    if step.Renamed? && step.dir == dir && step.to == name {
      shown' := RenamingShows(log, horizon, a, deeds, u, plans, dir, name, k);
    } else if step.MadeDirectory? && step.dir == dir && step.name == name {
      MakingShows(log, horizon, a, deeds, u, plans, dir, name, k);
      shown' := Made(k);
    } else {
      ShownAfterOther(log, horizon, a, deeds, u, plans, dir, name, k, shown);
      shown' := shown;
    }
  }

  /** The deed at an instant, done with care. */
  lemma DeedAt(log: seq<Instant>, a: nat, deeds: seq<nat>, u: nat, plans: seq<Plan>, i: nat) returns (k: nat)
    requires InLog(log, deeds) && NewDeeds(log, a, deeds, u) && Careful(log, a, deeds, u, plans) && a <= i < |log| && log[i].step.Changes()
    ensures u <= k < |deeds| && deeds[k] == i && DeedOk(log, a, deeds, u, k, plans)
  {
    CarefulMeans(log, a, deeds, u, plans);
    k :| u <= k < |deeds| && deeds[k] == i;
  }

  /** One step further. */
  lemma ShownNext(log: seq<Instant>, horizon: nat, a: nat, deeds: seq<nat>, u: nat, plans: seq<Plan>, dir: Ino, name: Name, i: nat, shown: Shown)
    returns (shown': Shown)
    requires Undisturbed(log, horizon, a, deeds, u, dir, name) && Careful(log, a, deeds, u, plans) && a <= i + 1 < |log|
    requires Shows(log, a, deeds, u, plans, dir, name, i, shown)
    ensures Shows(log, a, deeds, u, plans, dir, name, i + 1, shown')
  {
    if log[i + 1].step.Changes() {
      var k := DeedAt(log, a, deeds, u, plans, i + 1);
      shown' := ShownAfterDeed(log, horizon, a, deeds, u, plans, dir, name, k, shown);
    } else {
      if log[i + 1].step.Outside? {
        OutsidersKeepName(log, horizon, a, deeds, u, dir, name, i + 1);
      } else {
        OtherStepsKeepName(log, horizon, i + 1, dir, name);
      }
      ShownStill(log, a, deeds, u, plans, dir, name, i, shown);
      shown' := shown;
    }
  }

  lemma OtherNames(log: seq<Instant>, a: nat, deeds: seq<nat>, u: nat, k: nat, plans: seq<Plan>, name: Name)
    requires InLog(log, deeds) && u <= k < |deeds| && DeedOk(log, a, deeds, u, k, plans) && !IsStaging(name)
    ensures log[deeds[k]].step.Created? ==> log[deeds[k]].step.name != name
    ensures log[deeds[k]].step.Renamed? ==> log[deeds[k]].step.from != name
    ensures !log[deeds[k]].step.Removed?
  {
  }

  /**
    At every instant of a run, failed or not, a name shows what it showed before, or a complete copy of a
    planned file that had passed the comparison, or a directory made by the migration. It never shows
    part of a file, and nothing that stood there is lost before its replacement stands there.
  */
  lemma {:induction false} AtomicReplacement(log: seq<Instant>, horizon: nat, a: nat, deeds: seq<nat>, u: nat, plans: seq<Plan>,
                                             dir: Ino, name: Name, i: nat)
    returns (shown: Shown)
    requires Undisturbed(log, horizon, a, deeds, u, dir, name) && Careful(log, a, deeds, u, plans) && a <= i + 1 <= |log|
    requires WellFormed(log[a - 1].after)
    ensures Shows(log, a, deeds, u, plans, dir, name, i, shown)
    decreases i
  {
    if i + 1 == a {
      assert Edge(log[i].after, dir, name).Some? ==> Hangs(log[i].after, Edge(log[i].after, dir, name).value, Place(dir, name));
      shown := Old;
    } else {
      var before := AtomicReplacement(log, horizon, a, deeds, u, plans, dir, name, i - 1);
      shown := ShownNext(log, horizon, a, deeds, u, plans, dir, name, i - 1, before);
    }
  }
}
