/** Runs in which others interfere: they show that what the guarantees demand of others cannot be dropped. */
module Disturbances {
  import opened Outcomes
  import opened Disks
  import opened Worlds
  import opened Retained
  import opened Scans
  import opened Plans
  import opened Checks
  import opened Preparing
  import opened Publishing
  import opened Paths
  import opened Entries
  import opened Copies
  import opened Verifying
  import opened Batches

  // ---------- a staged file that others write to ----------

  /** An empty file `/a/f`, and an empty directory `/b`. */
  function EmptyFile(): Disk {
    Disk(map[0 := Dir(map["a" := 1, "b" := 2], None), 1 := Dir(map["f" := 3], Some(Place(0, "a"))),
             2 := Dir(map[], Some(Place(0, "b"))), 3 := File([], 0, 0, {Place(1, "f")})], 4, 1)
  }

  function FileEntry(size: nat): Entry {
    Entry(["f"], false, size, 0)
  }

  function CopyPlan(h: Held): Plan {
    Plan(Directory(["a"], [0, 1]), Directory(["b"], [0, 2]), [h.entry], [h], h.entry.size, 1)
  }

  function EmptyHeld(): Held {
    Held(FileEntry(0), 3, Some(Stamp(0, 0, 0)))
  }

  function StagedThere(): Disk {
    CreateFile(EmptyFile(), 2, StagingName(0))
  }

  function Spoilt(): Disk
    requires IsFile(StagedThere(), 4)
  {
    WriteFile(StagedThere(), 4, 0, [1])
  }

  lemma StagedIs()
    ensures WellFormed(EmptyFile()) && IsFile(StagedThere(), 4) && StagedThere().nodes[4].bytes == []
    ensures WellFormed(StagedThere()) && WellFormed(Spoilt()) && Grows(EmptyFile(), StagedThere()) && Grows(StagedThere(), Spoilt())
    ensures Spoilt().nodes[4].bytes == [1] && Spoilt().nodes[3] == EmptyFile().nodes[3] == StagedThere().nodes[3]
    ensures CanRename(Spoilt(), 2, StagingName(0), "f") && Edge(Spoilt(), 2, StagingName(0)) == Some(4)
  {
    var d := EmptyFile();
    forall x: Ino, n: Name | Edge(d, x, n).Some? ensures Hangs(d, Edge(d, x, n).value, Place(x, n)) {
      assert x == 0 || x == 1;
    }
    CreateFileGrows(d, 2, StagingName(0));
    WriteFileGrows(StagedThere(), 4, 0, [1]);
    assert StagingName(0)[0] == '.';
  }

  /** The staged copy is compared on `s`, then others write to it, and then it is renamed into place. */
  function SpoiltRun(d: Disk, s: Disk, e: Disk, f: Disk): seq<Instant> {
    [Instant(d, Noted(Started), d), Instant(d, Outside, d), Instant(d, Created(2, StagingName(0), 4), s), Instant(s, Outside, s),
     Instant(s, Outside, e), Instant(e, Renamed(2, StagingName(0), "f", 4), f)]
  }

  /** What matters of the disks of the run. */
  ghost predicate Spoiling(d: Disk, s: Disk, e: Disk, f: Disk) {
    && WellFormed(d) && (forall i | 0 <= i < 6 :: StepOk(SpoiltRun(d, s, e, f)[i]))
    && Edge(d, 2, "f").None? && Edge(s, 2, "f").None? && Edge(e, 2, "f").None? && Edge(f, 2, "f") == Some(4)
    && Edge(s, 2, StagingName(0)) == Some(4) && Edge(s, 0, "b") == Some(2) && IsKind(s, 2, true)
    && SameBytes(s, 3, 4) && s.nodes[4].bytes == [] && IsFile(e, 3) && e.nodes[3].bytes == []
    && IsFile(e, 4) && e.nodes[4].bytes == [1] && IsFile(f, 4) && f.nodes[4].bytes == [1]
  }

  lemma StagedEdges()
    requires IsFile(StagedThere(), 4)
    ensures Edge(EmptyFile(), 2, "f").None? && Edge(StagedThere(), 2, "f").None? && Edge(Spoilt(), 2, "f").None?
    ensures Edge(StagedThere(), 2, StagingName(0)) == Some(4) && Edge(StagedThere(), 0, "b") == Some(2) && IsKind(StagedThere(), 2, true)
    ensures Linked(EmptyFile(), 2) && Edge(EmptyFile(), 2, StagingName(0)).None?
  {
    assert StagingName(0)[0] == '.';
  }

  lemma RenamedIs(e: Disk)
    requires WellFormed(e) && CanRename(e, 2, StagingName(0), "f") && Edge(e, 2, StagingName(0)) == Some(4) && Edge(e, 2, "f").None? && IsFile(e, 4)
    ensures var f := RenameOver(e, 2, StagingName(0), "f");
            Edge(f, 2, "f") == Some(4) && IsFile(f, 4) && f.nodes[4].bytes == e.nodes[4].bytes
  {
    assert StagingName(0)[0] == '.';
  }

  lemma ThisSpoils() returns (d: Disk, s: Disk, e: Disk, f: Disk)
    ensures Spoiling(d, s, e, f)
  {
    StagedIs();
    StagedEdges();
    d, s, e := EmptyFile(), StagedThere(), Spoilt();
    RenamedIs(e);
    f := RenameOver(e, 2, StagingName(0), "f");
    RunSteps(d, s, e, f);
  }

  lemma RunSteps(d: Disk, s: Disk, e: Disk, f: Disk)
    requires WellFormed(d) && WellFormed(s) && WellFormed(e) && Grows(s, e) && Linked(d, 2) && Edge(d, 2, StagingName(0)).None? && d.next == 4
    requires s == CreateFile(d, 2, StagingName(0)) && CanRename(e, 2, StagingName(0), "f") && Edge(e, 2, StagingName(0)) == Some(4)
    requires f == RenameOver(e, 2, StagingName(0), "f")
    ensures forall i | 0 <= i < 6 :: StepOk(SpoiltRun(d, s, e, f)[i])
  {
    var run := SpoiltRun(d, s, e, f);
    assert Grows(d, d) && Grows(s, s);
    forall i | 0 <= i < 6 ensures StepOk(run[i]) {
      assert i == 0 || i == 1 || i == 2 || i == 3 || i == 4 || i == 5;
    }
  }

  /** Steps that follow from each other are a run, while others may still act. */
  lemma {:induction false} ChainOf(run: seq<Instant>, horizon: nat)
    requires |run| <= horizon && (forall i | 0 <= i < |run| :: StepOk(run[i])) && forall i | 0 < i < |run| :: Follows(run, i)
    ensures Chain(run, horizon)
    decreases |run|
  {
    if run != [] {
      var front := run[..|run| - 1];
      forall i | 0 < i < |front| ensures Follows(front, i) {
        assert Follows(run, i);
      }
      ChainOf(front, horizon);
      assert |run| > 1 ==> Follows(run, |run| - 1);
    }
  }

  ghost predicate Follows(run: seq<Instant>, i: nat)
    requires 0 < i < |run|
  {
    run[i].before == run[i - 1].after
  }

  lemma SpoiltChain(d: Disk, s: Disk, e: Disk, f: Disk, horizon: nat)
    requires Spoiling(d, s, e, f) && horizon > 5
    ensures Chain(SpoiltRun(d, s, e, f), horizon)
  {
    ChainOf(SpoiltRun(d, s, e, f), horizon);
  }

  lemma SpoiltDeeds(d: Disk, s: Disk, e: Disk, f: Disk)
    ensures NewDeeds(SpoiltRun(d, s, e, f), 1, [2, 5], 0) && InLog(SpoiltRun(d, s, e, f), [2, 5])
  {
    var run, deeds := SpoiltRun(d, s, e, f), [2, 5];
    assert deeds[0] == 2 && deeds[1] == 5;
    forall i | 1 <= i < |run| && run[i].step.Changes() ensures exists k :: 0 <= k < |deeds| && deeds[k] == i {
      assert i == 2 || i == 5;
    }
  }

  lemma SpoiltPublication(d: Disk, s: Disk, e: Disk, f: Disk)
    requires Spoiling(d, s, e, f) && InLog(SpoiltRun(d, s, e, f), [2, 5])
    ensures PublishedAs(SpoiltRun(d, s, e, f), 1, [2, 5], 0, 1, [CopyPlan(EmptyHeld())], Publication(CopyPlan(EmptyHeld()), [], EmptyHeld(), 0, 3, 3, 3, None))
  {
    var run, deeds, plan := SpoiltRun(d, s, e, f), [2, 5], CopyPlan(EmptyHeld());
    assert run[1].after == d && run[3].after == s && run[..5][3] == run[3];
    assert EdgeSeen(run[..5], 3, 0, "b", 2, true);
    assert ChainSeen(run[..5], 3, plan.destination);
    assert StagedSince(run, deeds, 0, 1, 4);
    assert SameBytes(run[3].after, 3, 4) && Edge(run[3].after, 2, StagingName(0)) == Some(4);
    assert Goes(plan, [], EmptyHeld(), 2, "f");
    assert VersionSeen(run, 1, 2, 2, "f", None) && VersionSeen(run, 3, 5, 2, "f", None);
  }

  lemma SpoiltCareful(d: Disk, s: Disk, e: Disk, f: Disk)
    requires Spoiling(d, s, e, f) && InLog(SpoiltRun(d, s, e, f), [2, 5])
    ensures Careful(SpoiltRun(d, s, e, f), 1, [2, 5], 0, [CopyPlan(EmptyHeld())])
  {
    var run, deeds, plans := SpoiltRun(d, s, e, f), [2, 5], [CopyPlan(EmptyHeld())];
    SpoiltPublication(d, s, e, f);
    forall k | 0 <= k < |deeds| ensures DeedOk(run, 1, deeds, 0, k, plans) {
      if k == 0 {
        assert run[deeds[0]].step == Created(2, StagingName(0), 4) && IsStaging(StagingName(0));
      } else {
        assert k == 1 && run[deeds[1]].step.Renamed?;
      }
    }
  }

  lemma SpoiltCopy(d: Disk, s: Disk, e: Disk, f: Disk, k: nat, w: Publication)
    requires Spoiling(d, s, e, f) && InLog(SpoiltRun(d, s, e, f), [2, 5]) && k < 2 && SpoiltRun(d, s, e, f)[[2, 5][k]].step.Renamed?
    requires PublishedAs(SpoiltRun(d, s, e, f), 1, [2, 5], 0, k, [CopyPlan(EmptyHeld())], w)
    ensures w.compared < 6 && SpoiltRun(d, s, e, f)[w.compared].after == s
  {
    var run := SpoiltRun(d, s, e, f);
    assert k == 1 && w.created == 0 && run[[2, 5][0]].step == Created(2, StagingName(0), 4);
    assert w.h == EmptyHeld() && !SameBytes(e, 3, 4);
    assert w.compared == 3 || w.compared == 4;
  }

  /** What the name shows in the end is no copy that was compared. */
  lemma SpoiltShows(d: Disk, s: Disk, e: Disk, f: Disk, shown: Shown)
    requires Spoiling(d, s, e, f) && InLog(SpoiltRun(d, s, e, f), [2, 5])
    ensures !Shows(SpoiltRun(d, s, e, f), 1, [2, 5], 0, [CopyPlan(EmptyHeld())], 2, "f", 5, shown)
  {
    var run, deeds := SpoiltRun(d, s, e, f), [2, 5];
    assert run[5].after == f && run[0].after == d;
    match shown
    case Old =>
    case Made(k) => assert k < 2 ==> !run[deeds[k]].step.MadeDirectory?;
    case Copy(k, w) =>
      if k < 2 && run[deeds[k]].step.Renamed? && PublishedAs(run, 1, deeds, 0, k, [CopyPlan(EmptyHeld())], w) {
        SpoiltCopy(d, s, e, f, k, w);
      }
  }

  /**
    A run in which everybody else leaves the name itself alone, and the migration does all it does with care, and
    still the name shows what nobody compared: keeping hands off the staged file until it is renamed is needed.
  */
  lemma HandsOffNeeded(horizon: nat)
    returns (log: seq<Instant>, deeds: seq<nat>, plans: seq<Plan>, dir: Ino, name: Name, i: nat)
    requires horizon > 5
    ensures 0 < i < |log| && Chain(log, horizon) && InLog(log, deeds) && NewDeeds(log, 1, deeds, 0) && Careful(log, 1, deeds, 0, plans) && !IsStaging(name)
    ensures WellFormed(log[0].after) && forall t | 1 <= t < |log| && log[t].step.Outside? :: NameKept(log[t].before, log[t].after, dir, name)
    ensures forall shown :: !Shows(log, 1, deeds, 0, plans, dir, name, i, shown)
  {
    var d, s, e, f := ThisSpoils();
    SpoiltChain(d, s, e, f, horizon);
    SpoiltDeeds(d, s, e, f);
    SpoiltCareful(d, s, e, f);
    log, deeds, plans, dir, name, i := SpoiltRun(d, s, e, f), [2, 5], [CopyPlan(EmptyHeld())], 2, "f", 5;
    forall shown ensures !Shows(log, 1, deeds, 0, plans, dir, name, i, shown) {
      SpoiltShows(d, s, e, f, shown);
    }
    NotStaging();
    forall t | 1 <= t < |log| && log[t].step.Outside? ensures NameKept(log[t].before, log[t].after, dir, name) {
      assert t == 1 || t == 3 || t == 4;
    }
  }

  lemma NotStaging()
    ensures !IsStaging("f")
  {
    forall n: nat ensures StagingName(n) != "f" {
      assert StagingName(n)[0] == '.';
    }
  }

  // ---------- progress that falls short ----------

  /** `/a/f` is the source, `/b/f` the copy to come, and `/c/f` looks like the source. */
  function Listed(): Disk {
    Disk(map[0 := Dir(map["a" := 1, "b" := 2, "c" := 4], None), 1 := Dir(map["f" := 3], Some(Place(0, "a"))),
             2 := Dir(map["f" := 5], Some(Place(0, "b"))), 3 := File([7, 7], 0, 0, {Place(1, "f")}), 4 := Dir(map["f" := 6], Some(Place(0, "c"))),
             5 := File([7], 0, 0, {Place(2, "f")}), 6 := File([7, 7], 0, 0, {Place(4, "f")})], 7, 1)
  }

  /** Then the source is made shorter. */
  function Shortened(): Disk {
    Disk(Listed().nodes[3 := File([7], 1, 1, {Place(1, "f")})], 7, 2)
  }

  /** And then its directory and the other one trade places. */
  function Swapped(): Disk {
    Disk(Shortened().nodes[0 := Dir(map["a" := 4, "b" := 2, "c" := 1], None)][1 := Dir(map["f" := 3], Some(Place(0, "c")))]
         [4 := Dir(map["f" := 6], Some(Place(0, "a")))], 7, 2)
  }

  /** A disk whose edges lead from these directories is well formed if each of them does. */
  lemma EdgesOf(d: Disk)
    requires ROOT in d.nodes && d.nodes[ROOT].Dir? && d.nodes[ROOT].home.None?
    requires forall x <- d.nodes :: x < d.next && (d.nodes[x].File? ==> d.nodes[x].ctime < d.clock)
    requires forall x <- d.nodes :: d.nodes[x].Dir? ==> x in {0, 1, 2, 4}
    requires d.nodes[ROOT].children.Keys == {"a", "b", "c"} && forall n | n in {"a", "b", "c"} :: Hangs(d, d.nodes[ROOT].children[n], Place(ROOT, n))
    requires forall x | x in {1, 2, 4} :: x in d.nodes && d.nodes[x].Dir? && d.nodes[x].children.Keys == {"f"} && Hangs(d, d.nodes[x].children["f"], Place(x, "f"))
    ensures WellFormed(d)
  {
  }

  lemma ListedHangs()
    ensures WellFormed(Listed())
  {
    EdgesOf(Listed());
  }

  lemma ShortenedHangs()
    ensures WellFormed(Shortened())
  {
    EdgesOf(Shortened());
  }

  lemma SwappedHangs()
    ensures WellFormed(Swapped())
  {
    EdgesOf(Swapped());
  }

  lemma ShorteningGrows()
    ensures Grows(Listed(), Listed()) && Grows(Listed(), Shortened())
  {
  }

  lemma SwappingGrows()
    ensures Grows(Shortened(), Swapped()) && Grows(Swapped(), Shortened())
  {
  }

  /** What the two directories look like by path. */
  lemma PathsLead()
    ensures MetaAt(Listed(), ["a", "f"]) == Some(Meta(false, false, 2, 0)) == MetaAt(Swapped(), ["a", "f"])
    ensures Names(Listed(), ["a"], {"f"}) && Names(Swapped(), ["a"], {"f"})
  {
    PathLeads(Listed(), 1);
    PathLeads(Swapped(), 4);
  }

  lemma PathLeads(d: Disk, dir: Ino)
    requires 0 in d.nodes && Edge(d, 0, "a") == Some(dir) && dir in d.nodes && d.nodes[dir].Dir? && d.nodes[dir].children.Keys == {"f"}
    ensures Resolve(d, ["a"]) == Some(dir) && Resolve(d, ["a", "f"]) == Edge(d, dir, "f") && Names(d, ["a"], {"f"})
  {
    assert ["a"][..0] == [] && ["a", "f"][..1] == ["a"];
    assert Resolve(d, []) == Some(ROOT);
  }

  function ShortHeld(): Held {
    Held(FileEntry(2), 3, Some(Stamp(1, 1, 1)))
  }

  function CopiedHeld(): Held {
    Held(FileEntry(2), 5, Some(Stamp(1, 0, 0)))
  }

  /** The directory is listed on `d`, the source is as recorded on `s`, and on `e` the other directory stands in its place. */
  function ShortRun(d: Disk, s: Disk, e: Disk): seq<Instant> {
    [Instant(d, Noted(Started), d), Instant(d, Outside, d), Instant(d, Outside, s), Instant(s, Outside, e), Instant(e, Outside, s)]
  }

  lemma ShortChain(d: Disk, s: Disk, e: Disk, horizon: nat)
    requires horizon > 4 && WellFormed(d) && WellFormed(s) && WellFormed(e) && Grows(d, d) && Grows(d, s) && Grows(s, e) && Grows(e, s)
    ensures Chain(ShortRun(d, s, e), horizon)
  {
    ChainOf(ShortRun(d, s, e), horizon);
  }

  lemma OneEntry(size: nat)
    ensures Snapshot([FileEntry(size)]) && ChildNames([FileEntry(size)], []) == {"f"} && Bytes([FileEntry(size)]) == size && Files([FileEntry(size)]) == 1
    ensures forall p: Path | ListsDirectory([FileEntry(size)], p) :: p == []
  {
    var entries := [FileEntry(size)];
    assert entries[..0] == [] && FileEntry(size) in entries;
    assert Scans.Parent(["f"]) == [];
  }

  /** The source, its copy, and the directories of both, as they were recorded. */
  ghost predicate AsRecorded(d: Disk) {
    && Edge(d, 0, "a") == Some(1) && Edge(d, 0, "b") == Some(2) && Edge(d, 1, "f") == Some(3) && Edge(d, 2, "f") == Some(5)
    && IsKind(d, 1, true) && IsKind(d, 2, true) && IsFile(d, 3) && d.nodes[3].Regular() && IsFile(d, 5) && d.nodes[5].Regular()
    && StampOf(d.nodes[3]) == Stamp(1, 1, 1) && SameBytes(d, 3, 5)
  }

  /** By path, the source looks as it was listed. */
  ghost predicate AsListed(d: Disk) {
    Matches(d, ["a"], FileEntry(2)) && Names(d, ["a"], {"f"})
  }

  /** As it is opened, the source is as long as it was listed. */
  ghost predicate LongAt(d: Disk) {
    IsFile(d, 3) && |d.nodes[3].bytes| == 2 && d.nodes[3].mtime == 0
  }

  lemma TheseLook()
    ensures AsListed(Listed()) && AsListed(Swapped()) && AsRecorded(Shortened()) && LongAt(Listed())
  {
    PathsLead();
    assert ["a"] + ["f"] == ["a", "f"];
  }

  lemma ShortSeen(log: seq<Instant>, a: nat, i: nat, j: nat)
    requires a <= i < |log| && a <= j < |log| && AsListed(log[i].after) && AsRecorded(log[j].after)
    ensures SourceSeen(log, a, CopyPlan(ShortHeld()))
  {
    var plan := CopyPlan(ShortHeld());
    OneEntry(2);
    assert EdgeSeen(log, a, 0, "a", 1, true) && EdgeSeen(log, a, 0, "b", 2, true) && EdgeSeen(log, a, 1, "f", 3, false);
    assert RegularSeen(log, a, 3) && StampSeen(log, a, 3, Stamp(1, 1, 1));
    assert SourceEntrySeen(log, a, plan, ShortHeld());
    assert ["a"] + [] == ["a"];
    assert EntrySeen(log, a, ["a"], FileEntry(2)) && NamesSeen(log, a, ["a"] + [], ChildNames(plan.entries, []));
  }

  lemma ShortCopySeen(log: seq<Instant>, a: nat, i: nat, j: nat)
    requires a <= i < |log| && a <= j < |log| && AsListed(log[i].after) && AsRecorded(log[j].after)
    ensures CopySeen(log, a, CopyPlan(ShortHeld()), [CopiedHeld()])
  {
    ShortSeen(log, a, i, j);
    assert EdgeSeen(log, a, 2, "f", 5, false) && RegularSeen(log, a, 5) && SameBytesSeen(log, a, 3, 5);
    assert TargetSeen(log, a, CopyPlan(ShortHeld()), [CopiedHeld()], 0);
  }

  lemma ShortPlan()
    ensures Prepared(CopyPlan(ShortHeld())) && RecordsSofar(CopyPlan(ShortHeld()), [CopiedHeld()]) && TotalBytes([CopyPlan(ShortHeld())]) == 2
    ensures LastLevel([CopyPlan(ShortHeld())]) == 1
  {
    var plan := CopyPlan(ShortHeld());
    OneEntry(2);
    assert ["a"][0] != ["b"][0] && !Overlaps(plan.source.path, plan.destination.path);
    assert Records(plan.held, plan.entries) && SoundPlan(plan);
    assert [plan][..0] == [] && plan.held[..0] == [];
    assert StampBytes(plan.held) == 1;
  }

  /** The file was once, before instant `v`, as it had been listed. */
  ghost predicate LongOnce(log: seq<Instant>, v: nat, h: Held) {
    exists i :: 1 <= i < v <= |log| && IsFile(log[i].after, h.ino)
                && |log[i].after.nodes[h.ino].bytes| == h.entry.size && log[i].after.nodes[h.ino].mtime == h.entry.modified
  }

  /**
    A run in which every check of `prepare` (up to instant `v`) and of the final verification (from then on) finds what
    it looks for, and the last report names less than the total: between the two readings of its metadata the source was
    made shorter, and whenever its directory was listed another one stood in its place.
  */
  lemma ProgressFallsShort(horizon: nat) returns (log: seq<Instant>, v: nat, plan: Plan, outputs: seq<Held>)
    requires horizon > 4
    ensures 1 < v <= |log| && Chain(log, horizon) && Prepared(plan) && RecordsSofar(plan, outputs)
    ensures plan.source.Shaped() && SourceSeen(log[..v], 1, plan) && CopySeen(log, v, plan, outputs)
    ensures forall h | h in plan.held :: LongOnce(log, v, h)
    ensures LastLevel([plan]) < TotalBytes([plan])
  {
    ListedHangs();
    ShortenedHangs();
    SwappedHangs();
    ShorteningGrows();
    SwappingGrows();
    TheseLook();
    ShortPlan();
    log, v, plan, outputs := ShortRun(Listed(), Shortened(), Swapped()), 3, CopyPlan(ShortHeld()), [CopiedHeld()];
    ShortChain(Listed(), Shortened(), Swapped(), horizon);
    ShortRunSeen(Listed(), Shortened(), Swapped());
  }

  lemma ShortRunSeen(d: Disk, s: Disk, e: Disk)
    requires AsListed(d) && AsListed(e) && AsRecorded(s) && LongAt(d)
    ensures var log, plan := ShortRun(d, s, e), CopyPlan(ShortHeld());
            && SourceSeen(log[..3], 1, plan) && CopySeen(log, 3, plan, [CopiedHeld()])
            && forall h | h in plan.held :: LongOnce(log, 3, h)
  {
    var log := ShortRun(d, s, e);
    assert log[..3][1].after == d && log[..3][2].after == s && log[3].after == e && log[4].after == s;
    ShortSeen(log[..3], 1, 1, 2);
    ShortCopySeen(log, 3, 3, 4);
    assert LongAt(log[1].after);
  }
}
