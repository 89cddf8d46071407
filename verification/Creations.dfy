/** The first half of `execute_with_cleanup`: creating and verifying a copy where nothing stands, and the commit. */
module Creations {
  import opened Outcomes
  import opened Disks
  import opened Worlds
  import opened Compare
  import opened Effects
  import opened Paths
  import opened Scans
  import opened Retained
  import opened Plans
  import opened Checks
  import opened Preparing
  import opened Publishing
  import opened Meters
  import opened Staging
  import opened Copying
  import opened Overlays
  import opened Additions
  import opened SameFiles
  import opened Undoing

  // ---------- the contents of one file ----------

  /** On a disk at rest: what was read so far has been written to the file created last. */
  ghost predicate Filling(d0: Disk, d: Disk, made: seq<Creation>, path: Path, input: Ino, output: Ino, offset: nat, node: Node) {
    && Undoable(d0, d, made + [Creation(path, false, None)]) && Resolve(d, path) == Some(output)
    && Is(d, input, node) && CopiedUpTo(d, input, output, offset)
  }

  lemma LastStands(d0: Disk, d: Disk, made: seq<Creation>, m: Creation)
    requires Undoable(d0, d, made + [m])
    ensures WellFormed(d) && Stands(d0, d, m)
  {
    PartlyMeans(d0, d, made + [m], |made + [m]|);
    assert (made + [m])[|made|] == m;
  }

  lemma FilledFurther(d0: Disk, d: Disk, made: seq<Creation>, path: Path, input: Ino, output: Ino, offset: nat, node: Node, data: seq<Byte>)
    requires Filling(d0, d, made, path, input, output, offset, node) && input != output && node.File?
    requires offset + |data| <= |node.bytes| && data == node.bytes[offset..offset + |data|]
    ensures Filling(d0, WriteFile(d, output, offset, data), made, path, input, output, offset + |data|, node)
    ensures OnlyAt(d, WriteFile(d, output, offset, data), path)
  {
    var m := Creation(path, false, None);
    LastStands(d0, d, made, m);
    var e := WriteFile(d, output, offset, data);
    WriteFileGrows(d, output, offset, data);
    WriteFilePuts(d, path, offset, data);
    MadeChanged(d0, d, e, made, m, m, View(e, path));
    CopiedFurther(d, input, output, offset, data);
  }

  /** One round of the copying loop; the progress callback cannot refuse. */
  method MoveChunk(world: World, input: Ino, output: Ino, offset: nat, bytes: nat, done: nat, ghost i: nat, ghost node: Node,
                   ghost rest: bool, ghost d0: Disk, ghost made: seq<Creation>, ghost path: Path)
    returns (r: Result<nat>)
    requires world.Valid() && Was(world.log, i, input, node) && input != output
    requires rest ==> world.Quiet() && Filling(d0, world.disk, made, path, input, output, offset, node)
    modifies world
    ensures world.Advanced() && WroteOnce(world.log, world.deeds, old(world.deeds), output) && |old(world.log)| < |world.log|
    ensures old(world.Quiet()) && r.Ok? && r.value > 0 ==>
              && IsFile(old(world.disk), input) && offset + r.value <= |old(world.disk).nodes[input].bytes|
              && Is(world.disk, input, old(world.disk).nodes[input])
    ensures rest ==> exists offset' :: Filling(d0, world.disk, made, path, input, output, offset', node)
    ensures rest ==> OnlyAt(old(world.disk), world.disk, path)
    ensures rest && r.Ok? ==> Filling(d0, world.disk, made, path, input, output, offset + r.value, node)
                              && (r.value == 0 ==> offset == |node.bytes|)
    ensures rest && old(world.Faultless()) ==> r.Ok?
  {
    ghost var d := world.disk;
    Still(world, i, i, input, node);
    assert rest ==> IsFile(d, output);
    var data := world.ReadAt(input, offset, BUFFER);
    if data.Err? {
      return Err(data.fault);
    }
    if data.value == [] {
      return Ok(0);
    }
    var written := world.WriteAll(output, offset, data.value);
    if written.Err? {
      return Err(written.fault);
    }
    if rest {
      FilledFurther(d0, d, made, path, input, output, offset, node, data.value);
    }
    var _ := world.Report(Min(done + |data.value|, bytes), bytes);
    return Ok(|data.value|);
  }

  /** Only written to, at most, since deed `u`. */
  lemma WroteMore(log: seq<Instant>, log': seq<Instant>, deeds: seq<nat>, deeds': seq<nat>, u: nat, output: Ino)
    requires log <= log' && deeds <= deeds' && OnlyWrote(log, deeds, u, output) && WroteOnce(log', deeds', deeds, output)
    ensures OnlyWrote(log', deeds', u, output)
  {
    forall k | u <= k < |deeds'| ensures deeds'[k] < |log'| && log'[deeds'[k]].step.Wrote? && log'[deeds'[k]].step.ino == output {
      assert k < |deeds| ==> deeds'[k] == deeds[k];
    }
  }

  /** The copying loop, which goes on until the input ends; it does because others act finitely often. */
  method MoveBytes(world: World, input: Ino, output: Ino, bytes: nat, done: nat, ghost i: nat, ghost node: Node,
                   ghost rest: bool, ghost d0: Disk, ghost made: seq<Creation>, ghost path: Path)
    returns (r: Result<()>, done': nat)
    requires world.Valid() && Was(world.log, i, input, node) && input != output
    requires rest ==> world.Quiet() && Filling(d0, world.disk, made, path, input, output, 0, node)
    modifies world
    ensures world.Advanced() && OnlyWrote(world.log, world.deeds, |old(world.deeds)|, output)
    ensures rest ==> OnlyAt(old(world.disk), world.disk, path) && exists offset :: Filling(d0, world.disk, made, path, input, output, offset, node)
    ensures rest && r.Ok? ==> Filling(d0, world.disk, made, path, input, output, |node.bytes|, node)
    ensures rest && old(world.Faultless()) ==> r.Ok?
  {
    ghost var d, u := world.disk, |world.deeds|;
    var offset: nat := 0;
    while true
      invariant world.Advanced() && OnlyWrote(world.log, world.deeds, u, output)
      invariant rest ==> Filling(d0, world.disk, made, path, input, output, offset, node) && OnlyAt(d, world.disk, path)
      decreases if world.now < world.horizon then world.horizon - world.now else 0, BytesLeft(world.disk, input, offset)
    {
      ghost var e, log, deeds := world.disk, world.log, world.deeds;
      var n := MoveChunk(world, input, output, offset, bytes, done + offset, i, node, rest, d0, made, path);
      WroteMore(log, world.log, deeds, world.deeds, u, output);
      if rest {
        OnlyAtOn(d, e, world.disk, path);
      }
      if n.Err? {
        return Err(n.fault), done + offset;
      }
      if n.value == 0 {
        return Ok(()), done + offset;
      }
      offset := offset + n.value;
    }
  }

  // ---------- one file ----------

  /** Nothing was created, or one thing at this path. */
  ghost predicate OneMore(made: seq<Creation>, made': seq<Creation>, path: Path, directory: bool) {
    made' == made || (|made'| == |made| + 1 && made' == made + [Creation(path, directory, made'[|made|].stamp)])
  }

  lemma Up(path: Path)
    requires path != []
    ensures path == path[..|path| - 1] + [path[|path| - 1]]
  {
  }

  /** A new file where nothing was. */
  lemma CreatedFile(d0: Disk, d: Disk, made: seq<Creation>, path: Path)
    requires Undoable(d0, d, made) && |path| > 1 && View(d, path[..|path| - 1]) == ADir && Resolve(d, path).None?
    ensures var e := CreateFile(d, Resolve(d, path[..|path| - 1]).value, path[|path| - 1]);
            && Undoable(d0, e, made + [Creation(path, false, None)]) && OnlyAt(d, e, path)
            && Resolve(e, path) == Some(d.next) && IsFile(e, d.next) && e.nodes[d.next].bytes == []
  {
    PartlyMeans(d0, d, made, |made|);
    var up, name := path[..|path| - 1], path[|path| - 1];
    Up(path);
    ResolveSnoc(d, up, name);
    var e := CreateFile(d, Resolve(d, up).value, name);
    CreateFileGrows(d, Resolve(d, up).value, name);
    CreateFilePuts(d, up, name);
    MadeMore(d0, d, e, made, Creation(path, false, None), AFile([]));
  }

  /** A new directory where nothing was. */
  lemma CreatedDirectory(d0: Disk, d: Disk, made: seq<Creation>, path: Path)
    requires Undoable(d0, d, made) && |path| > 1 && View(d, path[..|path| - 1]) == ADir && Resolve(d, path).None?
    ensures var e := MakeDirectory(d, Resolve(d, path[..|path| - 1]).value, path[|path| - 1]);
            Undoable(d0, e, made + [Creation(path, true, None)]) && OnlyAt(d, e, path) && View(e, path) == ADir
  {
    PartlyMeans(d0, d, made, |made|);
    var up, name := path[..|path| - 1], path[|path| - 1];
    Up(path);
    ResolveSnoc(d, up, name);
    var e := MakeDirectory(d, Resolve(d, up).value, name);
    MakeDirectoryGrows(d, Resolve(d, up).value, name);
    MakeDirectoryPuts(d, up, name);
    MadeMore(d0, d, e, made, Creation(path, true, None), ADir);
  }

  lemma StampNoted(d0: Disk, d: Disk, made: seq<Creation>, path: Path, stamp: Option<(nat, nat)>)
    requires Undoable(d0, d, made + [Creation(path, false, None)]) && (stamp.Some? ==> stamp == PathStamp(d, path))
    ensures Undoable(d0, d, made + [Creation(path, false, stamp)])
  {
    LastStands(d0, d, made, Creation(path, false, None));
    MadeChanged(d0, d, d, made, Creation(path, false, None), Creation(path, false, stamp), View(d, path));
  }

  /** Copies into the new file, and flushes it. */
  method FillNew(world: World, input: Ino, output: Ino, bytes: nat, done: nat, ghost rest: bool, ghost d0: Disk, ghost made: seq<Creation>, ghost path: Path)
    returns (r: Result<()>, done': nat)
    requires world.Valid() && input in world.disk.nodes && input != output
    requires rest ==> world.Quiet() && Undoable(d0, world.disk, made + [Creation(path, false, None)]) && Resolve(world.disk, path) == Some(output)
                      && IsFile(world.disk, output) && world.disk.nodes[output].bytes == []
    modifies world
    ensures world.Advanced() && OnlyWrote(world.log, world.deeds, |old(world.deeds)|, output)
    ensures rest ==> OnlyAt(old(world.disk), world.disk, path) && Undoable(d0, world.disk, made + [Creation(path, false, None)])
    ensures rest && r.Ok? ==> SameBytes(world.disk, input, output) && Resolve(world.disk, path) == Some(output)
    ensures rest && old(world.Faultless()) && IsFile(old(world.disk), input) ==> r.Ok?
  {
    done' := done;
    if !IsFile(world.disk, input) {
      return Err(Other), done;  // what is not a file cannot be read
    }
    ghost var i, node := |world.log| - 1, world.disk.nodes[input];
    assert rest ==> Filling(d0, world.disk, made, path, input, output, 0, node);
    r, done' := MoveBytes(world, input, output, bytes, done, i, node, rest, d0, made, path);
    if r.Err? {
      return;
    }
    r := world.Sync();
  }

  lemma NothingYet(world: World, d0: Disk, made: seq<Creation>, path: Path, rest: bool)
    requires world.Valid() && (rest ==> Undoable(d0, world.disk, made))
    ensures AddsOnly(world.log, world.deeds, |world.deeds|) && OnlyAt(world.disk, world.disk, path)
  {
    AddedNothing(world, |world.deeds|);
  }

  /** Opens the source and creates the file, in this order. */
  method OpenAndCreate(world: World, source: Path, path: Path, ghost rest: bool, ghost d0: Disk, ghost made: seq<Creation>) returns (r: Result<(Ino, Ino)>)
    requires world.Valid() && path != []
    requires rest ==> world.Quiet() && Undoable(d0, world.disk, made) && |path| > 1
    modifies world
    ensures world.Advanced()
    ensures r.Err? ==> world.Looked()
    ensures r.Ok? ==> |world.deeds| == |old(world.deeds)| + 1 && InLog(world.log, world.deeds)
                      && CreatedBy(world.log, world.deeds, |old(world.deeds)|, r.value.1)
                      && r.value.0 in world.disk.nodes && r.value.0 != r.value.1
    ensures rest && r.Ok? ==> Undoable(d0, world.disk, made + [Creation(path, false, None)]) && OnlyAt(old(world.disk), world.disk, path)
                              && Resolve(old(world.disk), source) == Some(r.value.0)
                              && Resolve(world.disk, path) == Some(r.value.1) && IsFile(world.disk, r.value.1) && world.disk.nodes[r.value.1].bytes == []
    ensures rest && old(world.Faultless()) && |source| > 1 && View(old(world.disk), source).AFile? ==>
              View(old(world.disk), path[..|path| - 1]) == ADir && Resolve(old(world.disk), path).None? ==> r.Ok?
  {
    var _ :- EnsureRegular(world, source);
    var input :- world.OpenPath(source);
    ghost var i := |world.log| - 1;
    var output := world.CreateNewAt(path);
    if output.Err? {
      return Err(output.fault);
    }
    InLogHolds(world);
    NewNumber(world, i, |world.log| - 1, input);
    if rest {
      CreatedFile(d0, old(world.disk), made, path);
    }
    return Ok((input, output.value));
  }

  /** What copying a file means for its entry in `created`: its stamp is noted even if the copy failed. */
  method MakeFile(world: World, source: Path, path: Path, bytes: nat, done: nat, made: seq<Creation>, ghost rest: bool, ghost d0: Disk)
    returns (r: Result<()>, made': seq<Creation>, done': nat)
    requires world.Valid() && path != []
    requires rest ==> world.Quiet() && Undoable(d0, world.disk, made) && |path| > 1 && source != path
    modifies world
    ensures world.Advanced() && AddsOnly(world.log, world.deeds, |old(world.deeds)|)
    ensures OneMore(made, made', path, false) && (r.Ok? ==> made' != made)
    ensures rest ==> Undoable(d0, world.disk, made') && OnlyAt(old(world.disk), world.disk, path)
    ensures rest && r.Ok? ==> View(world.disk, path).AFile? && View(world.disk, path) == View(world.disk, source)
    ensures rest && old(world.Faultless()) && (r.Err? ==> made' == made) && Stamped(made) ==> Stamped(made')
    ensures rest && old(world.Faultless()) && |source| > 1 && View(old(world.disk), source).AFile? ==>
              View(old(world.disk), path[..|path| - 1]) == ADir && Resolve(old(world.disk), path).None? ==> r.Ok?
  {
    NothingYet(world, d0, made, path, rest);
    ghost var d, u := world.disk, |world.deeds|;
    var created := OpenAndCreate(world, source, path, rest, d0, made);
    if created.Err? {
      AddedNothing(world, u);
      return Err(created.fault), made, done;
    }
    var (input, output) := created.value;
    ghost var e := world.disk;
    assert rest ==> SameAt(d, e, source);
    r, done' := FillNew(world, input, output, bytes, done, rest, d0, made, path);
    InLogHolds(world);
    FilledAdds(world.log, world.deeds, u, output);
    if rest {
      OnlyAtOn(d, e, world.disk, path);
    }
    ghost var log := world.log;
    var stamp := FileStamp(world, path);
    made' := made + [Creation(path, false, stamp)];
    if rest {
      StampNoted(d0, world.disk, made, path, stamp);
    }
    StillAdds(world, log, u);
    if r.Err? {
      return;
    }
    if rest {
      assert SameAt(d, world.disk, source);
    }
    log := world.log;
    var same := SameContents(world, source, path);
    StillAdds(world, log, u);
    r := if same.Err? then Err(same.fault) else if same.value then Ok(()) else Err(Other);
  }

  // ---------- all entries ----------

  function SourceOf(plan: Plan, e: Entry): Path {
    plan.source.path + e.relative
  }

  function TargetOf(plan: Plan, e: Entry): Path {
    plan.destination.path + e.relative
  }

  /** On a disk at rest: what `revalidate` and `check_conflicts` accept. */
  ghost predicate MoveReady(d: Disk, plan: Plan) {
    && WellFormed(d) && Listing(d, plan.source.path, plan.entries) && View(d, plan.destination.path) == ADir
    && NoConflicts(d, plan.destination.path, plan.entries)
  }

  /** What was created are the targets of the first entries. */
  ghost predicate MadeOf(plan: Plan, made: seq<Creation>) {
    && |made| <= |plan.entries|
    && forall i | 0 <= i < |made| :: made[i].path == TargetOf(plan, plan.entries[i]) && made[i].directory == plan.entries[i].directory
  }

  /** The first targets show what their sources showed. */
  ghost predicate TargetsCopied(d0: Disk, d: Disk, plan: Plan, n: nat)
    requires n <= |plan.entries|
  {
    forall i | 0 <= i < n :: View(d, TargetOf(plan, plan.entries[i])) == View(d0, SourceOf(plan, plan.entries[i]))
  }

  /** Whatever lies beneath the source, and the destination itself, is not among what was created. */
  lemma NotCreated(plan: Plan, made: seq<Creation>, q: Path)
    requires SoundPlan(plan) && MadeOf(plan, made) && (plan.source.path <= q || q <= plan.destination.path)
    ensures !Listed(made, q)
  {
    forall m | m in made ensures m.path != q {
      var i :| 0 <= i < |made| && made[i] == m;
      assert plan.entries[i] in plan.entries && plan.entries[i].relative != [];
      OverlapMeans(plan.source.path, plan.destination.path);
      assert Beneath(m.path, plan.destination.path);
      assert plan.source.path <= q ==> Beneath(q, plan.source.path);
    }
  }

  lemma TargetsDistinct(plan: Plan, i: nat, j: nat)
    requires SoundPlan(plan) && i < |plan.entries| && j < |plan.entries| && i != j
    ensures TargetOf(plan, plan.entries[i]) != TargetOf(plan, plan.entries[j])
    ensures SourceOf(plan, plan.entries[i]) != SourceOf(plan, plan.entries[j])
  {
    SnapshotDistinct(plan.entries);
    var a, b := plan.source.path, plan.destination.path;
    assert TargetOf(plan, plan.entries[i])[|b|..] == plan.entries[i].relative && TargetOf(plan, plan.entries[j])[|b|..] == plan.entries[j].relative;
    assert SourceOf(plan, plan.entries[i])[|a|..] == plan.entries[i].relative && SourceOf(plan, plan.entries[j])[|a|..] == plan.entries[j].relative;
  }

  lemma NextNotListed(plan: Plan, made: seq<Creation>, k: nat)
    requires SoundPlan(plan) && MadeOf(plan, made) && |made| == k < |plan.entries|
    ensures !Listed(made, TargetOf(plan, plan.entries[k]))
  {
    forall m | m in made ensures m.path != TargetOf(plan, plan.entries[k]) {
      var i :| 0 <= i < |made| && made[i] == m;
      TargetsDistinct(plan, i, k);
    }
  }

  /** On a disk at rest, partway: the next entry can be created. */
  ghost predicate Creatable(d: Disk, plan: Plan, e: Entry) {
    CreatableAt(d, SourceOf(plan, e), TargetOf(plan, e), e.directory)
  }

  ghost predicate CreatableAt(d: Disk, source: Path, target: Path, directory: bool) {
    && |source| > 1 && |target| > 1 && source != target && View(d, target[..|target| - 1]) == ADir && Resolve(d, target).None?
    && (if directory then View(d, source) == ADir else View(d, source).AFile?)
  }

  lemma NextCreatable(d0: Disk, d: Disk, plan: Plan, made: seq<Creation>, k: nat)
    requires SoundPlan(plan) && MoveReady(d0, plan) && Undoable(d0, d, made) && MadeOf(plan, made) && |made| == k < |plan.entries|
    requires TargetsCopied(d0, d, plan, k)
    ensures Creatable(d, plan, plan.entries[k]) && SameAt(d0, d, SourceOf(plan, plan.entries[k]))
  {
    PartlyMeans(d0, d, made, |made|);
    var e := plan.entries[k];
    assert e in plan.entries;
    NextNotListed(plan, made, k);
    NotCreated(plan, made, SourceOf(plan, e));
    NotCreated(plan, made, plan.destination.path);
    assert SameAt(d0, d, SourceOf(plan, e)) && SameAt(d0, d, TargetOf(plan, e)) && SameAt(d0, d, plan.destination.path);
    assert Matches(d0, plan.source.path, e) && MetaAt(d0, TargetOf(plan, e)).None?;
    ResolveInside(d0, TargetOf(plan, e));
    SnapshotBeginning(plan.entries, k);
    forall i | 0 <= i < k ensures Matches(d0, plan.source.path, plan.entries[i]) {
      assert plan.entries[i] in plan.entries;
    }
    ParentCreated(d0, d, plan, k);
    NotAlike(plan, e);
  }

  /** Source and target of an entry differ, and neither is a top-level name. */
  lemma NotAlike(plan: Plan, e: Entry)
    requires SoundPlan(plan) && e.relative != []
    ensures SourceOf(plan, e) != TargetOf(plan, e) && |SourceOf(plan, e)| > 1 && |TargetOf(plan, e)| > 1
  {
    OverlapMeans(plan.source.path, plan.destination.path);
    assert Beneath(SourceOf(plan, e), plan.source.path) && Beneath(TargetOf(plan, e), plan.destination.path);
  }

  lemma DirectoryCopied(d0: Disk, d: Disk, plan: Plan, k: nat, i: nat)
    requires i < k <= |plan.entries| && TargetsCopied(d0, d, plan, k) && Matches(d0, plan.source.path, plan.entries[i]) && plan.entries[i].directory
    ensures View(d, TargetOf(plan, plan.entries[i])) == ADir
  {
  }

  lemma ParentCreated(d0: Disk, d: Disk, plan: Plan, k: nat)
    requires k < |plan.entries| && TargetsCopied(d0, d, plan, k) && View(d, plan.destination.path) == ADir
    requires plan.entries[k].relative != [] && ListsDirectory(plan.entries[..k], Scans.Parent(plan.entries[k].relative))
    requires forall i | 0 <= i < k :: Matches(d0, plan.source.path, plan.entries[i])
    ensures var target := TargetOf(plan, plan.entries[k]); target != [] && View(d, target[..|target| - 1]) == ADir
  {
    var e := plan.entries[k];
    var target, up := TargetOf(plan, e), Scans.Parent(e.relative);
    assert target[..|target| - 1] == plan.destination.path + up;
    if up == [] {
      assert plan.destination.path + up == plan.destination.path;
    } else {
      var i :| 0 <= i < k && plan.entries[i].directory && plan.entries[i].relative == up;
      DirectoryCopied(d0, d, plan, k, i);
    }
  }

  /** `create_dir`, noted in `created`. */
  method MakeDirectoryAt(world: World, path: Path, made: seq<Creation>, ghost rest: bool, ghost d0: Disk) returns (r: Result<()>, made': seq<Creation>)
    requires world.Valid() && path != []
    requires rest ==> world.Quiet() && Undoable(d0, world.disk, made) && |path| > 1
    modifies world
    ensures world.Advanced() && AddsOnly(world.log, world.deeds, |old(world.deeds)|)
    ensures OneMore(made, made', path, true) && (r.Ok? ==> made' != made)
    ensures rest ==> Undoable(d0, world.disk, made') && OnlyAt(old(world.disk), world.disk, path)
    ensures rest && r.Ok? ==> View(world.disk, path) == ADir
    ensures Stamped(made) ==> Stamped(made')
    ensures rest && old(world.Faultless()) && View(old(world.disk), path[..|path| - 1]) == ADir && Resolve(old(world.disk), path).None? ==> r.Ok?
  {
    made' := made;
    r := world.MakeDirAt(path);
    AddedDirectory(world, |old(world.deeds)|);
    if r.Ok? {
      if rest {
        CreatedDirectory(d0, old(world.disk), made, path);
      }
      made' := made + [Creation(path, true, None)];
    }
  }

  /** Creates a directory, or a copy of a file. */
  method CreateEntry(world: World, source: Path, target: Path, directory: bool, bytes: nat, done: nat, made: seq<Creation>, ghost rest: bool, ghost d0: Disk)
    returns (r: Result<()>, made': seq<Creation>, done': nat)
    requires world.Valid() && target != []
    requires rest ==> world.Quiet() && Undoable(d0, world.disk, made) && CreatableAt(world.disk, source, target, directory)
    modifies world
    ensures world.Advanced() && AddsOnly(world.log, world.deeds, |old(world.deeds)|)
    ensures OneMore(made, made', target, directory) && (r.Ok? ==> made' != made)
    ensures rest ==> Undoable(d0, world.disk, made') && OnlyAt(old(world.disk), world.disk, target)
    ensures rest && r.Ok? ==> View(world.disk, target) == View(old(world.disk), source)
    ensures rest && old(world.Faultless()) ==> r.Ok? && (Stamped(made) ==> Stamped(made'))
  {
    made', done' := made, done;
    if directory {
      r, made' := MakeDirectoryAt(world, target, made, rest, d0);
    } else {
      r, made', done' := MakeFile(world, source, target, bytes, done, made, rest, d0);
      assert rest ==> SameAt(old(world.disk), world.disk, source);
    }
  }

  /** One entry: its directory is checked, and it is created. */
  method MakeEntry(world: World, plan: Plan, e: Entry, done: nat, made: seq<Creation>, ghost rest: bool, ghost d0: Disk)
    returns (r: Result<()>, made': seq<Creation>, done': nat)
    requires world.Valid() && e.relative != []
    requires rest ==> world.Quiet() && Undoable(d0, world.disk, made) && Creatable(world.disk, plan, e)
    modifies world
    ensures world.Advanced() && AddsOnly(world.log, world.deeds, |old(world.deeds)|)
    ensures OneMore(made, made', TargetOf(plan, e), e.directory) && (r.Ok? ==> made' != made)
    ensures rest ==> Undoable(d0, world.disk, made') && OnlyAt(old(world.disk), world.disk, TargetOf(plan, e))
    ensures rest && r.Ok? ==> View(world.disk, TargetOf(plan, e)) == View(old(world.disk), SourceOf(plan, e))
    ensures rest && old(world.Faultless()) ==> r.Ok? && (Stamped(made) ==> Stamped(made'))
  {
    var source, target := SourceOf(plan, e), TargetOf(plan, e);
    made', done' := made, done;
    NothingYet(world, d0, made, target, rest);
    r := CheckedDirectory(world, target[..|target| - 1]);
    AddedNothing(world, |world.deeds|);
    if r.Ok? {
      r, made', done' := CreateEntry(world, source, target, e.directory, plan.bytes, done, made, rest, d0);
    }
  }

  lemma AddedDirectory(world: World, u: nat)
    requires world.Valid() && |world.deeds| <= u + 1
    requires |world.deeds| == u + 1 ==> world.deeds[u] < |world.log| && world.log[world.deeds[u]].step.MadeDirectory?
    ensures AddsOnly(world.log, world.deeds, u)
  {
    InLogHolds(world);
  }

  /** One more entry is copied, at rest. */
  lemma CopiedMore(d0: Disk, d: Disk, e: Disk, plan: Plan, k: nat)
    requires SoundPlan(plan) && k < |plan.entries| && TargetsCopied(d0, d, plan, k)
    requires SameAt(d0, d, SourceOf(plan, plan.entries[k])) && OnlyAt(d, e, TargetOf(plan, plan.entries[k]))
    requires View(e, TargetOf(plan, plan.entries[k])) == View(d, SourceOf(plan, plan.entries[k]))
    ensures TargetsCopied(d0, e, plan, k + 1)
  {
    forall i | 0 <= i < k + 1 ensures View(e, TargetOf(plan, plan.entries[i])) == View(d0, SourceOf(plan, plan.entries[i])) {
      if i < k {
        TargetsDistinct(plan, i, k);
        assert SameAt(d, e, TargetOf(plan, plan.entries[i]));
      }
    }
  }

  lemma MadeOneMore(plan: Plan, made: seq<Creation>, made': seq<Creation>)
    requires MadeOf(plan, made) && |made| < |plan.entries|
    requires OneMore(made, made', TargetOf(plan, plan.entries[|made|]), plan.entries[|made|].directory)
    ensures MadeOf(plan, made') && made <= made'
  {
  }

  /** The next entry, with what it means for a disk at rest. */
  method MakeNext(world: World, plan: Plan, done: nat, made: seq<Creation>, ghost rest: bool, ghost d0: Disk)
    returns (r: Result<()>, made': seq<Creation>, done': nat)
    requires world.Valid() && Prepared(plan) && MadeOf(plan, made) && |made| < |plan.entries|
    requires rest ==> world.Quiet() && MoveReady(d0, plan) && Undoable(d0, world.disk, made) && TargetsCopied(d0, world.disk, plan, |made|)
    modifies world
    ensures world.Advanced() && AddsOnly(world.log, world.deeds, |old(world.deeds)|)
    ensures MadeOf(plan, made') && (r.Ok? ==> |made'| == |made| + 1)
    ensures rest ==> Undoable(d0, world.disk, made')
    ensures rest && r.Ok? ==> TargetsCopied(d0, world.disk, plan, |made'|)
    ensures rest && old(world.Faultless()) ==> r.Ok? && (Stamped(made) ==> Stamped(made'))
  {
    PreparedMeans(plan);
    ghost var d, k := world.disk, |made|;
    assert plan.entries[|made|] in plan.entries;
    if rest {
      NextCreatable(d0, d, plan, made, k);
    }
    r, made', done' := MakeEntry(world, plan, plan.entries[|made|], done, made, rest, d0);
    MadeOneMore(plan, made, made');
    if rest && r.Ok? {
      CopiedMore(d0, d, world.disk, plan, k);
    }
  }

  /** The loop that creates everything; `made` is what it had created when it ended. */
  method MakeAll(world: World, plan: Plan, ghost rest: bool) returns (r: Result<()>, made: seq<Creation>)
    requires world.Valid() && Prepared(plan)
    requires rest ==> world.Quiet() && MoveReady(world.disk, plan)
    modifies world
    ensures world.Advanced() && AddsOnly(world.log, world.deeds, |old(world.deeds)|)
    ensures MadeOf(plan, made) && (r.Ok? ==> |made| == |plan.entries|)
    ensures rest ==> Undoable(old(world.disk), world.disk, made)
    ensures rest && r.Ok? ==> TargetsCopied(old(world.disk), world.disk, plan, |plan.entries|)
    ensures rest && old(world.Faultless()) ==> r.Ok? && Stamped(made)
  {
    ghost var d0, u := world.disk, |world.deeds|;
    made := [];
    var done := 0;
    if rest {
      NothingMade(d0);
    }
    var _ := world.Report(0, plan.bytes);
    AddedNothing(world, u);
    while |made| < |plan.entries|
      invariant world.Advanced() && AddsOnly(world.log, world.deeds, u) && MadeOf(plan, made)
      invariant rest ==> Undoable(d0, world.disk, made) && TargetsCopied(d0, world.disk, plan, |made|)
      invariant rest && old(world.Faultless()) ==> Stamped(made)
    {
      ghost var log, deeds := world.log, world.deeds;
      r, made, done := MakeNext(world, plan, done, made, rest, d0);
      AddsContinue(log, deeds, u, world.log, world.deeds);
      if r.Err? {
        return;
      }
    }
    return Ok(()), made;
  }

  // ---------- the verification, and the commit ----------

  /** `revalidate`. */
  method Revalidate(world: World, plan: Plan) returns (r: Result<()>)
    requires world.Valid() && Prepared(plan)
    modifies world
    ensures world.Looked()
    ensures old(world.Quiet()) && r.Ok? ==> Listing(world.disk, plan.source.path, plan.entries) && View(world.disk, plan.destination.path) == ADir
    ensures old(world.Quiet() && world.Faultless()) ==>
              Listing(old(world.disk), plan.source.path, plan.entries) && View(old(world.disk), plan.destination.path) == ADir ==> r.Ok?
  {
    PreparedMeans(plan);
    ghost var d := world.disk;
    if Listing(d, plan.source.path, plan.entries) {
      ListingScannable(d, plan.source.path, plan.entries);
    }
    var _ :- CheckedDirectory(world, plan.source.path);
    var _ :- CheckedDirectory(world, plan.destination.path);
    var current :- Scan(world, plan.source.path);
    if current != plan.entries {
      if old(world.Quiet()) && Listing(d, plan.source.path, plan.entries) {
        ListingUnique(d, plan.source.path, current, plan.entries);
      }
      return Err(Other);
    }
    return Ok(());
  }

  /** Every file is compared with its copy once more. */
  method CompareAll(world: World, plan: Plan) returns (r: Result<()>)
    requires world.Valid() && Prepared(plan)
    modifies world
    ensures world.Looked()
    ensures old(world.Quiet()) && r.Ok? ==> FilesEqual(world.disk, plan, |plan.entries|)
    ensures old(world.Quiet() && world.Faultless()) && FilesEqual(old(world.disk), plan, |plan.entries|) ==> r.Ok?
  {
    for k := 0 to |plan.entries|
      invariant world.Looked()
      invariant old(world.Quiet()) ==> FilesEqual(world.disk, plan, k)
    {
      assert plan.entries[k] in plan.entries;
      var _ :- CompareCopy(world, plan, plan.entries[k]);
    }
    return Ok(());
  }

  ghost predicate FileEqual(d: Disk, plan: Plan, e: Entry) {
    e.directory || (View(d, SourceOf(plan, e)).AFile? && View(d, TargetOf(plan, e)) == View(d, SourceOf(plan, e)))
  }

  /** The loop body: a file is compared with its copy. */
  method CompareCopy(world: World, plan: Plan, e: Entry) returns (r: Result<()>)
    requires world.Valid() && Prepared(plan) && e in plan.entries
    modifies world
    ensures world.Looked()
    ensures old(world.Quiet()) && r.Ok? ==> FileEqual(world.disk, plan, e)
    ensures old(world.Quiet() && world.Faultless()) && FileEqual(old(world.disk), plan, e) ==> r.Ok?
  {
    PreparedMeans(plan);
    NotAlike(plan, e);
    if e.directory {
      return Ok(());
    }
    var same :- SameContents(world, SourceOf(plan, e), TargetOf(plan, e));
    return if same then Ok(()) else Err(Other);
  }

  ghost predicate FilesEqual(d: Disk, plan: Plan, n: nat)
    requires n <= |plan.entries|
  {
    forall i | 0 <= i < n :: FileEqual(d, plan, plan.entries[i])
  }

  /** The directories created, and the destination, are flushed. */
  method SyncAll(world: World, plan: Plan, made: seq<Creation>) returns (r: Result<()>)
    requires world.Valid()
    modifies world
    ensures world.Looked()
    ensures old(world.Quiet() && world.Faultless()) && View(old(world.disk), plan.destination.path) == ADir ==>
              (forall m | m in made && m.directory :: View(old(world.disk), m.path) == ADir) ==> r.Ok?
  {
    for k := 0 to |made|
      invariant world.Looked()
    {
      assert made[k] in made;
      if made[k].directory {
        var _ :- world.OpenPath(made[k].path);
        var _ :- world.Sync();
      }
    }
    var _ :- world.OpenPath(plan.destination.path);
    r := world.Sync();
  }

  method VerifyMade(world: World, plan: Plan, made: seq<Creation>) returns (r: Result<()>)
    requires world.Valid() && Prepared(plan)
    modifies world
    ensures world.Looked()
    ensures old(world.Quiet()) && r.Ok? ==> Listing(world.disk, plan.source.path, plan.entries) && FilesEqual(world.disk, plan, |plan.entries|)
    ensures old(world.Quiet() && world.Faultless()) && Verifiable(old(world.disk), plan, made) ==> r.Ok?
  {
    var _ :- Revalidate(world, plan);
    var _ :- CompareAll(world, plan);
    r := SyncAll(world, plan, made);
  }

  ghost predicate Verifiable(d: Disk, plan: Plan, made: seq<Creation>) {
    && Listing(d, plan.source.path, plan.entries) && View(d, plan.destination.path) == ADir
    && FilesEqual(d, plan, |plan.entries|) && forall m | m in made && m.directory :: View(d, m.path) == ADir
  }

  /** What was created beneath the destination leaves the source listing alone. */
  lemma MadeVerifiable(d0: Disk, d: Disk, plan: Plan, made: seq<Creation>)
    requires SoundPlan(plan) && MoveReady(d0, plan) && Undoable(d0, d, made) && MadeOf(plan, made)
    requires TargetsCopied(d0, d, plan, |plan.entries|)
    ensures Verifiable(d, plan, made)
  {
    PartlyMeans(d0, d, made, |made|);
    forall q: Path ensures plan.destination.path < q || SameAt(d0, d, q) {
      if Listed(made, q) {
        var m :| m in made && m.path == q;
        var i :| 0 <= i < |made| && made[i] == m;
        assert plan.entries[i] in plan.entries;
      }
    }
    OverlapMeans(plan.source.path, plan.destination.path);
    ListingBeside(d0, d, plan.destination.path, plan.source.path, plan.entries);
    forall m | m in made && m.directory ensures View(d, m.path) == ADir {
      var i :| 0 <= i < |made| && made[i] == m;
      assert Stands(d0, d, made[i]);
    }
    assert SameAt(d0, d, plan.destination.path);
    CopiedEqual(d0, d, plan, made);
  }

  lemma CopiedEqual(d0: Disk, d: Disk, plan: Plan, made: seq<Creation>)
    requires SoundPlan(plan) && Undoable(d0, d, made) && MadeOf(plan, made) && TargetsCopied(d0, d, plan, |plan.entries|)
    requires forall e | e in plan.entries :: Matches(d0, plan.source.path, e)
    ensures FilesEqual(d, plan, |plan.entries|)
  {
    PartlyMeans(d0, d, made, |made|);
    forall i | 0 <= i < |plan.entries| ensures FileEqual(d, plan, plan.entries[i]) {
      var e := plan.entries[i];
      assert e in plan.entries && Matches(d0, plan.source.path, e);
      NotCreated(plan, made, SourceOf(plan, e));
      assert SameAt(d0, d, SourceOf(plan, e));
    }
  }

  /** A commit happened within the instants from `a` on, as the last step that was marked. */
  ghost predicate CommittedAt(log: seq<Instant>, a: nat, c: nat) {
    a <= c < |log| && log[c].step == Noted(Committed)
  }

  /** Everything up to the commit: the closure in `execute_with_cleanup`. */
  method MakeAndCommit(world: World, plan: Plan, ghost rest: bool) returns (r: Result<()>, made: seq<Creation>, ghost c: nat)
    requires world.Valid() && Prepared(plan)
    requires rest ==> world.Quiet() && MoveReady(world.disk, plan)
    modifies world
    ensures world.Continued() && old(world.deeds) <= world.deeds && AddsOnly(world.log, world.deeds, |old(world.deeds)|) && MadeOf(plan, made)
    ensures old(world.commits) <= world.commits <= old(world.commits) + 1
    ensures r.Ok? ==> world.commits == old(world.commits) + 1 && CommittedAt(world.log, |old(world.log)|, c)
                      && forall k | 0 <= k < |world.deeds| :: world.deeds[k] < c
    ensures rest ==> Undoable(old(world.disk), world.disk, made)
    ensures rest && r.Ok? ==> TargetsCopied(old(world.disk), world.disk, plan, |plan.entries|) && |made| == |plan.entries|
                              && Listing(world.disk, plan.source.path, plan.entries)
    ensures rest && old(world.Faultless()) ==> r.Ok? && Stamped(made)
  {
    ghost var d0, u := world.disk, |world.deeds|;
    c := 0;
    r, made := MakeAll(world, plan, rest);
    if r.Err? {
      return;
    }
    PreparedMeans(plan);
    if rest {
      MadeVerifiable(d0, world.disk, plan, made);
    }
    ghost var log := world.log;
    r := VerifyMade(world, plan, made);
    StillAdds(world, log, u);
    if r.Err? {
      return;
    }
    c, log := |world.log|, world.log;
    InLogHolds(world);
    r := world.Commit();
    StillAdds(world, log, u);
  }
}
