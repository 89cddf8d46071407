/** `MigrationPlan::prepare`: capturing the source and checking that the targets fit. */
module Preparing {
  import opened Outcomes
  import opened Disks
  import opened Worlds
  import opened Sorting
  import opened Paths
  import opened PathOrder
  import opened Scans
  import opened Retained
  import opened Plans
  import opened Checks

  // ---------- capture ----------

  lemma {:induction false} FindDirectoryMore(held: seq<Held>, more: seq<Held>, p: Path)
    requires FindDirectory(held, p).Some?
    ensures FindDirectory(held + more, p) == FindDirectory(held, p)
  {
    assert (held + more)[1..] == held[1..] + more && (held + more)[0] == held[0];
    if !(held[0].entry.directory && held[0].entry.relative == p) {
      FindDirectoryMore(held[1..], more, p);
    }
  }

  /** Records made later do not hide those made before. */
  lemma HeldSeenMore(log: seq<Instant>, a: nat, root: Directory, held: seq<Held>, more: seq<Held>, h: Held)
    requires root.Shaped() && HeldSeen(log, a, root, held, h)
    ensures HeldSeen(log, a, root, held + more, h)
  {
    var p := h.entry.relative;
    forall q: Path | HandleOf(root, held, q).Some?
      ensures HandleOf(root, held + more, q) == HandleOf(root, held, q)
    {
      if q != [] {
        FindDirectoryMore(held, more, q);
      }
    }
    forall k | 0 < k < |p| ensures StepSeen(log, a, root, held + more, p[..k]) {
      assert StepSeen(log, a, root, held, p[..k]);
    }
  }

  ghost predicate Captured(log: seq<Instant>, a: nat, root: Directory, held: seq<Held>, h: Held)
    requires root.Shaped()
  {
    && HeldSeen(log, a, root, held, h) && (h.stamp.Some? <==> !h.entry.directory)
    && (!h.entry.directory ==> StampSeen(log, a, h.ino, h.stamp.value))
  }

  lemma CapturedMore(log: seq<Instant>, log': seq<Instant>, a: nat, b: nat, root: Directory, held: seq<Held>, more: seq<Held>, h: Held)
    requires root.Shaped() && log <= log' && a <= b && Captured(log, b, root, held, h)
    ensures Captured(log', a, root, held + more, h)
  {
    HeldStays(log, log', a, b, root, held, h);
    HeldSeenMore(log', a, root, held, more, h);
  }

  /** The body of the loop in `capture`. */
  method CaptureEntry(world: World, root: Directory, held: seq<Held>, entry: Entry) returns (r: Result<Held>)
    requires world.Valid() && root.Shaped() && entry.relative != []
    modifies world
    ensures world.Looked()
    ensures r.Ok? ==> r.value.entry == entry && Captured(world.log, |old(world.log)|, root, held, r.value)
    ensures old(world.Quiet()) && r.Ok? && !entry.directory ==> r.value.stamp.value.size == entry.size
    ensures old(world.Quiet() && world.Faultless()) ==>
              WayHolds(old(world.disk), root, held, entry.relative) && CapturableAt(old(world.disk), root.path, entry) ==> r.Ok?
  {
    var parent :- OpenParent(world, root, held, entry.relative);
    var name := entry.relative[|entry.relative| - 1];
    LeafOpensAt(world.disk, root, held, entry);
    var file :- world.OpenChild(parent.Handle(), name, entry.directory);
    if entry.directory {
      return Ok(Held(entry, file, None));
    }
    var now :- world.Stat(file);
    if now.size != entry.size || now.mtime != entry.modified {
      return Err(Other);
    }
    var stamp :- world.Stat(file);
    assert StampOf(world.log[|world.log| - 1].after.nodes[file]) == stamp;
    return Ok(Held(entry, file, Some(stamp)));
  }

  /** The entry is at its place, and a file there has no second link. */
  ghost predicate CapturableAt(d: Disk, root: Path, e: Entry) {
    && Matches(d, root, e)
    && (!e.directory ==> d.nodes[Resolve(d, root + e.relative).value].Regular())
  }

  lemma LeafOpensAt(d: Disk, root: Directory, held: seq<Held>, e: Entry)
    requires root.Shaped() && e.relative != []
    ensures WayHolds(d, root, held, e.relative) && CapturableAt(d, root.path, e) ==>
              var dir := HandleOf(root, held, Scans.Parent(e.relative));
              var x := Resolve(d, root.path + e.relative);
              x.Some? && dir.Some? && ChildOf(d, dir.value, e.relative[|e.relative| - 1], e.directory) == Ok(x.value)
  {
    if WayHolds(d, root, held, e.relative) && CapturableAt(d, root.path, e) {
      LeafOpens(d, root, held, Held(e, Resolve(d, root.path + e.relative).value, None));
    }
  }

  /** Every file of the listing can be captured. */
  ghost predicate Capturable(d: Disk, root: Path, entries: seq<Entry>) {
    forall e | e in entries :: CapturableAt(d, root, e)
  }

  lemma AncestorsRecorded(log: seq<Instant>, a: nat, root: Directory, entries: seq<Entry>, held: seq<Held>, d: Disk)
    requires WellFormed(d) && ChainHolds(d, root) && Snapshot(entries) && |held| < |entries| && Records(held, entries[..|held|])
    requires forall h | h in held :: Captured(log, a, root, held, h)
    requires forall i | a <= i < |log| :: log[i].after == d
    ensures WayHolds(d, root, held, entries[|held|].relative)
  {
    var k := |held|;
    forall h | h in held ensures EntryHolds(d, root.path, h) {
      HeldAtRest(log, a, root, held, h, d);
    }
    SnapshotBeginning(entries, k);
    assert entries[k] in entries;
    RecordsHold(d, root, held, entries[..k], entries[k].relative);
  }

  lemma CapturedOneMore(log: seq<Instant>, log': seq<Instant>, a: nat, root: Directory, held: seq<Held>, h: Held)
    requires root.Shaped() && log <= log' && a <= |log|
    requires forall g | g in held :: Captured(log, a, root, held, g)
    requires Captured(log', |log|, root, held, h)
    ensures forall g | g in held + [h] :: Captured(log', a, root, held + [h], g)
  {
    forall g | g in held + [h] ensures Captured(log', a, root, held + [h], g) {
      if g in held {
        CapturedMore(log, log', a, a, root, held, [h], g);
      } else {
        CapturedMore(log', log', a, |log|, root, held, [h], g);
      }
    }
  }

  /** The loop of `capture`: on a stable tree the lookup of an ancestor never misses. */
  method CaptureAll(world: World, root: Directory, entries: seq<Entry>) returns (r: Result<seq<Held>>)
    requires world.Valid() && root.Shaped() && Snapshot(entries)
    modifies world
    ensures world.Looked()
    ensures r.Ok? ==> Records(r.value, entries)
    ensures r.Ok? ==> forall h | h in r.value :: Captured(world.log, |old(world.log)|, root, r.value, h)
    ensures old(world.Quiet()) && r.Ok? ==> SizesAgree(r.value)
    ensures old(world.Quiet() && world.Faultless()) ==>
              ChainHolds(old(world.disk), root) && Capturable(old(world.disk), root.path, entries) ==> r.Ok?
  {
    world.Sound();
    ghost var a := |world.log|;
    var held: seq<Held> := [];
    for k := 0 to |entries|
      invariant world.Looked() && a <= |world.log| && Records(held, entries[..k])
      invariant forall h | h in held :: Captured(world.log, a, root, held, h)
      invariant old(world.Quiet()) ==> SizesAgree(held)
    {
      ghost var before := world.log;
      assert entries[k] in entries;
      if old(world.Quiet()) && ChainHolds(world.disk, root) {
        world.AtRest();
        AncestorsRecorded(world.log, a, root, entries, held, world.disk);
      }
      var h :- CaptureEntry(world, root, held, entries[k]);
      CapturedOneMore(before, world.log, a, root, held, h);
      held := held + [h];
    }
    assert entries[..|entries|] == entries;
    return Ok(held);
  }

  /** The sizes in the stamps are those the scan found. */
  ghost predicate SizesAgree(held: seq<Held>) {
    forall h | h in held && h.stamp.Some? :: h.stamp.value.size == h.entry.size
  }

  // ---------- targets ----------

  /** Nothing of another kind stands where the entry, or a directory on the way to it, is to go. */
  ghost predicate Fits(d: Disk, destination: Path, e: Entry) {
    && (forall k | 0 < k < |e.relative| :: View(d, destination + e.relative[..k]) in {Absent, ADir})
    && TargetFits(d, destination + e.relative, e.directory)
  }

  predicate TargetFits(d: Disk, t: Path, directory: bool) {
    var x := Resolve(d, t);
    x.None? || (x.value in d.nodes && if directory then d.nodes[x.value].Dir? else d.nodes[x.value].Regular())
  }

  ghost predicate Compatible(d: Disk, destination: Path, entries: seq<Entry>) {
    forall e | e in entries :: Fits(d, destination, e)
  }

  lemma NothingBeneathNothing(d: Disk, t: Path, q: Path)
    requires WellFormed(d) && Resolve(d, t).None? && t <= q
    ensures Resolve(d, q).None?
  {
    if Resolve(d, q).Some? && t != q {
      PrefixIsDirectory(d, q, |t|);
    }
  }

  /** Where a directory on the way is missing, the rest is missing too. */
  lemma MissingFits(d: Disk, destination: Path, e: Entry, k: nat)
    requires WellFormed(d) && 0 < k <= |e.relative| && Resolve(d, destination + e.relative[..k]).None?
    requires forall j | 0 < j < k :: View(d, destination + e.relative[..j]) in {Absent, ADir}
    ensures Fits(d, destination, e)
  {
    forall j | k <= j <= |e.relative| ensures Resolve(d, destination + e.relative[..j]).None? {
      NothingBeneathNothing(d, destination + e.relative[..k], destination + e.relative[..j]);
    }
    assert e.relative[..|e.relative|] == e.relative;
  }

  /** The component below a directory that has been reached. */
  lemma NextResolves(d: Disk, destination: Path, e: Entry, k: nat, x: Ino)
    requires k < |e.relative| && Resolve(d, destination + e.relative[..k]) == Some(x)
    ensures Resolve(d, destination + e.relative[..k + 1]) == Edge(d, x, e.relative[k])
  {
    var q := destination + e.relative[..k];
    assert destination + e.relative[..k + 1] == q + [e.relative[k]];
    ResolveSnoc(d, q, e.relative[k]);
  }

  /** On the way: what opening the next directory gives, on a disk at rest. */
  lemma WayFits(d: Disk, destination: Path, e: Entry, k: nat, x: Ino)
    requires WellFormed(d) && k + 1 < |e.relative| && Resolve(d, destination + e.relative[..k]) == Some(x)
    requires forall j | 0 < j <= k :: View(d, destination + e.relative[..j]) == ADir
    ensures var child := ChildOf(d, x, e.relative[k], true);
            && (child == Err(NotFound) ==> Fits(d, destination, e))
            && (child == Err(Other) ==> !Fits(d, destination, e))
            && (child.Ok? ==> Resolve(d, destination + e.relative[..k + 1]) == Some(child.value)
                              && View(d, destination + e.relative[..k + 1]) == ADir)
  {
    NextResolves(d, destination, e, k, x);
    if Edge(d, x, e.relative[k]).None? {
      MissingFits(d, destination, e, k + 1);
    } else {
      ResolveInside(d, destination + e.relative[..k + 1]);
    }
  }

  /** Once the way is known to exist, only the target matters. */
  lemma WayExists(d: Disk, destination: Path, e: Entry)
    requires forall j | 0 < j < |e.relative| :: View(d, destination + e.relative[..j]) == ADir
    ensures Fits(d, destination, e) <==> TargetFits(d, destination + e.relative, e.directory)
  {
  }

  /** What opening the target gives. */
  lemma TargetOpens(d: Disk, t: Path, x: Ino, name: Name, directory: bool)
    requires WellFormed(d) && Resolve(d, t) == Edge(d, x, name)
    ensures ChildOf(d, x, name, directory) != Err(Other) <==> TargetFits(d, t, directory)
  {
    ResolveInside(d, t);
  }

  /** Mentioning this unfolds `Walked`, which is kept folded elsewhere to keep proofs small. */
  ghost predicate UnfoldWay(p: Path, once: nat) {
    true
  }

  ghost predicate Walked(d: Disk, destination: Path, p: Path, k: nat, dir: Directory) {
    forall once: nat {:trigger UnfoldWay(p, once)} :: UnfoldWay(p, once) ==> WalkedTo(d, destination, p, k, dir)
  }

  /** The directory at `p` beneath the destination is `dir`, and so are those on the way. */
  ghost predicate WalkedTo(d: Disk, destination: Path, p: Path, k: nat, dir: Directory) {
    && k <= |p| && dir.Shaped() && Resolve(d, destination + p[..k]) == Some(dir.Handle())
    && forall j | 0 < j <= k :: View(d, destination + p[..j]) == ADir
  }

  /** One step further on the way. */
  method WalkOn(world: World, destination: Path, e: Entry, k: nat, parent: Directory, ghost rest: bool) returns (r: Result<Directory>)
    requires world.Valid() && k + 1 < |e.relative| && parent.Shaped()
    requires rest ==> world.Quiet() && Walked(world.disk, destination, e.relative, k, parent)
    modifies world
    ensures world.Looked() && (r.Ok? ==> r.value.Shaped())
    ensures rest && r.Ok? ==> Walked(world.disk, destination, e.relative, k + 1, r.value)
    ensures rest && r == Err(NotFound) ==> Fits(world.disk, destination, e)
    ensures rest && old(world.Faultless()) && Fits(world.disk, destination, e) ==> r.Ok? || r == Err(NotFound)
  {
    world.Sound();
    if rest {
      assert UnfoldWay(e.relative, 0);
      WayFits(world.disk, destination, e, k, parent.Handle());
    }
    r := ChildDirectory(world, parent, e.relative[k]);
  }

  lemma WalkStarts(d: Disk, destination: Directory, p: Path)
    requires destination.Shaped()
    ensures ChainHolds(d, destination) ==> Walked(d, destination.path, p, 0, destination)
  {
    assert destination.path[..|destination.path|] == destination.path && destination.path + [] == destination.path;
  }

  /** The way to the target, as far as it exists. */
  method CheckWay(world: World, destination: Directory, e: Entry, ghost rest: bool) returns (r: Result<Option<Directory>>)
    requires world.Valid() && destination.Shaped() && e.relative != []
    requires rest ==> world.Quiet() && Walked(world.disk, destination.path, e.relative, 0, destination)
    modifies world
    ensures world.Looked() && (r.Ok? && r.value.Some? ==> r.value.value.Shaped())
    ensures rest && r == Ok(None) ==> Fits(world.disk, destination.path, e)
    ensures rest && r.Ok? && r.value.Some? ==> Walked(world.disk, destination.path, e.relative, |e.relative| - 1, r.value.value)
    ensures rest && old(world.Faultless()) && Fits(old(world.disk), destination.path, e) ==> r.Ok?
  {
    var parent := destination;
    for k := 0 to |e.relative| - 1
      invariant world.Looked() && parent.Shaped()
      invariant rest ==> Walked(world.disk, destination.path, e.relative, k, parent)
    {
      var child := WalkOn(world, destination.path, e, k, parent, rest);
      if child.Err? {
        return if child.fault.NotFound? then Ok(None) else Err(child.fault);
      }
      parent := child.value;
    }
    return Ok(Some(parent));
  }

  /** At the end of the way, what opening the target gives. */
  lemma LastFits(d: Disk, destination: Path, e: Entry, dir: Directory)
    requires WellFormed(d) && e.relative != [] && dir.Shaped() && Walked(d, destination, e.relative, |e.relative| - 1, dir)
    ensures ChildOf(d, dir.Handle(), e.relative[|e.relative| - 1], e.directory) != Err(Other) <==> Fits(d, destination, e)
  {
    assert UnfoldWay(e.relative, 0);
    WayExists(d, destination, e);
    NextResolves(d, destination, e, |e.relative| - 1, dir.Handle());
    assert e.relative[..|e.relative|] == e.relative;
    TargetOpens(d, destination + e.relative, dir.Handle(), e.relative[|e.relative| - 1], e.directory);
  }

  /** The body of the loop in `check_targets`. */
  method CheckTarget(world: World, destination: Directory, e: Entry) returns (r: Result<()>)
    requires world.Valid() && destination.Shaped() && e.relative != []
    modifies world
    ensures world.Looked()
    ensures old(world.Quiet()) && ChainHolds(old(world.disk), destination) ==>
              (r.Ok? ==> Fits(world.disk, destination.path, e)) && (old(world.Faultless()) && Fits(old(world.disk), destination.path, e) ==> r.Ok?)
  {
    world.Sound();
    ghost var rest := world.Quiet() && ChainHolds(world.disk, destination);
    WalkStarts(world.disk, destination, e.relative);
    var parent :- CheckWay(world, destination, e, rest);
    if parent.None? {
      return Ok(());
    }
    if rest {
      LastFits(world.disk, destination.path, e, parent.value);
    }
    var file := world.OpenChild(parent.value.Handle(), e.relative[|e.relative| - 1], e.directory);
    return if file.Ok? || file.fault.NotFound? then Ok(()) else Err(file.fault);
  }

  /** `check_targets`: accepts exactly when the entries fit onto what stands at the destination. */
  method CheckTargets(world: World, destination: Directory, entries: seq<Entry>) returns (r: Result<()>)
    requires world.Valid() && destination.Shaped() && forall e | e in entries :: e.relative != []
    modifies world
    ensures world.Looked()
    ensures old(world.Quiet()) && r.Ok? ==> ChainHolds(world.disk, destination) && Compatible(world.disk, destination.path, entries)
    ensures old(world.Quiet() && world.Faultless()) ==>
              ChainHolds(old(world.disk), destination) && Compatible(old(world.disk), destination.path, entries) ==> r.Ok?
  {
    var _ :- Verify(world, destination);
    if old(world.Quiet()) {
      world.AtRest();
      ChainAtRest(world.log, |old(world.log)|, destination, world.disk);
    }
    for k := 0 to |entries|
      invariant world.Looked()
      invariant old(world.Quiet()) ==> forall j | 0 <= j < k :: Fits(world.disk, destination.path, entries[j])
    {
      assert entries[k] in entries;
      var _ :- CheckTarget(world, destination, entries[k]);
    }
    r := Verify(world, destination);
  }

  // ---------- prepare ----------

  function Bytes(entries: seq<Entry>): nat {
    if entries == [] then 0 else Bytes(entries[..|entries| - 1]) + FileSize(entries[|entries| - 1])
  }

  function FileSize(e: Entry): nat {
    if e.directory then 0 else e.size
  }

  function Files(entries: seq<Entry>): nat {
    if entries == [] then 0 else Files(entries[..|entries| - 1]) + (if entries[|entries| - 1].directory then 0 else 1)
  }

  /** Mentioning this unfolds `Prepared`, which is kept folded elsewhere to keep proofs small. */
  ghost predicate UnfoldPlan(plan: Plan, once: nat) {
    true
  }

  /** What `prepare` establishes, apart from what it saw. */
  ghost predicate Prepared(plan: Plan) {
    forall once: nat {:trigger UnfoldPlan(plan, once)} :: UnfoldPlan(plan, once) ==> SoundPlan(plan)
  }

  lemma PreparedMeans(plan: Plan)
    requires Prepared(plan)
    ensures SoundPlan(plan)
  {
    assert UnfoldPlan(plan, 0);
  }

  ghost predicate SoundPlan(plan: Plan) {
    && Shaped(plan) && plan.source.path != []
    && !Overlaps(plan.source.path, plan.destination.path)
    && plan.bytes == Bytes(plan.entries) && plan.files == Files(plan.entries)
  }

  /** `capture`, whose two last checks pin both roots once more. */
  method Capture(world: World, source: Directory, destination: Directory, entries: seq<Entry>) returns (r: Result<seq<Held>>)
    requires world.Valid() && source.Shaped() && destination.Shaped() && Snapshot(entries)
    modifies world
    ensures world.Looked()
    ensures r.Ok? ==> Records(r.value, entries)
    ensures r.Ok? ==> forall h | h in r.value :: Captured(world.log, |old(world.log)|, source, r.value, h)
    ensures r.Ok? ==> ChainSeen(world.log, |old(world.log)|, source) && ChainSeen(world.log, |old(world.log)|, destination)
    ensures old(world.Quiet()) && r.Ok? ==> SizesAgree(r.value)
    ensures old(world.Quiet() && world.Faultless()) ==>
              ChainHolds(old(world.disk), source) && ChainHolds(old(world.disk), destination) ==>
                Capturable(old(world.disk), source.path, entries) ==> r.Ok?
  {
    ghost var a := |world.log|;
    var held :- CaptureAll(world, source, entries);
    ghost var l1 := world.log;
    var _ :- Verify(world, source);
    ghost var l2 := world.log;
    var _ :- Verify(world, destination);
    CaptureSeen(l1, l2, world.log, a, source, destination, held);
    return Ok(held);
  }

  lemma CaptureSeen(l1: seq<Instant>, l2: seq<Instant>, l3: seq<Instant>, a: nat, source: Directory, destination: Directory, held: seq<Held>)
    requires l1 <= l2 <= l3 && a <= |l1| && source.Shaped()
    requires forall h | h in held :: Captured(l1, a, source, held, h)
    requires ChainSeen(l2, |l1|, source) && ChainSeen(l3, |l2|, destination)
    ensures forall h | h in held :: Captured(l3, a, source, held, h)
    ensures ChainSeen(l3, a, source) && ChainSeen(l3, a, destination)
  {
    ChainStays(l2, l3, a, |l1|, source);
    ChainStays(l3, l3, a, |l2|, destination);
    forall h | h in held ensures Captured(l3, a, source, held, h) {
      CapturedMore(l1, l3, a, a, source, held, [], h);
      assert held + [] == held;
    }
  }

  /** A source without links or special files, in which no file has a second link. */
  ghost predicate Migratable(d: Disk, root: Path) {
    && Scannable(d, root)
    && forall p: Path | View(d, root + p).AFile? :: d.nodes[Resolve(d, root + p).value].Regular()
  }

  lemma MigratableCapturable(d: Disk, root: Path, entries: seq<Entry>)
    requires Migratable(d, root) && Listing(d, root, entries)
    ensures Capturable(d, root, entries)
  {
    forall e | e in entries ensures CapturableAt(d, root, e) {
      assert Matches(d, root, e);
      assert View(d, root + e.relative) == View(d, root + e.relative);
    }
  }

  /** The two directories and the listing of the source. */
  method OpenRoots(world: World, source: Path, destination: Path) returns (r: Result<(Directory, Directory, seq<Entry>)>)
    requires world.Valid()
    modifies world
    ensures world.Looked()
    ensures r.Ok? ==> r.value.0.Shaped() && r.value.1.Shaped() && r.value.0.path == source && r.value.1.path == destination
    ensures r.Ok? ==> Snapshot(r.value.2) && ListingSeen(world.log, |old(world.log)|, source, r.value.2)
    ensures old(world.Quiet()) && r.Ok? ==> ChainHolds(world.disk, r.value.0) && ChainHolds(world.disk, r.value.1)
    ensures old(world.Quiet() && world.Faultless()) ==>
              Scannable(old(world.disk), source) && View(old(world.disk), destination) == ADir ==> r.Ok?
  {
    ghost var a := |world.log|;
    var from :- Open(world, source);
    ghost var l1 := world.log;
    var to :- Open(world, destination);
    if old(world.Quiet()) {
      world.AtRest();
      ChainAtRest(l1, a, from, world.disk);
      ChainAtRest(world.log, |l1|, to, world.disk);
    }
    ghost var l2 := world.log;
    var entries :- Scan(world, source);
    ListingStays(world.log, world.log, a, |l2|, source, entries);
    return Ok((from, to, entries));
  }

  /** The protected roots are given as `canonicalize` leaves them. */
  method CheckProtected(destination: Path, protected: seq<Path>) returns (r: Result<()>)
    ensures r.Ok? <==> forall root | root in protected :: !Overlaps(destination, root)
  {
    for k := 0 to |protected|
      invariant forall j | 0 <= j < k :: !Overlaps(destination, protected[j])
    {
      if Overlaps(destination, protected[k]) {
        return Err(Other);
      }
    }
    return Ok(());
  }

  /** What a request must satisfy, on a disk at rest, to be turned into a plan. */
  ghost predicate Acceptable(d: Disk, source: Path, destination: Path, protected: seq<Path>) {
    && Migratable(d, source) && View(d, destination) == ADir && destination != []
    && !Overlaps(source, destination) && (forall root | root in protected :: !Overlaps(destination, root))
    && OverlayFits(d, source, destination)
  }

  /** The tree at `source` can be laid over the one at `destination`. */
  ghost predicate OverlayFits(d: Disk, source: Path, destination: Path) {
    forall entries | Listing(d, source, entries) :: Compatible(d, destination, entries)
  }

  /** The checks made before anything is pinned. */
  method CheckRequest(world: World, source: Path, destination: Path, protected: seq<Path>) returns (r: Result<()>)
    requires world.Valid()
    modifies world
    ensures world.Looked()
    ensures r.Ok? ==> !Overlaps(source, destination) && forall root | root in protected :: !Overlaps(destination, root)
    ensures old(world.Quiet() && world.Faultless()) && Acceptable(old(world.disk), source, destination, protected) ==> r.Ok?
  {
    var _ :- CheckedDirectory(world, source);
    var _ :- CheckedDirectory(world, destination);
    if Overlaps(source, destination) {
      return Err(Other);
    }
    r := CheckProtected(destination, protected);
  }

  /**
    `prepare`. A plan was seen piece by piece during the call; on a disk at rest it is exactly what stands
    there, fits the destination, and is refused only when it cannot be carried out.
  */
  method Prepare(world: World, source: Path, destination: Path, protected: seq<Path>) returns (r: Result<Plan>)
    requires world.Valid()
    modifies world
    ensures world.Looked()
    ensures r.Ok? ==> Prepared(r.value) && r.value.source.path == source && r.value.destination.path == destination
    ensures r.Ok? ==> forall root | root in protected :: !Overlaps(destination, root)
    ensures r.Ok? ==> r.value.source.Shaped() && SourceSeen(world.log, |old(world.log)|, r.value)
    ensures old(world.Quiet()) && r.Ok? ==> Ready(world.disk, r.value) && Acceptable(old(world.disk), source, destination, protected)
    ensures old(world.Quiet() && world.Faultless()) && Acceptable(old(world.disk), source, destination, protected) ==> r.Ok?
  {
    ghost var a := |world.log|;
    var _ :- CheckRequest(world, source, destination, protected);
    ghost var l1 := world.log;
    r := PrepareAt(world, source, destination);
    if r.Ok? {
      SourceStays(world.log, world.log, a, |l1|, r.value);
      if old(world.Quiet()) {
        ReadyAcceptable(world.disk, r.value);
      }
    }
  }

  /** What could be planned was acceptable. */
  lemma ReadyAcceptable(d: Disk, plan: Plan)
    requires Prepared(plan) && Ready(d, plan)
    ensures Acceptable(d, plan.source.path, plan.destination.path, [])
  {
    PreparedMeans(plan);
    var root := plan.source.path;
    ListingScannable(d, root, plan.entries);
    forall p: Path | View(d, root + p).AFile? ensures d.nodes[Resolve(d, root + p).value].Regular() {
      FileListed(d, plan, p);
    }
    forall entries | Listing(d, root, entries) ensures Compatible(d, plan.destination.path, entries) {
      ListingUnique(d, root, entries, plan.entries);
    }
  }

  lemma FileListed(d: Disk, plan: Plan, p: Path)
    requires SoundPlan(plan) && SourceHolds(d, plan) && View(d, plan.source.path + p).AFile?
    ensures d.nodes[Resolve(d, plan.source.path + p).value].Regular()
  {
    var root := plan.source.path;
    assert root + [] == root;
    var e :| e in plan.entries && e.relative == p;
    var i :| 0 <= i < |plan.entries| && plan.entries[i] == e;
    assert plan.held[i] in plan.held && EntryHolds(d, root, plan.held[i]) && Matches(d, root, e);
  }

  /** The source is as recorded, and its entries fit the destination. */
  ghost predicate Ready(d: Disk, plan: Plan) {
    SourceHolds(d, plan) && Compatible(d, plan.destination.path, plan.entries) && SizesAgree(plan.held)
  }

  method PrepareAt(world: World, source: Path, destination: Path) returns (r: Result<Plan>)
    requires world.Valid() && !Overlaps(source, destination)
    modifies world
    ensures world.Looked()
    ensures r.Ok? ==> Prepared(r.value) && r.value.source.path == source && r.value.destination.path == destination
    ensures r.Ok? ==> r.value.source.Shaped() && SourceSeen(world.log, |old(world.log)|, r.value)
    ensures old(world.Quiet()) && r.Ok? ==> Ready(world.disk, r.value)
    ensures old(world.Quiet() && world.Faultless()) ==>
              Migratable(old(world.disk), source) && View(old(world.disk), destination) == ADir ==>
                OverlayFits(old(world.disk), source, destination) ==> r.Ok?
  {
    world.Sound();
    ghost var a, d := |world.log|, world.disk;
    var roots :- OpenRoots(world, source, destination);
    var (from, to, entries) := roots;
    ghost var l1 := world.log;
    if old(world.Quiet()) {
      world.AtRest();
      SeenAtRest(l1, a, source, entries, d);
      if Migratable(d, source) {
        MigratableCapturable(d, source, entries);
      }
    }
    var held :- Capture(world, from, to, entries);
    ghost var l2 := world.log;
    var _ :- CheckTargets(world, to, entries);
    var plan := Plan(from, to, entries, held, Bytes(entries), Files(entries));
    PreparedSeen(l1, l2, world.log, a, plan);
    if old(world.Quiet()) {
      world.AtRest();
      SourceAtRest(world.log, a, plan, world.disk);
    }
    return Ok(plan);
  }

  lemma PreparedSeen(l1: seq<Instant>, l2: seq<Instant>, l3: seq<Instant>, a: nat, plan: Plan)
    requires l1 <= l2 <= l3 && a <= |l1| && plan.source.Shaped()
    requires ListingSeen(l1, a, plan.source.path, plan.entries)
    requires forall h | h in plan.held :: Captured(l2, |l1|, plan.source, plan.held, h)
    requires ChainSeen(l2, |l1|, plan.source) && ChainSeen(l2, |l1|, plan.destination)
    ensures SourceSeen(l3, a, plan)
  {
    ListingStays(l1, l3, a, a, plan.source.path, plan.entries);
    ChainStays(l2, l3, a, |l1|, plan.source);
    ChainStays(l2, l3, a, |l1|, plan.destination);
    forall h | h in plan.held ensures SourceEntrySeen(l3, a, plan, h) {
      CapturedMore(l2, l3, a, |l1|, plan.source, plan.held, [], h);
      assert plan.held + [] == plan.held;
    }
  }
}
