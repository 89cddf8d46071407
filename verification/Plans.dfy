/** Plans: the pinned roots and recorded entries of one migration, and the checks made against them. */
module Plans {
  import opened Outcomes
  import opened Disks
  import opened Worlds
  import opened Sorting
  import opened PathOrder
  import opened Scans
  import opened Retained

  /** `RetainedEntry`: an entry with the identity, and for files the stamp, it had. */
  datatype Held = Held(entry: Entry, ino: Ino, stamp: Option<Stamp>)

  /** `MigrationPlan` with its `RetainedMigration`. */
  datatype Plan = Plan(source: Directory, destination: Directory, entries: seq<Entry>, held: seq<Held>, bytes: nat, files: nat)

  /** The recorded identity of a directory beneath the root. */
  function FindDirectory(held: seq<Held>, p: Path): Option<Ino> {
    if held == [] then None
    else if held[0].entry.directory && held[0].entry.relative == p then Some(held[0].ino)
    else FindDirectory(held[1..], p)
  }

  function HandleOf(root: Directory, held: seq<Held>, p: Path): Option<Ino>
    requires root.Shaped()
  {
    if p == [] then Some(root.Handle()) else FindDirectory(held, p)
  }

  lemma {:induction false} FindDirectoryIs(held: seq<Held>, p: Path)
    ensures FindDirectory(held, p).Some? <==> exists h :: h in held && h.entry.directory && h.entry.relative == p
    ensures FindDirectory(held, p).Some? ==>
              exists h :: h in held && h.entry.directory && h.entry.relative == p && Some(h.ino) == FindDirectory(held, p)
  {
    if held != [] {
      FindDirectoryIs(held[1..], p);
      assert held == [held[0]] + held[1..];
    }
  }

  /** The records belong to the entries of a snapshot, or of its beginning. */
  ghost predicate Records(held: seq<Held>, entries: seq<Entry>) {
    && |held| == |entries|
    && forall i | 0 <= i < |held| :: held[i].entry == entries[i] && (held[i].stamp.Some? <==> !entries[i].directory)
  }

  // ---------- seen from instant `a` on ----------

  /** Every directory on the way to `p` was seen where it was recorded. */
  ghost predicate WaySeen(log: seq<Instant>, a: nat, root: Directory, held: seq<Held>, p: Path)
    requires root.Shaped()
  {
    forall k | 0 < k < |p| :: StepSeen(log, a, root, held, p[..k])
  }

  ghost predicate StepSeen(log: seq<Instant>, a: nat, root: Directory, held: seq<Held>, q: Path)
    requires root.Shaped() && q != []
  {
    && HandleOf(root, held, Scans.Parent(q)).Some? && HandleOf(root, held, q).Some?
    && EdgeSeen(log, a, HandleOf(root, held, Scans.Parent(q)).value, q[|q| - 1], HandleOf(root, held, q).value, true)
  }

  /** The entry was seen under its name in its recorded directory. */
  ghost predicate HeldSeen(log: seq<Instant>, a: nat, root: Directory, held: seq<Held>, h: Held)
    requires root.Shaped()
  {
    var p := h.entry.relative;
    && p != [] && WaySeen(log, a, root, held, p)
    && HandleOf(root, held, Scans.Parent(p)).Some?
    && EdgeSeen(log, a, HandleOf(root, held, Scans.Parent(p)).value, p[|p| - 1], h.ino, h.entry.directory)
    && (!h.entry.directory ==> RegularSeen(log, a, h.ino))
  }

  // ---------- holding on a disk ----------

  ghost predicate EntryHolds(d: Disk, root: Path, h: Held) {
    && Resolve(d, root + h.entry.relative) == Some(h.ino) && IsKind(d, h.ino, h.entry.directory)
    && (!h.entry.directory ==> d.nodes[h.ino].Regular())
  }

  ghost predicate StampHolds(d: Disk, h: Held) {
    !h.entry.directory ==> h.ino in d.nodes && h.stamp == Some(StampOf(d.nodes[h.ino]))
  }

  ghost predicate AllHold(d: Disk, root: Path, held: seq<Held>) {
    forall h | h in held :: EntryHolds(d, root, h)
  }

  /** The ancestors of `p` beneath the root are recorded and where they were. */
  ghost predicate WayHolds(d: Disk, root: Directory, held: seq<Held>, p: Path) {
    ChainHolds(d, root) && forall k | 0 < k < |p| :: StepHolds(d, root, held, p[..k])
  }

  ghost predicate StepHolds(d: Disk, root: Directory, held: seq<Held>, q: Path) {
    && FindDirectory(held, q).Some? && View(d, root.path + q) == ADir
    && Resolve(d, root.path + q) == FindDirectory(held, q)
  }

  ghost predicate Reachable(d: Disk, root: Directory, held: seq<Held>, h: Held) {
    WayHolds(d, root, held, h.entry.relative) && EntryHolds(d, root.path, h)
  }

  lemma RecordsHold(d: Disk, root: Directory, held: seq<Held>, entries: seq<Entry>, p: Path)
    requires Records(held, entries) && Snapshot(entries) && AllHold(d, root.path, held) && ChainHolds(d, root)
    requires p != [] && ListsDirectory(entries, Scans.Parent(p))
    ensures WayHolds(d, root, held, p)
  {
    forall k | 0 < k < |p|
      ensures StepHolds(d, root, held, p[..k])
    {
      AncestorListed(entries, p, k);
      var e :| e in entries && e.directory && e.relative == p[..k];
      var i :| 0 <= i < |entries| && entries[i] == e;
      assert held[i] in held;
      FindDirectoryIs(held, p[..k]);
    }
  }

  lemma {:induction false} AncestorListed(entries: seq<Entry>, p: Path, k: nat)
    requires Snapshot(entries) && p != [] && ListsDirectory(entries, Scans.Parent(p)) && k < |p|
    ensures ListsDirectory(entries, p[..k])
    decreases |p|
  {
    var q := Scans.Parent(p);
    if k < |q| {
      assert q[..k] == p[..k];
      var e :| e in entries && e.directory && e.relative == q;
      AncestorListed(entries, q, k);
    } else {
      assert q == p[..k];
    }
  }

  /** A directory stands before its contents, so the beginning of a snapshot is a snapshot. */
  lemma SnapshotBeginning(entries: seq<Entry>, k: nat)
    requires Snapshot(entries) && k <= |entries|
    ensures Snapshot(entries[..k])
    ensures k < |entries| ==> ListsDirectory(entries[..k], Scans.Parent(entries[k].relative))
  {
    forall i | 0 <= i < |entries| && i <= k
      ensures ListsDirectory(entries[..k], Scans.Parent(entries[i].relative))
    {
      var q := Scans.Parent(entries[i].relative);
      assert entries[i] in entries;
      if q != [] {
        var e :| e in entries && e.directory && e.relative == q;
        var j :| 0 <= j < |entries| && entries[j] == e;
        PrefixBefore(q, entries[i].relative);
        PathsCompare(q, entries[i].relative);
        assert j < i;
        assert entries[..k][j] == e;
      }
    }
  }

  // ---------- from seen to holding, on a disk at rest ----------

  lemma StepAtRest(log: seq<Instant>, a: nat, root: Directory, held: seq<Held>, q: Path, d: Disk)
    requires WellFormed(d) && ChainHolds(d, root) && q != [] && StepSeen(log, a, root, held, q)
    requires forall i | a <= i < |log| :: log[i].after == d
    requires Scans.Parent(q) == [] || StepHolds(d, root, held, Scans.Parent(q))
    ensures StepHolds(d, root, held, q)
  {
    assert root.path[..|root.path|] == root.path && root.path + [] == root.path;
    assert root.path + q == (root.path + Scans.Parent(q)) + [q[|q| - 1]];
    ResolveSnoc(d, root.path + Scans.Parent(q), q[|q| - 1]);
  }

  lemma {:induction false} WayAtRest(log: seq<Instant>, a: nat, root: Directory, held: seq<Held>, p: Path, d: Disk)
    requires WellFormed(d) && ChainHolds(d, root) && WaySeen(log, a, root, held, p) && forall i | a <= i < |log| :: log[i].after == d
    ensures WayHolds(d, root, held, p)
    decreases |p|
  {
    if |p| > 1 {
      var q := Scans.Parent(p);
      forall k | 0 < k <= |q| ensures q[..k] == p[..k] && StepSeen(log, a, root, held, q[..k]) {
        assert q[..k] == p[..k];
      }
      WayAtRest(log, a, root, held, q, d);
      assert q == p[..|q|] && (|q| > 1 ==> StepHolds(d, root, held, q[..|q| - 1]));
      StepAtRest(log, a, root, held, q, d);
    }
  }

  lemma HeldAtRest(log: seq<Instant>, a: nat, root: Directory, held: seq<Held>, h: Held, d: Disk)
    requires WellFormed(d) && ChainHolds(d, root) && HeldSeen(log, a, root, held, h) && forall i | a <= i < |log| :: log[i].after == d
    ensures Reachable(d, root, held, h)
  {
    var p := h.entry.relative;
    var q := Scans.Parent(p);
    WayAtRest(log, a, root, held, p, d);
    assert root.path[..|root.path|] == root.path && root.path + [] == root.path;
    assert q != [] ==> StepHolds(d, root, held, p[..|q|]);
    assert root.path + p == (root.path + q) + [p[|p| - 1]];
    ResolveSnoc(d, root.path + q, p[|p| - 1]);
  }

  // ---------- opening what was recorded ----------

  /** The pinned directory at `p` beneath the root, put together from the records. */
  function PinnedAt(root: Directory, held: seq<Held>, p: Path): Directory
    requires root.Shaped()
    decreases |p|
    ensures PinnedAt(root, held, p).Shaped() && PinnedAt(root, held, p).path == root.path + p
  {
    if p == [] then root else
      var up := PinnedAt(root, held, Scans.Parent(p));
      var ino := FindDirectory(held, p);
      Directory(up.path + [p[|p| - 1]], up.chain + [if ino.Some? then ino.value else ROOT])
  }

  lemma {:induction false} PinnedHolds(d: Disk, root: Directory, held: seq<Held>, p: Path)
    requires WellFormed(d) && ChainHolds(d, root) && forall k | 0 < k <= |p| :: StepHolds(d, root, held, p[..k])
    ensures ChainHolds(d, PinnedAt(root, held, p))
    decreases |p|
  {
    if p != [] {
      var q := Scans.Parent(p);
      assert forall k | 0 < k <= |q| :: q[..k] == p[..k];
      PinnedHolds(d, root, held, q);
      assert p[..|p|] == p && root.path + p == (root.path + q) + [p[|p| - 1]];
      ChainExtends(d, PinnedAt(root, held, q), p[|p| - 1], FindDirectory(held, p).value);
    }
  }

  lemma ChainExtends(d: Disk, dir: Directory, name: Name, child: Ino)
    requires ChainHolds(d, dir) && Resolve(d, dir.path + [name]) == Some(child) && View(d, dir.path + [name]) == ADir
    ensures ChainHolds(d, Directory(dir.path + [name], dir.chain + [child]))
  {
    var path, chain := dir.path + [name], dir.chain + [child];
    forall k | 0 <= k <= |path|
      ensures Resolve(d, path[..k]) == Some(chain[k])
    {
      assert path[..k] == if k <= |dir.path| then dir.path[..k] else path;
    }
  }

  /** One step of `parent`. */
  method StepDown(world: World, root: Directory, held: seq<Held>, dir: Directory, prefix: Path) returns (r: Result<Directory>)
    requires world.Valid() && root.Shaped() && prefix != [] && dir == PinnedAt(root, held, Scans.Parent(prefix))
    requires Some(dir.Handle()) == HandleOf(root, held, Scans.Parent(prefix))
    modifies world
    ensures world.Looked()
    ensures r.Ok? ==> r.value == PinnedAt(root, held, prefix) && Some(r.value.Handle()) == HandleOf(root, held, prefix)
    ensures r.Ok? ==> StepSeen(world.log, |old(world.log)|, root, held, prefix)
    ensures old(world.Quiet() && world.Faultless()) ==>
              Resolve(old(world.disk), dir.path) == Some(dir.Handle()) && StepHolds(old(world.disk), root, held, prefix) ==> r.Ok?
  {
    var name := prefix[|prefix| - 1];
    assert root.path + prefix == dir.path + [name];
    ResolveSnoc(world.disk, dir.path, name);
    var expected := FindDirectory(held, prefix);
    if expected.None? {
      return Err(Other);
    }
    var child :- ChildDirectory(world, dir, name);
    if child.Handle() != expected.value {
      return Err(Other);
    }
    return Ok(child);
  }

  /** The first `k` directories on the way were seen. */
  ghost predicate WaySeenTo(log: seq<Instant>, a: nat, root: Directory, held: seq<Held>, p: Path, k: nat)
    requires root.Shaped() && k < |p|
  {
    forall j | 0 < j <= k :: StepSeen(log, a, root, held, p[..j])
  }

  lemma WaySeenMore(log: seq<Instant>, log': seq<Instant>, a: nat, root: Directory, held: seq<Held>, p: Path, k: nat)
    requires root.Shaped() && k + 1 < |p| && log <= log' && a <= |log|
    requires WaySeenTo(log, a, root, held, p, k) && StepSeen(log', |log|, root, held, p[..k + 1])
    ensures WaySeenTo(log', a, root, held, p, k + 1)
  {
    forall j | 0 < j <= k + 1 ensures StepSeen(log', a, root, held, p[..j]) {
      assert j <= k ==> StepSeen(log, a, root, held, p[..j]);
    }
  }

  /** The way so far leads where the records say, and so does the next step. */
  lemma WayLeads(d: Disk, root: Directory, held: seq<Held>, p: Path, k: nat)
    requires root.Shaped() && k + 1 < |p|
    ensures WayHolds(d, root, held, p) ==> Resolve(d, root.path + p[..k]) == HandleOf(root, held, p[..k]) && StepHolds(d, root, held, p[..k + 1])
  {
    assert root.path[..|root.path|] == root.path && root.path + [] == root.path;
    assert WayHolds(d, root, held, p) && k > 0 ==> StepHolds(d, root, held, p[..k]);
  }

  /** `parent`: walks down to the directory of `relative`, checking each identity against the records. */
  method OpenParent(world: World, root: Directory, held: seq<Held>, relative: Path) returns (r: Result<Directory>)
    requires world.Valid() && root.Shaped() && relative != []
    modifies world
    ensures world.Looked()
    ensures r.Ok? ==> r.value == PinnedAt(root, held, Scans.Parent(relative))
    ensures r.Ok? ==> Some(r.value.Handle()) == HandleOf(root, held, Scans.Parent(relative))
    ensures r.Ok? ==> WaySeen(world.log, |old(world.log)|, root, held, relative)
    ensures old(world.Quiet() && world.Faultless()) && WayHolds(old(world.disk), root, held, relative) ==> r.Ok?
  {
    var dir := root;
    for k := 0 to |relative| - 1
      invariant world.Looked() && dir == PinnedAt(root, held, relative[..k])
      invariant Some(dir.Handle()) == HandleOf(root, held, relative[..k])
      invariant WaySeenTo(world.log, |old(world.log)|, root, held, relative, k)
    {
      ghost var log := world.log;
      assert Scans.Parent(relative[..k + 1]) == relative[..k];
      WayLeads(world.disk, root, held, relative, k);
      dir :- StepDown(world, root, held, dir, relative[..k + 1]);
      WaySeenMore(log, world.log, |old(world.log)|, root, held, relative, k);
    }
    return Ok(dir);
  }

  /** `open_entry`: opens a recorded entry beneath its recorded directory. */
  method OpenEntry(world: World, root: Directory, held: seq<Held>, h: Held) returns (r: Result<()>)
    requires world.Valid() && root.Shaped() && h.entry.relative != []
    modifies world
    ensures world.Looked()
    ensures r.Ok? ==> HeldSeen(world.log, |old(world.log)|, root, held, h)
    ensures old(world.Quiet() && world.Faultless()) && Reachable(old(world.disk), root, held, h) ==> r.Ok?
  {
    var parent :- OpenParent(world, root, held, h.entry.relative);
    var name := h.entry.relative[|h.entry.relative| - 1];
    LeafOpens(world.disk, root, held, h);
    var file :- world.OpenChild(parent.Handle(), name, h.entry.directory);
    return if file == h.ino then Ok(()) else Err(Other);
  }

  lemma LeafOpens(d: Disk, root: Directory, held: seq<Held>, h: Held)
    requires root.Shaped() && h.entry.relative != []
    ensures Reachable(d, root, held, h) ==>
              var p := h.entry.relative;
              var dir := HandleOf(root, held, Scans.Parent(p));
              dir.Some? && ChildOf(d, dir.value, p[|p| - 1], h.entry.directory) == Ok(h.ino)
  {
    var p := h.entry.relative;
    var q := Scans.Parent(p);
    if Reachable(d, root, held, h) {
      assert root.path[..|root.path|] == root.path && root.path + [] == root.path;
      assert q != [] ==> StepHolds(d, root, held, p[..|q|]);
      assert root.path + p == (root.path + q) + [p[|p| - 1]];
      ResolveSnoc(d, root.path + q, p[|p| - 1]);
    }
  }
}
