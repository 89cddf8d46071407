/** Listing a source tree, `scan`. */
module Scans {
  import opened Outcomes
  import opened Disks
  import opened Worlds
  import opened Sorting
  import opened PathOrder

  datatype Entry = Entry(relative: Path, directory: bool, size: nat, modified: nat)

  function Parent(p: Path): Path
    requires p != []
  {
    p[..|p| - 1]
  }

  // ---------- what a listing says ----------

  ghost predicate Matches(d: Disk, root: Path, e: Entry) {
    MetaAt(d, root + e.relative) == Some(Meta(e.directory, false, e.size, e.modified))
  }

  ghost predicate EntrySeen(log: seq<Instant>, a: nat, root: Path, e: Entry) {
    exists i :: a <= i < |log| && Matches(log[i].after, root, e)
  }

  ghost predicate Names(d: Disk, path: Path, names: set<Name>) {
    View(d, path) == ADir && forall n :: n in names <==> Edge(d, Resolve(d, path).value, n).Some?
  }

  ghost predicate NamesSeen(log: seq<Instant>, a: nat, path: Path, names: set<Name>) {
    exists i :: a <= i < |log| && Names(log[i].after, path, names)
  }

  ghost function ChildNames(entries: seq<Entry>, p: Path): set<Name> {
    set e | e in entries && e.relative != [] && Parent(e.relative) == p :: e.relative[|e.relative| - 1]
  }

  ghost predicate ListsDirectory(entries: seq<Entry>, p: Path) {
    p == [] || exists e :: e in entries && e.directory && e.relative == p
  }

  /** Strictly sorted, and every entry lies in a listed directory. */
  ghost predicate Snapshot(entries: seq<Entry>) {
    && (forall i, j | 0 <= i < j < |entries| :: Before(entries[i].relative, entries[j].relative))
    && (forall e | e in entries :: e.relative != [] && ListsDirectory(entries, Parent(e.relative)))
  }

  /** From instant `a` on, every entry was seen, and every directory was seen with exactly the names listed. */
  ghost predicate ListingSeen(log: seq<Instant>, a: nat, root: Path, entries: seq<Entry>) {
    && (forall e | e in entries :: EntrySeen(log, a, root, e))
    && (forall p: Path | ListsDirectory(entries, p) :: NamesSeen(log, a, root + p, ChildNames(entries, p)))
  }

  /** The entries are exactly the descendants of `root`, without links among them. */
  ghost predicate Listing(d: Disk, root: Path, entries: seq<Entry>) {
    && Snapshot(entries) && View(d, root) == ADir
    && (forall e | e in entries :: Matches(d, root, e))
    && (forall p: Path | p != [] && Resolve(d, root + p).Some? :: exists e :: e in entries && e.relative == p)
  }

  /** What was seen on a disk at rest is its listing. */
  lemma SeenAtRest(log: seq<Instant>, a: nat, root: Path, entries: seq<Entry>, d: Disk)
    requires WellFormed(d) && Snapshot(entries) && ListingSeen(log, a, root, entries)
    requires forall i | a <= i < |log| :: log[i].after == d
    ensures Listing(d, root, entries)
  {
    assert ListsDirectory(entries, []) && root + [] == root;
    forall p: Path | p != [] && Resolve(d, root + p).Some?
      ensures exists e :: e in entries && e.relative == p
    {
      ListedAtRest(d, root, entries, p);
    }
  }

  /** A name in a listed directory is listed. */
  lemma NameListed(d: Disk, root: Path, entries: seq<Entry>, q: Path, n: Name)
    requires Names(d, root + q, ChildNames(entries, q)) && Resolve(d, root + q + [n]).Some?
    ensures exists e :: e in entries && e.relative == q + [n]
  {
    ResolveSnoc(d, root + q, n);
    var f :| f in entries && f.relative != [] && Parent(f.relative) == q && f.relative[|f.relative| - 1] == n;
    assert f.relative == q + [n];
  }

  lemma {:induction false} ListedAtRest(d: Disk, root: Path, entries: seq<Entry>, p: Path)
    requires WellFormed(d) && p != [] && Resolve(d, root + p).Some?
    requires forall e | e in entries :: e.relative != [] && Matches(d, root, e)
    requires forall q: Path | ListsDirectory(entries, q) :: Names(d, root + q, ChildNames(entries, q))
    ensures exists e :: e in entries && e.relative == p
    decreases |p|
  {
    var q, n := Parent(p), p[|p| - 1];
    assert p == q + [n] && (root + p)[..|root + q|] == root + q && root + q + [n] == root + p;
    PrefixIsDirectory(d, root + p, |root + q|);
    if q != [] {
      ListedAtRest(d, root, entries, q);
      var e :| e in entries && e.relative == q;
      assert Matches(d, root, e);
    }
    assert ListsDirectory(entries, q);
    NameListed(d, root, entries, q, n);
  }

  /** A tree has one listing: the order in which directories were read does not show. */
  lemma ListingUnique(d: Disk, root: Path, xs: seq<Entry>, ys: seq<Entry>)
    requires Listing(d, root, xs) && Listing(d, root, ys)
    ensures xs == ys
  {
    forall e | e in xs ensures e in ys {
      assert Resolve(d, root + e.relative).Some?;
      var f :| f in ys && f.relative == e.relative;
      assert Matches(d, root, f) && Matches(d, root, e);
    }
    forall e | e in ys ensures e in xs {
      assert Resolve(d, root + e.relative).Some?;
      var f :| f in xs && f.relative == e.relative;
      assert Matches(d, root, f) && Matches(d, root, e);
    }
    SameMembersSame(xs, ys);
  }

  function EntryOrder(): (Entry, Entry) -> bool {
    (e: Entry, f: Entry) => e.relative == f.relative || Before(e.relative, f.relative)
  }

  lemma EntryOrdering()
    ensures Ordering(EntryOrder())
  {
    var le := EntryOrder();
    forall e: Entry, f: Entry ensures le(e, f) || le(f, e) {
      PathsCompare(e.relative, f.relative);
    }
    forall e: Entry, f: Entry, g: Entry | le(e, f) && le(f, g) ensures le(e, g) {
      if Before(e.relative, f.relative) && Before(f.relative, g.relative) {
        PathsTransitive(e.relative, f.relative, g.relative);
      }
    }
  }

  /** Two snapshots with the same entries are equal; hence unequal ones differ in some entry. */
  lemma SameMembersSame(xs: seq<Entry>, ys: seq<Entry>)
    requires Snapshot(xs) && Snapshot(ys) && forall e :: e in xs <==> e in ys
    ensures xs == ys
  {
    var le := EntryOrder();
    SnapshotDistinct(xs);
    SnapshotDistinct(ys);
    DistinctSame(xs, ys);
    forall e, f | e in xs && f in xs && le(e, f) && le(f, e) ensures e == f {
      PathsCompare(e.relative, f.relative);
    }
    SortedUnique(xs, ys, le);
  }

  lemma SnapshotDistinct(xs: seq<Entry>)
    requires Snapshot(xs)
    ensures Distinct(xs) && forall i, j | 0 <= i < |xs| && 0 <= j < |xs| && xs[i].relative == xs[j].relative :: i == j
  {
    forall i, j | 0 <= i < j < |xs| ensures xs[i].relative != xs[j].relative {
      PathsCompare(xs[i].relative, xs[j].relative);
    }
  }

  // ---------- the scan ----------

  /** `checked_directory`: the path and all its ancestors are directories, and it is not the root of the disk. */
  method CheckedDirectory(world: World, path: Path) returns (r: Result<()>)
    requires world.Valid()
    modifies world
    ensures world.Looked()
    ensures old(world.Quiet()) && r.Ok? ==> path != [] && View(world.disk, path) == ADir
    ensures old(world.Quiet() && world.Faultless()) && path != [] && View(old(world.disk), path) == ADir ==> r.Ok?
  {
    world.Sound();
    if path == [] {
      return Err(Other);
    }
    ghost var d := world.disk;
    assert path[..|path|] == path;
    var k := |path|;
    while k > 0
      invariant 0 <= k <= |path| && world.Looked()
      invariant old(world.Quiet()) && k < |path| ==> View(d, path) == ADir
    {
      if View(d, path) == ADir && k < |path| {
        PrefixIsDirectory(d, path, k);
      }
      var meta :- world.Lstat(path[..k]);
      if !meta.directory {
        return Err(Other);
      }
      k := k - 1;
    }
    return Ok(());
  }

  /** The body of the inner loop: what `symlink_metadata` tells about each name. */
  method Describe(world: World, root: Path, directory: Path, names: seq<Name>) returns (r: Result<seq<Entry>>)
    requires world.Valid()
    modifies world
    ensures world.Looked()
    ensures r.Ok? ==> |r.value| == |names|
    ensures r.Ok? ==> forall j | 0 <= j < |names| :: r.value[j].relative == directory + [names[j]]
                                                     && EntrySeen(world.log, |old(world.log)|, root, r.value[j])
    ensures old(world.Quiet() && world.Faultless()) && AllMovable(old(world.disk), root + directory, names) ==> r.Ok?
  {
    ghost var a, d := |world.log|, world.disk;
    var found: seq<Entry> := [];
    for k := 0 to |names|
      invariant world.Looked() && a <= |world.log|
      invariant |found| == k && forall j | 0 <= j < k :: found[j].relative == directory + [names[j]] && EntrySeen(world.log, a, root, found[j])
    {
      var relative := directory + [names[k]];
      assert root + relative == root + directory + [names[k]] && names[k] in names;
      var meta :- world.Lstat(root + relative);
      if meta.link {
        return Err(Other);
      }
      found := found + [Entry(relative, meta.directory, meta.size, meta.modified)];
      assert Matches(world.log[|world.log| - 1].after, root, found[k]);
    }
    return Ok(found);
  }

  ghost predicate AllMovable(d: Disk, path: Path, names: seq<Name>) {
    forall n | n in names :: Movable(View(d, path + [n]))
  }

  /** Only files and directories are migrated. */
  predicate Movable(seen: Seen) {
    seen.AFile? || seen.ADir?
  }

  /** The inner loop: the entries of one directory. */
  method ScanDirectory(world: World, root: Path, directory: Path) returns (r: Result<seq<Entry>>, ghost names: seq<Name>)
    requires world.Valid()
    modifies world
    ensures world.Looked()
    ensures r.Ok? ==> |old(world.log)| < |world.log| && Found(world.log, |old(world.log)|, root, directory, names, r.value)
    ensures old(world.Quiet() && world.Faultless()) && ScannableAt(old(world.disk), root + directory) ==> r.Ok?
  {
    names := [];
    var checked := CheckedDirectory(world, root + directory);
    if checked.Err? {
      return Err(checked.fault), [];
    }
    var listed := world.ReadDir(root + directory);
    if listed.Err? {
      return Err(listed.fault), [];
    }
    names := listed.value;
    ghost var k := |world.log| - 1;
    assert Names(world.log[k].after, root + directory, set n | n in names);
    if old(world.Quiet()) && ScannableAt(old(world.disk), root + directory) {
      NamesMovable(old(world.disk), root + directory, names);
    }
    r := Describe(world, root, directory, listed.value);
  }

  lemma NamesMovable(d: Disk, path: Path, names: seq<Name>)
    requires ScannableAt(d, path) && forall n :: n in names <==> Edge(d, Resolve(d, path).value, n).Some?
    ensures AllMovable(d, path, names)
  {
  }

  ghost predicate Found(log: seq<Instant>, a: nat, root: Path, directory: Path, names: seq<Name>, found: seq<Entry>) {
    && ChildrenOf(directory, names, found) && NamesSeen(log, a, root + directory, set n | n in names)
    && forall e | e in found :: EntrySeen(log, a, root, e)
  }

  ghost predicate ScannableAt(d: Disk, path: Path) {
    && path != [] && View(d, path) == ADir
    && forall n: Name | Edge(d, Resolve(d, path).value, n).Some? :: Movable(View(d, path + [n]))
  }

  /** The entries found so far: no path twice, each from a directory that has been read. */
  ghost predicate Entered(log: seq<Instant>, a: nat, root: Path, entries: seq<Entry>, done: set<Path>) {
    && DistinctPaths(entries)
    && (forall e | e in entries :: e.relative != [] && Parent(e.relative) in done && EntrySeen(log, a, root, e))
  }

  ghost predicate DistinctPaths(entries: seq<Entry>) {
    forall i, j | 0 <= i < j < |entries| :: entries[i].relative != entries[j].relative
  }

  /** Every listed directory is either still to be read or has been, not both. */
  ghost predicate Scheduled(entries: seq<Entry>, pending: seq<Path>, done: set<Path>) {
    && Distinct(pending) && (forall p | p in pending :: p !in done)
    && (forall p: Path :: ListsDirectory(entries, p) <==> p in done || p in pending)
  }

  /** Directories that have been read are listed completely. */
  ghost predicate Covered(log: seq<Instant>, a: nat, root: Path, entries: seq<Entry>, done: set<Path>) {
    forall p | p in done :: NamesSeen(log, a, root + p, ChildNames(entries, p))
  }

  function Directories(entries: seq<Entry>): seq<Path> {
    if entries == [] then []
    else (if entries[0].directory then [entries[0].relative] else []) + Directories(entries[1..])
  }

  lemma {:induction false} DirectoriesAre(entries: seq<Entry>)
    ensures forall p :: p in Directories(entries) <==> exists e :: e in entries && e.directory && e.relative == p
  {
    if entries != [] {
      DirectoriesAre(entries[1..]);
      assert entries == [entries[0]] + entries[1..];
    }
  }

  lemma {:induction false} DirectoriesDistinct(entries: seq<Entry>)
    requires DistinctPaths(entries)
    ensures Distinct(Directories(entries))
  {
    if entries != [] {
      var rest := entries[1..];
      DirectoriesDistinct(rest);
      DirectoriesAre(rest);
      forall p | p in Directories(rest) ensures p != entries[0].relative {
        var k :| 0 <= k < |rest| && rest[k].relative == p;
        assert rest[k] == entries[k + 1];
      }
      DistinctConcat(if entries[0].directory then [entries[0].relative] else [], Directories(rest));
    }
  }

  /** The children of a directory. */
  ghost predicate ChildrenOf(directory: Path, names: seq<Name>, found: seq<Entry>) {
    Distinct(names) && |found| == |names| && forall j | 0 <= j < |found| :: found[j].relative == directory + [names[j]]
  }

  lemma ChildrenDistinct(directory: Path, names: seq<Name>, found: seq<Entry>)
    requires ChildrenOf(directory, names, found)
    ensures DistinctPaths(found) && forall f | f in found :: f.relative != [] && Parent(f.relative) == directory
  {
    forall i, j | 0 <= i < j < |found| ensures found[i].relative != found[j].relative {
      assert found[i].relative[|directory|] == names[i] && found[j].relative[|directory|] == names[j];
    }
  }

  lemma EnteredMore(log: seq<Instant>, log': seq<Instant>, a: nat, root: Path, entries: seq<Entry>, done: set<Path>,
                    directory: Path, names: seq<Name>, found: seq<Entry>)
    requires log <= log' && a <= |log| && Entered(log, a, root, entries, done) && directory !in done
    requires ChildrenOf(directory, names, found) && forall e | e in found :: EntrySeen(log', |log|, root, e)
    ensures Entered(log', a, root, entries + found, done + {directory})
  {
    ChildrenDistinct(directory, names, found);
    forall e | e in entries + found ensures EntrySeen(log', a, root, e) {
      assert e in entries || e in found;
    }
  }

  lemma ScheduledMore(entries: seq<Entry>, pending: seq<Path>, done: set<Path>, directory: Path, names: seq<Name>, found: seq<Entry>)
    requires Scheduled(entries, pending + [directory], done) && ChildrenOf(directory, names, found)
    requires forall e | e in entries :: e.relative != [] && Parent(e.relative) in done
    ensures Scheduled(entries + found, pending + Directories(found), done + {directory})
  {
    var pending' := pending + Directories(found);
    assert (pending + [directory])[|pending|] == directory;
    assert forall k | 0 <= k < |pending| :: (pending + [directory])[k] == pending[k];
    ChildrenDistinct(directory, names, found);
    DirectoriesDistinct(found);
    DirectoriesAre(found);
    forall p | p in Directories(found)
      ensures p !in pending && p !in done && p != directory
    {
      var f :| f in found && f.directory && f.relative == p;
      assert directory in pending + [directory];
      assert Parent(p) == directory;
      assert !ListsDirectory(entries, p);
    }
    DistinctConcat(pending, Directories(found));
    forall p: Path
      ensures ListsDirectory(entries + found, p) <==> p in done + {directory} || p in pending'
    {
      assert ListsDirectory(entries, p) <==> p in done || p in pending + [directory];
      assert forall e :: e in entries + found <==> e in entries || e in found;
    }
  }

  lemma CoveredMore(log: seq<Instant>, log': seq<Instant>, a: nat, root: Path, entries: seq<Entry>, done: set<Path>,
                    directory: Path, names: seq<Name>, found: seq<Entry>)
    requires log <= log' && a <= |log| && Covered(log, a, root, entries, done) && directory !in done
    requires forall e | e in entries :: e.relative != [] && Parent(e.relative) in done
    requires ChildrenOf(directory, names, found) && NamesSeen(log', |log|, root + directory, set n | n in names)
    ensures Covered(log', a, root, entries + found, done + {directory})
  {
    forall p | p in done + {directory}
      ensures NamesSeen(log', a, root + p, ChildNames(entries + found, p))
    {
      if p == directory {
        ChildNamesFound(entries, found, directory, names);
      } else {
        ChildrenDistinct(directory, names, found);
        assert ChildNames(entries + found, p) == ChildNames(entries, p);
        assert NamesSeen(log, a, root + p, ChildNames(entries, p));
      }
    }
  }

  lemma ChildNamesFound(entries: seq<Entry>, found: seq<Entry>, directory: Path, names: seq<Name>)
    requires forall e | e in entries :: e.relative != [] && Parent(e.relative) != directory
    requires ChildrenOf(directory, names, found)
    ensures ChildNames(entries + found, directory) == set n | n in names
  {
    forall n | n in names ensures n in ChildNames(entries + found, directory) {
      var j :| 0 <= j < |names| && names[j] == n;
      assert found[j] in entries + found && Parent(found[j].relative) == directory;
    }
  }

  // ---------- termination: a directory is read once ----------

  ghost function Reached(d: Disk, root: Path, done: set<Path>): set<Ino> {
    set p | p in done && Resolve(d, root + p).Some? :: Resolve(d, root + p).value
  }

  lemma FurtherReached(d: Disk, root: Path, done: set<Path>, directory: Path)
    requires WellFormed(d) && View(d, root + directory) == ADir && directory !in done
    ensures d.nodes.Keys - Reached(d, root, done + {directory}) < d.nodes.Keys - Reached(d, root, done)
  {
    var x := Resolve(d, root + directory).value;
    forall p | p in done ensures Resolve(d, root + p) != Some(x) {
      assert p == (root + p)[|root|..] && directory == (root + directory)[|root|..];
      if Resolve(d, root + p) == Some(x) {
        DirectoryPathUnique(d, root + directory, root + p);
      }
    }
    assert x in Reached(d, root, done + {directory});
  }

  // ---------- the whole scan ----------

  /** The tree can be migrated as a whole: only files and directories lie in it. */
  ghost predicate Scannable(d: Disk, root: Path) {
    && root != [] && View(d, root) == ADir
    && forall p: Path | Resolve(d, root + p).Some? :: Movable(View(d, root + p))
  }

  lemma ScannableEverywhere(d: Disk, root: Path, p: Path)
    requires Scannable(d, root) && View(d, root + p) == ADir
    ensures ScannableAt(d, root + p)
  {
    forall n: Name | Edge(d, Resolve(d, root + p).value, n).Some?
      ensures Movable(View(d, root + p + [n]))
    {
      ResolveSnoc(d, root + p, n);
      assert root + (p + [n]) == root + p + [n];
    }
  }

  lemma FoundAtRest(log: seq<Instant>, a: nat, root: Path, directory: Path, names: seq<Name>, found: seq<Entry>, d: Disk)
    requires Found(log, a, root, directory, names, found) && forall i | a <= i < |log| :: log[i].after == d
    ensures View(d, root + directory) == ADir && forall p | p in Directories(found) :: View(d, root + p) == ADir
  {
    DirectoriesAre(found);
    forall e | e in found ensures Matches(d, root, e) {
    }
  }

  lemma SortedEntries(entries: seq<Entry>) returns (sorted: seq<Entry>)
    requires DistinctPaths(entries)
    ensures sorted == Sort(entries, EntryOrder())
    ensures forall e :: e in sorted <==> e in entries
    ensures forall i, j | 0 <= i < j < |sorted| :: Before(sorted[i].relative, sorted[j].relative)
  {
    var le := EntryOrder();
    sorted := Sort(entries, le);
    EntryOrdering();
    SortSorts(entries, le);
    SortPermutes(entries, le);
    SortKeeps(entries, le);
    DistinctPermuted(entries, sorted);
    forall i, j | 0 <= i < j < |sorted| ensures Before(sorted[i].relative, sorted[j].relative) {
      assert le(sorted[i], sorted[j]) && sorted[i] in entries && sorted[j] in entries;
    }
  }

  lemma SortedListing(log: seq<Instant>, a: nat, root: Path, entries: seq<Entry>, done: set<Path>, sorted: seq<Entry>)
    requires Entered(log, a, root, entries, done) && Scheduled(entries, [], done) && Covered(log, a, root, entries, done)
    requires sorted == Sort(entries, EntryOrder())
    ensures Snapshot(sorted) && ListingSeen(log, a, root, sorted)
  {
    var same := SortedEntries(entries);
    forall p: Path ensures ListsDirectory(sorted, p) <==> ListsDirectory(entries, p) {
    }
    forall p: Path | ListsDirectory(sorted, p) ensures NamesSeen(log, a, root + p, ChildNames(sorted, p)) {
      assert ChildNames(sorted, p) == ChildNames(entries, p);
    }
  }

  /** One directory further. */
  lemma FurtherAlong(log: seq<Instant>, log': seq<Instant>, a: nat, root: Path, entries: seq<Entry>, rest: seq<Path>, done: set<Path>,
                     directory: Path, names: seq<Name>, found: seq<Entry>)
    requires log <= log' && a <= |log| && Entered(log, a, root, entries, done) && Scheduled(entries, rest + [directory], done)
    requires Covered(log, a, root, entries, done) && Found(log', |log|, root, directory, names, found)
    ensures directory !in done
    ensures Entered(log', a, root, entries + found, done + {directory})
    ensures Scheduled(entries + found, rest + Directories(found), done + {directory})
    ensures Covered(log', a, root, entries + found, done + {directory})
  {
    assert directory in rest + [directory];
    EnteredMore(log, log', a, root, entries, done, directory, names, found);
    ScheduledMore(entries, rest, done, directory, names, found);
    CoveredMore(log, log', a, root, entries, done, directory, names, found);
  }

  /** The outer loop, which reads every directory it finds. */
  method ReadTree(world: World, root: Path) returns (r: Result<seq<Entry>>, ghost done: set<Path>)
    requires world.Valid()
    modifies world
    ensures world.Looked()
    ensures r.Ok? ==> Entered(world.log, |old(world.log)|, root, r.value, done) && Scheduled(r.value, [], done)
                      && Covered(world.log, |old(world.log)|, root, r.value, done)
    ensures old(world.Quiet() && world.Faultless()) && Scannable(old(world.disk), root) ==> r.Ok?
  {
    world.Sound();
    ghost var a, d := |world.log|, world.disk;
    done := {};
    var entries: seq<Entry> := [];
    var pending: seq<Path> := [[]];
    assert root + [] == root;
    while pending != []
      invariant world.Looked() && a <= |world.log|
      invariant Entered(world.log, a, root, entries, done) && Scheduled(entries, pending, done)
      invariant Covered(world.log, a, root, entries, done)
      invariant old(world.Quiet()) && Scannable(d, root) ==> forall p | p in pending :: View(d, root + p) == ADir
      decreases if world.now < world.horizon then world.horizon - world.now else 0, world.disk.nodes.Keys - Reached(world.disk, root, done)
    {
      ghost var before, earlier, rest := world.log, world.disk, pending[..|pending| - 1];
      var directory := pending[|pending| - 1];
      assert pending == rest + [directory];
      if old(world.Quiet()) && Scannable(d, root) {
        ScannableEverywhere(d, root, directory);
      }
      label Reading:
      var found, names := ScanDirectory(world, root, directory);
      if found.Err? {
        return Err(found.fault), done;
      }
      FurtherAlong(before, world.log, a, root, entries, rest, done, directory, names, found.value);
      if world.horizon <= |before| {
        world.AtRest@Reading();
        FoundAtRest(world.log, |before|, root, directory, names, found.value, earlier);
        FurtherReached(earlier, root, done, directory);
      }
      entries, pending, done := entries + found.value, pending[..|pending| - 1] + Directories(found.value), done + {directory};
    }
    return Ok(entries), done;
  }

  /**
    `scan`. Whatever the others do, a listing it returns is strictly sorted, has every directory before
    its contents, and was seen piece by piece; it terminates because outsiders act finitely often.
  */
  method Scan(world: World, root: Path) returns (r: Result<seq<Entry>>)
    requires world.Valid()
    modifies world
    ensures world.Looked()
    ensures r.Ok? ==> Snapshot(r.value) && ListingSeen(world.log, |old(world.log)|, root, r.value)
    ensures old(world.Quiet()) && r.Ok? ==> Listing(world.disk, root, r.value)
    ensures old(world.Quiet() && world.Faultless()) && Scannable(old(world.disk), root) ==> r.Ok?
  {
    var entries, done := ReadTree(world, root);
    if entries.Err? {
      return entries;
    }
    var sorted := Sort(entries.value, EntryOrder());
    SortedListing(world.log, |old(world.log)|, root, entries.value, done, sorted);
    if old(world.Quiet()) {
      world.AtRest();
      SeenAtRest(world.log, |old(world.log)|, root, sorted, world.disk);
    }
    return Ok(sorted);
  }
}
