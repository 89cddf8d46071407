/** Directories pinned by the identities of all their ancestors, and the staging files made in them. */
module Retained {
  import opened Outcomes
  import opened Disks
  import opened Worlds

  /** `chain` holds the identities along `path`, from the root of the disk on. */
  datatype Directory = Directory(path: Path, chain: seq<Ino>) {
    predicate Shaped() {
      |chain| == |path| + 1
    }

    function Handle(): Ino
      requires Shaped()
    {
      chain[|path|]
    }
  }

  /** Every step along the path was seen, at some instant from `a` on, to lead where the chain says. */
  ghost predicate ChainSeen(log: seq<Instant>, a: nat, dir: Directory) {
    && dir.Shaped() && dir.chain[0] == ROOT
    && forall k | 0 <= k < |dir.path| :: EdgeSeen(log, a, dir.chain[k], dir.path[k], dir.chain[k + 1], true)
  }

  /** The path leads through exactly these directories. */
  ghost predicate ChainHolds(d: Disk, dir: Directory) {
    && dir.Shaped() && View(d, dir.path) == ADir
    && forall k | 0 <= k <= |dir.path| :: Resolve(d, dir.path[..k]) == Some(dir.chain[k])
  }

  /** What was seen of a path on a disk at rest holds there. */
  lemma ChainAtRest(log: seq<Instant>, a: nat, dir: Directory, d: Disk)
    requires WellFormed(d) && ChainSeen(log, a, dir) && forall i | a <= i < |log| :: log[i].after == d
    ensures ChainHolds(d, dir)
  {
    for k := 0 to |dir.path|
      invariant View(d, dir.path[..k]) == ADir
      invariant forall j | 0 <= j <= k :: Resolve(d, dir.path[..j]) == Some(dir.chain[j])
    {
      assert dir.path[..k + 1] == dir.path[..k] + [dir.path[k]];
      ResolveSnoc(d, dir.path[..k], dir.path[k]);
      assert EdgeSeen(log, a, dir.chain[k], dir.path[k], dir.chain[k + 1], true);
    }
    assert dir.path[..|dir.path|] == dir.path;
  }

  /** `child_directory(name, false)`. */
  method ChildDirectory(world: World, dir: Directory, name: Name) returns (r: Result<Directory>)
    requires world.Valid() && dir.Shaped()
    modifies world
    ensures world.Looked() && |old(world.log)| < |world.log|
    ensures r.Ok? ==> r.value.Shaped() && r.value == Directory(dir.path + [name], dir.chain + [r.value.Handle()])
    ensures r.Ok? ==> EdgeSeen(world.log, |old(world.log)|, dir.Handle(), name, r.value.Handle(), true)
    ensures old(world.Quiet()) ==>
              if r.Ok? then ChildOf(old(world.disk), dir.Handle(), name, true) == Ok(r.value.Handle())
              else ChildOf(old(world.disk), dir.Handle(), name, true) == Err(r.fault) || (r.fault.Other? && !old(world.Faultless()))
  {
    var child :- world.OpenChild(dir.Handle(), name, true);
    return Ok(Directory(dir.path + [name], dir.chain + [child]));
  }

  lemma ChainSeenExtends(log: seq<Instant>, log': seq<Instant>, a: nat, dir: Directory, name: Name, child: Ino)
    requires log <= log' && a <= |log| && ChainSeen(log, a, dir) && EdgeSeen(log', |log|, dir.Handle(), name, child, true)
    ensures ChainSeen(log', a, Directory(dir.path + [name], dir.chain + [child]))
  {
    var path, chain := dir.path + [name], dir.chain + [child];
    forall k | 0 <= k < |path|
      ensures EdgeSeen(log', a, chain[k], path[k], chain[k + 1], true)
    {
      if k < |dir.path| {
        assert EdgeSeen(log, a, dir.chain[k], dir.path[k], dir.chain[k + 1], true);
      }
    }
  }

  method Open(world: World, path: Path) returns (r: Result<Directory>)
    requires world.Valid()
    modifies world
    ensures world.Looked()
    ensures r.Ok? ==> r.value.path == path && ChainSeen(world.log, |old(world.log)|, r.value)
    ensures old(world.Quiet() && world.Faultless()) && View(old(world.disk), path) == ADir ==> r.Ok?
  {
    world.Sound();
    ghost var a, d := |world.log|, world.disk;
    var dir := Directory([], [ROOT]);
    for k := 0 to |path|
      invariant world.Looked() && dir.path == path[..k] && ChainSeen(world.log, a, dir)
      invariant old(world.Quiet()) ==> Resolve(d, dir.path) == Some(dir.Handle())
    {
      ghost var before := world.log;
      ResolveSnoc(d, dir.path, path[k]);
      if old(world.Quiet()) && View(d, path) == ADir {
        DirectoryOnTheWay(d, path, k);
      }
      var child :- ChildDirectory(world, dir, path[k]);
      ChainSeenExtends(before, world.log, a, dir, path[k], child.Handle());
      dir := child;
    }
    assert path[..|path|] == path;
    return Ok(dir);
  }

  lemma DirectoryOnTheWay(d: Disk, path: Path, k: nat)
    requires WellFormed(d) && View(d, path) == ADir && k < |path|
    ensures Resolve(d, path[..k]).Some?
    ensures ChildOf(d, Resolve(d, path[..k]).value, path[k], true).Ok?
  {
    PrefixIsDirectory(d, path, k);
    assert path[..k + 1][..k] == path[..k];
    if k + 1 < |path| {
      PrefixIsDirectory(d, path, k + 1);
    } else {
      assert path[..k + 1] == path;
    }
  }

  lemma SameChain(d: Disk, a: Directory, b: Directory)
    requires ChainHolds(d, a) && ChainHolds(d, b) && a.path == b.path
    ensures a == b
  {
    forall k | 0 <= k <= |a.path| ensures a.chain[k] == b.chain[k] {
      assert Some(a.chain[k]) == Resolve(d, a.path[..k]);
    }
  }

  /** Opens the path again and compares every identity on the way. */
  method Verify(world: World, dir: Directory) returns (r: Result<()>)
    requires world.Valid() && dir.Shaped()
    modifies world
    ensures world.Looked()
    ensures r.Ok? ==> ChainSeen(world.log, |old(world.log)|, dir)
    ensures old(world.Quiet() && world.Faultless()) && ChainHolds(old(world.disk), dir) ==> r.Ok?
  {
    var current :- Open(world, dir.path);
    if old(world.Quiet()) && ChainHolds(old(world.disk), dir) {
      world.AtRest();
      ChainAtRest(world.log, |old(world.log)|, current, world.disk);
      SameChain(world.disk, current, dir);
    }
    if current.chain != dir.chain {
      return Err(Other);
    }
    return Ok(());
  }

  lemma ChainStays(log: seq<Instant>, log': seq<Instant>, a: nat, b: nat, dir: Directory)
    requires log <= log' && a <= b && ChainSeen(log, b, dir)
    ensures ChainSeen(log', a, dir)
  {
    forall k | 0 <= k < |dir.path| ensures EdgeSeen(log', a, dir.chain[k], dir.path[k], dir.chain[k + 1], true) {
      assert EdgeSeen(log, b, dir.chain[k], dir.path[k], dir.chain[k + 1], true);
    }
  }

  // ---------- staging files ----------

  function Decimal(n: nat): (s: string)
    ensures s != []
  {
    if n < 10 then [Digit(n)] else Decimal(n / 10) + [Digit(n % 10)]
  }

  function Digit(n: nat): char
    requires n < 10
  {
    ['0', '1', '2', '3', '4', '5', '6', '7', '8', '9'][n]
  }

  lemma {:induction false} DecimalInjective(m: nat, n: nat)
    requires Decimal(m) == Decimal(n)
    ensures m == n
    decreases m
  {
    var s, t := Decimal(m), Decimal(n);
    assert s[|s| - 1] == Digit(m % 10) && t[|t| - 1] == Digit(n % 10);
    if m >= 10 && n >= 10 {
      assert Decimal(m / 10) == s[..|s| - 1] && Decimal(n / 10) == t[..|t| - 1];
      DecimalInjective(m / 10, n / 10);
    }
  }

  const PREFIX: string := ".elunvi-migration-"

  /** The process number and the time in a staging name only make clashes rarer; the counter settles them. */
  function StagingName(serial: nat): Name {
    PREFIX + Decimal(serial) + ".tmp"
  }

  ghost predicate IsStaging(name: Name) {
    exists serial: nat :: name == StagingName(serial)
  }

  /** A staging name with a counter from `serial` on. */
  ghost predicate FreshName(name: Name, serial: nat) {
    exists s: nat :: serial <= s && name == StagingName(s)
  }

  lemma StagingNamesDiffer(m: nat, n: nat)
    requires m != n
    ensures StagingName(m) != StagingName(n)
  {
    var s, t := StagingName(m), StagingName(n);
    if s == t {
      assert Decimal(m) == s[|PREFIX|..|s| - 4] && Decimal(n) == t[|PREFIX|..|t| - 4];
      DecimalInjective(m, n);
    }
  }

  /** The staging names already taken, from the counter on. */
  ghost function Taken(d: Disk, dir: Ino, serial: nat): set<Name> {
    if dir in d.nodes && d.nodes[dir].Dir? then
      set n | n in d.nodes[dir].children && FreshName(n, serial)
    else {}
  }

  lemma FewerTaken(d: Disk, dir: Ino, serial: nat)
    requires Edge(d, dir, StagingName(serial)).Some?
    ensures Taken(d, dir, serial + 1) < Taken(d, dir, serial)
  {
    assert StagingName(serial) in Taken(d, dir, serial);
    forall s: nat | serial + 1 <= s ensures StagingName(s) != StagingName(serial) {
      StagingNamesDiffer(s, serial);
    }
  }

  /** Tries names until one is free: outsiders act finitely often, and then finitely many names are taken. */
  method StagingFile(world: World, dir: Ino) returns (r: Result<(Name, Ino)>)
    requires world.Valid()
    modifies world
    ensures world.Advanced() && world.reported == old(world.reported)
    ensures r.Ok? ==> FreshName(r.value.0, old(world.serial))
    ensures world.deeds == old(world.deeds) || StagedLast(world, dir, old(world.deeds), |old(world.log)|)
    ensures r.Ok? ==> world.deeds != old(world.deeds)
                      && world.log[world.deeds[|world.deeds| - 1]].step == Created(dir, r.value.0, r.value.1)
    ensures old(world.Quiet()) && world.deeds == old(world.deeds) ==> world.disk == old(world.disk)
    ensures old(world.Quiet()) && world.deeds != old(world.deeds) ==>
              exists name :: IsStaging(name) && Linked(old(world.disk), dir) && Edge(old(world.disk), dir, name).None?
                             && world.disk == CreateFile(old(world.disk), dir, name)
                             && (r.Ok? ==> r.value == (name, old(world.disk).next))
    ensures old(world.Quiet() && world.Faultless()) && Linked(old(world.disk), dir) ==> r.Ok?
  {
    while true
      invariant world.Advanced() && world.reported == old(world.reported)
      invariant world.deeds == old(world.deeds) && (old(world.Quiet()) ==> world.disk == old(world.disk))
      decreases if world.now < world.horizon then world.horizon - world.now else 0, Taken(world.disk, dir, world.serial)
    {
      var serial := world.serial;
      world.serial := world.serial + 1;
      ghost var before, earlier := world.disk, world.log;
      var file := world.CreateNew(dir, StagingName(serial));
      if file.Ok? {
        return Ok((StagingName(serial), file.value));
      }
      if !file.fault.AlreadyExists? {
        return Err(file.fault);
      }
      if world.horizon <= |earlier| {
        FewerTaken(before, dir, serial);
      }
    }
  }

  /** The last deed created a staging file. */
  ghost predicate StagedLast(world: World, dir: Ino, deeds: seq<nat>, a: nat)
    reads world
  {
    && |world.deeds| == |deeds| + 1 && world.deeds[..|deeds|] == deeds
    && var c := world.deeds[|deeds|];
       a <= c < |world.log| && world.log[c].step.Created? && IsStaging(world.log[c].step.name)
  }

  // ---------- publishing ----------

  ghost predicate Publishable(d: Disk, dir: Directory, temporary: Name, name: Name, output: Ino) {
    StagedAt(d, dir, temporary, output) && CanRename(d, dir.Handle(), temporary, name)
  }

  /** `replace_file`: checks the directory and the staged file once more, and renames it into place. */
  method ReplaceFile(world: World, dir: Directory, temporary: Name, name: Name, output: Ino) returns (r: Result<()>)
    requires world.Valid() && dir.Shaped()
    modifies world
    ensures world.Continued() && world.Untouched()
    ensures r.Ok? <==> world.deeds != old(world.deeds)
    ensures r.Err? ==> world.Looked()
    ensures r.Ok? ==> RenamedLast(world, dir, temporary, name, output, old(world.deeds), |old(world.log)|)
    ensures old(world.Quiet()) && r.Ok? ==>
              && Publishable(old(world.disk), dir, temporary, name, output)
              && world.disk == RenameOver(old(world.disk), dir.Handle(), temporary, name)
    ensures old(world.Quiet() && world.Faultless()) && Publishable(old(world.disk), dir, temporary, name, output) ==> r.Ok?
  {
    var _ :- CheckStaged(world, dir, temporary, output);
    ghost var seen := world.log;
    r := world.RenameFile(dir.Handle(), temporary, name);
    if r.Ok? {
      assert world.log[..|world.log| - 1] == seen + [world.log[|seen|]];
      ChainStays(seen, world.log[..|world.log| - 1], |old(world.log)|, |old(world.log)|, dir);
    }
  }

  ghost predicate StagedAt(d: Disk, dir: Directory, temporary: Name, output: Ino) {
    && ChainHolds(d, dir) && IsFile(d, output) && d.nodes[output].Regular()
    && Edge(d, dir.Handle(), temporary) == Some(output)
  }

  /** The checks of `replace_file` before the rename. */
  method CheckStaged(world: World, dir: Directory, temporary: Name, output: Ino) returns (r: Result<()>)
    requires world.Valid() && dir.Shaped()
    modifies world
    ensures world.Looked()
    ensures r.Ok? ==> ChainSeen(world.log, |old(world.log)|, dir) && EdgeSeen(world.log, |old(world.log)|, dir.Handle(), temporary, output, false)
    ensures old(world.Quiet()) && r.Ok? ==> StagedAt(world.disk, dir, temporary, output)
    ensures old(world.Quiet() && world.Faultless()) && StagedAt(old(world.disk), dir, temporary, output) ==> r.Ok?
  {
    var _ :- Verify(world, dir);
    if old(world.Quiet()) {
      world.AtRest();
      ChainAtRest(world.log, |old(world.log)|, dir, world.disk);
    }
    ghost var seen := world.log;
    var _ :- world.CheckRegular(output);
    var staged :- world.OpenChild(dir.Handle(), temporary, false);
    ChainStays(seen, world.log, |old(world.log)|, |old(world.log)|, dir);
    return if staged == output then Ok(()) else Err(Other);
  }

  /** The last deed, at the last instant, renamed a name that was seen before to lead to `output`, in a directory seen in its place. */
  ghost predicate RenamedLast(world: World, dir: Directory, from: Name, to: Name, output: Ino, deeds: seq<nat>, a: nat)
    reads world
  {
    && world.log != [] && world.deeds == deeds + [|world.log| - 1]
    && ChainSeen(world.log[..|world.log| - 1], a, dir) && EdgeSeen(world.log[..|world.log| - 1], a, dir.Handle(), from, output, false)
    && var step := world.log[|world.log| - 1].step;
       step.Renamed? && step.dir == dir.Handle() && step.from == from && step.to == to
  }
}
