/**
  The file system as an inode store. A node is a file, a directory or a link; its identity is
  its number, and numbers are never reused. Looking a path up never follows a link.
*/
module Disks {
  import opened Outcomes

  type Ino = nat
  type Name = string
  type Path = seq<Name>
  newtype Byte = x: int | 0 <= x < 256

  const ROOT: Ino := 0

  /** A directory entry: the directory holding it and its name there. */
  datatype Place = Place(dir: Ino, name: Name)

  /** `names` are the hard links of a file, so its link count is their number; a directory has one home. */
  datatype Node =
    | File(bytes: seq<Byte>, mtime: nat, ctime: nat, names: set<Place>)
    | Dir(children: map<Name, Ino>, home: Option<Place>)
    | Link
  {
    predicate Regular() {
      File? && |names| == 1
    }
  }

  /** What `retained_stamp` reads from an open file. */
  datatype Stamp = Stamp(size: nat, mtime: nat, ctime: nat)

  function StampOf(node: Node): Stamp {
    if node.File? then Stamp(|node.bytes|, node.mtime, node.ctime) else Stamp(0, 0, 0)
  }

  /** `next` is the first unused number, `clock` the next change time. */
  datatype Disk = Disk(nodes: map<Ino, Node>, next: Ino, clock: nat)

  function Edge(d: Disk, dir: Ino, name: Name): Option<Ino> {
    if dir in d.nodes && d.nodes[dir].Dir? && name in d.nodes[dir].children
    then Some(d.nodes[dir].children[name]) else None
  }

  ghost predicate WellFormed(d: Disk) {
    && ROOT in d.nodes && d.nodes[ROOT].Dir? && d.nodes[ROOT].home.None?
    && (forall x <- d.nodes :: x < d.next && (d.nodes[x].File? ==> d.nodes[x].ctime < d.clock))
    && (forall x: Ino, n: Name :: Edge(d, x, n).Some? ==> Hangs(d, Edge(d, x, n).value, Place(x, n)))
  }

  ghost predicate Hangs(d: Disk, x: Ino, place: Place) {
    && x in d.nodes
    && (d.nodes[x].File? ==> place in d.nodes[x].names)
    && (d.nodes[x].Dir? ==> d.nodes[x].home == Some(place))
  }

  // ---------- what any step may do ----------

  ghost predicate SameKind(a: Node, b: Node) {
    (a.File? <==> b.File?) && (a.Dir? <==> b.Dir?)
  }

  /** Numbers are not reused, a node keeps its kind, and every change of a file gives it a fresh change time. */
  ghost predicate Grows(d: Disk, e: Disk) {
    && d.next <= e.next && d.clock <= e.clock
    && (forall x <- d.nodes :: x in e.nodes && SameKind(d.nodes[x], e.nodes[x])
          && (d.nodes[x].File? ==> e.nodes[x] == d.nodes[x] || d.clock <= e.nodes[x].ctime))
    && (forall x <- e.nodes :: x in d.nodes || d.next <= x)
  }

  lemma GrowsTransitively(a: Disk, b: Disk, c: Disk)
    requires Grows(a, b) && Grows(b, c)
    ensures Grows(a, c)
  {
    forall x <- a.nodes
      ensures x in c.nodes && SameKind(a.nodes[x], c.nodes[x])
      ensures a.nodes[x].File? ==> c.nodes[x] == a.nodes[x] || a.clock <= c.nodes[x].ctime
    {
      assert x in b.nodes && SameKind(a.nodes[x], b.nodes[x]) && SameKind(b.nodes[x], c.nodes[x]);
    }
  }

  /** A file that carries the change time it had earlier has not been changed in between. */
  lemma SameStampSameFile(d: Disk, e: Disk, x: Ino)
    requires WellFormed(d) && Grows(d, e) && x in d.nodes && d.nodes[x].File?
    ensures x in e.nodes && e.nodes[x].File?
    ensures StampOf(e.nodes[x]) == StampOf(d.nodes[x]) <==> e.nodes[x] == d.nodes[x]
  {
  }

  // ---------- the steps of the migration that change the disk ----------

  /** A directory that has been removed takes no new entries. */
  predicate Linked(d: Disk, x: Ino) {
    x in d.nodes && d.nodes[x].Dir?
    && (x == ROOT || (d.nodes[x].home.Some? && Edge(d, d.nodes[x].home.value.dir, d.nodes[x].home.value.name) == Some(x)))
  }

  function CreateFile(d: Disk, dir: Ino, name: Name): Disk
    requires dir in d.nodes && d.nodes[dir].Dir?
  {
    var parent := d.nodes[dir];
    Disk(d.nodes[dir := parent.(children := parent.children[name := d.next])]
         [d.next := File([], d.clock, d.clock, {Place(dir, name)})], d.next + 1, d.clock + 1)
  }

  function MakeDirectory(d: Disk, dir: Ino, name: Name): Disk
    requires dir in d.nodes && d.nodes[dir].Dir?
  {
    var parent := d.nodes[dir];
    Disk(d.nodes[dir := parent.(children := parent.children[name := d.next])]
         [d.next := Dir(map[], Some(Place(dir, name)))], d.next + 1, d.clock + 1)
  }

  /** The bytes of a file after `data` was written at position `at`; a gap is filled with zeros. */
  function Overwrite(bytes: seq<Byte>, at: nat, data: seq<Byte>): seq<Byte> {
    if |bytes| < at then bytes + seq(at - |bytes|, _ => 0 as Byte) + data
    else bytes[..at] + data + (if at + |data| < |bytes| then bytes[at + |data|..] else [])
  }

  function WriteFile(d: Disk, x: Ino, at: nat, data: seq<Byte>): Disk
    requires x in d.nodes && d.nodes[x].File?
  {
    var f := d.nodes[x];
    Disk(d.nodes[x := f.(bytes := Overwrite(f.bytes, at, data), mtime := d.clock, ctime := d.clock)], d.next, d.clock + 1)
  }

  /** `renameat` within one directory; a directory is not renamed over anything. */
  predicate CanRename(d: Disk, dir: Ino, from: Name, to: Name) {
    var moved, replaced := Edge(d, dir, from), Edge(d, dir, to);
    && moved.Some? && moved.value in d.nodes
    && (replaced.Some? ==> replaced.value in d.nodes && !d.nodes[replaced.value].Dir? && !d.nodes[moved.value].Dir?)
  }

  /** Renaming a name over another link of the same file does nothing. */
  function RenameOver(d: Disk, dir: Ino, from: Name, to: Name): Disk
    requires CanRename(d, dir, from, to)
  {
    var moved := Edge(d, dir, from).value;
    var replaced := Edge(d, dir, to);
    if replaced == Some(moved) then d else
      var parent := d.nodes[dir];
      var kept := map n | n in parent.children && n != from :: parent.children[n];
      var nodes := d.nodes[dir := parent.(children := kept[to := moved])];
      var nodes' := nodes[moved := Moved(nodes[moved], d.clock, Place(dir, from), Place(dir, to))];
      Disk(if replaced.None? then nodes' else nodes'[replaced.value := Unlinked(nodes'[replaced.value], d.clock, Place(dir, to))],
           d.next, d.clock + 1)
  }

  function Moved(node: Node, clock: nat, from: Place, to: Place): Node {
    match node
    case File(bytes, mtime, _, names) => File(bytes, mtime, clock, names - {from} + {to})
    case Dir(children, _) => Dir(children, Some(to))
    case Link => Link
  }

  function Unlinked(node: Node, clock: nat, place: Place): Node {
    if node.File? then node.(ctime := clock, names := node.names - {place}) else node
  }

  /** A directory is removed only when it is empty. */
  predicate CanRemove(d: Disk, dir: Ino, name: Name) {
    var x := Edge(d, dir, name);
    x.Some? && x.value in d.nodes && (d.nodes[x.value].Dir? ==> d.nodes[x.value].children == map[])
  }

  /** Takes a name out of its directory. */
  function RemoveName(d: Disk, dir: Ino, name: Name): Disk
    requires CanRemove(d, dir, name)
  {
    var x, parent := d.nodes[dir].children[name], d.nodes[dir];
    var nodes := d.nodes[dir := parent.(children := map n | n in parent.children && n != name :: parent.children[n])];
    Disk(nodes[x := Unlinked(nodes[x], d.clock, Place(dir, name))], d.next, d.clock + 1)
  }

  lemma CreateFileGrows(d: Disk, dir: Ino, name: Name)
    requires WellFormed(d) && dir in d.nodes && d.nodes[dir].Dir? && Edge(d, dir, name).None?
    ensures WellFormed(CreateFile(d, dir, name)) && Grows(d, CreateFile(d, dir, name))
  {
    var e := CreateFile(d, dir, name);
    forall x: Ino, n: Name | Edge(e, x, n).Some?
      ensures Hangs(e, Edge(e, x, n).value, Place(x, n))
    {
      assert Edge(e, x, n) == if x == dir && n == name then Some(d.next) else Edge(d, x, n);
    }
  }

  lemma MakeDirectoryGrows(d: Disk, dir: Ino, name: Name)
    requires WellFormed(d) && dir in d.nodes && d.nodes[dir].Dir? && Edge(d, dir, name).None?
    ensures WellFormed(MakeDirectory(d, dir, name)) && Grows(d, MakeDirectory(d, dir, name))
  {
    var e := MakeDirectory(d, dir, name);
    forall x: Ino, n: Name | Edge(e, x, n).Some?
      ensures Hangs(e, Edge(e, x, n).value, Place(x, n))
    {
      assert Edge(e, x, n) == if x == dir && n == name then Some(d.next) else Edge(d, x, n);
    }
  }

  lemma WriteFileGrows(d: Disk, x: Ino, at: nat, data: seq<Byte>)
    requires WellFormed(d) && x in d.nodes && d.nodes[x].File?
    ensures WellFormed(WriteFile(d, x, at, data)) && Grows(d, WriteFile(d, x, at, data))
  {
    var e := WriteFile(d, x, at, data);
    forall y: Ino, n: Name | Edge(e, y, n).Some?
      ensures Hangs(e, Edge(e, y, n).value, Place(y, n))
    {
      assert Edge(e, y, n) == Edge(d, y, n);
    }
  }

  lemma RemoveNameGrows(d: Disk, dir: Ino, name: Name)
    requires WellFormed(d) && CanRemove(d, dir, name)
    ensures WellFormed(RemoveName(d, dir, name)) && Grows(d, RemoveName(d, dir, name))
  {
    var e := RemoveName(d, dir, name);
    forall x: Ino, n: Name | Edge(e, x, n).Some?
      ensures Hangs(e, Edge(e, x, n).value, Place(x, n))
    {
      assert Edge(e, x, n) == if x == dir && n == name then None else Edge(d, x, n);
    }
  }

  lemma RenameOverGrows(d: Disk, dir: Ino, from: Name, to: Name)
    requires WellFormed(d) && CanRename(d, dir, from, to)
    ensures WellFormed(RenameOver(d, dir, from, to)) && Grows(d, RenameOver(d, dir, from, to))
  {
    var e := RenameOver(d, dir, from, to);
    var moved := Edge(d, dir, from).value;
    assert Hangs(d, moved, Place(dir, from));
    forall x: Ino, n: Name | Edge(e, x, n).Some?
      ensures Hangs(e, Edge(e, x, n).value, Place(x, n))
    {
      if e != d && x == dir && moved != dir {
        assert Edge(e, x, n) == if n == to then Edge(d, dir, from) else Edge(d, x, n);
      } else {
        assert Edge(e, x, n) == if e != d && x == dir && n == to then Edge(d, dir, from) else Edge(d, x, n);
      }
      if e != d && !(x == dir && n == to) && Edge(d, x, n) == Some(moved) {
        assert Hangs(d, moved, Place(x, n));
      }
    }
  }

  // ---------- paths ----------

  /** The node a path from the root leads to, by real directory entries only. */
  function Resolve(d: Disk, p: Path): Option<Ino>
    decreases |p|
  {
    if p == [] then Some(ROOT) else
      var dir := Resolve(d, p[..|p| - 1]);
      if dir.None? then None else Edge(d, dir.value, p[|p| - 1])
  }

  /** What stands at a path. */
  datatype Seen = Absent | AFile(bytes: seq<Byte>) | ADir | ALink

  function View(d: Disk, p: Path): Seen {
    var x := Resolve(d, p);
    if x.None? || x.value !in d.nodes then Absent
    else match d.nodes[x.value]
      case File(bytes, _, _, _) => AFile(bytes)
      case Dir(_, _) => ADir
      case Link => ALink
  }

  lemma ResolveSnoc(d: Disk, p: Path, n: Name)
    ensures Resolve(d, p + [n]) == if Resolve(d, p).None? then None else Edge(d, Resolve(d, p).value, n)
  {
    assert (p + [n])[..|p|] == p;
  }

  lemma {:induction false} ResolveInside(d: Disk, p: Path)
    requires WellFormed(d)
    ensures Resolve(d, p).Some? ==> Resolve(d, p).value in d.nodes
    decreases |p|
  {
    if p != [] {
      ResolveInside(d, p[..|p| - 1]);
    }
  }

  /** Whatever lies on the way to an existing node is a directory. */
  lemma {:induction false} PrefixIsDirectory(d: Disk, p: Path, k: nat)
    requires WellFormed(d) && Resolve(d, p).Some? && k < |p|
    ensures View(d, p[..k]) == ADir
    decreases |p|
  {
    var q := p[..|p| - 1];
    ResolveInside(d, q);
    if k < |p| - 1 {
      assert q[..k] == p[..k];
      PrefixIsDirectory(d, q, k);
    }
  }

  /** A directory that is reached has not been removed. */
  lemma ReachedLinked(d: Disk, p: Path)
    requires WellFormed(d) && View(d, p) == ADir
    ensures Linked(d, Resolve(d, p).value)
  {
    if p != [] {
      var up := p[..|p| - 1];
      assert p == up + [p[|p| - 1]];
      assert Hangs(d, Resolve(d, p).value, Place(Resolve(d, up).value, p[|p| - 1]));
    }
  }

  /** Directories have one home, so a directory is reached by one path only. */
  lemma {:induction false} DirectoryPathUnique(d: Disk, p: Path, q: Path)
    requires WellFormed(d) && Resolve(d, p).Some? && Resolve(d, p) == Resolve(d, q) && View(d, p) == ADir
    ensures p == q
    decreases |p|
  {
    if p != [] && q != [] {
      var p', q' := p[..|p| - 1], q[..|q| - 1];
      var x := Resolve(d, p).value;
      assert Hangs(d, x, Place(Resolve(d, p').value, p[|p| - 1]));
      assert Hangs(d, x, Place(Resolve(d, q').value, q[|q| - 1]));
      PrefixIsDirectory(d, p, |p| - 1);
      DirectoryPathUnique(d, p', q');
      assert p == p' + [p[|p| - 1]] && q == q' + [q[|q| - 1]];
    }
  }

  /** A file with one link is reached by one path only. */
  lemma RegularPathUnique(d: Disk, p: Path, q: Path)
    requires WellFormed(d) && Resolve(d, p).Some? && Resolve(d, p) == Resolve(d, q)
    requires d.nodes[Resolve(d, p).value].Regular()
    ensures p == q
  {
    var x := Resolve(d, p).value;
    assert p != [] && q != [];
    var p', q' := p[..|p| - 1], q[..|q| - 1];
    var a, b := Place(Resolve(d, p').value, p[|p| - 1]), Place(Resolve(d, q').value, q[|q| - 1]);
    assert Hangs(d, x, a) && Hangs(d, x, b);
    OnlyMember(d.nodes[x].names, a, b);
    PrefixIsDirectory(d, p, |p| - 1);
    DirectoryPathUnique(d, p', q');
    assert p == p' + [p[|p| - 1]] && q == q' + [q[|q| - 1]];
  }

  lemma OnlyMember<T>(s: set<T>, a: T, b: T)
    requires |s| == 1 && a in s && b in s
    ensures a == b
  {
    assert |s - {a}| == 0;
  }
}
