/** What the steps of the migration do to the paths of a disk at rest. */
module Effects {
  import opened Outcomes
  import opened Disks

  /** `q` passes through the entry `s` in `names` of the directory at `p`. */
  predicate Through(q: Path, p: Path, names: set<Name>) {
    |p| < |q| && q[..|p|] == p && q[|p|] in names
  }

  /** The two disks have the same directory entries, except for `names` in `dir`. */
  ghost predicate EdgesAgree(d: Disk, e: Disk, dir: Ino, names: set<Name>) {
    forall x: Ino, n: Name | x in d.nodes && !(x == dir && n in names) :: Edge(e, x, n) == Edge(d, x, n)
  }

  lemma {:induction false} ResolveAgrees(d: Disk, e: Disk, p: Path, names: set<Name>, q: Path)
    requires WellFormed(d) && View(d, p) == ADir
    requires EdgesAgree(d, e, Resolve(d, p).value, names)
    ensures Through(q, p, names) || Resolve(e, q) == Resolve(d, q)
    decreases |q|
  {
    if q != [] {
      var q', n := q[..|q| - 1], q[|q| - 1];
      ResolveAgrees(d, e, p, names, q');
      ResolveInside(d, q');
      if Through(q', p, names) {
        assert q[..|p|] == q'[..|p|];
      } else if Resolve(d, q') == Resolve(d, p) {
        DirectoryPathUnique(d, p, q');
      }
    }
  }

  /** Nothing lies beyond what is not a directory. */
  lemma NothingBeyond(d: Disk, t: Path, q: Path)
    requires WellFormed(d) && View(d, t) != ADir && |t| < |q| && q[..|t|] == t
    ensures Resolve(d, q).None?
  {
    if Resolve(d, q).Some? {
      PrefixIsDirectory(d, q, |t|);
    }
  }

  /** The disks differ at the path `t` only, where `e` has `seen`. */
  ghost predicate PutAt(d: Disk, e: Disk, t: Path, seen: Seen) {
    && View(e, t) == seen
    && forall q: Path :: q != t ==> SameAt(d, e, q)
  }

  ghost predicate SameAt(d: Disk, e: Disk, q: Path) {
    && Resolve(e, q) == Resolve(d, q)
    && (Resolve(d, q).Some? && Resolve(d, q).value in d.nodes ==>
          Resolve(d, q).value in e.nodes && SameNode(d.nodes[Resolve(d, q).value], e.nodes[Resolve(d, q).value]))
    && View(e, q) == View(d, q)
  }

  /** Files are unchanged, directories are still directories. */
  ghost predicate SameNode(a: Node, b: Node) {
    SameKind(a, b) && (a.File? ==> a == b)
  }

  lemma CreateFilePuts(d: Disk, p: Path, name: Name)
    requires WellFormed(d) && View(d, p) == ADir && Edge(d, Resolve(d, p).value, name).None?
    ensures PutAt(d, CreateFile(d, Resolve(d, p).value, name), p + [name], AFile([]))
    ensures Resolve(CreateFile(d, Resolve(d, p).value, name), p + [name]) == Some(d.next)
    ensures View(d, p + [name]) == Absent
  {
    var dir := Resolve(d, p).value;
    var e := CreateFile(d, dir, name);
    CreateFileGrows(d, dir, name);
    assert EdgesAgree(d, e, dir, {name});
    NewEntry(d, e, p, name);
  }

  lemma MakeDirectoryPuts(d: Disk, p: Path, name: Name)
    requires WellFormed(d) && View(d, p) == ADir && Edge(d, Resolve(d, p).value, name).None?
    ensures PutAt(d, MakeDirectory(d, Resolve(d, p).value, name), p + [name], ADir)
    ensures Resolve(MakeDirectory(d, Resolve(d, p).value, name), p + [name]) == Some(d.next)
    ensures View(d, p + [name]) == Absent
  {
    var dir := Resolve(d, p).value;
    var e := MakeDirectory(d, dir, name);
    MakeDirectoryGrows(d, dir, name);
    assert EdgesAgree(d, e, dir, {name});
    NewEntry(d, e, p, name);
  }

  /** A new entry without anything beneath it changes one path. */
  lemma NewEntry(d: Disk, e: Disk, p: Path, name: Name)
    requires WellFormed(d) && WellFormed(e) && View(d, p) == ADir
    requires EdgesAgree(d, e, Resolve(d, p).value, {name})
    requires Edge(d, Resolve(d, p).value, name).None? && Edge(e, Resolve(d, p).value, name) == Some(d.next)
    requires forall n: Name :: Edge(e, d.next, n).None?
    requires forall x <- d.nodes :: x in e.nodes && SameNode(d.nodes[x], e.nodes[x])
    ensures Resolve(e, p + [name]) == Some(d.next) && View(d, p + [name]) == Absent
    ensures forall q: Path :: q != p + [name] ==> SameAt(d, e, q)
  {
    var t := p + [name];
    ResolveAgrees(d, e, p, {name}, p);
    ResolveSnoc(d, p, name);
    ResolveSnoc(e, p, name);
    forall q: Path | q != t
      ensures SameAt(d, e, q)
    {
      ResolveAgrees(d, e, p, {name}, q);
      ResolveInside(d, q);
      if Through(q, p, {name}) {
        assert |t| < |q| && q[..|t|] == t;
        NothingBeyond(d, t, q);
        var r := q[..|t| + 1];
        assert r[..|r| - 1] == t;
        if Resolve(e, q).Some? {
          PrefixResolves(e, q, |t| + 1);
        }
      }
    }
  }

  lemma {:induction false} PrefixResolves(d: Disk, q: Path, k: nat)
    requires Resolve(d, q).Some? && k <= |q|
    ensures Resolve(d, q[..k]).Some?
    decreases |q|
  {
    if k < |q| {
      var q' := q[..|q| - 1];
      assert q'[..k] == q[..k];
      PrefixResolves(d, q', k);
    } else {
      assert q[..k] == q;
    }
  }

  lemma WriteFilePuts(d: Disk, t: Path, at: nat, data: seq<Byte>)
    requires WellFormed(d) && Resolve(d, t).Some? && Resolve(d, t).value in d.nodes && d.nodes[Resolve(d, t).value].Regular()
    ensures PutAt(d, WriteFile(d, Resolve(d, t).value, at, data), t,
                  AFile(Overwrite(d.nodes[Resolve(d, t).value].bytes, at, data)))
    ensures Resolve(WriteFile(d, Resolve(d, t).value, at, data), t) == Resolve(d, t)
  {
    var x := Resolve(d, t).value;
    var e := WriteFile(d, x, at, data);
    assert t != [];
    forall q: Path
      ensures Resolve(e, q) == Resolve(d, q)
      ensures q != t ==> SameAt(d, e, q)
    {
      assert View(d, []) == ADir;
      ResolveAgrees(d, e, [], {}, q);
      ResolveInside(d, q);
      if q != t && Resolve(d, q) == Some(x) {
        RegularPathUnique(d, t, q);
      }
    }
  }

  /** What renaming a regular file over nothing, or over another regular file, does to the nodes. */
  ghost predicate Replaced(s: Disk, e: Disk, dir: Ino, from: Name, to: Name) {
    var moved, lost := Edge(s, dir, from), Edge(s, dir, to);
    && WellFormed(e) && EdgesAgree(s, e, dir, {from, to})
    && Edge(e, dir, from).None? && Edge(e, dir, to) == moved && moved.Some? && moved != lost
    && (forall x <- s.nodes :: x in e.nodes && SameKind(s.nodes[x], e.nodes[x]))
    && (forall x <- s.nodes :: Some(x) != moved && Some(x) != lost ==> SameNode(s.nodes[x], e.nodes[x]))
    && moved.value in e.nodes && e.nodes[moved.value].Regular() && moved.value in s.nodes && s.nodes[moved.value].Regular()
    && e.nodes[moved.value].bytes == s.nodes[moved.value].bytes
    && (lost.Some? ==> lost.value in s.nodes && s.nodes[lost.value].Regular())
  }

  lemma RenameReplaces(s: Disk, dir: Ino, from: Name, to: Name)
    requires WellFormed(s) && from != to && Edge(s, dir, from).Some? && s.nodes[Edge(s, dir, from).value].Regular()
    requires var x := Edge(s, dir, to); x.Some? ==> s.nodes[x.value].Regular()
    ensures CanRename(s, dir, from, to) && Replaced(s, RenameOver(s, dir, from, to), dir, from, to)
  {
    var moved := Edge(s, dir, from).value;
    var e := RenameOver(s, dir, from, to);
    RenameOverGrows(s, dir, from, to);
    assert Hangs(s, moved, Place(dir, from));
    if Edge(s, dir, to) == Some(moved) {
      assert Hangs(s, moved, Place(dir, to));
      OnlyMember(s.nodes[moved].names, Place(dir, from), Place(dir, to));
    }
    assert s.nodes[moved].names == {Place(dir, from)} by {
      forall n <- s.nodes[moved].names ensures n == Place(dir, from) {
        OnlyMember(s.nodes[moved].names, n, Place(dir, from));
      }
    }
    assert {Place(dir, from)} - {Place(dir, from)} + {Place(dir, to)} == {Place(dir, to)};
    assert moved != dir;
  }

  /** What lies beyond the names of two files resolves to nothing, before and after. */
  lemma BeyondReplaced(s: Disk, e: Disk, p: Path, from: Name, to: Name, q: Path)
    requires WellFormed(s) && View(s, p) == ADir && Resolve(e, p) == Resolve(s, p) && q != p + [from] && q != p + [to]
    requires Replaced(s, e, Resolve(s, p).value, from, to) && Through(q, p, {from, to})
    ensures Resolve(s, q).None? && Resolve(e, q).None?
  {
    ResolveSnoc(s, p, q[|p|]);
    ResolveSnoc(e, p, q[|p|]);
    var t := p + [q[|p|]];
    assert |t| < |q| && q[..|t|] == t;
    NothingBeyond(s, t, q);
    NothingBeyond(e, t, q);
  }

  /** No other path leads to the two files. */
  lemma OtherNode(s: Disk, p: Path, name: Name, q: Path)
    requires WellFormed(s) && q != p + [name] && Resolve(s, q).Some? && Resolve(s, p + [name]).Some?
    requires s.nodes[Resolve(s, p + [name]).value].Regular()
    ensures Resolve(s, q) != Resolve(s, p + [name])
  {
    if Resolve(s, q) == Resolve(s, p + [name]) {
      RegularPathUnique(s, p + [name], q);
    }
  }

  /** Such a renaming changes these two paths only. */
  lemma ReplacedLeaves(s: Disk, e: Disk, p: Path, from: Name, to: Name, q: Path)
    requires WellFormed(s) && View(s, p) == ADir && q != p + [from] && q != p + [to]
    requires Replaced(s, e, Resolve(s, p).value, from, to)
    ensures SameAt(s, e, q)
  {
    ResolveSnoc(s, p, from);
    ResolveSnoc(s, p, to);
    ResolveAgrees(s, e, p, {from, to}, p);
    ResolveAgrees(s, e, p, {from, to}, q);
    ResolveInside(s, q);
    if Through(q, p, {from, to}) {
      BeyondReplaced(s, e, p, from, to, q);
    } else if Resolve(s, q).Some? {
      OtherNode(s, p, from, q);
      if Resolve(s, p + [to]).Some? {
        OtherNode(s, p, to, q);
      }
    }
  }

  /** Publishing a staged file: it was put under a staging name unused in `d`, and is renamed over `to`. */
  lemma PublishPuts(d: Disk, s: Disk, e: Disk, p: Path, from: Name, to: Name, bytes: seq<Byte>)
    requires WellFormed(d) && WellFormed(s) && View(d, p) == ADir && from != to
    requires PutAt(d, s, p + [from], AFile(bytes)) && Resolve(d, p + [from]).None?
    requires Replaced(s, e, Resolve(d, p).value, from, to)
    ensures PutAt(d, e, p + [to], AFile(bytes)) && Resolve(e, p + [to]) == Resolve(s, p + [from])
  {
    var dir := Resolve(d, p).value;
    assert p + [to] != p + [from];
    assert SameAt(d, s, p) && SameAt(d, s, p + [to]);
    ResolveSnoc(s, p, from);
    ResolveAgrees(s, e, p, {from, to}, p);
    ResolveSnoc(e, p, from);
    ResolveSnoc(e, p, to);
    forall q: Path | q != p + [to]
      ensures SameAt(d, e, q)
    {
      if q != p + [from] {
        ReplacedLeaves(s, e, p, from, to, q);
        assert SameAt(d, s, q);
      }
    }
  }

  // ---------- removing ----------

  /** Nothing lies beyond what can be removed. */
  lemma NothingBeyondRemovable(d: Disk, p: Path, name: Name, q: Path)
    requires WellFormed(d) && View(d, p) == ADir && CanRemove(d, Resolve(d, p).value, name) && Through(q, p, {name}) && q != p + [name]
    ensures Resolve(d, q).None?
  {
    var t := p + [name];
    assert |t| < |q| && q[..|t|] == t && q[..|t| + 1][..|t|] == t;
    ResolveSnoc(d, p, name);
    if Resolve(d, q).Some? {
      PrefixIsDirectory(d, q, |t|);
      PrefixResolves(d, q, |t| + 1);
    }
  }

  /** Nor beyond what has been removed. */
  lemma NothingBeyondRemoved(d: Disk, p: Path, name: Name, q: Path)
    requires WellFormed(d) && View(d, p) == ADir && CanRemove(d, Resolve(d, p).value, name) && Through(q, p, {name})
    ensures Resolve(RemoveName(d, Resolve(d, p).value, name), q).None?
  {
    var t, dir := p + [name], Resolve(d, p).value;
    var e := RemoveName(d, dir, name);
    assert |t| <= |q| && q[..|t|] == t;
    assert EdgesAgree(d, e, dir, {name});
    ResolveAgrees(d, e, p, {name}, p);
    ResolveSnoc(e, p, name);
    if Resolve(e, q).Some? {
      PrefixResolves(e, q, |t|);
    }
  }

  /** Removing a name changes no other path, but for the link count of a file that has other names. */
  lemma RemovingLeaves(d: Disk, p: Path, name: Name, q: Path)
    requires WellFormed(d) && View(d, p) == ADir && CanRemove(d, Resolve(d, p).value, name) && q != p + [name]
    ensures var e := RemoveName(d, Resolve(d, p).value, name);
            && Resolve(e, q) == Resolve(d, q) && View(e, q) == View(d, q)
            && (d.nodes[Edge(d, Resolve(d, p).value, name).value].Regular() || d.nodes[Edge(d, Resolve(d, p).value, name).value].Dir? ==> SameAt(d, e, q))
  {
    var dir := Resolve(d, p).value;
    var e, x := RemoveName(d, dir, name), Edge(d, dir, name).value;
    RemoveNameGrows(d, dir, name);
    assert EdgesAgree(d, e, dir, {name});
    ResolveAgrees(d, e, p, {name}, q);
    ResolveInside(d, q);
    ResolveSnoc(d, p, name);
    if Through(q, p, {name}) {
      NothingBeyondRemovable(d, p, name, q);
      NothingBeyondRemoved(d, p, name, q);
    } else if Resolve(d, q) == Some(x) && d.nodes[x].Regular() {
      RegularPathUnique(d, p + [name], q);
    }
  }

  /** After it, the path leads nowhere. */
  lemma RemovingTakes(d: Disk, p: Path, name: Name)
    requires WellFormed(d) && View(d, p) == ADir && CanRemove(d, Resolve(d, p).value, name)
    ensures Resolve(RemoveName(d, Resolve(d, p).value, name), p + [name]).None?
  {
    NothingBeyondRemoved(d, p, name, p + [name]);
  }
}
