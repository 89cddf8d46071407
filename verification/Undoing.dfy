/** Undoing what a run has created, last things first: the rollback of `execute_with_cleanup`. */
module Undoing {
  import opened Outcomes
  import opened Disks
  import opened Worlds
  import opened Effects
  import opened Scans
  import opened Staging
  import opened SameFiles

  /** An element of `created`: a path, what was created there and, once it was filled, the stamp of a file. */
  datatype Creation = Creation(path: Path, directory: bool, stamp: Option<(nat, nat)>)

  ghost predicate Listed(made: seq<Creation>, q: Path) {
    exists m :: m in made && m.path == q
  }

  /** What was created stands at its path, where nothing had been. */
  ghost predicate Stands(d0: Disk, d: Disk, m: Creation) {
    && |m.path| > 1 && Resolve(d0, m.path).None? && Resolve(d, m.path).Some? && Resolve(d, m.path).value in d.nodes
    && (if m.directory then View(d, m.path) == ADir
        else d.nodes[Resolve(d, m.path).value].Regular() && (m.stamp.Some? ==> PathStamp(d, m.path) == m.stamp))
  }

  /** Nothing was created above, or at, a path created before. */
  ghost predicate Downward(made: seq<Creation>) {
    forall i, j | 0 <= i < j < |made| :: !(made[j].path <= made[i].path)
  }

  /** Mentioning this unfolds `Undoable` and `Partly`, which are kept folded elsewhere to keep proofs small. */
  ghost predicate UnfoldMade(made: seq<Creation>, once: nat) {
    true
  }

  /** The disks differ only at what was created, of which the first `k` elements stand. */
  ghost predicate Partly(d0: Disk, d: Disk, made: seq<Creation>, k: nat) {
    forall once: nat {:trigger UnfoldMade(made, once)} :: UnfoldMade(made, once) ==> PartlyMade(d0, d, made, k)
  }

  ghost predicate PartlyMade(d0: Disk, d: Disk, made: seq<Creation>, k: nat) {
    && k <= |made| && WellFormed(d0) && WellFormed(d) && Downward(made)
    && (forall q: Path :: Listed(made, q) || SameAt(d0, d, q))
    && (forall i | 0 <= i < k :: Stands(d0, d, made[i]))
  }

  /** All of it stands, and nothing else has changed. */
  ghost predicate Undoable(d0: Disk, d: Disk, made: seq<Creation>) {
    Partly(d0, d, made, |made|)
  }

  lemma PartlyMeans(d0: Disk, d: Disk, made: seq<Creation>, k: nat)
    requires Partly(d0, d, made, k)
    ensures PartlyMade(d0, d, made, k)
  {
    assert UnfoldMade(made, 0);
  }

  ghost predicate Restored(d0: Disk, d: Disk) {
    forall q: Path :: SameAt(d0, d, q)
  }

  lemma NothingMade(d: Disk)
    requires WellFormed(d)
    ensures Undoable(d, d, [])
  {
  }

  lemma NothingLeft(d0: Disk, d: Disk)
    requires Undoable(d0, d, [])
    ensures Restored(d0, d)
  {
    PartlyMeans(d0, d, [], 0);
  }

  lemma StandsStill(d0: Disk, d: Disk, e: Disk, m: Creation)
    requires WellFormed(d) && Stands(d0, d, m) && SameAt(d, e, m.path)
    ensures Stands(d0, e, m)
  {
    ResolveInside(d, m.path);
  }

  // ---------- creating ----------

  lemma NotAbove(d: Disk, m: Creation, t: Path)
    requires Resolve(d, m.path).Some? && Resolve(d, t).None?
    ensures !(t <= m.path)
  {
    assert t <= m.path ==> m.path[..|t|] == t;
    if t <= m.path {
      PrefixResolves(d, m.path, |t|);
    }
  }

  /** Creating something where nothing was. */
  lemma MadeMore(d0: Disk, d: Disk, e: Disk, made: seq<Creation>, m: Creation, seen: Seen)
    requires Undoable(d0, d, made) && WellFormed(e) && PutAt(d, e, m.path, seen) && Resolve(d, m.path).None?
    requires Resolve(d0, m.path).None? ==> Stands(d0, e, m)
    ensures Undoable(d0, e, made + [m])
  {
    PartlyMeans(d0, d, made, |made|);
    var more := made + [m];
    assert m in more;
    forall i | 0 <= i < |made| ensures !(m.path <= made[i].path) && Stands(d0, e, more[i]) {
      assert Stands(d0, d, made[i]);
      NotAbove(d, made[i], m.path);
      assert made[i].path != m.path;
      StandsStill(d0, d, e, made[i]);
    }
    assert !Listed(made, m.path);
    forall q: Path ensures Listed(more, q) || SameAt(d0, e, q) {
      if Listed(made, q) {
        var n :| n in made && n.path == q;
        assert n in more;
      } else if q != m.path {
        SameAtOn(d0, d, e, q);
      }
    }
  }

  /** Changing what was created last. */
  lemma MadeChanged(d0: Disk, d: Disk, e: Disk, made: seq<Creation>, m: Creation, m': Creation, seen: Seen)
    requires Undoable(d0, d, made + [m]) && WellFormed(e) && PutAt(d, e, m.path, seen) && m'.path == m.path
    requires Resolve(d0, m.path).None? ==> Stands(d0, e, m')
    ensures Undoable(d0, e, made + [m'])
  {
    var all, all' := made + [m], made + [m'];
    PartlyMeans(d0, d, all, |all|);
    assert all[|made|] == m && Stands(d0, d, m);
    forall i | 0 <= i < |made| ensures !(m'.path <= made[i].path) && Stands(d0, e, all'[i]) {
      assert all[i] == made[i] && Stands(d0, d, made[i]);
      assert m.path != made[i].path;
      StandsStill(d0, d, e, made[i]);
    }
    forall i, j | 0 <= i < j < |all'| ensures !(all'[j].path <= all'[i].path) {
      assert all[i].path == all'[i].path && all[j].path == all'[j].path;
    }
    forall q: Path ensures Listed(all', q) || SameAt(d0, e, q) {
      if Listed(all, q) {
        var n :| n in all && n.path == q;
        assert n in made || n == m;
        assert m' in all' && (n in made ==> n in all');
      } else {
        assert m in all;
        SameAtOn(d0, d, e, q);
      }
    }
  }

  // ---------- undoing ----------

  lemma NoneBeneath(made: seq<Creation>, q: Path)
    requires made != [] && Downward(made) && made[|made| - 1].path < q
    ensures !Listed(made, q)
  {
    forall i | 0 <= i < |made| ensures made[i].path != q {
      assert i < |made| - 1 ==> !(made[|made| - 1].path <= made[i].path);
    }
  }

  /** A directory that was created last of all that still stands is empty. */
  lemma LastIsEmpty(d0: Disk, d: Disk, made: seq<Creation>)
    requires Undoable(d0, d, made) && made != [] && made[|made| - 1].directory
    ensures Removable(d, made[|made| - 1].path, true)
  {
    PartlyMeans(d0, d, made, |made|);
    var m := made[|made| - 1];
    assert Stands(d0, d, m);
    var x := Resolve(d, m.path).value;
    forall n: Name ensures n !in d.nodes[x].children {
      var q := m.path + [n];
      ResolveSnoc(d, m.path, n);
      ResolveSnoc(d0, m.path, n);
      NoneBeneath(made, q);
      assert SameAt(d0, d, q);
    }
  }

  ghost predicate RemovedFrom(d: Disk, e: Disk, path: Path) {
    && path != [] && View(d, path[..|path| - 1]) == ADir
    && CanRemove(d, Resolve(d, path[..|path| - 1]).value, path[|path| - 1])
    && e == RemoveName(d, Resolve(d, path[..|path| - 1]).value, path[|path| - 1])
  }

  /** Removing one of the things that stand leaves the others. */
  lemma MadeLess(d0: Disk, d: Disk, e: Disk, made: seq<Creation>, k: nat)
    requires Partly(d0, d, made, k + 1) && k < |made| && RemovedFrom(d, e, made[k].path)
    ensures Partly(d0, e, made, k) && Resolve(e, made[k].path).None?
  {
    PartlyMeans(d0, d, made, k + 1);
    var t := made[k].path;
    var up, name := t[..|t| - 1], t[|t| - 1];
    assert t == up + [name] && Stands(d0, d, made[k]);
    RemoveNameGrows(d, Resolve(d, up).value, name);
    RemovingTakes(d, up, name);
    assert made[k] in made;
    forall q: Path ensures Listed(made, q) || SameAt(d0, e, q) {
      if !Listed(made, q) {
        RemovingLeaves(d, up, name, q);
        SameAtOn(d0, d, e, q);
      }
    }
    forall i | 0 <= i < k ensures Stands(d0, e, made[i]) {
      assert Stands(d0, d, made[i]) && !(made[k].path <= made[i].path);
      RemovingLeaves(d, up, name, made[i].path);
      StandsStill(d0, d, e, made[i]);
    }
  }

  lemma PartlyLess(d0: Disk, d: Disk, made: seq<Creation>, k: nat)
    requires Partly(d0, d, made, k + 1)
    ensures Partly(d0, d, made, k)
  {
    PartlyMeans(d0, d, made, k + 1);
  }

  /** If everything after it is gone, the beginning is undoable by itself. */
  lemma UndoneMore(d0: Disk, d: Disk, e: Disk, made: seq<Creation>, k: nat)
    requires k < |made| && Undoable(d0, d, made[..k + 1]) && RemovedFrom(d, e, made[k].path)
    ensures Undoable(d0, e, made[..k])
  {
    var all := made[..k + 1];
    assert all[k] == made[k] && all[..k] == made[..k];
    MadeLess(d0, d, e, all, k);
    PartlyMeans(d0, d, all, k + 1);
    PartlyMeans(d0, e, all, k);
    assert Stands(d0, d, all[k]);
    forall q: Path ensures Listed(made[..k], q) || SameAt(d0, e, q) {
      if Listed(all, q) && !Listed(made[..k], q) {
        var m :| m in all && m.path == q;
        assert m == all[k];
        assert View(d0, q) == View(e, q) == Absent;
      }
    }
    assert Downward(made[..k]);
  }

  /** Whether the file at the path is the one created: `stamp.is_some() && file_stamp(path).ok() == *stamp && ..`. */
  method StillMine(world: World, m: Creation) returns (mine: bool)
    requires world.Valid()
    modifies world
    ensures world.Looked() && (mine ==> m.stamp.Some? && StampRead(world.log, |old(world.log)|, m))
    ensures old(world.Quiet() && world.Faultless()) ==>
              |m.path| > 1 && View(old(world.disk), m.path).AFile? && m.stamp.Some? && PathStamp(old(world.disk), m.path) == m.stamp ==> mine
  {
    if m.stamp.None? {
      return false;
    }
    var stamp := FileStamp(world, m.path);
    if stamp != m.stamp {
      return false;
    }
    assert PathStamp(world.log[|world.log| - 1].after, m.path) == m.stamp;
    var regular := EnsureRegular(world, m.path);
    return regular.Ok?;
  }

  /** From instant `a` on, the path was once seen to carry the stamp. */
  ghost predicate StampRead(log: seq<Instant>, a: nat, m: Creation) {
    exists i :: a <= i < |log| && PathStamp(log[i].after, m.path) == m.stamp
  }

  lemma StandsRemovable(d0: Disk, d: Disk, m: Creation)
    requires WellFormed(d) && Stands(d0, d, m)
    ensures View(d, m.path[..|m.path| - 1]) == ADir
    ensures !m.directory ==> Removable(d, m.path, false) && View(d, m.path).AFile?
  {
    PrefixIsDirectory(d, m.path, |m.path| - 1);
  }

  /** At instant `t`, something the run had created was removed by its path; a file just after it was seen with the stamp it had. */
  ghost predicate Undid(log: seq<Instant>, a: nat, t: nat, m: Creation) {
    && a < t < |log| && log[t].step.Removed? && AtPath(log[t - 1].after, m.path, log[t].step.dir, log[t].step.name)
    && (!m.directory ==> m.stamp.Some? && StampRead(log[..t], a, m))
  }

  /** The removal, after the checks. */
  method RemoveMine(world: World, m: Creation, ghost a: nat) returns (done: bool)
    requires world.Valid() && m.path != [] && a <= |world.log|
    requires !m.directory ==> m.stamp.Some? && StampRead(world.log, a, m)
    modifies world
    ensures world.Continued() && world.Untouched() && old(world.deeds) <= world.deeds
    ensures !done ==> world.Looked()
    ensures done ==> |world.deeds| == |old(world.deeds)| + 1 && Undid(world.log, a, world.deeds[|old(world.deeds)|], m)
    ensures old(world.Quiet()) && done ==> RemovedFrom(old(world.disk), world.disk, m.path)
    ensures old(world.Quiet() && world.Faultless()) && Removable(old(world.disk), m.path, m.directory) ==> done
  {
    ghost var log := world.log;
    var removed := world.RemoveAt(m.path, m.directory);
    if removed.Ok? && !m.directory {
      ghost var i :| a <= i < |log| && PathStamp(log[i].after, m.path) == m.stamp;
      assert PathStamp(world.log[..|log| + 1][i].after, m.path) == m.stamp;
    }
    return removed.Ok?;
  }

  /** On a disk at rest: what undoing this takes. */
  ghost predicate Mine(d: Disk, m: Creation) {
    && |m.path| > 1 && View(d, m.path[..|m.path| - 1]) == ADir && Removable(d, m.path, m.directory)
    && (!m.directory ==> View(d, m.path).AFile? && m.stamp.Some? && PathStamp(d, m.path) == m.stamp)
  }

  /** The loop body of the rollback. */
  method UndoOne(world: World, m: Creation) returns (done: bool)
    requires world.Valid() && m.path != []
    modifies world
    ensures world.Continued() && world.Untouched() && old(world.deeds) <= world.deeds
    ensures !done ==> world.Looked()
    ensures done ==> |world.deeds| == |old(world.deeds)| + 1 && Undid(world.log, |old(world.log)|, world.deeds[|old(world.deeds)|], m)
    ensures old(world.Quiet()) && done ==> RemovedFrom(old(world.disk), world.disk, m.path)
    ensures old(world.Quiet() && world.Faultless()) && Mine(old(world.disk), m) ==> done
  {
    ghost var a := |world.log|;
    var checked := CheckedDirectory(world, m.path[..|m.path| - 1]);
    if checked.Err? {
      return false;
    }
    ghost var b := |world.log|;
    if !m.directory {
      var mine := StillMine(world, m);
      if !mine {
        return false;
      }
    }
    ghost var u := |world.deeds|;
    done := RemoveMine(world, m, b);
    if done {
      UndidStays(world.log, world.log, a, b, world.deeds[u], m);
    }
  }

  ghost predicate UndidOneOf(log: seq<Instant>, a: nat, t: nat, made: seq<Creation>) {
    exists m :: m in made && Undid(log, a, t, m)
  }

  /** Every deed is such a removal. */
  ghost predicate OnlyUndoes(log: seq<Instant>, a: nat, deeds: seq<nat>, u: nat, made: seq<Creation>) {
    forall k | u <= k < |deeds| :: UndidOneOf(log, a, deeds[k], made)
  }

  lemma UndidStays(log: seq<Instant>, log': seq<Instant>, a: nat, a': nat, t: nat, m: Creation)
    requires log <= log' && a <= a' && Undid(log, a', t, m)
    ensures Undid(log', a, t, m)
  {
    assert log'[..t] == log[..t];
  }

  lemma UndoesMore(log: seq<Instant>, log': seq<Instant>, a: nat, deeds: seq<nat>, deeds': seq<nat>, u: nat, made: seq<Creation>, m: Creation)
    requires log <= log' && deeds <= deeds' && u <= |deeds| && a <= |log| && m in made && OnlyUndoes(log, a, deeds, u, made)
    requires deeds' == deeds || (|deeds'| == |deeds| + 1 && Undid(log', |log|, deeds'[|deeds|], m))
    ensures OnlyUndoes(log', a, deeds', u, made)
  {
    forall k | u <= k < |deeds'| ensures UndidOneOf(log', a, deeds'[k], made) {
      if k < |deeds| {
        var n :| n in made && Undid(log, a, deeds[k], n);
        UndidStays(log, log', a, a, deeds[k], n);
      } else {
        UndidStays(log', log', a, |log|, deeds'[k], m);
      }
    }
  }

  /** Files have their stamps. */
  predicate Stamped(made: seq<Creation>) {
    forall m | m in made :: m.directory || m.stamp.Some?
  }

  /** What undoing one thing means for a disk at rest. */
  lemma UndoneOne(d0: Disk, d: Disk, e: Disk, made: seq<Creation>, k: nat, done: bool, whole: bool)
    requires k < |made| && Partly(d0, d, made, k + 1) && (whole ==> Undoable(d0, d, made[..k + 1]))
    requires if done then RemovedFrom(d, e, made[k].path) else e == d
    ensures Partly(d0, e, made, k) && (whole && done ==> Undoable(d0, e, made[..k]))
  {
    if done {
      MadeLess(d0, d, e, made, k);
      if whole {
        UndoneMore(d0, d, e, made, k);
      }
    } else {
      PartlyLess(d0, d, made, k);
    }
  }

  lemma CanUndo(d0: Disk, d: Disk, made: seq<Creation>, k: nat)
    requires k < |made| && Undoable(d0, d, made[..k + 1]) && Stamped(made)
    ensures Mine(d, made[k])
  {
    var all := made[..k + 1];
    PartlyMeans(d0, d, all, k + 1);
    assert all[k] == made[k] && Stands(d0, d, all[k]) && made[k] in made;
    StandsRemovable(d0, d, all[k]);
    if made[k].directory {
      LastIsEmpty(d0, d, all);
    }
  }

  /**
    The rollback. It removes only what the run created, and at rest it leaves everything else alone; if it is
    complete then, every path leads to what it led to before. With no call failing any more it is complete.
  */
  method RollBack(world: World, made: seq<Creation>, ghost rest: bool, ghost d0: Disk) returns (incomplete: bool)
    requires world.Valid() && forall m | m in made :: m.path != []
    requires rest ==> world.Quiet() && Undoable(d0, world.disk, made)
    modifies world
    ensures world.Continued() && world.Untouched() && old(world.deeds) <= world.deeds
    ensures OnlyUndoes(world.log, |old(world.log)|, world.deeds, |old(world.deeds)|, made)
    ensures rest && !incomplete ==> Restored(d0, world.disk)
    ensures rest ==> Partly(d0, world.disk, made, 0)
    ensures rest && old(world.Faultless()) && Stamped(made) ==> !incomplete
  {
    ghost var a, u := |world.log|, |world.deeds|;
    incomplete := false;
    assert made[..|made|] == made;
    var k := |made|;
    while k > 0
      invariant 0 <= k <= |made| && world.Continued() && world.Untouched() && old(world.deeds) <= world.deeds
      invariant OnlyUndoes(world.log, a, world.deeds, u, made)
      invariant rest ==> Partly(d0, world.disk, made, k) && (!incomplete ==> Undoable(d0, world.disk, made[..k]))
      invariant rest && old(world.Faultless()) && Stamped(made) ==> !incomplete
    {
      k := k - 1;
      ghost var d, log, deeds := world.disk, world.log, world.deeds;
      if rest && !incomplete && Stamped(made) {
        CanUndo(d0, d, made, k);
      }
      var done := UndoOne(world, made[k]);
      UndoesMore(log, world.log, a, deeds, world.deeds, u, made, made[k]);
      if rest {
        UndoneOne(d0, d, world.disk, made, k, done, !incomplete);
      }
      incomplete := incomplete || !done;
    }
    assert made[..0] == [];
    if rest && !incomplete {
      NothingLeft(d0, world.disk);
    }
  }
}
