/**
  A machine on which the migration runs while other processes use the same disk. Before every
  system call the other processes act; calls may fail, and reads may be short. What they do, which
  calls fail and how short reads are is fixed by arbitrary functions of the time of the call, so a
  statement about every `World` is a statement about every interleaving.
*/
module Worlds {
  import opened Outcomes
  import opened Disks
  import opened Sorting

  /** Steps that leave the disk alone but are worth finding again. */
  datatype Mark = Started | Committed

  /** Identity and stamp of a target. */
  datatype Version = Version(ino: Ino, stamp: Stamp)

  datatype Step =
    | Outside
    | Noted(mark: Mark)
    | Created(dir: Ino, name: Name, ino: Ino)
    | Wrote(ino: Ino, at: nat, data: seq<Byte>)
    | MadeDirectory(dir: Ino, name: Name, ino: Ino)
    | Renamed(dir: Ino, from: Name, to: Name, ino: Ino)
    | Removed(dir: Ino, name: Name, ino: Ino)
  {
    /** Steps by which the migration changes the disk. */
    predicate Changes() {
      !Outside? && !Noted?
    }
  }

  datatype Instant = Instant(before: Disk, step: Step, after: Disk)

  ghost predicate StepOk(t: Instant) {
    && WellFormed(t.before)
    && match t.step
       case Outside => WellFormed(t.after) && Grows(t.before, t.after)
       case Noted(_) => t.after == t.before
       case Created(dir, name, ino) =>
         && Linked(t.before, dir) && Edge(t.before, dir, name).None? && ino == t.before.next
         && t.after == CreateFile(t.before, dir, name)
       case Wrote(ino, at, data) =>
         && ino in t.before.nodes && t.before.nodes[ino].File?
         && t.after == WriteFile(t.before, ino, at, data)
       case MadeDirectory(dir, name, ino) =>
         && Linked(t.before, dir) && Edge(t.before, dir, name).None? && ino == t.before.next
         && t.after == MakeDirectory(t.before, dir, name)
       case Renamed(dir, from, to, ino) =>
         && CanRename(t.before, dir, from, to) && Edge(t.before, dir, from) == Some(ino)
         && t.after == RenameOver(t.before, dir, from, to)
       case Removed(dir, name, ino) =>
         && CanRemove(t.before, dir, name) && Edge(t.before, dir, name) == Some(ino)
         && t.after == RemoveName(t.before, dir, name)
  }

  lemma StepGrows(t: Instant)
    requires StepOk(t)
    ensures WellFormed(t.after) && Grows(t.before, t.after)
  {
    match t.step
    case Outside =>
    case Noted(_) =>
    case Created(dir, name, _) => CreateFileGrows(t.before, dir, name);
    case Wrote(ino, at, data) => WriteFileGrows(t.before, ino, at, data);
    case MadeDirectory(dir, name, _) => MakeDirectoryGrows(t.before, dir, name);
    case Renamed(dir, from, to, _) => RenameOverGrows(t.before, dir, from, to);
    case Removed(dir, name, _) => RemoveNameGrows(t.before, dir, name);
  }

  /** A record of a run: every instant follows from the one before, and outsiders rest from `horizon` on. */
  ghost predicate Chain(log: seq<Instant>, horizon: nat)
    decreases |log|
  {
    log == [] ||
    var k := |log| - 1;
    && Chain(log[..k], horizon)
    && StepOk(log[k])
    && (k > 0 ==> log[k].before == log[k - 1].after)
    && (log[k].step.Outside? && horizon <= k ==> log[k].after == log[k].before)
  }

  lemma {:induction false} ChainStep(log: seq<Instant>, horizon: nat, i: nat)
    requires Chain(log, horizon) && i < |log|
    ensures StepOk(log[i]) && WellFormed(log[i].after) && Grows(log[i].before, log[i].after)
    ensures i > 0 ==> log[i].before == log[i - 1].after
    ensures log[i].step.Outside? && horizon <= i ==> log[i].after == log[i].before
    decreases |log|
  {
    if i < |log| - 1 {
      ChainStep(log[..|log| - 1], horizon, i);
    } else {
      StepGrows(log[i]);
    }
  }

  lemma {:induction false} ChainGrows(log: seq<Instant>, horizon: nat, i: nat, j: nat)
    requires Chain(log, horizon) && i <= j < |log|
    ensures WellFormed(log[i].after) && Grows(log[i].after, log[j].after)
    decreases j
  {
    ChainStep(log, horizon, j);
    if i < j {
      ChainGrows(log, horizon, i, j - 1);
      GrowsTransitively(log[i].after, log[j - 1].after, log[j].after);
    }
  }

  /** A file found unchanged was unchanged all along. */
  lemma UnchangedBetween(log: seq<Instant>, horizon: nat, i: nat, j: nat, k: nat, x: Ino)
    requires Chain(log, horizon) && i <= j <= k < |log|
    requires x in log[i].after.nodes && log[i].after.nodes[x].File?
    ensures x in log[j].after.nodes && log[j].after.nodes[x].File? && x in log[k].after.nodes && log[k].after.nodes[x].File?
    ensures StampOf(log[k].after.nodes[x]) == StampOf(log[i].after.nodes[x]) ==>
              log[j].after.nodes[x] == log[i].after.nodes[x] == log[k].after.nodes[x]
  {
    ChainGrows(log, horizon, i, j);
    ChainGrows(log, horizon, j, k);
    ChainGrows(log, horizon, i, k);
    SameStampSameFile(log[i].after, log[j].after, x);
    SameStampSameFile(log[j].after, log[k].after, x);
    SameStampSameFile(log[i].after, log[k].after, x);
  }

  // ---------- observations: at some instant from `a` on ----------

  predicate IsKind(d: Disk, x: Ino, directory: bool) {
    x in d.nodes && if directory then d.nodes[x].Dir? else d.nodes[x].File?
  }

  ghost predicate EdgeSeen(log: seq<Instant>, a: nat, dir: Ino, name: Name, ino: Ino, directory: bool) {
    exists i :: a <= i < |log| && Edge(log[i].after, dir, name) == Some(ino) && IsKind(log[i].after, ino, directory)
  }

  ghost predicate AbsentSeen(log: seq<Instant>, a: nat, dir: Ino, name: Name) {
    exists i :: a <= i < |log| && Edge(log[i].after, dir, name).None?
  }

  ghost predicate RegularSeen(log: seq<Instant>, a: nat, ino: Ino) {
    exists i :: a <= i < |log| && ino in log[i].after.nodes && log[i].after.nodes[ino].Regular()
  }

  ghost predicate StampSeen(log: seq<Instant>, a: nat, ino: Ino, stamp: Stamp) {
    exists i :: a <= i < |log| && ino in log[i].after.nodes && StampOf(log[i].after.nodes[ino]) == stamp
  }

  /** Whether two files held the same bytes. */
  ghost predicate SameBytes(d: Disk, left: Ino, right: Ino) {
    && left in d.nodes && d.nodes[left].File? && right in d.nodes && d.nodes[right].File?
    && d.nodes[left].bytes == d.nodes[right].bytes
  }

  ghost predicate SameBytesSeen(log: seq<Instant>, a: nat, left: Ino, right: Ino) {
    exists i :: a <= i < |log| && SameBytes(log[i].after, left, right)
  }

  /** From instant `a` on, the node has not changed. */
  ghost predicate Steady(log: seq<Instant>, a: nat, x: Ino) {
    forall i | a <= i < |log| :: x in log[i].after.nodes && x in log[|log| - 1].after.nodes
                                 && log[i].after.nodes[x] == log[|log| - 1].after.nodes[x]
  }

  /** The contract of the other processes. */
  ghost predicate Lawful(environment: (nat, Disk) -> Disk, horizon: nat) {
    && (forall n, d :: WellFormed(d) ==> Grows(d, environment(n, d)) && WellFormed(environment(n, d)))
    && (forall n, d :: horizon <= n ==> environment(n, d) == d)
  }

  /** `deeds` lists the instants at which the migration changed the disk. */
  ghost predicate Lists(deeds: seq<nat>, log: seq<Instant>) {
    && (forall k | 0 <= k < |deeds| :: deeds[k] < |log| && log[deeds[k]].step.Changes())
    && (forall k, m | 0 <= k < m < |deeds| :: deeds[k] < deeds[m])
    && (forall i | 0 <= i < |log| && log[i].step.Changes() :: i in deeds)
  }

  /** Mentioning this unfolds `Proper`, which is kept folded elsewhere to keep proofs small. */
  ghost predicate Unfold(log: seq<Instant>, once: nat) {
    true
  }

  ghost predicate Proper(log: seq<Instant>, deeds: seq<nat>, horizon: nat, environment: (nat, Disk) -> Disk) {
    forall once: nat {:trigger Unfold(log, once)} :: Unfold(log, once) ==>
      Chain(log, horizon) && Lists(deeds, log) && Lawful(environment, horizon)
  }

  lemma Properly(log: seq<Instant>, deeds: seq<nat>, horizon: nat, environment: (nat, Disk) -> Disk)
    requires Proper(log, deeds, horizon, environment)
    ensures Chain(log, horizon) && Lists(deeds, log) && Lawful(environment, horizon)
    ensures log != [] ==> WellFormed(log[|log| - 1].after)
  {
    assert Unfold(log, 0);
    if log != [] {
      ChainStep(log, horizon, |log| - 1);
    }
  }

  lemma ProperlyGrown(log: seq<Instant>, deeds: seq<nat>, horizon: nat, environment: (nat, Disk) -> Disk, t: Instant)
    requires log != [] && Proper(log, deeds, horizon, environment)
    requires t.before == log[|log| - 1].after && StepOk(t)
    requires t.step.Outside? && horizon <= |log| ==> t.after == t.before
    ensures Proper(log + [t], if t.step.Changes() then deeds + [|log|] else deeds, horizon, environment)
  {
    Properly(log, deeds, horizon, environment);
    ChainGrown(log, horizon, t);
    ListsGrown(log, deeds, t);
  }

  lemma ChainGrown(log: seq<Instant>, horizon: nat, t: Instant)
    requires log != [] && Chain(log, horizon) && t.before == log[|log| - 1].after && StepOk(t)
    requires t.step.Outside? && horizon <= |log| ==> t.after == t.before
    ensures Chain(log + [t], horizon)
  {
    assert (log + [t])[..|log|] == log;
  }

  lemma ListsGrown(log: seq<Instant>, deeds: seq<nat>, t: Instant)
    requires Lists(deeds, log)
    ensures Lists(if t.step.Changes() then deeds + [|log|] else deeds, log + [t])
  {
    var log' := log + [t];
    var deeds' := if t.step.Changes() then deeds + [|log|] else deeds;
    forall k | 0 <= k < |deeds'| ensures deeds'[k] < |log'| && log'[deeds'[k]].step.Changes() {
      assert k < |deeds| ==> deeds'[k] == deeds[k] && log'[deeds[k]] == log[deeds[k]];
    }
    forall i | 0 <= i < |log'| && log'[i].step.Changes() ensures i in deeds' {
      if i < |log| {
        assert log'[i] == log[i] && i in deeds;
        var k :| 0 <= k < |deeds| && deeds[k] == i;
        assert deeds'[k] == i;
      } else {
        assert deeds'[|deeds|] == i;
      }
    }
  }

  /** While outsiders rest and the migration does nothing, the disk stays as it is. */
  lemma {:induction false} StillDisk(log: seq<Instant>, horizon: nat, a: nat, i: nat)
    requires Chain(log, horizon) && horizon <= a + 1 && a <= i < |log|
    requires forall k | a < k <= i :: !log[k].step.Changes()
    ensures log[i].after == log[a].after
    decreases i
  {
    if a < i {
      ChainStep(log, horizon, i);
      StillDisk(log, horizon, a, i - 1);
    }
  }

  /** From instant `a` on, the changing steps are the deeds from `u` on. */
  ghost predicate NewDeeds(log: seq<Instant>, a: nat, deeds: seq<nat>, u: nat) {
    && (forall k | u <= k < |deeds| :: a <= deeds[k] < |log| && log[deeds[k]].step.Changes())
    && (forall i | a <= i < |log| && log[i].step.Changes() :: exists k :: u <= k < |deeds| && deeds[k] == i)
    && (forall k, m | u <= k < m < |deeds| :: deeds[k] < deeds[m])
  }

  lemma DeedsAreNew(log: seq<Instant>, log': seq<Instant>, deeds: seq<nat>, deeds': seq<nat>)
    requires Lists(deeds, log) && Lists(deeds', log') && log <= log' && deeds <= deeds'
    ensures NewDeeds(log', |log|, deeds', |deeds|)
  {
    forall k | |deeds| <= k < |deeds'| ensures deeds'[k] !in deeds {
    }
    forall i | |log| <= i < |log'| && log'[i].step.Changes()
      ensures exists k :: |deeds| <= k < |deeds'| && deeds'[k] == i
    {
      var k :| 0 <= k < |deeds'| && deeds'[k] == i;
    }
  }

  lemma {:induction false} OneDeed(log: seq<Instant>, horizon: nat, a: nat, c: nat)
    requires Chain(log, horizon) && horizon <= a + 1 && a < |log|
    requires forall i | a < i < |log| && log[i].step.Changes() :: i == c
    ensures forall i | a <= i < |log| :: log[i].after == log[a].after || log[i].after == log[|log| - 1].after
    ensures a < c < |log| ==> log[c].after == log[|log| - 1].after
  {
    if a < c < |log| {
      StillDisk(log, horizon, c, |log| - 1);
    }
    forall i | a <= i < |log|
      ensures log[i].after == log[a].after || log[i].after == log[|log| - 1].after
    {
      if i < c {
        StillDisk(log, horizon, a, i);
      } else {
        StillDisk(log, horizon, i, |log| - 1);
      }
    }
  }

  /** What opening a child gives on a disk at rest. */
  function ChildOf(d: Disk, dir: Ino, name: Name, directory: bool): Result<Ino> {
    var edge := Edge(d, dir, name);
    if edge.None? then Err(NotFound)
    else if edge.value in d.nodes && (if directory then d.nodes[edge.value].Dir? else d.nodes[edge.value].Regular()) then Ok(edge.value)
    else Err(Other)
  }

  /** What `symlink_metadata` tells about a path. */
  datatype Meta = Meta(directory: bool, link: bool, size: nat, modified: nat)

  function MetaAt(d: Disk, path: Path): Option<Meta> {
    var x := Resolve(d, path);
    if x.None? || x.value !in d.nodes then None
    else Some(match d.nodes[x.value]
              case File(bytes, mtime, _, _) => Meta(false, false, |bytes|, mtime)
              case Dir(_, _) => Meta(true, false, 0, 0)
              case Link => Meta(false, true, 0, 0))
  }

  predicate IsFile(d: Disk, x: Ino) {
    x in d.nodes && d.nodes[x].File?
  }

  class World {
    var disk: Disk
    var now: nat
    var serial: nat                    // the counter behind staging names
    var commits: nat
    var reported: seq<(nat, nat)>      // what the progress callback was given
    ghost var log: seq<Instant>
    ghost var deeds: seq<nat>
    const environment: (nat, Disk) -> Disk
    const fails: nat -> bool
    const amount: nat -> nat
    const horizon: nat

    ghost predicate Valid()
      reads this
    {
      now == |log| > 0 && log[|log| - 1].after == disk && Proper(log, deeds, horizon, environment)
    }

    /** No other process changes the disk any more. */
    ghost predicate Quiet()
      reads this
    {
      horizon <= now
    }

    /** No call fails any more. */
    ghost predicate Faultless()
      reads this
    {
      forall n | now <= n :: !fails(n)
    }

    constructor (disk: Disk, environment: (nat, Disk) -> Disk, fails: nat -> bool, amount: nat -> nat, horizon: nat)
      requires WellFormed(disk) && Lawful(environment, horizon)
      ensures Valid() && this.disk == disk && commits == 0 && reported == [] && deeds == [] && now == 1
      ensures this.fails == fails && this.horizon == horizon
    {
      this.disk, now, serial, commits, reported := disk, 1, 0, 0, [];
      this.environment, this.fails, this.amount, this.horizon := environment, fails, amount, horizon;
      this.log, deeds := [Instant(disk, Noted(Started), disk)], [];
      new;
      assert log[..0] == [] && Chain(log[..0], horizon) && StepOk(log[0]);
    }

    /** The run went on. */
    twostate predicate Continued()
      reads this
    {
      Valid() && old(log) <= log
    }

    /** The migration changed nothing; only outsiders may have. */
    twostate predicate Looked()
      reads this
    {
      && Continued() && deeds == old(deeds) && Untouched()
      && (old(Quiet()) ==> disk == old(disk))
    }

    /** The run went on, and nothing was committed. */
    twostate predicate Advanced()
      reads this
    {
      Continued() && commits == old(commits) && old(serial) <= serial && old(deeds) <= deeds && old(reported) <= reported
    }

    /** The counters that are not part of the disk. */
    twostate predicate Untouched()
      reads this
    {
      serial == old(serial) && commits == old(commits) && reported == old(reported)
    }

    lemma Sound()
      requires Valid()
      ensures WellFormed(disk)
    {
      Properly(log, deeds, horizon, environment);
    }

    twostate lemma Grown()
      requires old(Valid()) && Continued()
      ensures WellFormed(old(disk)) && WellFormed(disk) && Grows(old(disk), disk)
    {
      Properly(log, deeds, horizon, environment);
      ChainGrows(log, horizon, |old(log)| - 1, |log| - 1);
    }

    /** A file found unchanged since instant `i` was unchanged all along. */
    lemma Unchanged(i: nat, j: nat, x: Ino)
      requires Valid() && i <= j < |log| && IsFile(log[i].after, x)
      ensures IsFile(log[j].after, x) && IsFile(disk, x)
      ensures StampOf(disk.nodes[x]) == StampOf(log[i].after.nodes[x]) ==>
                log[j].after.nodes[x] == log[i].after.nodes[x] == disk.nodes[x]
    {
      Properly(log, deeds, horizon, environment);
      UnchangedBetween(log, horizon, i, j, |log| - 1, x);
    }

    /** At rest, every instant of a look has the same disk. */
    twostate lemma AtRest()
      requires old(Valid()) && Looked() && old(Quiet())
      ensures WellFormed(disk) && forall i | |old(log)| <= i < |log| :: log[i].after == disk
    {
      Properly(old(log), old(deeds), horizon, environment);
      Properly(log, deeds, horizon, environment);
      forall i | |old(log)| <= i < |log|
        ensures log[i].after == disk
      {
        StillDisk(log, horizon, |old(log)| - 1, i);
        StillDisk(log, horizon, |old(log)| - 1, |log| - 1);
      }
    }

    /** At rest, the disk takes no other shape during a call with one deed than those before and after it. */
    twostate lemma Settled()
      requires old(Valid()) && Continued() && old(Quiet())
      requires deeds == old(deeds) || (|deeds| == |old(deeds)| + 1 && deeds[..|old(deeds)|] == old(deeds))
      ensures forall i | |old(log)| <= i < |log| :: log[i].after == old(disk) || log[i].after == disk
      ensures deeds != old(deeds) ==> deeds[|old(deeds)|] < |log| && log[deeds[|old(deeds)|]].after == disk
    {
      Deeds();
      Properly(log, deeds, horizon, environment);
      OneDeed(log, horizon, |old(log)| - 1, if deeds == old(deeds) then |log| else deeds[|old(deeds)|]);
    }

    /** Every step that changed the disk since is a new deed. */
    twostate lemma Deeds()
      requires old(Valid()) && Continued() && old(deeds) <= deeds
      ensures NewDeeds(log, |old(log)|, deeds, |old(deeds)|)
    {
      Properly(old(log), old(deeds), horizon, environment);
      Properly(log, deeds, horizon, environment);
      DeedsAreNew(old(log), log, old(deeds), deeds);
    }

    /** Other processes act. */
    method Interfere()
      requires Valid()
      modifies this
      ensures Looked() && log == old(log) + [Instant(old(disk), Outside, disk)] && WellFormed(disk) && Grows(old(disk), disk)
    {
      Properly(log, deeds, horizon, environment);
      ghost var t := Instant(disk, Outside, environment(now, disk));
      ProperlyGrown(log, deeds, horizon, environment, t);
      disk := environment(now, disk);
      log := log + [t];
      now := now + 1;
    }

    /** Marks an instant; nothing happens on the disk. */
    method Note(mark: Mark)
      requires Valid()
      modifies this
      ensures Looked() && disk == old(disk) && log == old(log) + [Instant(disk, Noted(mark), disk)]
    {
      Properly(log, deeds, horizon, environment);
      ghost var t := Instant(disk, Noted(mark), disk);
      ProperlyGrown(log, deeds, horizon, environment, t);
      log := log + [t];
      now := now + 1;
    }

    /** A step of the migration that changes the disk. */
    method Act(step: Step, after: Disk)
      requires Valid() && step.Changes() && StepOk(Instant(disk, step, after))
      modifies this
      ensures Continued() && Untouched() && disk == after && log == old(log) + [Instant(old(disk), step, after)]
      ensures deeds == old(deeds) + [|old(log)|] && WellFormed(disk)
    {
      ghost var t := Instant(disk, step, after);
      StepGrows(t);
      ProperlyGrown(log, deeds, horizon, environment, t);
      deeds := deeds + [|log|];
      log := log + [t];
      disk, now := after, now + 1;
    }

    // ---------- system calls that only look ----------

    /** `child(name, directory, false)`: opens without following links, then checks the kind and the link count. */
    method OpenChild(dir: Ino, name: Name, directory: bool) returns (r: Result<Ino>)
      requires Valid()
      modifies this
      ensures Looked() && |old(log)| < |log|
      ensures r.Ok? ==> EdgeSeen(log, |old(log)|, dir, name, r.value, directory)
      ensures r.Ok? && !directory ==> RegularSeen(log, |old(log)|, r.value)
      ensures r == Err(NotFound) ==> AbsentSeen(log, |old(log)|, dir, name)
      ensures old(Quiet()) ==> r == ChildOf(old(disk), dir, name, directory) || (r == Err(Other) && !old(Faultless()))
    {
      Interfere();
      if fails(now) {
        return Err(Other);
      }
      var edge := Edge(disk, dir, name);
      if edge.None? {
        assert Edge(log[|log| - 1].after, dir, name).None?;
        return Err(NotFound);
      }
      var ino := edge.value;
      ghost var k := |log| - 1;
      assert Edge(log[k].after, dir, name) == Some(ino) && Hangs(disk, ino, Place(dir, name));
      if if directory then !disk.nodes[ino].Dir? else disk.nodes[ino].Link? {
        return Err(Other);
      }
      Interfere();
      if fails(now) || !IsKind(disk, ino, directory) {
        return Err(Other);
      }
      assert IsKind(log[k].after, ino, directory);
      if !directory {
        Interfere();
        if fails(now) || !IsKind(disk, ino, directory) || !disk.nodes[ino].Regular() {
          return Err(Other);
        }
        assert log[|log| - 1].after.nodes[ino].Regular();
      }
      return Ok(ino);
    }

    /** `retained_stamp` of an open file. */
    method Stat(ino: Ino) returns (r: Result<Stamp>)
      requires Valid()
      modifies this
      ensures Looked() && |old(log)| < |log|
      ensures r.Ok? ==> ino in disk.nodes && r.value == StampOf(disk.nodes[ino])
      ensures old(Faultless() && Quiet()) && ino in old(disk).nodes ==> r.Ok?
    {
      Interfere();
      if fails(now) || ino !in disk.nodes {
        return Err(Other);
      }
      return Ok(StampOf(disk.nodes[ino]));
    }

    /** `verify_regular` of an open file. */
    method CheckRegular(ino: Ino) returns (r: Result<()>)
      requires Valid()
      modifies this
      ensures Looked() && |old(log)| < |log|
      ensures r.Ok? ==> IsFile(disk, ino) && RegularSeen(log, |old(log)|, ino)
      ensures old(Quiet()) && r.Ok? ==> old(disk).nodes[ino].Regular()
      ensures old(Quiet() && Faultless()) && IsFile(old(disk), ino) && old(disk).nodes[ino].Regular() ==> r.Ok?
    {
      Interfere();
      if fails(now) || !IsFile(disk, ino) || !disk.nodes[ino].Regular() {
        return Err(Other);
      }
      assert log[|log| - 1].after.nodes[ino].Regular();
      return Ok(());
    }

    /** One positional read; it returns nothing exactly at the end of the file, and may return less than asked for. */
    method ReadAt(ino: Ino, offset: nat, limit: nat) returns (r: Result<seq<Byte>>)
      requires Valid() && limit > 0
      modifies this
      ensures Looked() && |old(log)| < |log|
      ensures r.Ok? ==> IsFile(disk, ino) && |r.value| <= limit && (r.value == [] <==> |disk.nodes[ino].bytes| <= offset)
      ensures r.Ok? && r.value != [] ==> offset + |r.value| <= |disk.nodes[ino].bytes|
                                         && r.value == disk.nodes[ino].bytes[offset..offset + |r.value|]
      ensures old(Faultless() && Quiet()) && IsFile(old(disk), ino) ==> r.Ok?
    {
      Interfere();
      if fails(now) || !IsFile(disk, ino) {
        return Err(Other);
      }
      var bytes := disk.nodes[ino].bytes;
      if |bytes| <= offset {
        return Ok([]);
      }
      var most := if |bytes| - offset < limit then |bytes| - offset else limit;
      var n := if amount(now) < most then amount(now) + 1 else most;
      return Ok(bytes[offset..offset + n]);
    }

    /** `symlink_metadata` of a path. */
    method Lstat(path: Path) returns (r: Result<Meta>)
      requires Valid()
      modifies this
      ensures Looked() && |old(log)| < |log|
      ensures r.Ok? ==> MetaAt(disk, path) == Some(r.value)
      ensures r == Err(NotFound) ==> MetaAt(disk, path).None?
      ensures old(Faultless() && Quiet()) ==> if MetaAt(old(disk), path).Some? then r.Ok? else r == Err(NotFound)
    {
      Interfere();
      if fails(now) {
        return Err(Other);
      }
      var meta := MetaAt(disk, path);
      return if meta.Some? then Ok(meta.value) else Err(NotFound);
    }

    /** `read_dir` of a path: the names in the directory, in any order. */
    method ReadDir(path: Path) returns (r: Result<seq<Name>>)
      requires Valid()
      modifies this
      ensures Looked() && |old(log)| < |log|
      ensures r.Ok? ==> View(disk, path) == ADir && Distinct(r.value)
      ensures r.Ok? ==> forall n :: n in r.value <==> Edge(disk, Resolve(disk, path).value, n).Some?
      ensures old(Faultless() && Quiet()) && View(old(disk), path) == ADir ==> r.Ok?
    {
      Interfere();
      if fails(now) || View(disk, path) != ADir {
        return Err(Other);
      }
      var rest := disk.nodes[Resolve(disk, path).value].children.Keys;
      var names: seq<Name> := [];
      while rest != {}
        invariant Distinct(names) && forall n :: n in names ==> n !in rest
        invariant forall n :: n in names || n in rest <==> Edge(disk, Resolve(disk, path).value, n).Some?
        decreases rest
      {
        var n :| n in rest;
        names, rest := names + [n], rest - {n};
      }
      return Ok(names);
    }

    /** `sync_all`. */
    method Sync() returns (r: Result<()>)
      requires Valid()
      modifies this
      ensures Looked() && |old(log)| < |log| && (old(Faultless()) ==> r.Ok?)
    {
      Interfere();
      return if fails(now) then Err(Other) else Ok(());
    }

    // ---------- calls into the code that asked for the migration ----------

    /** The progress callback: it may do anything to the disk, and may refuse to go on. */
    method Report(done: nat, total: nat) returns (r: Result<()>)
      requires Valid()
      modifies this
      ensures Continued() && deeds == old(deeds) && serial == old(serial) && commits == old(commits)
      ensures |old(log)| < |log| && (old(Quiet()) ==> disk == old(disk))
      ensures reported == old(reported) + [(done, total)]
      ensures old(Faultless()) ==> r.Ok?
    {
      Interfere();
      reported := reported + [(done, total)];
      return if fails(now) then Err(Other) else Ok(());
    }

    /** The caller's transaction that publishes the new locations. */
    method Commit() returns (r: Result<()>)
      requires Valid()
      modifies this
      ensures Continued() && deeds == old(deeds) && serial == old(serial) && reported == old(reported)
      ensures commits == old(commits) + 1
      ensures |old(log)| < |log| && log[|old(log)|] == Instant(old(disk), Noted(Committed), old(disk))
      ensures old(Quiet()) ==> disk == old(disk)
      ensures old(Faultless()) ==> r.Ok?
    {
      Note(Committed);
      commits := commits + 1;
      Interfere();
      return if fails(now) then Err(Other) else Ok(());
    }

    // ---------- system calls that change the disk ----------

    /** `child(name, false, true)`: creates a file that must not exist, then checks its link count. */
    method CreateNew(dir: Ino, name: Name) returns (r: Result<Ino>)
      requires Valid()
      modifies this
      ensures Continued() && Untouched() && |old(log)| < |log|
      ensures deeds == old(deeds) || deeds == old(deeds) + [|old(log)| + 1]
      ensures deeds != old(deeds) ==> |old(log)| + 1 < |log| && log[|old(log)| + 1].step.Created?
                                      && log[|old(log)| + 1].step.dir == dir && log[|old(log)| + 1].step.name == name
      ensures r.Ok? ==> deeds != old(deeds) && log[|old(log)| + 1].step == Created(dir, name, r.value)
      ensures r == Err(AlreadyExists) ==> deeds == old(deeds)
      ensures old(Quiet()) && deeds == old(deeds) ==> disk == old(disk)
      ensures old(Quiet()) && deeds != old(deeds) ==>
                Linked(old(disk), dir) && Edge(old(disk), dir, name).None? && disk == CreateFile(old(disk), dir, name)
      ensures old(Quiet()) && r.Ok? ==> r.value == old(disk).next
      ensures old(Quiet()) && r == Err(AlreadyExists) ==> Edge(old(disk), dir, name).Some?
      ensures old(Quiet() && Faultless()) && Linked(old(disk), dir) ==>
                if Edge(old(disk), dir, name).None? then r.Ok? else r == Err(AlreadyExists)
    {
      Interfere();
      if fails(now) {
        return Err(Other);
      }
      if Edge(disk, dir, name).Some? {
        return Err(AlreadyExists);
      }
      if !Linked(disk, dir) {
        return Err(NotFound);
      }
      var ino := disk.next;
      Act(Created(dir, name, ino), CreateFile(disk, dir, name));
      Interfere();
      if fails(now) || !IsFile(disk, ino) || !disk.nodes[ino].Regular() {
        return Err(Other);
      }
      return Ok(ino);
    }

    /** `write_all` at the position reached so far. */
    method WriteAll(ino: Ino, at: nat, data: seq<Byte>) returns (r: Result<()>)
      requires Valid()
      modifies this
      ensures Continued() && Untouched() && |old(log)| < |log|
      ensures deeds == old(deeds) || deeds == old(deeds) + [|old(log)| + 1]
      ensures deeds != old(deeds) ==> |old(log)| + 1 < |log| && log[|old(log)| + 1].step == Wrote(ino, at, data)
      ensures r.Ok? <==> deeds != old(deeds)
      ensures old(Quiet()) && r.Err? ==> disk == old(disk)
      ensures old(Quiet()) && r.Ok? ==> IsFile(old(disk), ino) && disk == WriteFile(old(disk), ino, at, data)
      ensures old(Faultless() && Quiet()) && IsFile(old(disk), ino) ==> r.Ok?
    {
      Interfere();
      if fails(now) || !IsFile(disk, ino) {
        return Err(Other);
      }
      Act(Wrote(ino, at, data), WriteFile(disk, ino, at, data));
      return Ok(());
    }

    /** `mkdirat`. */
    method MakeDir(dir: Ino, name: Name) returns (r: Result<()>)
      requires Valid()
      modifies this
      ensures Continued() && Untouched() && |old(log)| < |log|
      ensures deeds == old(deeds) || deeds == old(deeds) + [|old(log)| + 1]
      ensures deeds != old(deeds) ==> |old(log)| + 1 < |log| && log[|old(log)| + 1].step.MadeDirectory?
                                      && log[|old(log)| + 1].step.dir == dir && log[|old(log)| + 1].step.name == name
      ensures r.Ok? <==> deeds != old(deeds)
      ensures old(Quiet()) && r.Err? ==> disk == old(disk)
      ensures old(Quiet()) && r.Ok? ==> Edge(old(disk), dir, name).None? && Linked(old(disk), dir) && disk == MakeDirectory(old(disk), dir, name)
      ensures old(Quiet() && Faultless()) && Linked(old(disk), dir) && Edge(old(disk), dir, name).None? ==> r.Ok?
    {
      Interfere();
      if fails(now) {
        return Err(Other);
      }
      if Edge(disk, dir, name).Some? {
        return Err(AlreadyExists);
      }
      if !Linked(disk, dir) {
        return Err(NotFound);
      }
      Act(MadeDirectory(dir, name, disk.next), MakeDirectory(disk, dir, name));
      return Ok(());
    }

    /** `renameat` within one directory. */
    method RenameFile(dir: Ino, from: Name, to: Name) returns (r: Result<()>)
      requires Valid()
      modifies this
      ensures Continued() && Untouched() && |old(log)| < |log|
      ensures deeds == old(deeds) || deeds == old(deeds) + [|old(log)| + 1]
      ensures deeds != old(deeds) ==> |old(log)| + 1 < |log| && log[|old(log)| + 1].step.Renamed?
                                      && log[|old(log)| + 1].step.dir == dir && log[|old(log)| + 1].step.from == from && log[|old(log)| + 1].step.to == to
      ensures deeds != old(deeds) ==> |log| == |old(log)| + 2
      ensures r.Ok? <==> deeds != old(deeds)
      ensures old(Quiet()) && r.Err? ==> disk == old(disk)
      ensures old(Quiet()) && r.Ok? ==> CanRename(old(disk), dir, from, to) && disk == RenameOver(old(disk), dir, from, to)
      ensures old(Quiet() && Faultless()) && CanRename(old(disk), dir, from, to) ==> r.Ok?
    {
      Interfere();
      if fails(now) {
        return Err(Other);
      }
      if !CanRename(disk, dir, from, to) {
        return Err(if Edge(disk, dir, from).None? then NotFound else Other);
      }
      Act(Renamed(dir, from, to, Edge(disk, dir, from).value), RenameOver(disk, dir, from, to));
      return Ok(());
    }

    // ---------- calls by path, which look the path up at the instant of the call ----------

    /** `File::open`. */
    method OpenPath(path: Path) returns (r: Result<Ino>)
      requires Valid()
      modifies this
      ensures Looked() && |old(log)| < |log|
      ensures r.Ok? ==> Resolve(disk, path) == Some(r.value) && r.value in disk.nodes
      ensures old(Quiet() && Faultless()) && (View(old(disk), path).AFile? || View(old(disk), path).ADir?) ==> r.Ok?
    {
      Interfere();
      var x := Resolve(disk, path);
      if fails(now) || x.None? || x.value !in disk.nodes || disk.nodes[x.value].Link? {
        return Err(if x.None? then NotFound else Other);
      }
      return Ok(x.value);
    }

    /** The call did one thing, right after a last step of the others. */
    twostate predicate Did(step: Step)
      reads this
    {
      && |log| == |old(log)| + 2 && deeds == old(deeds) + [|old(log)| + 1]
      && log[|old(log)|].step.Outside? && log[|old(log)| + 1].step == step
    }

    /** `OpenOptions::new().write(true).create_new(true).open(path)`. */
    method CreateNewAt(path: Path) returns (r: Result<Ino>)
      requires Valid() && path != []
      modifies this
      ensures Continued() && Untouched() && |old(log)| < |log|
      ensures r.Err? ==> Looked()
      ensures r.Ok? ==> |old(log)| + 1 < |log| && log[|old(log)| + 1].step.Created? && Did(log[|old(log)| + 1].step)
                        && AtPath(log[|old(log)|].after, path, log[|old(log)| + 1].step.dir, log[|old(log)| + 1].step.name)
                        && log[|old(log)| + 1].step.ino == r.value
      ensures old(Quiet()) && r.Ok? ==>
                && View(old(disk), path[..|path| - 1]) == ADir && Resolve(old(disk), path).None? && r.value == old(disk).next
                && disk == CreateFile(old(disk), Resolve(old(disk), path[..|path| - 1]).value, path[|path| - 1])
      ensures old(Quiet() && Faultless()) && View(old(disk), path[..|path| - 1]) == ADir && Resolve(old(disk), path).None? ==> r.Ok?
    {
      Interfere();
      var up, name := path[..|path| - 1], path[|path| - 1];
      if fails(now) || Resolve(disk, path).Some? {
        return Err(if Resolve(disk, path).Some? then AlreadyExists else Other);
      }
      if View(disk, up) != ADir {
        return Err(NotFound);
      }
      ReachedLinked(disk, up);
      r := Ok(disk.next);
      Act(Created(Resolve(disk, up).value, name, disk.next), CreateFile(disk, Resolve(disk, up).value, name));
    }

    /** `create_dir`. */
    method MakeDirAt(path: Path) returns (r: Result<()>)
      requires Valid() && path != []
      modifies this
      ensures Continued() && Untouched() && |old(log)| < |log|
      ensures r.Err? ==> Looked()
      ensures r.Ok? ==> |old(log)| + 1 < |log| && log[|old(log)| + 1].step.MadeDirectory? && Did(log[|old(log)| + 1].step)
                        && AtPath(log[|old(log)|].after, path, log[|old(log)| + 1].step.dir, log[|old(log)| + 1].step.name)
      ensures old(Quiet()) && r.Ok? ==>
                && View(old(disk), path[..|path| - 1]) == ADir && Resolve(old(disk), path).None?
                && disk == MakeDirectory(old(disk), Resolve(old(disk), path[..|path| - 1]).value, path[|path| - 1])
      ensures old(Quiet() && Faultless()) && View(old(disk), path[..|path| - 1]) == ADir && Resolve(old(disk), path).None? ==> r.Ok?
    {
      Interfere();
      var up, name := path[..|path| - 1], path[|path| - 1];
      if fails(now) || Resolve(disk, path).Some? {
        return Err(if Resolve(disk, path).Some? then AlreadyExists else Other);
      }
      if View(disk, up) != ADir {
        return Err(NotFound);
      }
      ReachedLinked(disk, up);
      Act(MadeDirectory(Resolve(disk, up).value, name, disk.next), MakeDirectory(disk, Resolve(disk, up).value, name));
      return Ok(());
    }

    /** `remove_dir`, which demands an empty directory, or `remove_file`. */
    method RemoveAt(path: Path, directory: bool) returns (r: Result<()>)
      requires Valid() && path != []
      modifies this
      ensures Continued() && Untouched() && |old(log)| < |log|
      ensures r.Err? ==> Looked()
      ensures r.Ok? ==> |old(log)| + 1 < |log| && log[|old(log)| + 1].step.Removed? && Did(log[|old(log)| + 1].step)
                        && AtPath(log[|old(log)|].after, path, log[|old(log)| + 1].step.dir, log[|old(log)| + 1].step.name)
                        && Removable(log[|old(log)|].after, path, directory)
      ensures old(Quiet()) && r.Ok? ==>
                && View(old(disk), path[..|path| - 1]) == ADir && CanRemove(old(disk), Resolve(old(disk), path[..|path| - 1]).value, path[|path| - 1])
                && disk == RemoveName(old(disk), Resolve(old(disk), path[..|path| - 1]).value, path[|path| - 1])
      ensures old(Quiet() && Faultless()) && Removable(old(disk), path, directory) ==> r.Ok?
    {
      Interfere();
      if fails(now) || !Removable(disk, path, directory) {
        return Err(if Resolve(disk, path).None? then NotFound else Other);
      }
      PrefixIsDirectory(disk, path, |path| - 1);
      var dir, name := Resolve(disk, path[..|path| - 1]).value, path[|path| - 1];
      Act(Removed(dir, name, Edge(disk, dir, name).value), RemoveName(disk, dir, name));
      return Ok(());
    }
  }

  /** The path ends with this name in this directory. */
  predicate AtPath(d: Disk, path: Path, dir: Ino, name: Name) {
    path != [] && Resolve(d, path[..|path| - 1]) == Some(dir) && path[|path| - 1] == name
  }

  /** What the path leads to is of the kind the call removes. */
  predicate Removable(d: Disk, path: Path, directory: bool) {
    var x := Resolve(d, path);
    x.Some? && x.value in d.nodes && if directory then d.nodes[x.value].Dir? && d.nodes[x.value].children == map[] else !d.nodes[x.value].Dir?
  }
}
