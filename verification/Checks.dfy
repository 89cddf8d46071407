/** Preparing a plan, and checking the source and the targets against it. */
module Checks {
  import opened Outcomes
  import opened Disks
  import opened Worlds
  import opened Sorting
  import opened Scans
  import opened Retained
  import opened Plans

  // ---------- the source ----------

  /** From instant `a` on, the recorded source was seen in every part. */
  ghost predicate SourceSeen(log: seq<Instant>, a: nat, plan: Plan)
    requires plan.source.Shaped()
  {
    && ChainSeen(log, a, plan.source) && ChainSeen(log, a, plan.destination)
    && (forall h | h in plan.held :: SourceEntrySeen(log, a, plan, h))
    && ListingSeen(log, a, plan.source.path, plan.entries)
  }

  ghost predicate SourceEntrySeen(log: seq<Instant>, a: nat, plan: Plan, h: Held)
    requires plan.source.Shaped()
  {
    HeldSeen(log, a, plan.source, plan.held, h)
    && (!h.entry.directory ==> h.stamp.Some? && StampSeen(log, a, h.ino, h.stamp.value))
  }

  /** The source is as recorded: same identities, same stamps, nothing missing and nothing added. */
  ghost predicate SourceHolds(d: Disk, plan: Plan) {
    && ChainHolds(d, plan.source) && ChainHolds(d, plan.destination)
    && (forall h | h in plan.held :: EntryHolds(d, plan.source.path, h) && StampHolds(d, h))
    && Listing(d, plan.source.path, plan.entries) && plan.source.path != []
  }

  ghost predicate Shaped(plan: Plan) {
    plan.source.Shaped() && plan.destination.Shaped() && Snapshot(plan.entries) && Records(plan.held, plan.entries)
  }

  lemma SourceAtRest(log: seq<Instant>, a: nat, plan: Plan, d: Disk)
    requires WellFormed(d) && Shaped(plan) && SourceSeen(log, a, plan) && forall i | a <= i < |log| :: log[i].after == d
    requires plan.source.path != []
    ensures SourceHolds(d, plan)
  {
    ChainAtRest(log, a, plan.source, d);
    ChainAtRest(log, a, plan.destination, d);
    SeenAtRest(log, a, plan.source.path, plan.entries, d);
    forall h | h in plan.held ensures EntryHolds(d, plan.source.path, h) && StampHolds(d, h) {
      assert SourceEntrySeen(log, a, plan, h);
      HeldAtRest(log, a, plan.source, plan.held, h, d);
    }
  }

  lemma SourceReachable(d: Disk, plan: Plan, h: Held)
    requires SourceHolds(d, plan) && Shaped(plan) && h in plan.held
    ensures Reachable(d, plan.source, plan.held, h)
  {
    var i :| 0 <= i < |plan.held| && plan.held[i] == h;
    assert plan.entries[i] in plan.entries;
    RecordsHold(d, plan.source, plan.held, plan.entries, h.entry.relative);
  }

  /** One entry of the source is seen once more as it was recorded. */
  method VerifyHeld(world: World, plan: Plan, h: Held) returns (r: Result<()>)
    requires world.Valid() && Shaped(plan) && h in plan.held && h.entry.relative != []
    modifies world
    ensures world.Looked()
    ensures r.Ok? ==> SourceEntrySeen(world.log, |old(world.log)|, plan, h)
    ensures old(world.Quiet() && world.Faultless()) ==>
              Reachable(old(world.disk), plan.source, plan.held, h) && StampHolds(old(world.disk), h) ==> r.Ok?
  {
    var _ :- OpenEntry(world, plan.source, plan.held, h);
    if !h.entry.directory {
      var stamp :- world.Stat(h.ino);
      if Some(stamp) != h.stamp {
        return Err(Other);
      }
      assert StampOf(world.log[|world.log| - 1].after.nodes[h.ino]) == stamp;
    }
    return Ok(());
  }

  method VerifyEntries(world: World, plan: Plan) returns (r: Result<()>, blame: Option<Entry>)
    requires world.Valid() && Shaped(plan)
    modifies world
    ensures world.Looked()
    ensures r.Ok? ==> forall h | h in plan.held :: SourceEntrySeen(world.log, |old(world.log)|, plan, h)
    ensures old(world.Quiet() && world.Faultless()) && SourceHolds(old(world.disk), plan) ==> r.Ok?
    ensures blame.Some? ==> blame.value in plan.entries
  {
    for k := 0 to |plan.held|
      invariant world.Looked()
      invariant forall j | 0 <= j < k :: SourceEntrySeen(world.log, |old(world.log)|, plan, plan.held[j])
    {
      ghost var seen := world.log;
      assert plan.held[k] in plan.held && plan.entries[k] in plan.entries;
      if old(world.Quiet()) && SourceHolds(world.disk, plan) {
        SourceReachable(world.disk, plan, plan.held[k]);
      }
      r := VerifyHeld(world, plan, plan.held[k]);
      if r.Err? {
        return r, Some(plan.held[k].entry);
      }
      SeenOneMore(seen, world.log, |old(world.log)|, plan, k);
    }
    return Ok(()), None;
  }

  lemma SeenOneMore(log: seq<Instant>, log': seq<Instant>, a: nat, plan: Plan, k: nat)
    requires Shaped(plan) && log <= log' && a <= |log| && k < |plan.held|
    requires forall j | 0 <= j < k :: SourceEntrySeen(log, a, plan, plan.held[j])
    requires SourceEntrySeen(log', |log|, plan, plan.held[k])
    ensures forall j | 0 <= j <= k :: SourceEntrySeen(log', a, plan, plan.held[j])
  {
    forall j | 0 <= j <= k ensures SourceEntrySeen(log', a, plan, plan.held[j]) {
      if j < k {
        SourceEntryStays(log, log', a, a, plan, plan.held[j]);
      } else {
        SourceEntryStays(log', log', a, |log|, plan, plan.held[k]);
      }
    }
  }

  /** What was seen stays seen, from any earlier instant on. */
  lemma SourceEntryStays(log: seq<Instant>, log': seq<Instant>, a: nat, b: nat, plan: Plan, h: Held)
    requires plan.source.Shaped() && log <= log' && a <= b && SourceEntrySeen(log, b, plan, h)
    ensures SourceEntrySeen(log', a, plan, h)
  {
    HeldStays(log, log', a, b, plan.source, plan.held, h);
  }

  lemma HeldStays(log: seq<Instant>, log': seq<Instant>, a: nat, b: nat, root: Directory, held: seq<Held>, h: Held)
    requires root.Shaped() && log <= log' && a <= b && HeldSeen(log, b, root, held, h)
    ensures HeldSeen(log', a, root, held, h)
  {
    var p := h.entry.relative;
    forall k | 0 < k < |p| ensures StepSeen(log', a, root, held, p[..k]) {
      assert StepSeen(log, b, root, held, p[..k]);
    }
  }

  lemma ListingStays(log: seq<Instant>, log': seq<Instant>, a: nat, b: nat, root: Path, entries: seq<Entry>)
    requires log <= log' && a <= b && ListingSeen(log, b, root, entries)
    ensures ListingSeen(log', a, root, entries)
  {
    forall e | e in entries ensures EntrySeen(log', a, root, e) {
      assert EntrySeen(log, b, root, e);
    }
    forall p: Path | ListsDirectory(entries, p) ensures NamesSeen(log', a, root + p, ChildNames(entries, p)) {
      assert NamesSeen(log, b, root + p, ChildNames(entries, p));
    }
  }

  lemma SourceStays(log: seq<Instant>, log': seq<Instant>, a: nat, b: nat, plan: Plan)
    requires plan.source.Shaped() && log <= log' && a <= b && SourceSeen(log, b, plan)
    ensures SourceSeen(log', a, plan)
  {
    ChainStays(log, log', a, b, plan.source);
    ChainStays(log, log', a, b, plan.destination);
    ListingStays(log, log', a, b, plan.source.path, plan.entries);
    forall h | h in plan.held ensures SourceEntrySeen(log', a, plan, h) {
      SourceEntryStays(log, log', a, b, plan, h);
    }
  }

  lemma ListedMovable(d: Disk, root: Path, entries: seq<Entry>, p: Path)
    requires (forall e | e in entries :: Matches(d, root, e)) && exists e :: e in entries && e.relative == p
    ensures Movable(View(d, root + p))
  {
    var e :| e in entries && e.relative == p;
    assert Matches(d, root, e);
  }

  lemma ListingScannable(d: Disk, root: Path, entries: seq<Entry>)
    requires Listing(d, root, entries) && root != []
    ensures Scannable(d, root)
  {
    forall p: Path | Resolve(d, root + p).Some? ensures Movable(View(d, root + p)) {
      if p == [] {
        assert root + p == root;
      } else {
        ListedMovable(d, root, entries, p);
      }
    }
  }

  function FirstMissing(xs: seq<Entry>, ys: seq<Entry>): (r: Option<Entry>)
    ensures r.Some? ==> r.value in xs && r.value !in ys
    ensures r.None? ==> forall e :: e in xs ==> e in ys
  {
    if xs == [] then None
    else if xs[0] !in ys then Some(xs[0])
    else FirstMissing(xs[1..], ys)
  }

  /** The entry in which two different snapshots differ; that there always is one makes the `unwrap` safe. */
  function Changed(planned: seq<Entry>, current: seq<Entry>): (e: Entry)
    requires Snapshot(planned) && Snapshot(current) && planned != current
    ensures (e in planned && e !in current) || (e in current && forall f | f in planned :: f.relative != e.relative)
  {
    if FirstMissing(planned, current).Some? then FirstMissing(planned, current).value
    else
      SnapshotDistinct(current);
      assert FirstMissing(current, planned).Some? by {
        if FirstMissing(current, planned).None? {
          SameMembersSame(planned, current);
        }
      }
      FirstMissing(current, planned).value
  }

  /**
    `verify_source`. On failure `blame` is the entry the error names, if it names one; the entry it
    names is one of the plan, unless the plan has none at that path.
  */
  method VerifySource(world: World, plan: Plan) returns (r: Result<()>, blame: Option<Entry>)
    requires world.Valid() && Shaped(plan)
    modifies world
    ensures world.Looked()
    ensures r.Ok? ==> SourceSeen(world.log, |old(world.log)|, plan)
    ensures old(world.Quiet() && world.Faultless()) && SourceHolds(old(world.disk), plan) ==> r.Ok?
    ensures blame.Some? ==> blame.value in plan.entries || forall e | e in plan.entries :: e.relative != blame.value.relative
  {
    ghost var a, l1 := |world.log|, world.log;
    blame := None;
    r := Verify(world, plan.source);
    if r.Err? {
      return;
    }
    l1 := world.log;
    r := Verify(world, plan.destination);
    if r.Err? {
      return;
    }
    ghost var l2 := world.log;
    r, blame := VerifyEntries(world, plan);
    if r.Err? {
      return;
    }
    ghost var l3 := world.log;
    r, blame := Rescan(world, plan);
    if r.Ok? {
      SourcePartsSeen(l1, l2, l3, world.log, a, plan);
    }
  }

  lemma SourcePartsSeen(l1: seq<Instant>, l2: seq<Instant>, l3: seq<Instant>, l4: seq<Instant>, a: nat, plan: Plan)
    requires plan.source.Shaped() && l1 <= l2 <= l3 <= l4 && a <= |l1|
    requires ChainSeen(l1, a, plan.source) && ChainSeen(l2, |l1|, plan.destination)
    requires forall h | h in plan.held :: SourceEntrySeen(l3, |l2|, plan, h)
    requires ListingSeen(l4, |l3|, plan.source.path, plan.entries)
    ensures SourceSeen(l4, a, plan)
  {
    ChainStays(l1, l4, a, a, plan.source);
    ChainStays(l2, l4, a, |l1|, plan.destination);
    ListingStays(l4, l4, a, |l3|, plan.source.path, plan.entries);
    forall h | h in plan.held ensures SourceEntrySeen(l4, a, plan, h) {
      SourceEntryStays(l3, l4, a, |l2|, plan, h);
    }
  }

  /** The comparison of a new scan with the snapshot. */
  method Rescan(world: World, plan: Plan) returns (r: Result<()>, blame: Option<Entry>)
    requires world.Valid() && Shaped(plan)
    modifies world
    ensures world.Looked()
    ensures r.Ok? ==> ListingSeen(world.log, |old(world.log)|, plan.source.path, plan.entries)
    ensures old(world.Quiet() && world.Faultless()) && SourceHolds(old(world.disk), plan) ==> r.Ok?
    ensures blame.Some? ==> blame.value in plan.entries || forall e | e in plan.entries :: e.relative != blame.value.relative
  {
    ghost var d := world.disk;
    if SourceHolds(d, plan) {
      ListingScannable(d, plan.source.path, plan.entries);
    }
    var current := Scan(world, plan.source.path);
    if current.Err? {
      return Err(current.fault), None;
    }
    if current.value != plan.entries {
      if old(world.Quiet()) && SourceHolds(d, plan) {
        ListingUnique(d, plan.source.path, current.value, plan.entries);
      }
      return Err(Other), Some(Changed(plan.entries, current.value));
    }
    return Ok(()), None;
  }

  // ---------- the destination ----------

  /** Nothing stands where an entry is to go. */
  ghost predicate NoConflicts(d: Disk, destination: Path, entries: seq<Entry>) {
    forall e | e in entries :: MetaAt(d, destination + e.relative).None?
  }

  /** `check_conflicts`: at rest, it accepts exactly the destinations that have none of the entries. */
  method CheckConflicts(world: World, destination: Path, entries: seq<Entry>) returns (r: Result<()>)
    requires world.Valid()
    modifies world
    ensures world.Looked()
    ensures old(world.Quiet()) && r.Ok? ==> NoConflicts(world.disk, destination, entries)
    ensures old(world.Quiet() && world.Faultless()) && NoConflicts(old(world.disk), destination, entries) ==> r.Ok?
  {
    for k := 0 to |entries|
      invariant world.Looked()
      invariant old(world.Quiet()) ==> NoConflicts(world.disk, destination, entries[..k])
    {
      assert entries[..k + 1] == entries[..k] + [entries[k]] && entries[k] in entries;
      var meta := world.Lstat(destination + entries[k].relative);
      if meta.Ok? {
        return Err(Other);
      }
      if !meta.fault.NotFound? {
        return Err(meta.fault);
      }
    }
    assert entries[..|entries|] == entries;
    return Ok(());
  }
}
