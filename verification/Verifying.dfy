/** The verification after copying, `verify_copy`. */
module Verifying {
  import opened Outcomes
  import opened Disks
  import opened Worlds
  import opened Compare
  import opened Retained
  import opened Scans
  import opened Plans
  import opened Checks
  import opened Preparing
  import opened Staging
  import opened Copying
  import opened Entries
  import opened Overlays
  import opened Copies

  /** From instant `a` on, the target was seen where it was recorded and, if a file, with the bytes of its source. */
  ghost predicate TargetSeen(log: seq<Instant>, a: nat, plan: Plan, outputs: seq<Held>, i: nat)
    requires plan.destination.Shaped() && i < |outputs| && i < |plan.held|
  {
    && outputs[i].entry == plan.held[i].entry
    && HeldSeen(log, a, plan.destination, outputs, outputs[i])
    && (!outputs[i].entry.directory ==> SameBytesSeen(log, a, plan.held[i].ino, outputs[i].ino))
  }

  /** From instant `a` on, every recorded source and every target was seen. */
  ghost predicate CopySeen(log: seq<Instant>, a: nat, plan: Plan, outputs: seq<Held>) {
    && plan.source.Shaped() && plan.destination.Shaped() && |outputs| == |plan.held| && SourceSeen(log, a, plan)
    && forall i | 0 <= i < |outputs| :: TargetSeen(log, a, plan, outputs, i)
  }

  /** The target is where it was recorded and, if a file, equal to its source. */
  ghost predicate TargetHolds(d: Disk, plan: Plan, h: Held, out: Held) {
    && out.entry == h.entry && EntryHolds(d, plan.destination.path, out)
    && (!out.entry.directory ==> SameBytes(d, h.ino, out.ino))
  }

  /** The source is as recorded, and every target is in place and equal to it. */
  ghost predicate CopyHolds(d: Disk, plan: Plan, outputs: seq<Held>) {
    && SourceHolds(d, plan) && |outputs| == |plan.held|
    && forall i | 0 <= i < |outputs| :: TargetHolds(d, plan, plan.held[i], outputs[i])
  }

  lemma CopyAtRest(log: seq<Instant>, a: nat, plan: Plan, outputs: seq<Held>, d: Disk)
    requires WellFormed(d) && SoundPlan(plan) && CopySeen(log, a, plan, outputs) && forall i | a <= i < |log| :: log[i].after == d
    ensures CopyHolds(d, plan, outputs)
  {
    SourceAtRest(log, a, plan, d);
    forall i | 0 <= i < |outputs| ensures TargetHolds(d, plan, plan.held[i], outputs[i]) {
      assert TargetSeen(log, a, plan, outputs, i);
      HeldAtRest(log, a, plan.destination, outputs, outputs[i], d);
    }
  }

  lemma TargetStays(log: seq<Instant>, log': seq<Instant>, a: nat, b: nat, plan: Plan, outputs: seq<Held>, i: nat)
    requires plan.destination.Shaped() && i < |outputs| && i < |plan.held| && log <= log' && a <= b && TargetSeen(log, b, plan, outputs, i)
    ensures TargetSeen(log', a, plan, outputs, i)
  {
    HeldStays(log, log', a, b, plan.destination, outputs, outputs[i]);
  }

  lemma CopyStays(log: seq<Instant>, log': seq<Instant>, a: nat, b: nat, plan: Plan, outputs: seq<Held>)
    requires log <= log' && a <= b && CopySeen(log, b, plan, outputs)
    ensures CopySeen(log', a, plan, outputs)
  {
    SourceStays(log, log', a, b, plan);
    forall i | 0 <= i < |outputs| ensures TargetSeen(log', a, plan, outputs, i) {
      TargetStays(log, log', a, b, plan, outputs, i);
    }
  }

  /** The closure in `verify_copy`: opens source and target, and compares them. */
  method VerifyTarget(world: World, plan: Plan, outputs: seq<Held>, i: nat) returns (r: Result<()>)
    requires world.Valid() && plan.source.Shaped() && plan.destination.Shaped() && i < |outputs| == |plan.held|
    requires outputs[i].entry == plan.held[i].entry && plan.held[i].entry.relative != []
    modifies world
    ensures world.Looked()
    ensures r.Ok? ==> TargetSeen(world.log, |old(world.log)|, plan, outputs, i)
    ensures old(world.Quiet() && world.Faultless()) ==>
              Reachable(old(world.disk), plan.source, plan.held, plan.held[i]) && Reachable(old(world.disk), plan.destination, outputs, outputs[i]) ==>
                TargetHolds(old(world.disk), plan, plan.held[i], outputs[i]) ==> r.Ok?
  {
    ghost var a := |world.log|;
    var _ :- OpenEntry(world, plan.source, plan.held, plan.held[i]);
    ghost var l1 := world.log;
    var _ :- OpenEntry(world, plan.destination, outputs, outputs[i]);
    ghost var l2 := world.log;
    if !outputs[i].entry.directory {
      var equal :- RetainedEqual(world, plan.held[i].ino, outputs[i].ino);
      if !equal {
        return Err(Other);
      }
      SameBytesStays(world.log, world.log, a, |l2|, plan.held[i].ino, outputs[i].ino);
    } else {
      var _ :- world.Sync();
    }
    HeldStays(l2, world.log, a, |l1|, plan.destination, outputs, outputs[i]);
    return Ok(());
  }

  lemma SameBytesStays(log: seq<Instant>, log': seq<Instant>, a: nat, b: nat, x: Ino, y: Ino)
    requires log <= log' && a <= b && SameBytesSeen(log, b, x, y)
    ensures SameBytesSeen(log', a, x, y)
  {
  }

  ghost predicate TargetsSeen(log: seq<Instant>, a: nat, plan: Plan, outputs: seq<Held>, n: nat)
    requires plan.destination.Shaped() && n <= |outputs| <= |plan.held|
  {
    forall i | 0 <= i < n :: TargetSeen(log, a, plan, outputs, i)
  }

  lemma TargetsSeenMore(log: seq<Instant>, log': seq<Instant>, a: nat, plan: Plan, outputs: seq<Held>, n: nat)
    requires plan.destination.Shaped() && n < |outputs| <= |plan.held| && log <= log' && a <= |log|
    requires TargetsSeen(log, a, plan, outputs, n) && TargetSeen(log', |log|, plan, outputs, n)
    ensures TargetsSeen(log', a, plan, outputs, n + 1)
  {
    forall i | 0 <= i < n + 1 ensures TargetSeen(log', a, plan, outputs, i) {
      if i < n {
        TargetStays(log, log', a, a, plan, outputs, i);
      } else {
        TargetStays(log', log', a, |log|, plan, outputs, n);
      }
    }
  }

  /** The directories on the way to a target are among the outputs. */
  lemma TargetReachable(d: Disk, plan: Plan, outputs: seq<Held>, i: nat)
    requires SoundPlan(plan) && CopyHolds(d, plan, outputs) && RecordsSofar(plan, outputs) && i < |outputs|
    ensures Reachable(d, plan.destination, outputs, outputs[i]) && Reachable(d, plan.source, plan.held, plan.held[i])
  {
    SourceReachable(d, plan, plan.held[i]);
    assert plan.entries[i] in plan.entries;
    assert Records(outputs, plan.entries);
    forall h | h in outputs ensures EntryHolds(d, plan.destination.path, h) {
      var j :| 0 <= j < |outputs| && outputs[j] == h;
      assert TargetHolds(d, plan, plan.held[j], outputs[j]);
    }
    assert TargetHolds(d, plan, plan.held[i], outputs[i]);
    RecordsHold(d, plan.destination, outputs, plan.entries, plan.entries[i].relative);
  }

  lemma NextTargetReachable(d: Disk, plan: Plan, outputs: seq<Held>, i: nat)
    requires Prepared(plan) && RecordsSofar(plan, outputs) && i < |outputs|
    ensures CopyHolds(d, plan, outputs) ==>
              && Reachable(d, plan.destination, outputs, outputs[i]) && Reachable(d, plan.source, plan.held, plan.held[i])
              && TargetHolds(d, plan, plan.held[i], outputs[i])
  {
    PreparedMeans(plan);
    if CopyHolds(d, plan, outputs) {
      TargetReachable(d, plan, outputs, i);
    }
  }

  /** The loop of `verify_copy`; on failure `blame` is the entry named by the error. */
  method VerifyTargets(world: World, plan: Plan, outputs: seq<Held>) returns (r: Result<()>, blame: Option<Entry>)
    requires world.Valid() && Prepared(plan) && plan.source.Shaped() && plan.destination.Shaped()
    requires RecordsSofar(plan, outputs) && |outputs| == |plan.held|
    modifies world
    ensures world.Looked()
    ensures r.Ok? ==> TargetsSeen(world.log, |old(world.log)|, plan, outputs, |outputs|)
    ensures r.Err? ==> blame.Some?
    ensures blame.Some? ==> blame.value in plan.entries
    ensures old(world.Quiet() && world.Faultless()) && CopyHolds(old(world.disk), plan, outputs) ==> r.Ok?
  {
    ghost var a := |world.log|;
    PlanShapes(plan);
    for k := 0 to |outputs|
      invariant world.Looked() && a <= |world.log| && TargetsSeen(world.log, a, plan, outputs, k)
    {
      ghost var log := world.log;
      NextTargetReachable(world.disk, plan, outputs, k);
      r := VerifyTarget(world, plan, outputs, k);
      if r.Err? {
        assert plan.entries[k] in plan.entries;
        return r, Some(plan.held[k].entry);
      }
      TargetsSeenMore(log, world.log, a, plan, outputs, k);
    }
    return Ok(()), None;
  }

  /** The last checks of `verify_copy`. */
  method VerifyRoots(world: World, plan: Plan) returns (r: Result<()>)
    requires world.Valid() && plan.source.Shaped() && plan.destination.Shaped()
    modifies world
    ensures world.Looked()
    ensures old(world.Quiet() && world.Faultless()) ==>
              ChainHolds(old(world.disk), plan.source) && ChainHolds(old(world.disk), plan.destination) ==> r.Ok?
  {
    var _ :- Verify(world, plan.source);
    var _ :- Verify(world, plan.destination);
    r := world.Sync();
  }

  /** The entry named by an error is one of the plan, unless the plan has none at its path. */
  ghost predicate Blamed(plan: Plan, blame: Option<Entry>) {
    blame.Some? ==> blame.value in plan.entries || forall e | e in plan.entries :: e.relative != blame.value.relative
  }

  /** `verify_copy`. */
  method VerifyCopy(world: World, plan: Plan, outputs: seq<Held>) returns (r: Result<()>, blame: Option<Entry>)
    requires world.Valid() && Prepared(plan) && RecordsSofar(plan, outputs)
    modifies world
    ensures world.Looked()
    ensures r.Ok? ==> CopySeen(world.log, |old(world.log)|, plan, outputs)
    ensures Blamed(plan, blame)
    ensures old(world.Quiet() && world.Faultless()) && CopyHolds(old(world.disk), plan, outputs) ==> r.Ok?
  {
    ghost var a := |world.log|;
    PlanShapes(plan);
    r, blame := VerifyPlanSource(world, plan);
    if r.Err? {
      return;
    }
    ghost var l1 := world.log;
    if |outputs| != |plan.held| {
      return Err(Other), None;
    }
    r, blame := VerifyTargets(world, plan, outputs);
    if r.Err? {
      return;
    }
    ghost var l2 := world.log;
    r := VerifyRoots(world, plan);
    blame := None;
    CopyPartsSeen(l1, l2, world.log, a, plan, outputs);
  }

  method VerifyPlanSource(world: World, plan: Plan) returns (r: Result<()>, blame: Option<Entry>)
    requires world.Valid() && Prepared(plan) && plan.source.Shaped() && plan.destination.Shaped()
    modifies world
    ensures world.Looked()
    ensures r.Ok? ==> SourceSeen(world.log, |old(world.log)|, plan)
    ensures Blamed(plan, blame)
    ensures old(world.Quiet() && world.Faultless()) && SourceHolds(old(world.disk), plan) ==> r.Ok?
  {
    PreparedMeans(plan);
    r, blame := VerifySource(world, plan);
  }

  lemma CopyPartsSeen(l1: seq<Instant>, l2: seq<Instant>, l3: seq<Instant>, a: nat, plan: Plan, outputs: seq<Held>)
    requires l1 <= l2 <= l3 && a <= |l1| && plan.source.Shaped() && plan.destination.Shaped() && |outputs| == |plan.held|
    requires SourceSeen(l1, a, plan) && TargetsSeen(l2, |l1|, plan, outputs, |outputs|)
    ensures CopySeen(l3, a, plan, outputs)
  {
    SourceStays(l1, l3, a, a, plan);
    forall i | 0 <= i < |outputs| ensures TargetSeen(l3, a, plan, outputs, i) {
      TargetStays(l2, l3, a, |l1|, plan, outputs, i);
    }
  }
}
