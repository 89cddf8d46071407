/** Plans whose destinations have none of the entries, on a disk at rest. */
module FreePlans {
  import opened Outcomes
  import opened Disks
  import opened Worlds
  import opened Effects
  import opened Paths
  import opened Retained
  import opened Scans
  import opened Plans
  import opened Checks
  import opened Preparing
  import opened Staging
  import opened Copying
  import opened Entries
  import opened Overlays
  import opened Copies
  import opened Verifying
  import opened Batches
  import opened Commits

  /** The source is as recorded, and nothing stands where an entry is to go. */
  ghost predicate Free(d: Disk, plan: Plan) {
    SourceHolds(d, plan) && NoConflicts(d, plan.destination.path, plan.entries)
  }

  ghost predicate AllFree(d: Disk, plans: seq<Plan>) {
    forall plan | plan in plans :: Free(d, plan)
  }

  // ---------- one entry ----------

  /** The entry is as recorded, the way to its target as copied, and its place is free. */
  ghost predicate EntryFree(d: Disk, plan: Plan, outputs: seq<Held>, h: Held)
    requires plan.source.Shaped() && h.entry.relative != []
  {
    && Reachable(d, plan.source, plan.held, h) && StampHolds(d, h) && StampFits(h) && WayHolds(d, plan.destination, outputs, h.entry.relative)
    && Resolve(d, Target(plan, h)).None?
  }

  lemma FreeNext(d0: Disk, d: Disk, plan: Plan, outputs: seq<Held>, n: nat)
    requires WellFormed(d0) && SoundPlan(plan) && n < |plan.held| && plan.held[n].entry.relative != []
    requires OutputsInPlace(d0, d, plan, outputs, n) && forall i | 0 <= i < n :: (outputs[i].stamp.Some? <==> !outputs[i].entry.directory)
    requires Free(d0, plan)
    ensures EntryFree(d, plan, outputs, plan.held[n])
  {
    var h := plan.held[n];
    WantedStays(d0, d, plan, n);
    SourceReachable(d, plan, h);
    OutputWay(d, plan, outputs, n);
    HeldSizesAgree(d, plan);
    assert h.entry in plan.entries;
    if i :| 0 <= i < n && Target(plan, h) == Target(plan, plan.held[i]) {
      TargetsDiffer(plan, i, n);
    }
    ResolveInside(d0, Target(plan, h));
    assert SameAt(d0, d, Target(plan, h));
  }

  lemma BeforeFree(d0: Disk, d: Disk, plan: Plan, outputs: seq<Held>)
    requires WellFormed(d0) && Prepared(plan) && Free(d0, plan) && RecordsSofar(plan, outputs) && |outputs| < |plan.held|
    requires InPlace(d0, d, plan, outputs, |outputs|)
    ensures plan.source.Shaped() && plan.destination.Shaped() && plan.held[|outputs|].entry.relative != []
    ensures ChainHolds(d, plan.destination) && Wanted(d, plan.held[|outputs|]) == Wanted(d0, plan.held[|outputs|])
    ensures EntryFree(d, plan, outputs, plan.held[|outputs|])
  {
    PreparedMeans(plan);
    PlanShapes(plan);
    InPlaceMeans(d0, d, plan, outputs, |outputs|);
    WantedStays(d0, d, plan, |outputs|);
    FreeNext(d0, d, plan, outputs, |outputs|);
  }

  /** Nothing but a target has changed. */
  lemma TargetTouched(d0: Disk, d: Disk, e: Disk, plan: Plan, outputs: seq<Held>, n: nat)
    requires n < |plan.held| && InPlace(d0, d, plan, outputs, n) && OnlyAt(d, e, Target(plan, plan.held[n]))
    ensures OnlyTargets(d0, e, [plan])
  {
    InPlaceMeans(d0, d, plan, outputs, n);
    assert plan in [plan];
    forall q: Path ensures SameAt(d0, e, q) || IsTarget([plan], q) {
      if q == Target(plan, plan.held[n]) {
        assert plan.held[n] in plan.held;
      } else if i :| 0 <= i < n && q == Target(plan, plan.held[i]) {
        assert plan.held[i] in plan.held;
      } else {
        SameAtOn(d0, d, e, q);
      }
    }
  }

  lemma AllInPlace(d0: Disk, d: Disk, plan: Plan, outputs: seq<Held>)
    requires InPlace(d0, d, plan, outputs, |plan.held|)
    ensures OnlyTargets(d0, d, [plan])
  {
    InPlaceMeans(d0, d, plan, outputs, |plan.held|);
    assert plan in [plan];
    forall q: Path ensures SameAt(d0, d, q) || IsTarget([plan], q) {
      if i :| 0 <= i < |plan.held| && q == Target(plan, plan.held[i]) {
        assert plan.held[i] in plan.held;
      }
    }
  }

  lemma NothingTouched(d: Disk, plans: seq<Plan>)
    ensures OnlyTargets(d, d, plans)
  {
    forall q: Path ensures SameAt(d, d, q) {
    }
  }

  // ---------- one plan among others ----------

  lemma BesideBack(d: Disk, e: Disk, root: Path)
    requires WellFormed(d) && WellFormed(e) && Beside(d, e, root)
    ensures Beside(e, d, root)
  {
    forall q: Path ensures root < q || SameAt(e, d, q) {
      if !(root < q) {
        assert SameAt(d, e, q);
        ResolveInside(d, q);
      }
    }
  }

  lemma FreeBeside(d: Disk, e: Disk, root: Path, plan: Plan)
    requires WellFormed(d) && Beside(d, e, root) && Free(d, plan)
    requires !Overlaps(root, plan.source.path) && !Overlaps(root, plan.destination.path)
    ensures Free(e, plan)
  {
    SourceBeside(d, e, root, plan);
    forall f | f in plan.entries ensures MetaAt(e, plan.destination.path + f.relative).None? {
      ApartBeside(root, plan.destination.path, f.relative);
      MetaBeside(d, e, plan.destination.path + f.relative);
    }
  }

  /** Mentioning this unfolds `GroupSofar`, which is kept folded elsewhere to keep proofs small. */
  ghost predicate UnfoldGroup(copied: seq<seq<Held>>, once: nat) {
    true
  }

  /** On a disk at rest, with the first plans carried out where nothing stood. */
  ghost predicate GroupSofar(d0: Disk, d: Disk, plans: seq<Plan>, copied: seq<seq<Held>>) {
    forall once: nat {:trigger UnfoldGroup(copied, once)} :: UnfoldGroup(copied, once) ==>
      && WellFormed(d0) && WellFormed(d) && Grows(d0, d) && OnlyTargets(d0, d, plans)
      && (Apart(plans) ==> CarriedFree(d0, d, plans, copied))
  }

  ghost predicate CarriedFree(d0: Disk, d: Disk, plans: seq<Plan>, copied: seq<seq<Held>>) {
    && |copied| <= |plans|
    && (forall i | 0 <= i < |copied| :: Free(d0, plans[i]) && CopyHolds(d, plans[i], copied[i]))
    && (forall i | |copied| <= i < |plans| :: Free(d0, plans[i]) <==> Free(d, plans[i]))
  }

  lemma GroupStarts(d: Disk, plans: seq<Plan>)
    requires WellFormed(d)
    ensures GroupSofar(d, d, plans, [])
  {
    NothingTouched(d, plans);
  }

  lemma OnlyTargetsNext(d0: Disk, d: Disk, e: Disk, plans: seq<Plan>, plan: Plan)
    requires OnlyTargets(d0, d, plans) && plan in plans && OnlyTargets(d, e, [plan])
    ensures OnlyTargets(d0, e, plans)
  {
    forall q: Path ensures SameAt(d0, e, q) || IsTarget(plans, q) {
      if SameAt(d0, d, q) && SameAt(d, e, q) {
        SameAtOn(d0, d, e, q);
      } else if IsTarget([plan], q) {
        var h :| h in plan.held && q == Target(plan, h);
      }
    }
  }

  lemma GroupTouches(d0: Disk, d: Disk, e: Disk, plans: seq<Plan>, copied: seq<seq<Held>>, plan: Plan)
    requires GroupSofar(d0, d, plans, copied) && plan in plans && OnlyTargets(d, e, [plan])
    ensures OnlyTargets(d0, e, plans)
  {
    assert UnfoldGroup(copied, 0);
    OnlyTargetsNext(d0, d, e, plans, plan);
  }

  /** One more plan carried out leaves the others as they were. */
  lemma CarriedFreeNext(d0: Disk, d: Disk, e: Disk, plans: seq<Plan>, copied: seq<seq<Held>>, outputs: seq<Held>)
    requires WellFormed(d) && WellFormed(e) && Apart(plans) && CarriedFree(d0, d, plans, copied) && |copied| < |plans| && Prepared(plans[|copied|])
    requires Free(d, plans[|copied|]) && InPlace(d, e, plans[|copied|], outputs, |plans[|copied|].held|)
    ensures CarriedFree(d0, e, plans, copied + [outputs])
  {
    var n := |copied|;
    var plan := plans[n];
    var root := plan.destination.path;
    PreparedMeans(plan);
    InPlaceMeans(d, e, plan, outputs, |plan.held|);
    LaidBeside(d, e, plan, |plan.held|);
    BesideBack(d, e, root);
    CopyHoldsOnce(d, e, plan, outputs);
    forall i | 0 <= i < n ensures CopyHolds(e, plans[i], copied[i]) {
      CopyHoldsBeside(d, e, root, plans[i], copied[i]);
    }
    forall i | n < i < |plans| ensures Free(d, plans[i]) <==> Free(e, plans[i]) {
      if Free(d, plans[i]) {
        FreeBeside(d, e, root, plans[i]);
      } else if Free(e, plans[i]) {
        FreeBeside(e, d, root, plans[i]);
      }
    }
  }

  lemma GroupNext(d0: Disk, d: Disk, e: Disk, plans: seq<Plan>, copied: seq<seq<Held>>, outputs: seq<Held>)
    requires GroupSofar(d0, d, plans, copied) && |copied| < |plans| && Prepared(plans[|copied|]) && WellFormed(e) && Grows(d, e)
    requires Free(d, plans[|copied|]) && InPlace(d, e, plans[|copied|], outputs, |plans[|copied|].held|)
    ensures GroupSofar(d0, e, plans, copied + [outputs])
  {
    assert UnfoldGroup(copied, 0);
    GrowsTransitively(d0, d, e);
    AllInPlace(d, e, plans[|copied|], outputs);
    OnlyTargetsNext(d0, d, e, plans, plans[|copied|]);
    if Apart(plans) {
      CarriedFreeNext(d0, d, e, plans, copied, outputs);
    }
  }

  lemma GroupFree(d0: Disk, d: Disk, plans: seq<Plan>, copied: seq<seq<Held>>)
    requires GroupSofar(d0, d, plans, copied) && |copied| < |plans| && Apart(plans) && AllFree(d0, plans)
    ensures Free(d, plans[|copied|])
  {
    assert UnfoldGroup(copied, 0);
  }

  /** A group that was carried out was free to begin with, and its sources now overlay the old contents. */
  lemma GroupDone(d0: Disk, d: Disk, plans: seq<Plan>, copied: seq<seq<Held>>)
    requires GroupSofar(d0, d, plans, copied) && |copied| == |plans| && Apart(plans) && AllPrepared(plans)
    ensures AllCopied(d, plans, copied) && AllFree(d0, plans) && Overlaid(d0, d, plans) && AllHeldAt(d, plans)
  {
    assert UnfoldGroup(copied, 0);
    forall plan | plan in plans ensures Free(d0, plan) {
      var i :| 0 <= i < |plans| && plans[i] == plan;
    }
    OverlaidFrom(d0, d, plans, copied);
  }
}
