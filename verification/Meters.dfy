/** The progress reports of a batch, and the report of what was copied. */
module Meters {
  import opened Outcomes
  import opened Disks

  const U64_MAX: nat := 0xFFFF_FFFF_FFFF_FFFF

  function Min(a: nat, b: nat): nat {
    if a < b then a else b
  }

  function SaturatingAdd(a: nat, b: nat): nat {
    Min(a + b, U64_MAX)
  }

  /** `completed` bytes of earlier plans, `bytes` of this one, and `total` of all. */
  datatype Meter = Meter(completed: nat, bytes: nat, total: nat) {
    predicate Sane() {
      completed + bytes <= total <= U64_MAX
    }

    /** What is reported when `done` bytes of this plan have been copied. */
    function Level(done: nat): nat {
      Min(SaturatingAdd(completed, Min(done, bytes)), total)
    }

    /** Nothing saturates and nothing is cut off at the total. */
    lemma LevelIs(done: nat)
      requires Sane()
      ensures Level(done) == completed + Min(done, bytes)
    {
    }
  }

  /**
    From `start` on, the reports name the total, never decrease, and stay below `level`; at the tip, the last
    one says just that.
  */
  ghost predicate Rising(reported: seq<(nat, nat)>, start: nat, level: nat, total: nat, tip: bool)
    decreases |reported|
  {
    && start <= |reported| && level <= total && (tip ==> start < |reported|)
    && (start < |reported| ==>
          var (done, all) := reported[|reported| - 1];
          && all == total && done <= level && (tip ==> done == level)
          && Rising(reported[..|reported| - 1], start, done, total, false))
  }

  lemma RisingMore(reported: seq<(nat, nat)>, start: nat, level: nat, level': nat, total: nat, tip: bool)
    requires Rising(reported, start, level, total, tip) && level <= level' <= total
    ensures Rising(reported + [(level', total)], start, level', total, true)
    ensures Rising(reported, start, level', total, false)
  {
    assert (reported + [(level', total)])[..|reported|] == reported;
  }

  /** So progress starts at the first report, never decreases and never exceeds the total. */
  lemma {:induction false} RisingMeans(reported: seq<(nat, nat)>, start: nat, level: nat, total: nat, tip: bool)
    requires Rising(reported, start, level, total, tip)
    ensures forall i | start <= i < |reported| :: reported[i].1 == total && reported[i].0 <= level <= total
    ensures forall i, j | start <= i <= j < |reported| :: reported[i].0 <= reported[j].0
    decreases |reported|
  {
    if start < |reported| {
      RisingMeans(reported[..|reported| - 1], start, reported[|reported| - 1].0, total, false);
    }
  }

  /**
    While a plan is being copied: the last report was `last` before anything of this plan was read, and names
    just the bytes read of it since.
  */
  ghost predicate Told(reported: seq<(nat, nat)>, start: nat, meter: Meter, last: nat, done: nat) {
    meter.Sane() && last <= meter.completed && Rising(reported, start, if done == 0 then last else meter.Level(done), meter.total, true)
  }

  /** The reports stay within what this plan may reach. */
  ghost predicate Bounded(reported: seq<(nat, nat)>, start: nat, meter: Meter) {
    Rising(reported, start, meter.completed + meter.bytes, meter.total, false)
  }

  lemma ToldBounded(reported: seq<(nat, nat)>, start: nat, meter: Meter, last: nat, done: nat)
    requires Told(reported, start, meter, last, done)
    ensures Bounded(reported, start, meter)
  {
    meter.LevelIs(done);
    RisingMore(reported, start, if done == 0 then last else meter.Level(done), meter.completed + meter.bytes, meter.total, true);
  }

  lemma ToldMore(reported: seq<(nat, nat)>, start: nat, meter: Meter, last: nat, done: nat, n: nat)
    requires Told(reported, start, meter, last, done) && n > 0
    ensures Told(reported + [(meter.Level(done + n), meter.total)], start, meter, last, done + n)
    ensures Bounded(reported + [(meter.Level(done + n), meter.total)], start, meter)
  {
    meter.LevelIs(done);
    meter.LevelIs(done + n);
    RisingMore(reported, start, if done == 0 then last else meter.Level(done), meter.Level(done + n), meter.total, true);
    ToldBounded(reported + [(meter.Level(done + n), meter.total)], start, meter, last, done + n);
  }
}
