/** Copying a file under a staging name and comparing it with its source. */
module Staging {
  import opened Outcomes
  import opened Disks
  import opened Worlds
  import opened Compare
  import opened Effects
  import opened Retained
  import opened Meters

  const BUFFER: nat := 131072

  /** Mentioning this unfolds `Staged`, which is kept folded elsewhere to keep proofs small. */
  ghost predicate Unfolding(x: Ino, once: nat) {
    true
  }

  /** On `s`, which differs from `d` nowhere else, the new file `x` stands in the directory at `p` under a new name. */
  ghost predicate Staged(d: Disk, s: Disk, p: Path, tmp: Name, x: Ino) {
    forall once: nat {:trigger Unfolding(x, once)} :: Unfolding(x, once) ==> StagedOnly(d, s, p, tmp, x)
  }

  lemma StagedMeans(d: Disk, s: Disk, p: Path, tmp: Name, x: Ino)
    requires Staged(d, s, p, tmp, x)
    ensures StagedOnly(d, s, p, tmp, x)
  {
    assert Unfolding(x, 0);
  }

  ghost predicate StagedOnly(d: Disk, s: Disk, p: Path, tmp: Name, x: Ino) {
    && WellFormed(s) && Resolve(d, p + [tmp]).None? && x !in d.nodes
    && Resolve(s, p + [tmp]) == Some(x) && IsFile(s, x) && s.nodes[x].Regular()
    && PutAt(d, s, p + [tmp], AFile(s.nodes[x].bytes))
  }

  lemma CreatedStaged(d: Disk, p: Path, tmp: Name)
    requires WellFormed(d) && View(d, p) == ADir && Edge(d, Resolve(d, p).value, tmp).None?
    ensures Staged(d, CreateFile(d, Resolve(d, p).value, tmp), p, tmp, d.next)
  {
    CreateFileGrows(d, Resolve(d, p).value, tmp);
    CreateFilePuts(d, p, tmp);
    ResolveSnoc(d, p, tmp);
  }

  lemma SameAtOn(d: Disk, e: Disk, f: Disk, q: Path)
    requires SameAt(d, e, q) && SameAt(e, f, q)
    ensures SameAt(d, f, q)
  {
  }

  lemma WrittenStaged(d: Disk, s: Disk, p: Path, tmp: Name, x: Ino, at: nat, data: seq<Byte>)
    requires IsFile(s, x) && Staged(d, s, p, tmp, x)
    ensures IsFile(s, x) && Staged(d, WriteFile(s, x, at, data), p, tmp, x)
  {
    StagedMeans(d, s, p, tmp, x);
    var e := WriteFile(s, x, at, data);
    WriteFileGrows(s, x, at, data);
    WriteFilePuts(s, p + [tmp], at, data);
    forall q: Path | q != p + [tmp] ensures SameAt(d, e, q) {
      SameAtOn(d, s, e, q);
    }
  }

  // ---------- the copying loop ----------

  /** What was written so far is the beginning of the input. */
  ghost predicate CopiedUpTo(d: Disk, input: Ino, output: Ino, offset: nat) {
    && IsFile(d, input) && IsFile(d, output) && offset <= |d.nodes[input].bytes|
    && d.nodes[output].bytes == d.nodes[input].bytes[..offset]
  }

  ghost predicate OnlyWrote(log: seq<Instant>, deeds: seq<nat>, u: nat, output: Ino) {
    forall k | u <= k < |deeds| :: deeds[k] < |log| && log[deeds[k]].step.Wrote? && log[deeds[k]].step.ino == output
  }

  lemma CopiedFurther(d: Disk, input: Ino, output: Ino, offset: nat, data: seq<Byte>)
    requires CopiedUpTo(d, input, output, offset) && input != output
    requires offset + |data| <= |d.nodes[input].bytes| && data == d.nodes[input].bytes[offset..offset + |data|]
    ensures CopiedUpTo(WriteFile(d, output, offset, data), input, output, offset + |data|)
  {
    var bytes := d.nodes[input].bytes;
    assert bytes[..offset + |data|] == bytes[..offset] + data;
    assert Overwrite(bytes[..offset], offset, data) == bytes[..offset] + data;
  }

  /** At most one deed, the writing of `output`. */
  ghost predicate WroteOnce(log: seq<Instant>, deeds: seq<nat>, before: seq<nat>, output: Ino) {
    deeds == before || (|deeds| == |before| + 1 && before <= deeds && OnlyWrote(log, deeds, |before|, output))
  }

  /** Writes one piece and reports it. */
  method WritePiece(world: World, output: Ino, offset: nat, data: seq<Byte>, meter: Meter, done: nat, ghost start: nat, ghost last: nat) returns (r: Result<()>)
    requires world.Valid() && data != [] && Told(world.reported, start, meter, last, done)
    modifies world
    ensures world.Advanced()
    ensures WroteOnce(world.log, world.deeds, old(world.deeds), output)
    ensures r.Ok? ==> Told(world.reported, start, meter, last, done + |data|)
    ensures Bounded(world.reported, start, meter)
    ensures old(world.Quiet()) && world.disk != old(world.disk) ==> IsFile(old(world.disk), output)
    ensures old(world.Quiet()) && r.Ok? ==> IsFile(old(world.disk), output)
    ensures old(world.Quiet()) && (r.Ok? || world.disk != old(world.disk)) ==> world.disk == WriteFile(old(world.disk), output, offset, data)
    ensures old(world.Quiet() && world.Faultless()) && IsFile(old(world.disk), output) ==> r.Ok?
  {
    ToldBounded(world.reported, start, meter, last, done);
    ToldMore(world.reported, start, meter, last, done, |data|);
    var _ :- world.WriteAll(output, offset, data);
    r := world.Report(meter.Level(done + |data|), meter.total);
  }

  /** One piece: read, written and reported; at the end of the input nothing is done. */
  method CopyChunk(world: World, input: Ino, output: Ino, offset: nat, meter: Meter, done: nat, ghost start: nat, ghost last: nat, ghost i: nat, ghost node: Node)
    returns (r: Result<nat>)
    requires world.Valid() && meter.Sane() && Was(world.log, i, input, node) && input != output
    requires Told(world.reported, start, meter, last, done)
    modifies world
    ensures world.Advanced()
    ensures WroteOnce(world.log, world.deeds, old(world.deeds), output)
    ensures r.Ok? ==> Told(world.reported, start, meter, last, done + r.value)
    ensures Bounded(world.reported, start, meter)
    ensures r.Ok? && Is(world.disk, input, node) ==>
              if r.value == 0 then |node.bytes| <= offset else offset + r.value <= |node.bytes|
    ensures old(world.Quiet()) && world.disk != old(world.disk) ==>
              IsFile(old(world.disk), output) && exists data :: world.disk == WriteFile(old(world.disk), output, offset, data)
    ensures old(world.Quiet()) && r.Ok? && CopiedUpTo(old(world.disk), input, output, offset) ==> CopiedUpTo(world.disk, input, output, offset + r.value)
    ensures old(world.Quiet() && world.Faultless()) && IsFile(old(world.disk), input) && IsFile(old(world.disk), output) ==> r.Ok?
  {
    ghost var k := |world.log| - 1;
    ToldBounded(world.reported, start, meter, last, done);
    var data :- world.ReadAt(input, offset, BUFFER);
    ghost var m := |world.log| - 1;
    Still(world, i, m, input, node);
    if data == [] {
      return Ok(0);
    }
    ghost var d := world.disk;
    var _ :- WritePiece(world, output, offset, data, meter, done, start, last);
    Still(world, i, m, input, node);
    if old(world.Quiet()) && CopiedUpTo(d, input, output, offset) {
      CopiedFurther(d, input, output, offset, data);
    }
    return Ok(|data|);
  }

  /** After every deed from `u` on, the staged file is all that differs. */
  ghost predicate StagedThroughout(log: seq<Instant>, deeds: seq<nat>, u: nat, d: Disk, p: Path, tmp: Name, x: Ino) {
    forall k | u <= k < |deeds| :: deeds[k] < |log| && Staged(d, log[deeds[k]].after, p, tmp, x)
  }

  lemma ChunkStaged(d: Disk, s: Disk, e: Disk, p: Path, tmp: Name, x: Ino, at: nat)
    requires Staged(d, s, p, tmp, x) && (e != s ==> IsFile(s, x) && exists data :: e == WriteFile(s, x, at, data))
    ensures Staged(d, e, p, tmp, x)
  {
    if e != s {
      var data :| e == WriteFile(s, x, at, data);
      WrittenStaged(d, s, p, tmp, x, at, data);
    }
  }

  /** One round of the loop, with what it means for a disk at rest. */
  method CopyRound(world: World, input: Ino, output: Ino, offset: nat, meter: Meter, done: nat, ghost start: nat, ghost last: nat, ghost i: nat, ghost node: Node,
                   ghost rest: bool, ghost d: Disk, ghost p: Path, ghost tmp: Name)
    returns (r: Result<nat>)
    requires world.Valid() && meter.Sane() && Was(world.log, i, input, node) && input != output
    requires Told(world.reported, start, meter, last, done)
    requires rest ==> world.Quiet() && Staged(d, world.disk, p, tmp, output) && Is(world.disk, input, node) && CopiedUpTo(world.disk, input, output, offset)
    requires Is(world.disk, input, node) ==> offset <= |node.bytes|
    modifies world
    ensures world.Advanced()
    ensures OnlyWrote(world.log, world.deeds, |old(world.deeds)|, output)
    ensures r.Ok? ==> Told(world.reported, start, meter, last, done + r.value)
    ensures Bounded(world.reported, start, meter)
    ensures r.Ok? && Is(world.disk, input, node) ==> offset + r.value <= |node.bytes| && (r.value == 0 ==> offset == |node.bytes|)
    ensures rest ==> StagedThroughout(world.log, world.deeds, |old(world.deeds)|, d, p, tmp, output) && Staged(d, world.disk, p, tmp, output)
    ensures rest && r.Ok? ==> Is(world.disk, input, node) && CopiedUpTo(world.disk, input, output, offset + r.value)
    ensures rest && old(world.Faultless()) ==> r.Ok?
  {
    ghost var before, k := world.disk, |world.log| - 1;
    r := CopyChunk(world, input, output, offset, meter, done, start, last, i, node);
    Still(world, i, k, input, node);
    if rest {
      ChunkStaged(d, before, world.disk, p, tmp, output, offset);
      world.Settled();
      world.Deeds();
    }
  }

  /**
    The copying loop. It stops with an error as soon as more has been read than was planned; if the input is
    still the one that was opened, all of it has been read.
  */
  method CopyBytes(world: World, input: Ino, output: Ino, size: nat, meter: Meter, done: nat, ghost start: nat, ghost last: nat, ghost i: nat, ghost node: Node,
                   ghost rest: bool, ghost d: Disk, ghost p: Path, ghost tmp: Name)
    returns (r: Result<()>, done': nat)
    requires world.Valid() && meter.Sane() && Was(world.log, i, input, node) && input != output
    requires Told(world.reported, start, meter, last, done)
    requires rest ==> world.Quiet() && Staged(d, world.disk, p, tmp, output) && Is(world.disk, input, node) && CopiedUpTo(world.disk, input, output, 0)
    modifies world
    ensures world.Advanced()
    ensures OnlyWrote(world.log, world.deeds, |old(world.deeds)|, output)
    ensures Bounded(world.reported, start, meter)
    ensures r.Ok? ==> Told(world.reported, start, meter, last, done')
    ensures r.Ok? && Is(world.disk, input, node) ==> done' == done + |node.bytes| && |node.bytes| <= size
    ensures rest ==> StagedThroughout(world.log, world.deeds, |old(world.deeds)|, d, p, tmp, output) && Staged(d, world.disk, p, tmp, output)
    ensures rest && r.Ok? ==> SameBytes(world.disk, input, output) && Is(world.disk, input, node)
    ensures rest && old(world.Faultless()) && |node.bytes| <= size ==> r.Ok?
  {
    var offset := 0;
    ToldBounded(world.reported, start, meter, last, done);
    while offset <= size
      invariant world.Advanced()
      invariant OnlyWrote(world.log, world.deeds, |old(world.deeds)|, output)
      invariant Told(world.reported, start, meter, last, done + offset)
      invariant Is(world.disk, input, node) ==> offset <= |node.bytes|
      invariant rest ==> StagedThroughout(world.log, world.deeds, |old(world.deeds)|, d, p, tmp, output) && Staged(d, world.disk, p, tmp, output)
      invariant rest ==> Is(world.disk, input, node) && CopiedUpTo(world.disk, input, output, offset)
      decreases size + 1 - offset
    {
      var n := CopyRound(world, input, output, offset, meter, done + offset, start, last, i, node, rest, d, p, tmp);
      if n.Err? {
        return Err(n.fault), done + offset;
      }
      if n.value == 0 {
        return Ok(()), done + offset;
      }
      offset := offset + n.value;
    }
    ToldBounded(world.reported, start, meter, last, done + offset);
    return Err(Other), done + offset;
  }

  // ---------- the staged copy ----------

  /** Copies between two readings of the stamp of the input, which must both be the recorded one. */
  method FillStaged(world: World, input: Ino, output: Ino, stamp: Option<Stamp>, size: nat, meter: Meter, done: nat, ghost start: nat, ghost last: nat,
                    ghost rest: bool, ghost d: Disk, ghost p: Path, ghost tmp: Name)
    returns (r: Result<()>, done': nat)
    requires world.Valid() && meter.Sane() && IsFile(world.disk, input) && input != output
    requires Told(world.reported, start, meter, last, done)
    requires rest ==> world.Quiet() && Staged(d, world.disk, p, tmp, output) && IsFile(world.disk, output) && world.disk.nodes[output].bytes == []
    modifies world
    ensures world.Advanced()
    ensures OnlyWrote(world.log, world.deeds, |old(world.deeds)|, output)
    ensures Bounded(world.reported, start, meter)
    ensures r.Ok? ==> stamp.Some? && stamp.value.size <= size && done' == done + stamp.value.size && Told(world.reported, start, meter, last, done')
    ensures rest ==> StagedThroughout(world.log, world.deeds, |old(world.deeds)|, d, p, tmp, output) && Staged(d, world.disk, p, tmp, output)
    ensures rest && r.Ok? ==> SameBytes(world.disk, input, output) && Is(world.disk, input, old(world.disk).nodes[input])
    ensures rest && old(world.Faultless()) && stamp == Some(StampOf(old(world.disk).nodes[input])) && stamp.value.size <= size ==> r.Ok?
  {
    ghost var k := |world.log| - 1;
    done' := done;
    ToldBounded(world.reported, start, meter, last, done);
    var before := world.Stat(input);
    if before.Err? {
      return Err(before.fault), done;
    }
    world.Unchanged(k, k, input);
    ghost var i, node := |world.log| - 1, world.disk.nodes[input];
    if Some(before.value) != stamp {
      return Err(Other), done;
    }
    r, done' := CopyBytes(world, input, output, size, meter, done, start, last, i, node, rest, d, p, tmp);
    if r.Err? {
      return;
    }
    ghost var m := |world.log| - 1;
    r := world.Sync();
    if r.Err? {
      return;
    }
    var after := world.Stat(input);
    if after.Err? {
      return Err(after.fault), done';
    }
    Still(world, i, m, input, node);
    world.Unchanged(i, m, input);
    if before != after {
      return Err(Other), done';
    }
  }

  /** Nothing but a staging file was created, and written to. */
  ghost predicate StagingDeeds(log: seq<Instant>, deeds: seq<nat>, u: nat) {
    u < |deeds| ==>
      && deeds[u] < |log| && log[deeds[u]].step.Created? && IsStaging(log[deeds[u]].step.name)
      && OnlyWrote(log, deeds, u + 1, log[deeds[u]].step.ino)
  }

  /** After every deed, a staged file is all that differs. */
  ghost predicate StagingOnly(log: seq<Instant>, deeds: seq<nat>, u: nat, d: Disk, p: Path) {
    forall k | u <= k < |deeds| :: deeds[k] < |log| && exists tmp, x :: IsStaging(tmp) && Staged(d, log[deeds[k]].after, p, tmp, x)
  }

  /** The file was staged from instant `a` on, and after the last deed it was found equal to the input. */
  ghost predicate CopyStaged(log: seq<Instant>, a: nat, deeds: seq<nat>, u: nat, dir: Ino, tmp: Name, x: Ino, input: Ino) {
    && u < |deeds| && a <= deeds[u] && StagingDeeds(log, deeds, u) && log[deeds[u]].step == Created(dir, tmp, x)
    && exists s :: deeds[|deeds| - 1] < s < |log| && SameBytes(log[s].after, input, x)
  }

  lemma KindStays(log: seq<Instant>, horizon: nat, i: nat, j: nat, x: Ino)
    requires Chain(log, horizon) && i <= j < |log| && x in log[i].after.nodes
    ensures x in log[j].after.nodes && SameKind(log[i].after.nodes[x], log[j].after.nodes[x])
    ensures WellFormed(log[j].after) && x < log[j].after.next
  {
    ChainGrows(log, horizon, i, j);
    ChainGrows(log, horizon, j, j);
  }

  lemma CreatedIsNew(log: seq<Instant>, horizon: nat, c: nat)
    requires Chain(log, horizon) && 0 < c < |log| && log[c].step.Created?
    ensures log[c].step.ino == log[c - 1].after.next && IsFile(log[c].after, log[c].step.ino)
  {
    ChainStep(log, horizon, c);
  }

  lemma NewNumber(world: World, i: nat, c: nat, input: Ino)
    requires world.Valid() && i < c < |world.log| && world.log[c].step.Created? && input in world.log[i].after.nodes
    ensures world.log[c].step.ino != input && IsFile(world.log[c].after, world.log[c].step.ino)
    ensures input in world.disk.nodes && SameKind(world.log[i].after.nodes[input], world.disk.nodes[input])
  {
    Properly(world.log, world.deeds, world.horizon, world.environment);
    KindStays(world.log, world.horizon, i, c - 1, input);
    KindStays(world.log, world.horizon, i, |world.log| - 1, input);
    CreatedIsNew(world.log, world.horizon, c);
  }

  /** A new staging file. */
  method NewStaged(world: World, dir: Ino, ghost input: Ino, ghost rest: bool, ghost p: Path) returns (r: Result<(Name, Ino)>)
    requires world.Valid() && IsFile(world.disk, input)
    requires rest ==> world.Quiet() && View(world.disk, p) == ADir && Resolve(world.disk, p) == Some(dir)
    modifies world
    ensures world.Advanced() && world.reported == old(world.reported)
    ensures StagingDeeds(world.log, world.deeds, |old(world.deeds)|)
    ensures r.Ok? ==> |world.deeds| == |old(world.deeds)| + 1 && |old(world.log)| <= world.deeds[|old(world.deeds)|]
                      && world.log[world.deeds[|old(world.deeds)|]].step == Created(dir, r.value.0, r.value.1)
    ensures r.Ok? ==> r.value.1 != input && IsFile(world.disk, input) && FreshName(r.value.0, old(world.serial))
    ensures rest ==> StagingOnly(world.log, world.deeds, |old(world.deeds)|, old(world.disk), p)
    ensures rest && r.Ok? ==> Staged(old(world.disk), world.disk, p, r.value.0, r.value.1)
                              && Is(world.disk, input, old(world.disk).nodes[input])
                              && IsFile(world.disk, r.value.1) && world.disk.nodes[r.value.1].bytes == []
    ensures rest && old(world.Faultless()) ==> r.Ok?
  {
    world.Sound();
    ghost var d := world.disk;
    if rest {
      ReachedLinked(d, p);
    }
    r := StagingFile(world, dir);
    if world.deeds != old(world.deeds) {
      NewNumber(world, |old(world.log)| - 1, world.deeds[|old(world.deeds)|], input);
      if rest {
        world.Settled();
        var name :| IsStaging(name) && Linked(d, dir) && Edge(d, dir, name).None?
                    && world.disk == CreateFile(d, dir, name) && (r.Ok? ==> r.value == (name, d.next));
        CreatedStaged(d, p, name);
      }
    }
  }

  /** A staged copy that was found equal to its input. */
  method StageCopy(world: World, dir: Ino, input: Ino, stamp: Option<Stamp>, size: nat, meter: Meter, done: nat, ghost start: nat, ghost last: nat,
                   ghost rest: bool, ghost p: Path)
    returns (r: Result<(Name, Ino)>, done': nat)
    requires world.Valid() && meter.Sane() && IsFile(world.disk, input)
    requires Told(world.reported, start, meter, last, done)
    requires rest ==> world.Quiet() && View(world.disk, p) == ADir && Resolve(world.disk, p) == Some(dir)
    modifies world
    ensures world.Advanced()
    ensures StagingDeeds(world.log, world.deeds, |old(world.deeds)|)
    ensures Bounded(world.reported, start, meter)
    ensures r.Ok? ==> stamp.Some? && stamp.value.size <= size && done' == done + stamp.value.size && Told(world.reported, start, meter, last, done')
    ensures r.Ok? ==> FreshName(r.value.0, old(world.serial))
    ensures r.Ok? ==> CopyStaged(world.log, |old(world.log)|, world.deeds, |old(world.deeds)|, dir, r.value.0, r.value.1, input)
    ensures rest ==> StagingOnly(world.log, world.deeds, |old(world.deeds)|, old(world.disk), p)
    ensures rest && r.Ok? ==> Staged(old(world.disk), world.disk, p, r.value.0, r.value.1) && SameBytes(world.disk, input, r.value.1)
                              && Is(world.disk, input, old(world.disk).nodes[input])
    ensures rest && old(world.Faultless()) && stamp == Some(StampOf(old(world.disk).nodes[input])) && stamp.value.size <= size ==>
              old(world.disk).nodes[input].Regular() ==> r.Ok?
  {
    done' := done;
    ToldBounded(world.reported, start, meter, last, done);
    ghost var d := world.disk;
    var staged := NewStaged(world, dir, input, rest, p);
    if staged.Err? {
      ToldBounded(world.reported, start, meter, last, done);
      return Err(staged.fault), done;
    }
    var (tmp, output) := staged.value;
    ghost var u := |world.deeds|;
    var filled;
    filled, done' := FillStaged(world, input, output, stamp, size, meter, done, start, last, rest, d, p, tmp);
    if filled.Err? {
      return Err(filled.fault), done';
    }
    if rest {
      StagedMeans(d, world.disk, p, tmp, output);
    }
    var equal := RetainedEqual(world, input, output);
    if equal.Err? || !equal.value {
      return Err(Other), done';
    }
    return Ok((tmp, output)), done';
  }
}
