/** Chunked comparison of two open files, `retained_equal`. */
module Compare {
  import opened Outcomes
  import opened Disks
  import opened Worlds

  const CHUNK: nat := 65536

  /** The file was `node` at instant `i`. */
  ghost predicate Was(log: seq<Instant>, i: nat, x: Ino, node: Node) {
    i < |log| && Is(log[i].after, x, node) && node.File?
  }

  ghost predicate Is(d: Disk, x: Ino, node: Node) {
    x in d.nodes && d.nodes[x] == node
  }

  /** What a file was and still is, it was at any instant in between. */
  lemma Still(world: World, i: nat, k: nat, x: Ino, node: Node)
    requires world.Valid() && Was(world.log, i, x, node) && i <= k < |world.log|
    ensures IsFile(world.disk, x) && (Is(world.disk, x, node) ==> Is(world.log[k].after, x, node))
  {
    world.Unchanged(i, k, x);
  }

  lemma SameStampStill(world: World, i: nat, k: nat, m: nat, x: Ino, node: Node)
    requires world.Valid() && Was(world.log, i, x, node) && i <= k <= m < |world.log|
    ensures IsFile(world.log[m].after, x)
    ensures StampOf(world.log[m].after.nodes[x]) == StampOf(node) ==> Is(world.log[k].after, x, node)
  {
    Properly(world.log, world.deeds, world.horizon, world.environment);
    UnchangedBetween(world.log, world.horizon, i, k, m, x);
  }

  /** `chunk` is what stands in `bytes` at `offset`. */
  predicate At(bytes: seq<Byte>, offset: nat, chunk: seq<Byte>) {
    offset + |chunk| <= |bytes| && bytes[offset..offset + |chunk|] == chunk
  }

  lemma AtJoined(bytes: seq<Byte>, offset: nat, a: seq<Byte>, b: seq<Byte>)
    requires At(bytes, offset, a) && At(bytes, offset + |a|, b)
    ensures At(bytes, offset, a + b)
  {
    assert bytes[offset..offset + |a + b|] == a + b;
  }

  /** The inner loop: reads until `count` bytes are there or the file ends. */
  method Fill(world: World, x: Ino, offset: nat, count: nat, ghost i: nat, ghost node: Node) returns (r: Result<seq<Byte>>)
    requires world.Valid() && Was(world.log, i, x, node) && offset <= |node.bytes|
    modifies world
    ensures world.Looked() && (r.Ok? ==> |r.value| <= count)
    ensures r.Ok? && Is(world.disk, x, node) ==>
              At(node.bytes, offset, r.value) && (|r.value| < count ==> |node.bytes| < offset + count)
    ensures old(world.Faultless() && world.Quiet()) ==> r.Ok?
  {
    Still(world, i, i, x, node);
    var bytes: seq<Byte> := [];
    while |bytes| < count
      invariant |bytes| <= count && world.Looked()
      invariant Is(world.disk, x, node) ==> At(node.bytes, offset, bytes)
    {
      ghost var k := |world.log| - 1;
      var more :- world.ReadAt(x, offset + |bytes|, count - |bytes|);
      Still(world, i, k, x, node);
      if more == [] {
        return Ok(bytes);
      }
      if Is(world.disk, x, node) {
        AtJoined(node.bytes, offset, bytes, more);
      }
      bytes := bytes + more;
    }
    return Ok(bytes);
  }

  /** The outer loop, over files that were `p` at instant `i` and `q` at instant `j`. */
  method CompareBytes(world: World, left: Ino, right: Ino, size: nat, ghost i: nat, ghost j: nat, ghost p: Node, ghost q: Node)
    returns (r: Result<bool>)
    requires world.Valid() && Was(world.log, i, left, p) && Was(world.log, j, right, q) && |p.bytes| == |q.bytes| == size
    modifies world
    ensures world.Looked()
    ensures r.Ok? && Is(world.disk, left, p) && Is(world.disk, right, q) ==> r.value == (p.bytes == q.bytes)
    ensures old(world.Faultless() && world.Quiet()) ==> r.Ok?
  {
    Still(world, i, i, left, p);
    var offset := 0;
    while offset < size
      invariant offset <= size && world.Looked()
      invariant Is(world.disk, left, p) && Is(world.disk, right, q) ==> p.bytes[..offset] == q.bytes[..offset]
    {
      var limit := if size - offset < CHUNK then size - offset else CHUNK;
      ghost var k := |world.log| - 1;
      var chunk :- world.ReadAt(left, offset, limit);
      if chunk == [] {
        return Ok(false);
      }
      ghost var m := |world.log| - 1;
      var other :- Fill(world, right, offset, |chunk|, j, q);
      Still(world, i, m, left, p);
      Still(world, i, k, left, p);
      Still(world, j, k, right, q);
      if |other| < |chunk| || chunk != other {
        return Ok(false);
      }
      ExtendEqual(p.bytes, q.bytes, offset, chunk);
      offset := offset + |chunk|;
    }
    return Ok(true);
  }

  lemma ExtendEqual(p: seq<Byte>, q: seq<Byte>, offset: nat, chunk: seq<Byte>)
    ensures At(p, offset, chunk) && At(q, offset, chunk) && p[..offset] == q[..offset]
            ==> p[..offset + |chunk|] == q[..offset + |chunk|]
  {
    if At(p, offset, chunk) && At(q, offset, chunk) && p[..offset] == q[..offset] {
      assert p[..offset + |chunk|] == p[..offset] + chunk;
      assert q[..offset + |chunk|] == q[..offset] + chunk;
    }
  }

  ghost predicate BothRegular(d: Disk, left: Ino, right: Ino) {
    IsFile(d, left) && d.nodes[left].Regular() && IsFile(d, right) && d.nodes[right].Regular()
  }

  /** The comparison between its two readings of the stamps. */
  method EqualBetweenStamps(world: World, left: Ino, right: Ino) returns (r: Result<bool>)
    requires world.Valid() && IsFile(world.disk, left) && IsFile(world.disk, right)
    modifies world
    ensures world.Looked()
    ensures r == Ok(true) ==> SameBytesSeen(world.log, |old(world.log)|, left, right)
    ensures r == Ok(false) ==>
              !(Steady(world.log, |old(world.log)|, left) && Steady(world.log, |old(world.log)|, right) && SameBytes(world.disk, left, right))
    ensures old(world.Quiet()) && r.Ok? ==> r.value == SameBytes(world.disk, left, right)
    ensures old(world.Quiet() && world.Faultless()) ==> r.Ok?
  {
    ghost var start, leftWas, rightWas := |world.log| - 1, world.disk.nodes[left], world.disk.nodes[right];
    var beforeLeft :- world.Stat(left);
    Still(world, start, start, left, leftWas);
    ghost var i, p := |world.log| - 1, world.disk.nodes[left];
    var beforeRight :- world.Stat(right);
    Still(world, start, start, right, rightWas);
    ghost var j, q := |world.log| - 1, world.disk.nodes[right];
    Still(world, i, j, left, p);
    if beforeLeft.size != beforeRight.size {
      return Ok(false);
    }
    var same :- CompareBytes(world, left, right, beforeLeft.size, i, j, p, q);
    ghost var k := |world.log| - 1;
    if !same {
      return Ok(false);
    }
    var afterLeft :- world.Stat(left);
    ghost var m := |world.log| - 1;
    var afterRight :- world.Stat(right);
    SameStampStill(world, i, k, m, left, p);
    SameStampStill(world, j, k, |world.log| - 1, right, q);
    if beforeLeft == afterLeft && beforeRight == afterRight {
      assert SameBytes(world.log[k].after, left, right);
      return Ok(true);
    }
    return Ok(false);
  }

  /**
    Whatever the others do and however short the reads are, the answer "equal" means that both files
    held the same bytes at one instant of the call. On files nobody changes during the call, the
    answer is whether they are equal.
  */
  method RetainedEqual(world: World, left: Ino, right: Ino) returns (r: Result<bool>)
    requires world.Valid()
    modifies world
    ensures world.Looked()
    ensures r == Ok(true) ==> SameBytesSeen(world.log, |old(world.log)|, left, right)
    ensures r == Ok(false) ==>
              !(Steady(world.log, |old(world.log)|, left) && Steady(world.log, |old(world.log)|, right) && SameBytes(world.disk, left, right))
    ensures old(world.Quiet()) && r.Ok? ==> BothRegular(world.disk, left, right) && r.value == SameBytes(world.disk, left, right)
    ensures old(world.Quiet() && world.Faultless()) && BothRegular(old(world.disk), left, right) ==> r.Ok?
  {
    var _ :- world.CheckRegular(left);
    ghost var k, was := |world.log| - 1, world.disk.nodes[left];
    var _ :- world.CheckRegular(right);
    Still(world, k, k, left, was);
    r := EqualBetweenStamps(world, left, right);
  }
}
