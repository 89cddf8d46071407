/** Comparing the files at two paths, `same_contents`, with the checks on paths that go with it. */
module SameFiles {
  import opened Outcomes
  import opened Disks
  import opened Worlds
  import opened Compare
  import opened Scans

  /** `ensure_regular_file`. */
  method EnsureRegular(world: World, path: Path) returns (r: Result<()>)
    requires world.Valid()
    modifies world
    ensures world.Looked()
    ensures old(world.Quiet()) && r.Ok? ==> View(world.disk, path).AFile?
    ensures old(world.Quiet() && world.Faultless()) && |path| > 1 && View(old(world.disk), path).AFile? ==> r.Ok?
  {
    world.Sound();
    if path == [] {
      return Err(Other);
    }
    if View(world.disk, path).AFile? {
      PrefixIsDirectory(world.disk, path, |path| - 1);
    }
    var _ :- CheckedDirectory(world, path[..|path| - 1]);
    var meta :- world.Lstat(path);
    return if meta.directory || meta.link then Err(Other) else Ok(());
  }

  /** What `file_stamp` tells about a path. */
  function PathStamp(d: Disk, path: Path): Option<(nat, nat)> {
    var meta := MetaAt(d, path);
    if meta.None? then None else Some((meta.value.size, meta.value.modified))
  }

  /** `file_stamp(path).ok()`. */
  method FileStamp(world: World, path: Path) returns (stamp: Option<(nat, nat)>)
    requires world.Valid()
    modifies world
    ensures world.Looked() && |old(world.log)| < |world.log|
    ensures stamp.Some? ==> stamp == PathStamp(world.disk, path)
    ensures old(world.Quiet() && world.Faultless()) ==> stamp == PathStamp(old(world.disk), path)
  {
    var meta := world.Lstat(path);
    return if meta.Ok? then Some((meta.value.size, meta.value.modified)) else None;
  }

  // ---------- the comparison ----------

  lemma ExtendedEqual(p: seq<Byte>, q: seq<Byte>, offset: nat, chunk: seq<Byte>)
    requires At(p, offset, chunk) && offset <= |q| && p[..offset] == q[..offset]
    ensures At(q, offset, chunk) ==> p[..offset + |chunk|] == q[..offset + |chunk|]
  {
    if At(q, offset, chunk) {
      ExtendEqual(p, q, offset, chunk);
    }
  }

  /** Where a difference shows, the files differ. */
  lemma DifferentChunk(p: seq<Byte>, q: seq<Byte>, offset: nat, chunk: seq<Byte>, other: seq<Byte>)
    requires At(p, offset, chunk) && At(q, offset, other) && |chunk| == |other| && chunk != other
    ensures p != q
  {
  }

  /**
    One round of the loop: the next piece of the left file, and as much of the right one. It answers when the
    left file ends, or the pieces differ; a right file that ends too soon is an error.
  */
  method CompareRound(world: World, left: Ino, right: Ino, offset: nat, ghost i: nat, ghost j: nat, ghost p: Node, ghost q: Node)
    returns (r: Result<bool>, count: nat)
    requires world.Valid() && Was(world.log, i, left, p) && Was(world.log, j, right, q)
    requires Is(world.disk, left, p) && Is(world.disk, right, q) ==>
               offset <= |p.bytes| && offset <= |q.bytes| && p.bytes[..offset] == q.bytes[..offset]
    modifies world
    ensures world.Looked() && (count > 0 ==> |old(world.log)| < |world.log|)
    ensures r.Ok? && Is(world.disk, left, p) && Is(world.disk, right, q) ==>
              if count == 0 then r.value == (p.bytes == q.bytes)
              else offset + count <= |p.bytes| && offset + count <= |q.bytes| && p.bytes[..offset + count] == q.bytes[..offset + count]
    ensures count > 0 && old(world.Quiet()) ==> IsFile(world.disk, left) && offset + count <= |world.disk.nodes[left].bytes|
    ensures old(world.Quiet() && world.Faultless()) && Is(old(world.disk), left, p) && Is(old(world.disk), right, q) ==>
              |p.bytes| == |q.bytes| ==> r.Ok?
  {
    ghost var k := |world.log| - 1;
    Still(world, i, k, left, p);
    Still(world, j, k, right, q);
    count := 0;
    var chunk := world.ReadAt(left, offset, CHUNK);
    if chunk.Err? {
      return Err(chunk.fault), 0;
    }
    ghost var m := |world.log| - 1;
    if chunk.value == [] {
      Still(world, j, m, right, q);
      var more := world.ReadAt(right, offset, CHUNK);
      Still(world, i, k, left, p);
      Still(world, i, m, left, p);
      Still(world, j, k, right, q);
      if more.Err? {
        return Err(more.fault), 0;
      }
      return Ok(more.value == []), 0;
    }
    Still(world, i, k, left, p);
    Still(world, j, k, right, q);
    r, count := MatchChunk(world, left, right, offset, chunk.value, i, j, m, p, q);
    Still(world, i, k, left, p);
    Still(world, i, m, left, p);
    Still(world, j, k, right, q);
  }

  /** `read_exact` on the right file, and the comparison of the pieces. */
  method MatchChunk(world: World, left: Ino, right: Ino, offset: nat, chunk: seq<Byte>, ghost i: nat, ghost j: nat, ghost m: nat, ghost p: Node, ghost q: Node)
    returns (r: Result<bool>, count: nat)
    requires world.Valid() && Was(world.log, i, left, p) && Was(world.log, j, right, q) && i <= m < |world.log| && chunk != []
    requires Is(world.disk, left, p) ==> At(p.bytes, offset, chunk)
    requires Is(world.disk, left, p) && Is(world.disk, right, q) ==> offset <= |q.bytes| && p.bytes[..offset] == q.bytes[..offset]
    modifies world
    ensures world.Looked() && (count > 0 ==> count == |chunk|)
    ensures r.Ok? && Is(world.disk, left, p) && Is(world.disk, right, q) ==>
              if count == 0 then r.value == (p.bytes == q.bytes)
              else At(p.bytes, offset, chunk) && At(q.bytes, offset, chunk) && p.bytes[..offset + count] == q.bytes[..offset + count]
    ensures old(world.Quiet() && world.Faultless()) && Is(old(world.disk), right, q) && offset + |chunk| <= |q.bytes| ==> r.Ok?
  {
    ghost var k := |world.log| - 1;
    Still(world, j, k, right, q);
    Still(world, i, k, left, p);
    var other := ReadExact(world, right, offset, |chunk|, j, q);
    Still(world, i, k, left, p);
    Still(world, j, k, right, q);
    if other.Err? {
      return Err(other.fault), 0;
    }
    ghost var same := Is(world.disk, left, p) && Is(world.disk, right, q);
    if chunk != other.value {
      if same {
        DifferentChunk(p.bytes, q.bytes, offset, chunk, other.value);
      }
      return Ok(false), 0;
    }
    if same {
      ExtendedEqual(p.bytes, q.bytes, offset, chunk);
    }
    return Ok(true), |chunk|;
  }

  /** Reads just so many bytes; a file that ends before is an error. */
  method ReadExact(world: World, x: Ino, offset: nat, count: nat, ghost i: nat, ghost node: Node) returns (r: Result<seq<Byte>>)
    requires world.Valid() && Was(world.log, i, x, node)
    modifies world
    ensures world.Looked() && (r.Ok? ==> |r.value| == count)
    ensures r.Ok? && Is(world.disk, x, node) ==> count > 0 ==> At(node.bytes, offset, r.value)
    ensures old(world.Quiet() && world.Faultless()) && Is(old(world.disk), x, node) && offset + count <= |node.bytes| ==> r.Ok?
  {
    Still(world, i, i, x, node);
    var bytes: seq<Byte> := [];
    while |bytes| < count
      invariant |bytes| <= count && world.Looked()
      invariant bytes != [] && Is(world.disk, x, node) ==> At(node.bytes, offset, bytes)
    {
      ghost var k := |world.log| - 1;
      var more :- world.ReadAt(x, offset + |bytes|, count - |bytes|);
      Still(world, i, k, x, node);
      if more == [] {
        return Err(Other);
      }
      if bytes == [] {
        assert [] + more == more;
      } else if Is(world.disk, x, node) {
        AtJoined(node.bytes, offset, bytes, more);
      }
      bytes := bytes + more;
    }
    return Ok(bytes);
  }

  /** The loop of `same_contents`; it ends because others act finitely often. */
  method CompareContents(world: World, left: Ino, right: Ino, ghost i: nat, ghost j: nat, ghost p: Node, ghost q: Node) returns (r: Result<bool>)
    requires world.Valid() && Was(world.log, i, left, p) && Was(world.log, j, right, q)
    modifies world
    ensures world.Looked()
    ensures r.Ok? && Is(world.disk, left, p) && Is(world.disk, right, q) ==> r.value == (p.bytes == q.bytes)
    ensures old(world.Quiet() && world.Faultless()) && Is(old(world.disk), left, p) && Is(old(world.disk), right, q) ==>
              |p.bytes| == |q.bytes| ==> r.Ok?
  {
    var offset: nat := 0;
    while true
      invariant world.Looked()
      invariant Is(world.disk, left, p) && Is(world.disk, right, q) ==>
                  offset <= |p.bytes| && offset <= |q.bytes| && p.bytes[..offset] == q.bytes[..offset]
      decreases if world.now < world.horizon then world.horizon - world.now else 0, BytesLeft(world.disk, left, offset)
    {
      label Round:
      ghost var k := |world.log| - 1;
      var count: nat;
      r, count := CompareRound(world, left, right, offset, i, j, p, q);
      Still(world, i, k, left, p);
      Still(world, j, k, right, q);
      if r.Err? || count == 0 {
        return;
      }
      assert world.Looked@Round();
      offset := offset + count;
    }
  }

  function BytesLeft(d: Disk, x: Ino, offset: nat): nat {
    if IsFile(d, x) && offset < |d.nodes[x].bytes| then |d.nodes[x].bytes| - offset else 0
  }

  // ---------- by path ----------

  /** The file is the same at both instants, and hence at all in between. */
  ghost predicate Constant(log: seq<Instant>, i: nat, b: nat, x: Ino)
    requires i < |log| && b < |log|
  {
    IsFile(log[i].after, x) && IsFile(log[b].after, x) && log[b].after.nodes[x] == log[i].after.nodes[x]
  }

  /** The two paths led to files `x` and `y` which, unless one of them was changed while they were read, held the same bytes. */
  ghost predicate ReadEqualAt(log: seq<Instant>, a: nat, b: nat, left: Path, right: Path, i: nat, j: nat, x: Ino, y: Ino) {
    && a <= i <= j <= b < |log|
    && Resolve(log[i].after, left) == Some(x) && IsFile(log[i].after, x)
    && Resolve(log[j].after, right) == Some(y) && IsFile(log[j].after, y)
    && (Constant(log, i, b, x) && Constant(log, j, b, y) ==> SameBytes(log[b].after, x, y))
  }

  ghost predicate ReadEqual(log: seq<Instant>, a: nat, b: nat, left: Path, right: Path) {
    exists i, j, x, y :: ReadEqualAt(log, a, b, left, right, i, j, x, y)
  }

  /** While nobody acts, it means that the files at the two paths are equal. */
  lemma ReadEqualAtRest(log: seq<Instant>, a: nat, b: nat, left: Path, right: Path, d: Disk)
    requires ReadEqual(log, a, b, left, right) && forall i | a <= i <= b :: log[i].after == d
    ensures View(d, left).AFile? && View(d, right) == View(d, left)
  {
    var i, j, x, y :| ReadEqualAt(log, a, b, left, right, i, j, x, y);
  }

  /** Opens both files and compares them. */
  method OpenAndCompare(world: World, left: Path, right: Path) returns (r: Result<bool>)
    requires world.Valid()
    modifies world
    ensures world.Looked() && |old(world.log)| < |world.log|
    ensures r == Ok(true) ==> ReadEqual(world.log, |old(world.log)|, |world.log| - 1, left, right)
    ensures old(world.Quiet()) && r.Ok? ==>
              View(world.disk, left).AFile? && View(world.disk, right).AFile? && r.value == (View(world.disk, left) == View(world.disk, right))
    ensures old(world.Quiet() && world.Faultless()) ==>
              View(old(world.disk), left).AFile? && View(old(world.disk), right).AFile? ==>
                |View(old(world.disk), left).bytes| == |View(old(world.disk), right).bytes| ==> r.Ok?
  {
    var x :- world.OpenPath(left);
    ghost var i, p := |world.log| - 1, world.disk.nodes[x];
    if !IsFile(world.disk, x) {
      return Err(Other);  // what is not a file cannot be read
    }
    var y :- world.OpenPath(right);
    ghost var j, q := |world.log| - 1, world.disk.nodes[y];
    if !IsFile(world.disk, y) {
      return Err(Other);
    }
    Still(world, i, j, x, p);
    r := CompareContents(world, x, y, i, j, p, q);
    Still(world, i, j, x, p);
    Still(world, j, j, y, q);
    if r == Ok(true) {
      assert ReadEqualAt(world.log, |old(world.log)|, |world.log| - 1, left, right, i, j, x, y);
    }
  }

  /**
    `same_contents`. Whatever others do, "yes" means that the files opened held the same bytes, unless one of
    them was changed while it was read; at rest, the answer is whether the files are equal.
  */
  method SameContents(world: World, left: Path, right: Path) returns (r: Result<bool>)
    requires world.Valid()
    modifies world
    ensures world.Looked() && (r.Ok? ==> |old(world.log)| < |world.log|)
    ensures r == Ok(true) ==> ReadEqual(world.log, |old(world.log)|, |world.log| - 1, left, right)
    ensures old(world.Quiet()) && r.Ok? ==>
              View(world.disk, left).AFile? && View(world.disk, right).AFile? && r.value == (View(world.disk, left) == View(world.disk, right))
    ensures old(world.Quiet() && world.Faultless()) ==>
              |left| > 1 && |right| > 1 && View(old(world.disk), left).AFile? && View(old(world.disk), right).AFile? ==> r.Ok?
  {
    var _ :- EnsureRegular(world, left);
    var _ :- EnsureRegular(world, right);
    var before :- world.Lstat(left);
    var after :- world.Lstat(right);
    if before.size != after.size {
      return Ok(false);
    }
    ghost var a := |world.log|;
    r := OpenAndCompare(world, left, right);
    if r == Ok(true) {
      ReadEqualEarlier(world.log, |old(world.log)|, a, |world.log| - 1, left, right);
    }
  }

  lemma ReadEqualEarlier(log: seq<Instant>, a: nat, a': nat, b: nat, left: Path, right: Path)
    requires a <= a' && ReadEqual(log, a', b, left, right)
    ensures ReadEqual(log, a, b, left, right)
  {
    var i, j, x, y :| ReadEqualAt(log, a', b, left, right, i, j, x, y);
    assert ReadEqualAt(log, a, b, left, right, i, j, x, y);
  }
}
