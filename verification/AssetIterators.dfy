/** Scanning an asset library: an explicit stack instead of recursion, and assets sent in chunks. */
module AssetIterators {
  import opened Outcomes
  import opened Disks
  import opened Sorting
  import opened PathOrder

  /** What stands at a path: a directory with the names in it, in any order, or a file. */
  datatype Kind = Folder(listable: bool, names: seq<Name>) | Document(readable: bool)

  /** A stable tree no deeper than `depth`; `skipped` names and irrelevant files are not assets. */
  datatype Library = Library(tree: map<Path, Kind>, depth: nat, skipped: Name -> bool, relevant: Path -> bool) {
    /** Mentioning this unfolds `Valid`, which is kept folded elsewhere to keep proofs small. */
    ghost predicate Unfold(once: nat) {
      true
    }

    ghost predicate Valid() {
      forall once: nat {:trigger Unfold(once)} :: Unfold(once) ==> Closed()
    }

    /** No path is deeper than `depth`, and every name found in a directory stands for something. */
    ghost predicate Closed() {
      forall p <- tree ::
        |p| <= depth && (tree[p].Folder? ==> Distinct(tree[p].names) && forall n | n in tree[p].names :: p + [n] in tree)
    }

    predicate IsAsset(p: Path) {
      p in tree && tree[p].Document? && relevant(p)
    }

    predicate Readable(p: Path) {
      p in tree && tree[p].Document? && tree[p].readable
    }
  }

  function Unskipped(names: seq<Name>, skipped: Name -> bool): seq<Name> {
    if names == [] then []
    else (if skipped(names[0]) then [] else [names[0]]) + Unskipped(names[1..], skipped)
  }

  lemma {:induction false} UnskippedAre(names: seq<Name>, skipped: Name -> bool)
    ensures forall n :: n in Unskipped(names, skipped) <==> n in names && !skipped(n)
    ensures Distinct(names) ==> Distinct(Unskipped(names, skipped))
  {
    if names != [] {
      UnskippedAre(names[1..], skipped);
      assert names == [names[0]] + names[1..];
      if Distinct(names) {
        DistinctConcat(if skipped(names[0]) then [] else [names[0]], Unskipped(names[1..], skipped));
      }
    }
  }

  /** The names under a directory that are looked at, in order. */
  function Ordered(lib: Library, p: Path): seq<Name>
    requires p in lib.tree
  {
    if lib.tree[p].Folder? && lib.tree[p].listable then Sort(Unskipped(lib.tree[p].names, lib.skipped), NameOrder()) else []
  }

  lemma OrderedAre(lib: Library, p: Path)
    requires lib.Valid() && p in lib.tree
    ensures |p| <= lib.depth && forall n :: n in Ordered(lib, p) <==> Listed(lib, p, n)
    ensures forall n | n in Ordered(lib, p) :: p + [n] in lib.tree && |p| < lib.depth
    ensures forall i, j | 0 <= i < j < |Ordered(lib, p)| :: NameBefore(Ordered(lib, p)[i], Ordered(lib, p)[j])
  {
    assert lib.Unfold(0);
    if lib.tree[p].Folder? && lib.tree[p].listable {
      var names := Unskipped(lib.tree[p].names, lib.skipped);
      UnskippedAre(lib.tree[p].names, lib.skipped);
      NameOrders();
      SortKeeps(names, NameOrder());
      SortSorts(names, NameOrder());
      SortPermutes(names, NameOrder());
      DistinctPermuted(names, Sort(names, NameOrder()));
      forall n | n in Ordered(lib, p) ensures p + [n] in lib.tree && |p| < lib.depth {
        assert |p + [n]| <= lib.depth;
      }
    }
  }

  /** The name is found in the directory at `p` and not skipped. */
  predicate Listed(lib: Library, p: Path, n: Name) {
    p in lib.tree && lib.tree[p].Folder? && lib.tree[p].listable && n in lib.tree[p].names && !lib.skipped(n)
  }

  // ---------- the recursive listing ----------

  /** A path and everything beneath it: a directory before its contents, names in order. */
  function Preorder(lib: Library, p: Path): seq<Path>
    requires lib.Valid() && p in lib.tree
    decreases lib.depth - |p| + 1, 0
  {
    OrderedAre(lib, p);
    [p] + PreorderIn(lib, p, Ordered(lib, p))
  }

  function PreorderIn(lib: Library, p: Path, names: seq<Name>): seq<Path>
    requires lib.Valid() && |p| <= lib.depth
    requires forall n | n in names :: p + [n] in lib.tree && |p| < lib.depth
    decreases lib.depth - |p|, |names| + 1
  {
    if names == [] then [] else
      assert names[0] in names;
      Preorder(lib, p + [names[0]]) + PreorderIn(lib, p, names[1..])
  }

  /** The path is reached from `p` through directories that can be listed, by names that are not skipped. */
  ghost predicate Reached(lib: Library, p: Path, q: Path) {
    p <= q && p in lib.tree && forall k | |p| <= k < |q| :: Listed(lib, q[..k], q[k])
  }

  lemma ReachedStep(lib: Library, p: Path, n: Name, q: Path)
    requires lib.Valid() && p in lib.tree
    ensures Reached(lib, p + [n], q) && Listed(lib, p, n) ==> Reached(lib, p, q)
    ensures Reached(lib, p, q) && |p| < |q| ==> Listed(lib, p, q[|p|]) && Reached(lib, p + [q[|p|]], q)
  {
    assert lib.Unfold(0);
    if Reached(lib, p + [n], q) && Listed(lib, p, n) {
      forall k | |p| <= k < |q| ensures Listed(lib, q[..k], q[k]) {
        assert k == |p| ==> q[..k] == p && q[k] == n;
      }
    }
    if Reached(lib, p, q) && |p| < |q| {
      assert q[..|p|] == p && Listed(lib, q[..|p|], q[|p|]);
      assert p + [q[|p|]] <= q;
    }
  }

  lemma ReachedThrough(lib: Library, p: Path, q: Path)
    requires lib.Valid() && p in lib.tree && q != p
    ensures Reached(lib, p, q) <==> exists n :: n in Ordered(lib, p) && Reached(lib, p + [n], q)
  {
    OrderedAre(lib, p);
    if Reached(lib, p, q) {
      ReachedStep(lib, p, q[|p|], q);
    }
    forall n | n in Ordered(lib, p) && Reached(lib, p + [n], q) ensures Reached(lib, p, q) {
      ReachedStep(lib, p, n, q);
    }
  }

  /** The listing holds exactly what is reached. */
  lemma {:induction false} PreorderIsReached(lib: Library, p: Path, q: Path)
    requires lib.Valid() && p in lib.tree
    ensures q in Preorder(lib, p) <==> Reached(lib, p, q)
    decreases lib.depth - |p| + 1, 0
  {
    OrderedAre(lib, p);
    if q != p {
      PreorderInIsReached(lib, p, Ordered(lib, p), q);
      ReachedThrough(lib, p, q);
    }
  }

  lemma {:induction false} PreorderInIsReached(lib: Library, p: Path, names: seq<Name>, q: Path)
    requires lib.Valid() && |p| <= lib.depth && forall n | n in names :: p + [n] in lib.tree && |p| < lib.depth
    ensures q in PreorderIn(lib, p, names) <==> exists n :: n in names && Reached(lib, p + [n], q)
    decreases lib.depth - |p|, |names| + 1
  {
    if names != [] {
      assert names[0] in names && names == [names[0]] + names[1..];
      PreorderIsReached(lib, p + [names[0]], q);
      PreorderInIsReached(lib, p, names[1..], q);
    }
  }

  ghost predicate Ascending(ps: seq<Path>) {
    forall i, j | 0 <= i < j < |ps| :: Before(ps[i], ps[j])
  }

  lemma AscendingConcat(xs: seq<Path>, ys: seq<Path>)
    requires Ascending(xs) && Ascending(ys) && forall x, y | x in xs && y in ys :: Before(x, y)
    ensures Ascending(xs + ys)
  {
    forall i, j | 0 <= i < j < |xs + ys| ensures Before((xs + ys)[i], (xs + ys)[j]) {
      assert i < |xs| <= j ==> (xs + ys)[i] in xs && (xs + ys)[j] in ys;
    }
  }

  /** What lies under an earlier name comes before what lies under a later one. */
  lemma {:induction false} BranchesAscend(p: Path, m: Name, n: Name, x: Path, y: Path)
    requires NameBefore(m, n) && p + [m] <= x && p + [n] <= y
    ensures Before(x, y)
    decreases |p|
  {
    if p != [] {
      assert x[0] == p[0] == y[0];
      assert (p[1..] + [m]) == (p + [m])[1..] && (p[1..] + [n]) == (p + [n])[1..];
      BranchesAscend(p[1..], m, n, x[1..], y[1..]);
    } else {
      assert x[0] == m && y[0] == n;
    }
  }

  /** The listing is in the order of paths, component by component; so it is the one sorted listing. */
  lemma {:induction false} PreorderAscends(lib: Library, p: Path)
    requires lib.Valid() && p in lib.tree
    ensures Ascending(Preorder(lib, p))
    decreases lib.depth - |p| + 1, 0
  {
    var names := Ordered(lib, p);
    OrderedAre(lib, p);
    PreorderInAscends(lib, p, names);
    forall y | y in PreorderIn(lib, p, names) ensures Before(p, y) {
      PreorderInIsReached(lib, p, names, y);
      PrefixBefore(p, y);
    }
    AscendingConcat([p], PreorderIn(lib, p, names));
  }

  lemma {:induction false} PreorderInAscends(lib: Library, p: Path, names: seq<Name>)
    requires lib.Valid() && |p| <= lib.depth && forall n | n in names :: p + [n] in lib.tree && |p| < lib.depth
    requires forall i, j | 0 <= i < j < |names| :: NameBefore(names[i], names[j])
    ensures Ascending(PreorderIn(lib, p, names))
    decreases lib.depth - |p|, |names| + 1
  {
    if names != [] {
      var q, rest := p + [names[0]], names[1..];
      assert names[0] in names;
      PreorderAscends(lib, q);
      PreorderInAscends(lib, p, rest);
      forall x, y | x in Preorder(lib, q) && y in PreorderIn(lib, p, rest) ensures Before(x, y) {
        PreorderIsReached(lib, q, x);
        PreorderInIsReached(lib, p, rest, y);
        var n :| n in rest && Reached(lib, p + [n], y);
        BranchesAscend(p, names[0], n, x, y);
      }
      AscendingConcat(Preorder(lib, q), PreorderIn(lib, p, rest));
    }
  }

  // ---------- the iterator ----------

  /** The assets among some paths. */
  function Assets(lib: Library, ps: seq<Path>): seq<Path> {
    if ps == [] then [] else (if lib.IsAsset(ps[0]) then [ps[0]] else []) + Assets(lib, ps[1..])
  }

  /** What the stack still stands for, from its top down. */
  function Pending(lib: Library, stack: seq<Path>): seq<Path>
    requires lib.Valid() && InTree(lib, stack)
  {
    if stack == [] then [] else Preorder(lib, stack[|stack| - 1]) + Pending(lib, stack[..|stack| - 1])
  }

  function Reversed(p: Path, names: seq<Name>): seq<Path> {
    if names == [] then [] else Reversed(p, names[1..]) + [p + [names[0]]]
  }

  ghost predicate InTree(lib: Library, ps: seq<Path>) {
    forall p | p in ps :: p in lib.tree
  }

  lemma {:induction false} ReversedInTree(lib: Library, p: Path, names: seq<Name>)
    requires forall n | n in names :: p + [n] in lib.tree
    ensures InTree(lib, Reversed(p, names))
  {
    if names != [] {
      assert names[0] in names;
      ReversedInTree(lib, p, names[1..]);
    }
  }

  lemma PendingTop(lib: Library, stack: seq<Path>, p: Path)
    requires lib.Valid() && p in lib.tree && InTree(lib, stack)
    ensures Pending(lib, stack + [p]) == Preorder(lib, p) + Pending(lib, stack)
  {
    assert (stack + [p])[..|stack|] == stack;
  }

  /** Pushing the children in reverse leaves them to be popped in order. */
  lemma {:induction false} PushedPending(lib: Library, stack: seq<Path>, p: Path, names: seq<Name>)
    requires lib.Valid() && |p| <= lib.depth && InTree(lib, stack)
    requires forall n | n in names :: p + [n] in lib.tree && |p| < lib.depth
    ensures InTree(lib, stack + Reversed(p, names))
    ensures Pending(lib, stack + Reversed(p, names)) == PreorderIn(lib, p, names) + Pending(lib, stack)
    decreases |names|
  {
    ReversedInTree(lib, p, names);
    if names == [] {
      assert stack + Reversed(p, names) == stack;
    } else {
      var rest, first := names[1..], p + [names[0]];
      assert names[0] in names;
      PushedPending(lib, stack, p, rest);
      JoinedPaths(stack, Reversed(p, rest), [first]);
      PendingTop(lib, stack + Reversed(p, rest), first);
      JoinedPaths(Preorder(lib, first), PreorderIn(lib, p, rest), Pending(lib, stack));
    }
  }

  lemma JoinedPaths(a: seq<Path>, b: seq<Path>, c: seq<Path>)
    ensures (a + b) + c == a + (b + c)
  {
  }

  /** The stack after the directory on its top has been replaced by its contents. */
  function Replaced(lib: Library, stack: seq<Path>, p: Path): seq<Path>
    requires p in lib.tree
  {
    stack + Reversed(p, Ordered(lib, p))
  }

  /** One path is taken off, and the rest is still to come. */
  lemma PoppedPending(lib: Library, stack: seq<Path>, p: Path)
    requires lib.Valid() && p in lib.tree && InTree(lib, stack)
    ensures InTree(lib, Replaced(lib, stack, p))
    ensures Pending(lib, stack + [p]) == [p] + Pending(lib, Replaced(lib, stack, p))
  {
    OrderedAre(lib, p);
    PendingTop(lib, stack, p);
    PushedPending(lib, stack, p, Ordered(lib, p));
    PreorderHead(lib, p);
    JoinedPaths([p], PreorderIn(lib, p, Ordered(lib, p)), Pending(lib, stack));
  }

  lemma PreorderHead(lib: Library, p: Path)
    requires lib.Valid() && p in lib.tree && |p| <= lib.depth && forall n | n in Ordered(lib, p) :: p + [n] in lib.tree && |p| < lib.depth
    ensures Preorder(lib, p) == [p] + PreorderIn(lib, p, Ordered(lib, p))
  {
  }

  lemma AssetsHead(lib: Library, p: Path, rest: seq<Path>)
    ensures Assets(lib, [p] + rest) == (if lib.IsAsset(p) then [p] else []) + Assets(lib, rest)
  {
    assert ([p] + rest)[1..] == rest;
  }

  lemma Popped(lib: Library, stack: seq<Path>, p: Path)
    requires lib.Valid() && p in lib.tree && InTree(lib, stack)
    ensures InTree(lib, Replaced(lib, stack, p))
    ensures Pending(lib, stack + [p]) == [p] + Pending(lib, Replaced(lib, stack, p))
    ensures Assets(lib, Pending(lib, stack + [p])) ==
              (if lib.IsAsset(p) then [p] else []) + Assets(lib, Pending(lib, Replaced(lib, stack, p)))
    ensures Ordered(lib, p) == [] ==> Replaced(lib, stack, p) == stack
  {
    PoppedPending(lib, stack, p);
    AssetsHead(lib, p, Pending(lib, Replaced(lib, stack, p)));
  }

  class AssetIterator {
    const lib: Library
    var stack: seq<Path>
    /** The assets still to come. */
    ghost var left: seq<Path>

    /** Mentioning this unfolds `Valid`, which is kept folded elsewhere to keep proofs small. */
    ghost predicate Unfold(once: nat) {
      true
    }

    ghost predicate Valid()
      reads this
    {
      forall once: nat {:trigger Unfold(once)} :: Unfold(once) ==>
        lib.Valid() && InTree(lib, stack) && left == Assets(lib, Pending(lib, stack))
    }

    constructor (lib: Library, root: Path)
      requires lib.Valid()
      ensures Valid() && this.lib == lib
      ensures left == if root in lib.tree then Assets(lib, Preorder(lib, root)) else []
    {
      this.lib := lib;
      stack := if root in lib.tree then [root] else [];
      new;
      assert stack != [] ==> stack[..0] == [] && Pending(lib, stack) == Preorder(lib, root);
      left := Assets(lib, Pending(lib, stack));
    }

    /**
      `next`: the first asset still to come. A file whose metadata cannot be read is dropped, and reads as
      the end of the iteration.
    */
    method Next() returns (r: Option<Path>)
      requires Valid()
      modifies this
      ensures Valid()
      ensures left == if old(left) == [] then [] else old(left)[1..]
      ensures r == if old(left) != [] && lib.Readable(old(left)[0]) then Some(old(left)[0]) else None
    {
      assert Unfold(0);
      while stack != []
        invariant lib.Valid() && InTree(lib, stack) && left == Assets(lib, Pending(lib, stack)) == old(left)
        decreases |Pending(lib, stack)|
      {
        var p := stack[|stack| - 1];
        assert stack == stack[..|stack| - 1] + [p];
        stack := stack[..|stack| - 1];
        Popped(lib, stack, p);
        if lib.tree[p].Folder? {
          if lib.tree[p].listable {
            stack := stack + Reversed(p, Ordered(lib, p));
          }
        } else if lib.relevant(p) {
          left := left[1..];
          return if lib.tree[p].readable then Some(p) else None;
        }
      }
      return None;
    }
  }

  // ---------- sending in chunks ----------

  const CHUNK_SIZE: nat := 500

  datatype AssetEvent = InitialScanChunk(assets: seq<Path>) | InitialScanDone

  /** The assets up to the first one that cannot be read. */
  function ReadableBeginning(lib: Library, ps: seq<Path>): seq<Path> {
    if ps == [] || !lib.Readable(ps[0]) then [] else [ps[0]] + ReadableBeginning(lib, ps[1..])
  }

  /** All assets are sent exactly if all can be read. */
  lemma {:induction false} NothingLost(lib: Library, ps: seq<Path>)
    ensures ReadableBeginning(lib, ps) <= ps
    ensures ReadableBeginning(lib, ps) == ps <==> forall p | p in ps :: lib.Readable(p)
  {
    if ps != [] {
      NothingLost(lib, ps[1..]);
      assert ps == [ps[0]] + ps[1..];
    }
  }

  function Sent(events: seq<AssetEvent>): seq<Path> {
    if events == [] then []
    else Sent(events[..|events| - 1]) + (if events[|events| - 1].InitialScanChunk? then events[|events| - 1].assets else [])
  }

  lemma SentMore(events: seq<AssetEvent>, event: AssetEvent)
    ensures Sent(events + [event]) == Sent(events) + (if event.InitialScanChunk? then event.assets else [])
  {
    assert (events + [event])[..|events|] == events;
  }

  /** Chunks of the full size. */
  ghost predicate FullChunks(events: seq<AssetEvent>) {
    forall i | 0 <= i < |events| :: events[i].InitialScanChunk? && |events[i].assets| == CHUNK_SIZE
  }

  /** Chunks of 1 to 500 assets, all but the last one full, and one final event after them. */
  ghost predicate WellSent(events: seq<AssetEvent>) {
    && events != [] && events[|events| - 1] == InitialScanDone
    && (forall i | 0 <= i < |events| - 1 :: events[i].InitialScanChunk? && 1 <= |events[i].assets| <= CHUNK_SIZE)
    && (forall i | 0 <= i < |events| - 2 :: |events[i].assets| == CHUNK_SIZE)
  }

  /** What has been sent, and the chunk being filled. */
  ghost predicate Filling(events: seq<AssetEvent>, chunk: seq<Path>, taken: seq<Path>) {
    FullChunks(events) && |chunk| < CHUNK_SIZE && taken == Sent(events) + chunk
  }

  /** Puts one asset into the chunk, and sends the chunk when it is full. */
  method Fill(events: seq<AssetEvent>, chunk: seq<Path>, asset: Path, ghost taken: seq<Path>) returns (events': seq<AssetEvent>, chunk': seq<Path>)
    requires Filling(events, chunk, taken)
    ensures Filling(events', chunk', taken + [asset])
  {
    events', chunk' := events, chunk + [asset];
    SentMore(events, InitialScanChunk(chunk'));
    if |chunk'| >= CHUNK_SIZE {
      events', chunk' := events + [InitialScanChunk(chunk')], [];
    }
  }

  /** Sends what is left, and the final event. */
  method Finish(events: seq<AssetEvent>, chunk: seq<Path>, ghost taken: seq<Path>) returns (events': seq<AssetEvent>)
    requires Filling(events, chunk, taken)
    ensures WellSent(events') && Sent(events') == taken
  {
    events' := events;
    if chunk != [] {
      SentMore(events', InitialScanChunk(chunk));
      events' := events' + [InitialScanChunk(chunk)];
    }
    SentMore(events', InitialScanDone);
    events' := events' + [InitialScanDone];
  }

  /** The loop over the iterator. */
  method SendAll(assets: AssetIterator) returns (events: seq<AssetEvent>)
    requires assets.Valid()
    modifies assets
    ensures WellSent(events) && Sent(events) == ReadableBeginning(assets.lib, old(assets.left))
  {
    ghost var all, taken := assets.left, [];
    events := [];
    var chunk: seq<Path> := [];
    var asset := assets.Next();
    while asset.Some?
      invariant assets.Valid() && Filling(events, chunk, taken)
      invariant ReadableBeginning(assets.lib, all) == taken + Upcoming(assets.lib, asset, assets.left)
      decreases |assets.left|, if asset.Some? then 1 else 0
    {
      events, chunk := Fill(events, chunk, asset.value, taken);
      JoinedPaths(taken, [asset.value], ReadableBeginning(assets.lib, assets.left));
      taken := taken + [asset.value];
      asset := assets.Next();
    }
    events := Finish(events, chunk, taken);
  }

  /** The initial scan: the chunks hold the listing, in order, up to the first file that cannot be read. */
  method InitialScan(lib: Library, root: Path) returns (events: seq<AssetEvent>)
    requires lib.Valid()
    ensures WellSent(events)
    ensures Sent(events) == ReadableBeginning(lib, if root in lib.tree then Assets(lib, Preorder(lib, root)) else [])
  {
    var assets := new AssetIterator(lib, root);
    events := SendAll(assets);
  }

  /** The asset in hand and those after it. */
  ghost function Upcoming(lib: Library, asset: Option<Path>, left: seq<Path>): seq<Path> {
    if asset.None? then [] else [asset.value] + ReadableBeginning(lib, left)
  }

  // ---------- a file that cannot be read ----------

  /** Two files in one directory, of which the first cannot be read. */
  function TwoFiles(): Library {
    Library(map[[] := Folder(true, ["a", "b"]), ["a"] := Document(false), ["b"] := Document(true)], 1, _ => false, _ => true)
  }

  lemma TwoFilesValid()
    ensures TwoFiles().Valid() && [] in TwoFiles().tree
  {
    var lib := TwoFiles();
    forall p <- lib.tree
      ensures |p| <= 1 && (lib.tree[p].Folder? ==> Distinct(lib.tree[p].names) && forall n | n in lib.tree[p].names :: p + [n] in lib.tree)
    {
      assert p == [] || p == ["a"] || p == ["b"];
      if p == [] {
        assert p + ["a"] == ["a"] && p + ["b"] == ["b"];
      }
    }
  }

  lemma TwoFilesOrdered()
    ensures [] in TwoFiles().tree && Ordered(TwoFiles(), []) == ["a", "b"]
  {
    var names := ["a", "b"];
    assert names[1..] == ["b"] && ["b"][1..] == [];
    assert Unskipped(["b"], TwoFiles().skipped) == ["b"] && Unskipped(names, TwoFiles().skipped) == names;
    assert Sort(["b"], NameOrder()) == ["b"];
    assert NameOrder()("a", "b");
    assert Sort(names, NameOrder()) == names;
  }

  lemma TwoFilesListed()
    ensures TwoFiles().Valid() && [] in TwoFiles().tree && Assets(TwoFiles(), Preorder(TwoFiles(), [])) == [["a"], ["b"]]
    ensures Reached(TwoFiles(), [], ["b"])
  {
    var lib := TwoFiles();
    TwoFilesValid();
    TwoFilesOrdered();
    OrderedAre(lib, []);
    LeafListed(lib, "a");
    LeafListed(lib, "b");
    assert ["a", "b"][1..] == ["b"] && ["b"][1..] == [];
    assert PreorderIn(lib, [], ["b"]) == [["b"]];
    assert Preorder(lib, []) == [[]] + [["a"], ["b"]];
    AssetsHead(lib, [], [["a"], ["b"]]);
    AssetsHead(lib, ["a"], [["b"]]);
    AssetsHead(lib, ["b"], []);
    assert ["b"][..0] == [];
  }

  lemma LeafListed(lib: Library, name: Name)
    requires lib.Valid() && [name] in lib.tree && lib.tree[[name]].Document?
    ensures [] + [name] == [name] && Preorder(lib, [name]) == [[name]]
  {
    OrderedAre(lib, [name]);
  }

  /** Its scan ends before it has sent anything: the second file, which can be read, is lost. */
  method ScanMisleads() returns (events: seq<AssetEvent>)
    ensures TwoFiles().IsAsset(["b"]) && TwoFiles().Readable(["b"]) && Reached(TwoFiles(), [], ["b"])
    ensures WellSent(events) && Sent(events) == []
  {
    TwoFilesListed();
    events := InitialScan(TwoFiles(), []);
  }
}
