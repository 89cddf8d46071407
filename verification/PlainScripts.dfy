/** Scripts without structure, whose scenes are the blocks between scene headers, and the choice between the two readings. */
module PlainScripts {
  import opened Outcomes
  import opened Scripts
  import opened ScriptLines
  import opened ScriptScenes
  import opened ScriptParts
  import opened ScriptParsers

  const UNNAMED_SCENE: string := "未命名场景"
  const PLAIN_TITLE: string := "剧本"

  /** The blocks of a plain script: the parts between scene headers, without an empty first one. */
  function Blocks(lines: seq<Line>): seq<Part> {
    var ps := Parts(lines, IsScene());
    if ps[0].body == [] then ps[1..] else ps
  }

  function PlainScene(p: Part): Scene {
    Filled(EmptyScene(Heading(p, UNNAMED_SCENE)), p.body)
  }

  function PlainScenes(ps: seq<Part>): (r: seq<Scene>)
    ensures |r| == |ps| && forall i | 0 <= i < |ps| :: r[i] == PlainScene(ps[i])
  {
    seq(|ps|, i requires 0 <= i < |ps| => PlainScene(ps[i]))
  }

  /** The reading of a plain script: one episode with one scene for each block. */
  function PlainOf(lines: seq<Line>): seq<Episode> {
    if lines == [] then [] else [Episode(0, PLAIN_TITLE, PlainScenes(Blocks(lines)))]
  }

  /** The finished blocks, and the one being collected. */
  ghost predicate Splitting(blocks: seq<seq<Line>>, current: seq<Line>, prefix: seq<Line>) {
    if prefix == [] then blocks == [] && current == [] else Collecting(blocks, current, Blocks(prefix))
  }

  ghost predicate Collecting(blocks: seq<seq<Line>>, current: seq<Line>, ps: seq<Part>) {
    && ps != [] && |blocks| == |ps| - 1 && current == ps[|ps| - 1].Whole() && current != []
    && forall i | 0 <= i < |blocks| :: blocks[i] == ps[i].Whole()
  }

  lemma CollectedMore(blocks: seq<seq<Line>>, current: seq<Line>, ps: seq<Part>, line: Line)
    requires Collecting(blocks, current, ps)
    ensures Collecting(blocks + [current], [line], ps + [Part(Some(line), [])])
    ensures Collecting(blocks, current + [line], ps[|ps| - 1 := ps[|ps| - 1].With(line)])
  {
    assert ps[|ps| - 1].With(line).Whole() == current + [line];
  }

  /** What one more line does to the blocks. */
  lemma BlocksNext(prefix: seq<Line>, line: Line)
    ensures prefix == [] ==> Blocks(prefix) == [] && Blocks([line]) == [if line.SceneHeader? then Part(Some(line), []) else Part(None, [line])]
    ensures prefix != [] ==>
              var ps := Blocks(prefix);
              && ps != [] && ps[|ps| - 1].Whole() != []
              && Blocks(prefix + [line]) == if line.SceneHeader? then ps + [Part(Some(line), [])] else ps[|ps| - 1 := ps[|ps| - 1].With(line)]
  {
    PartsMore(prefix, line, IsScene());
    PartsAre(prefix, IsScene());
    var ps := Parts(prefix, IsScene());
    if prefix == [] {
      assert prefix + [line] == [line];
    } else {
      assert forall i | 0 <= i < |ps| :: Begins(ps[i], i, IsScene());
      if |ps| == 1 {
        assert Joined(ps) == Joined(ps[..0]) + ps[0].Whole();
      }
    }
  }

  lemma SplitNext(blocks: seq<seq<Line>>, current: seq<Line>, prefix: seq<Line>, line: Line)
    requires Splitting(blocks, current, prefix)
    ensures if line.SceneHeader? && current != [] then Splitting(blocks + [current], [line], prefix + [line])
            else Splitting(blocks, current + [line], prefix + [line])
  {
    BlocksNext(prefix, line);
    if prefix == [] {
      assert prefix + [line] == [line];
    } else {
      CollectedMore(blocks, current, Blocks(prefix), line);
    }
  }

  /** `split_by_scene_headers`. */
  method SplitBlocks(lines: seq<Line>) returns (blocks: seq<seq<Line>>)
    ensures |blocks| == |Blocks(lines)| && forall i | 0 <= i < |blocks| :: blocks[i] == Blocks(lines)[i].Whole()
    ensures blocks == [] <==> lines == []
  {
    blocks := [];
    var current: seq<Line> := [];
    for k := 0 to |lines|
      invariant Splitting(blocks, current, lines[..k])
    {
      assert lines[..k + 1] == lines[..k] + [lines[k]];
      SplitNext(blocks, current, lines[..k], lines[k]);
      if lines[k].SceneHeader? && current != [] {
        blocks, current := blocks + [current], [lines[k]];
      } else {
        current := current + [lines[k]];
      }
    }
    assert lines[..|lines|] == lines;
    if current != [] {
      blocks := blocks + [current];
    }
  }

  /** A block has no scene header but its first line, and that does not read like the name of an unnamed scene. */
  ghost predicate IsBlock(p: Part) {
    && (p.head.Some? ==> p.head.value.SceneHeader? && p.head.value.header != UNNAMED_SCENE)
    && forall l | l in p.body :: !l.SceneHeader?
  }

  /** The inner loop of `parse_plain_script`: one block becomes one scene. */
  method ParseBlock(block: seq<Line>, ghost p: Part) returns (scene: Scene)
    requires IsBlock(p) && block == p.Whole()
    ensures scene == PlainScene(p)
  {
    scene := EmptyScene(UNNAMED_SCENE);
    ghost var start := if p.head.Some? then 1 else 0;
    for k := 0 to |block|
      invariant k < start ==> scene == EmptyScene(UNNAMED_SCENE)
      invariant start <= k ==> scene == Filled(EmptyScene(Heading(p, UNNAMED_SCENE)), p.body[..k - start])
    {
      if start <= k {
        assert block[k] == p.body[k - start] && p.body[..k + 1 - start] == p.body[..k - start] + [block[k]];
        assert block[k] in p.body;
        FilledMore(EmptyScene(Heading(p, UNNAMED_SCENE)), p.body[..k - start], block[k]);
        FilledHeader(EmptyScene(Heading(p, UNNAMED_SCENE)), p.body[..k - start]);
      }
      if scene.header == UNNAMED_SCENE && block[k].SceneHeader? {
        scene := scene.(header := block[k].header);
      } else {
        scene := Add(scene, block[k]);
      }
    }
    assert p.body[..|p.body|] == p.body;
  }

  ghost predicate NoneUnnamed(lines: seq<Line>) {
    forall l | l in lines && l.SceneHeader? :: l.header != UNNAMED_SCENE
  }

  lemma {:induction false} JoinedMembers(ps: seq<Part>, i: nat)
    requires i < |ps|
    ensures forall l | l in ps[i].Whole() :: l in Joined(ps)
    decreases |ps|
  {
    if i < |ps| - 1 {
      JoinedMembers(ps[..|ps| - 1], i);
    }
  }

  lemma BlocksAre(lines: seq<Line>)
    requires NoneUnnamed(lines)
    ensures forall i | 0 <= i < |Blocks(lines)| :: IsBlock(Blocks(lines)[i])
  {
    var ps := Parts(lines, IsScene());
    PartsAre(lines, IsScene());
    forall i | 0 <= i < |ps| ensures IsBlock(ps[i]) {
      assert Begins(ps[i], i, IsScene());
      JoinedMembers(ps, i);
      assert ps[i].head.Some? ==> ps[i].head.value in ps[i].Whole();
    }
  }

  /** `parse_plain_script`, on the kinds of its lines. */
  method ParsePlain(lines: seq<Line>) returns (episodes: seq<Episode>)
    requires NoneUnnamed(lines)
    ensures episodes == PlainOf(lines)
  {
    var blocks := SplitBlocks(lines);
    if blocks == [] {
      return [];
    }
    BlocksAre(lines);
    var scenes: seq<Scene> := [];
    for k := 0 to |blocks|
      invariant |scenes| == k && forall i | 0 <= i < k :: scenes[i] == PlainScene(Blocks(lines)[i])
    {
      var scene := ParseBlock(blocks[k], Blocks(lines)[k]);
      scenes := scenes + [scene];
    }
    assert scenes == PlainScenes(Blocks(lines));
    return [Episode(0, PLAIN_TITLE, scenes)];
  }

  lemma {:induction false} PlainScenesHold(ps: seq<Part>, kind: Kind)
    ensures InScenes(PlainScenes(ps), kind) == InParts(ps, kind)
  {
    if ps != [] {
      var front, last := ps[..|ps| - 1], ps[|ps| - 1];
      PlainScenesHold(front, kind);
      assert PlainScenes(ps) == PlainScenes(front) + [PlainScene(last)];
      InScenesMore(PlainScenes(front), PlainScene(last), kind);
      NewSceneHolds(Heading(last, UNNAMED_SCENE), last.body, kind);
    }
  }

  /** A plain script, too, holds just what its lines give. */
  lemma PlainLosesNothing(lines: seq<Line>, kind: Kind)
    ensures InEpisodes(PlainOf(lines), kind) == Gives(lines, kind)
  {
    var ps := Parts(lines, IsScene());
    PartsGive(lines, IsScene(), kind);
    if lines != [] {
      PlainScenesHold(Blocks(lines), kind);
      if ps[0].body == [] {
        FirstGivesNothing(ps, kind);
      }
      OneEpisodeHolds(PlainOf(lines)[0], kind);
    }
  }

  lemma {:induction false} FirstGivesNothing(ps: seq<Part>, kind: Kind)
    requires ps != [] && ps[0].body == []
    ensures InParts(ps[1..], kind) == InParts(ps, kind)
  {
    if |ps| > 1 {
      assert ps[1..][..|ps| - 2] == ps[..|ps| - 1][1..];
      FirstGivesNothing(ps[..|ps| - 1], kind);
    }
  }

  // ---------- the entry point ----------

  function ClassifyAll(lines: seq<string>, classify: string -> Line): (r: seq<Line>)
    ensures |r| == |lines| && forall i | 0 <= i < |lines| :: r[i] == classify(lines[i])
  {
    seq(|lines|, i requires 0 <= i < |lines| => classify(lines[i]))
  }

  /** A scene header of a plain script never reads like the name of an unnamed scene. */
  lemma HeadersNamed(lines: seq<string>)
    ensures NoneUnnamed(ClassifyAll(lines, ClassifyPlain))
  {
    forall l | l in ClassifyAll(lines, ClassifyPlain) && l.SceneHeader? ensures l.header != UNNAMED_SCENE {
      UnnamedIsNoHeader();
    }
  }

  /** The lines of a script as the branch that reads it classifies them. */
  function Classified(lines: seq<string>): seq<Line> {
    ClassifyAll(lines, if HasMarkdown(lines) then ClassifyMarkdown else ClassifyPlain)
  }

  /** `parse_script`, on the lines of the trimmed text. */
  method ParseScript(lines: seq<string>) returns (episodes: seq<Episode>)
    ensures episodes == if HasMarkdown(lines) then EpisodesOf(Classified(lines)) else PlainOf(Classified(lines))
    ensures forall kind :: InEpisodes(episodes, kind) == Gives(Classified(lines), kind)
  {
    forall kind ensures InEpisodes(EpisodesOf(Classified(lines)), kind) == Gives(Classified(lines), kind) == InEpisodes(PlainOf(Classified(lines)), kind) {
      NothingLost(Classified(lines), kind);
      PlainLosesNothing(Classified(lines), kind);
    }
    if lines == [] {
      return [];
    }
    if HasMarkdown(lines) {
      episodes := ParseLines(ClassifyAll(lines, ClassifyMarkdown));
    } else {
      HeadersNamed(lines);
      episodes := ParsePlain(ClassifyAll(lines, ClassifyPlain));
    }
  }
}
