/** The screenplay parser: which episodes and scenes a structured script has, and which of its lines each scene holds. */
module ScriptParsers {
  import opened Outcomes
  import opened Scripts
  import opened ScriptLines
  import opened ScriptScenes
  import opened ScriptParts

  const DEFAULT_EPISODE: string := "默认"
  const DEFAULT_SCENE: string := "默认场景"

  // ---------- the reading of a structured script ----------

  function IsEpisode(): Line -> bool {
    (l: Line) => l.EpisodeHeader?
  }

  function IsScene(): Line -> bool {
    (l: Line) => l.SceneHeader?
  }

  function Heading(p: Part, otherwise: string): string {
    if p.head.None? then otherwise
    else match p.head.value
      case EpisodeHeader(title) => title
      case SceneHeader(header) => header
      case _ => otherwise
  }

  /** A scene header opens a scene; lines before any header form the default one, if there are any to be stored. */
  function SceneOf(p: Part): Option<Scene> {
    if p.head.None? && !Stores(p.body) then None else Some(Filled(EmptyScene(Heading(p, DEFAULT_SCENE)), p.body))
  }

  function AsSeq<T>(x: Option<T>): seq<T> {
    if x.None? then [] else [x.value]
  }

  function ScenesOf(ps: seq<Part>): seq<Scene> {
    if ps == [] then [] else ScenesOf(ps[..|ps| - 1]) + AsSeq(SceneOf(ps[|ps| - 1]))
  }

  /** The parts from the first one on that has something to store. */
  function Kept(ps: seq<Part>): seq<Part> {
    if ps == [] then []
    else
      var before, last := Kept(ps[..|ps| - 1]), ps[|ps| - 1];
      if before != [] || Stores(last.body) then before + [last] else []
  }

  /** Before the first episode header, scenes are kept only from the first one on that stores something: it opens the default episode. */
  function KeptIn(i: nat, ps: seq<Part>): seq<Part> {
    if i == 0 then Kept(ps) else ps
  }

  /** The index of an episode counts the episode headers before it, so the default episode shares its index with the next one. */
  function IndexOf(i: nat): nat {
    if i == 0 then 0 else i - 1
  }

  function TitleOf(i: nat, p: Part): string {
    if i == 0 then DEFAULT_EPISODE else Heading(p, DEFAULT_EPISODE)
  }

  function EpisodeFrom(i: nat, title: string, ps: seq<Part>): seq<Episode> {
    if KeptIn(i, ps) == [] then [] else [Episode(IndexOf(i), title, ScenesOf(KeptIn(i, ps)))]
  }

  /** The episode that part `i` of the script makes up, if any. */
  function EpisodeOf(i: nat, p: Part): seq<Episode> {
    EpisodeFrom(i, TitleOf(i, p), Parts(p.body, IsScene()))
  }

  function EpisodesIn(ps: seq<Part>): seq<Episode> {
    if ps == [] then [] else EpisodesIn(ps[..|ps| - 1]) + EpisodeOf(|ps| - 1, ps[|ps| - 1])
  }

  /** The episodes of a script: it is cut at the episode headers, and each part at the scene headers. */
  function EpisodesOf(lines: seq<Line>): seq<Episode> {
    EpisodesIn(Parts(lines, IsEpisode()))
  }

  /** What is dropped are the leading parts that have nothing to store. */
  lemma {:induction false} KeptIs(ps: seq<Part>)
    ensures |Kept(ps)| <= |ps| && Kept(ps) == ps[|ps| - |Kept(ps)|..]
    ensures forall i | 0 <= i < |ps| - |Kept(ps)| :: !Stores(ps[i].body)
    ensures Kept(ps) != [] ==> Stores(Kept(ps)[0].body)
  {
    if ps != [] {
      var front := ps[..|ps| - 1];
      KeptIs(front);
      assert ps == front + [ps[|ps| - 1]];
    }
  }

  lemma KeptMore(ps: seq<Part>, p: Part)
    ensures Kept(ps + [p]) == if Kept(ps) != [] || Stores(p.body) then Kept(ps) + [p] else []
  {
    assert (ps + [p])[..|ps|] == ps;
  }

  lemma ScenesMore(ps: seq<Part>, p: Part)
    ensures ScenesOf(ps + [p]) == ScenesOf(ps) + AsSeq(SceneOf(p))
  {
    assert (ps + [p])[..|ps|] == ps;
  }

  lemma EpisodesMore(ps: seq<Part>, p: Part)
    ensures EpisodesIn(ps + [p]) == EpisodesIn(ps) + EpisodeOf(|ps|, p)
  {
    assert (ps + [p])[..|ps|] == ps;
  }

  // ---------- the state of the parser ----------

  /** The finished episodes, the one being built, the scene being built, and the number of episode headers. */
  datatype State = State(episodes: seq<Episode>, episode: Option<Episode>, scene: Option<Scene>, index: nat)

  /** The current scene goes to the current episode; without one it is dropped. */
  function CloseScene(st: State): State {
    if st.scene.None? then st
    else if st.episode.None? then st.(scene := None)
    else st.(scene := None, episode := Some(st.episode.value.(scenes := st.episode.value.scenes + [st.scene.value])))
  }

  function CloseEpisode(st: State): State {
    if st.episode.None? then st else st.(episode := None, episodes := st.episodes + [st.episode.value])
  }

  /** Opens the default episode and the default scene where they are missing. */
  function WithScene(st: State): State {
    var st' := if st.episode.None? then st.(episode := Some(Episode(0, DEFAULT_EPISODE, []))) else st;
    if st'.scene.None? then st'.(scene := Some(EmptyScene(DEFAULT_SCENE))) else st'
  }

  /** The episode being built when part `i` has been read so far: all its scenes but the last one. */
  function OpenFrom(i: nat, title: string, ps: seq<Part>): Option<Episode>
    requires ps != []
  {
    if KeptIn(i, ps) == [] then None else Some(Episode(IndexOf(i), title, ScenesOf(KeptIn(i, ps[..|ps| - 1]))))
  }

  function OpenEpisode(i: nat, p: Part): Option<Episode> {
    OpenFrom(i, TitleOf(i, p), Parts(p.body, IsScene()))
  }

  function OpenScene(p: Part): Option<Scene> {
    var ps := Parts(p.body, IsScene());
    SceneOf(ps[|ps| - 1])
  }

  /** The state after these lines. */
  function StateAfter(lines: seq<Line>): State {
    var ps := Parts(lines, IsEpisode());
    var n := |ps| - 1;
    State(EpisodesIn(ps[..n]), OpenEpisode(n, ps[n]), OpenScene(ps[n]), n)
  }

  /** What one more part adds. */
  lemma KeptInMore(i: nat, front: seq<Part>, last: Part)
    ensures KeptIn(i, front + [last]) == [] ==> i == 0 && KeptIn(i, front) == [] && !Stores(last.body)
    ensures KeptIn(i, front + [last]) != [] ==>
              && KeptIn(i, front + [last]) == KeptIn(i, front) + [last]
              && ScenesOf(KeptIn(i, front + [last])) == ScenesOf(KeptIn(i, front)) + AsSeq(SceneOf(last))
    ensures KeptIn(i, front) != [] ==> KeptIn(i, front + [last]) != []
  {
    KeptMore(front, last);
    ScenesMore(KeptIn(i, front), last);
  }

  /** Closing what is open gives the whole part. */
  lemma ClosedFrom(episodes: seq<Episode>, i: nat, title: string, front: seq<Part>, last: Part)
    ensures CloseEpisode(CloseScene(State(episodes, OpenFrom(i, title, front + [last]), SceneOf(last), i)))
            == State(episodes + EpisodeFrom(i, title, front + [last]), None, None, i)
  {
    KeptInMore(i, front, last);
    assert (front + [last])[..|front|] == front;
    if KeptIn(i, front + [last]) == [] {
      assert episodes + [] == episodes;
    } else if SceneOf(last).None? {
      assert ScenesOf(KeptIn(i, front)) + [] == ScenesOf(KeptIn(i, front));
    }
  }

  lemma ClosedPart(episodes: seq<Episode>, i: nat, p: Part)
    ensures CloseEpisode(CloseScene(State(episodes, OpenEpisode(i, p), OpenScene(p), i))) == State(episodes + EpisodeOf(i, p), None, None, i)
  {
    var ps := Parts(p.body, IsScene());
    assert ps == ps[..|ps| - 1] + [ps[|ps| - 1]];
    ClosedFrom(episodes, i, TitleOf(i, p), ps[..|ps| - 1], ps[|ps| - 1]);
  }

  /** The scene before a scene header is complete. */
  lemma SceneFollows(episodes: seq<Episode>, i: nat, title: string, front: seq<Part>, last: Part, line: Line)
    requires line.SceneHeader?
    ensures CloseScene(State(episodes, OpenFrom(i, title, front + [last]), SceneOf(last), i))
            == State(episodes, OpenFrom(i, title, front + [last] + [Part(Some(line), [])]), None, i)
  {
    var ps := front + [last];
    KeptInMore(i, front, last);
    KeptInMore(i, ps, Part(Some(line), []));
    assert ps[..|front|] == front && (ps + [Part(Some(line), [])])[..|ps|] == ps;
    if KeptIn(i, ps) != [] && SceneOf(last).None? {
      assert ScenesOf(KeptIn(i, front)) + [] == ScenesOf(KeptIn(i, front));
    }
  }

  lemma ClosedScene(episodes: seq<Episode>, i: nat, p: Part, line: Line)
    requires line.SceneHeader?
    ensures CloseScene(State(episodes, OpenEpisode(i, p), OpenScene(p), i)) == State(episodes, OpenEpisode(i, p.With(line)), None, i)
    ensures OpenScene(p.With(line)) == Some(EmptyScene(line.header))
  {
    var ps := Parts(p.body, IsScene());
    assert ps == ps[..|ps| - 1] + [ps[|ps| - 1]];
    PartsMore(p.body, line, IsScene());
    SceneFollows(episodes, i, TitleOf(i, p), ps[..|ps| - 1], ps[|ps| - 1], line);
  }

  /** A line that is not stored leaves the scene as it is; one that is stored is added to it. */
  lemma SceneLonger(p: Part, line: Line)
    ensures !line.Stored() ==> SceneOf(p.With(line)) == SceneOf(p)
    ensures line.Stored() ==> SceneOf(p.With(line)) == Some(Add(if SceneOf(p).Some? then SceneOf(p).value else EmptyScene(DEFAULT_SCENE), line))
  {
    StoresMore(p.body, line);
    FilledMore(EmptyScene(Heading(p, DEFAULT_SCENE)), p.body, line);
    if SceneOf(p).None? {
      FilledBlank(EmptyScene(DEFAULT_SCENE), p.body);
    }
  }

  /** The last part of a part, and those before it, after one more line. */
  lemma BodyLonger(p: Part, line: Line)
    requires !line.SceneHeader?
    ensures var ps, more := Parts(p.body, IsScene()), Parts(p.With(line).body, IsScene());
            |more| == |ps| && more[..|ps| - 1] == ps[..|ps| - 1] && more[|ps| - 1] == ps[|ps| - 1].With(line)
  {
    PartsMore(p.body, line, IsScene());
  }

  lemma SkippedFrom(i: nat, title: string, front: seq<Part>, last: Part, line: Line)
    requires !line.Stored()
    ensures OpenFrom(i, title, front + [last.With(line)]) == OpenFrom(i, title, front + [last])
  {
    StoresMore(last.body, line);
    KeptMore(front, last);
    KeptMore(front, last.With(line));
    assert (front + [last])[..|front|] == front == (front + [last.With(line)])[..|front|];
  }

  lemma SkippedLine(i: nat, p: Part, line: Line)
    requires !line.SceneHeader? && !line.Stored()
    ensures OpenEpisode(i, p.With(line)) == OpenEpisode(i, p) && OpenScene(p.With(line)) == OpenScene(p)
  {
    var ps := Parts(p.body, IsScene());
    var front, last := ps[..|ps| - 1], ps[|ps| - 1];
    BodyLonger(p, line);
    assert ps == front + [last] && Parts(p.With(line).body, IsScene()) == front + [last.With(line)];
    SceneLonger(last, line);
    SkippedFrom(i, TitleOf(i, p), front, last, line);
  }

  lemma StoredFrom(i: nat, title: string, front: seq<Part>, last: Part, line: Line)
    requires line.Stored() && (i == 0 ==> title == DEFAULT_EPISODE)
    ensures OpenFrom(i, title, front + [last.With(line)])
            == if OpenFrom(i, title, front + [last]).None? then Some(Episode(0, DEFAULT_EPISODE, [])) else OpenFrom(i, title, front + [last])
  {
    StoresMore(last.body, line);
    KeptInMore(i, front, last);
    KeptInMore(i, front, last.With(line));
    assert (front + [last])[..|front|] == front == (front + [last.With(line)])[..|front|];
  }

  lemma StoredLine(i: nat, p: Part, line: Line)
    requires line.Stored()
    ensures OpenEpisode(i, p.With(line)) == if OpenEpisode(i, p).None? then Some(Episode(0, DEFAULT_EPISODE, [])) else OpenEpisode(i, p)
    ensures OpenScene(p.With(line)) == Some(Add(if OpenScene(p).Some? then OpenScene(p).value else EmptyScene(DEFAULT_SCENE), line))
  {
    var ps := Parts(p.body, IsScene());
    var front, last := ps[..|ps| - 1], ps[|ps| - 1];
    BodyLonger(p, line);
    assert ps == front + [last] && Parts(p.With(line).body, IsScene()) == front + [last.With(line)];
    SceneLonger(last, line);
    StoredFrom(i, TitleOf(i, p), front, last, line);
  }

  /** What the loop does with one line. */
  function Step(st: State, line: Line): State {
    if line.EpisodeHeader? then CloseEpisode(CloseScene(st)).(episode := Some(Episode(st.index, line.title, [])), index := st.index + 1)
    else if line.SceneHeader? then CloseScene(st).(scene := Some(EmptyScene(line.header)))
    else if line.Stored() then WithScene(st).(scene := Some(Add(WithScene(st).scene.value, line)))
    else st
  }

  lemma NewPart(n: nat, line: Line)
    requires line.EpisodeHeader?
    ensures OpenEpisode(n + 1, Part(Some(line), [])) == Some(Episode(n, line.title, [])) && OpenScene(Part(Some(line), [])).None?
  {
    assert Parts([], IsScene()) == [Part(None, [])];
    assert [Part(None, [])][..0] == [];
  }

  lemma EpisodeNext(lines: seq<Line>, line: Line)
    requires line.EpisodeHeader?
    ensures StateAfter(lines + [line]) == Step(StateAfter(lines), line)
  {
    var ps := Parts(lines, IsEpisode());
    var n := |ps| - 1;
    PartsMore(lines, line, IsEpisode());
    assert (ps + [Part(Some(line), [])])[..|ps|] == ps == ps[..n] + [ps[n]];
    EpisodesMore(ps[..n], ps[n]);
    ClosedPart(EpisodesIn(ps[..n]), n, ps[n]);
    NewPart(n, line);
  }

  lemma InnerNext(lines: seq<Line>, line: Line)
    requires !line.EpisodeHeader?
    ensures StateAfter(lines + [line]) == Step(StateAfter(lines), line)
  {
    var ps := Parts(lines, IsEpisode());
    var n := |ps| - 1;
    PartsMore(lines, line, IsEpisode());
    assert ps[n := ps[n].With(line)][..n] == ps[..n];
    if line.SceneHeader? {
      ClosedScene(EpisodesIn(ps[..n]), n, ps[n], line);
    } else if line.Stored() {
      StoredLine(n, ps[n], line);
    } else {
      SkippedLine(n, ps[n], line);
    }
  }

  /** Mentioning this unfolds `Reads`, which is kept folded elsewhere to keep proofs small. */
  ghost predicate Unfold(lines: seq<Line>, once: nat) {
    true
  }

  ghost predicate Reads(st: State, lines: seq<Line>) {
    forall once: nat {:trigger Unfold(lines, once)} :: Unfold(lines, once) ==> st == StateAfter(lines)
  }

  lemma ReadsStart()
    ensures Reads(State([], None, None, 0), [])
  {
    assert Parts([], IsEpisode()) == [Part(None, [])] == Parts([], IsScene());
    assert [Part(None, [])][..0] == [] && Kept([Part(None, [])]) == [];
  }

  /** One line further. */
  lemma ReadsNext(st: State, lines: seq<Line>, line: Line)
    requires Reads(st, lines)
    ensures Reads(Step(st, line), lines + [line])
  {
    assert Unfold(lines, 0);
    if line.EpisodeHeader? {
      EpisodeNext(lines, line);
    } else {
      InnerNext(lines, line);
    }
  }

  /** At the end, what is open is closed. */
  lemma ReadsEnd(st: State, lines: seq<Line>)
    requires Reads(st, lines)
    ensures CloseEpisode(CloseScene(st)).episodes == EpisodesOf(lines)
  {
    assert Unfold(lines, 0);
    var ps := Parts(lines, IsEpisode());
    var n := |ps| - 1;
    assert ps == ps[..n] + [ps[n]];
    EpisodesMore(ps[..n], ps[n]);
    ClosedPart(EpisodesIn(ps[..n]), n, ps[n]);
  }

  /** `parse_markdown_script`, on the kinds of its lines. */
  method ParseLines(lines: seq<Line>) returns (episodes: seq<Episode>)
    ensures episodes == EpisodesOf(lines)
  {
    var st := State([], None, None, 0);
    ReadsStart();
    assert lines[..0] == [];
    for k := 0 to |lines|
      invariant Reads(st, lines[..k])
    {
      var line := lines[k];
      assert lines[..k + 1] == lines[..k] + [line];
      ReadsNext(st, lines[..k], line);
      if line.EpisodeHeader? {
        st := CloseEpisode(CloseScene(st));
        st := st.(episode := Some(Episode(st.index, line.title, [])), index := st.index + 1);
      } else if line.SceneHeader? {
        st := CloseScene(st).(scene := Some(EmptyScene(line.header)));
      } else if line.Stored() {
        st := WithScene(st);
        st := st.(scene := Some(Add(st.scene.value, line)));
      }
    }
    assert lines[..|lines|] == lines;
    ReadsEnd(st, lines);
    episodes := CloseEpisode(CloseScene(st)).episodes;
  }

  // ---------- nothing is lost or doubled ----------

  /** What scenes hold, in order. */
  function InScenes(scenes: seq<Scene>, kind: Kind): seq<Item> {
    if scenes == [] then [] else InScenes(scenes[..|scenes| - 1], kind) + Held(scenes[|scenes| - 1], kind)
  }

  function InEpisodes(episodes: seq<Episode>, kind: Kind): seq<Item> {
    if episodes == [] then [] else InEpisodes(episodes[..|episodes| - 1], kind) + InScenes(episodes[|episodes| - 1].scenes, kind)
  }

  /** What the bodies of some parts give. */
  function InParts(ps: seq<Part>, kind: Kind): seq<Item> {
    if ps == [] then [] else InParts(ps[..|ps| - 1], kind) + Gives(ps[|ps| - 1].body, kind)
  }

  lemma InPartsMore(ps: seq<Part>, p: Part, kind: Kind)
    ensures InParts(ps + [p], kind) == InParts(ps, kind) + Gives(p.body, kind)
  {
    assert (ps + [p])[..|ps|] == ps;
  }

  lemma LongerGives(ps: seq<Part>, line: Line, kind: Kind)
    requires ps != []
    ensures InParts(ps[|ps| - 1 := ps[|ps| - 1].With(line)], kind) == InParts(ps, kind) + Given(line, kind)
  {
    var n := |ps| - 1;
    var more := ps[n := ps[n].With(line)];
    assert more[..n] == ps[..n] && more[n] == ps[n].With(line);
    GivesMore(ps[n].body, line, kind);
    ThreeItems(InParts(ps[..n], kind), Gives(ps[n].body, kind), Given(line, kind));
  }

  lemma HeaderGives(ps: seq<Part>, line: Line, kind: Kind)
    requires line.Header()
    ensures InParts(ps + [Part(Some(line), [])], kind) == InParts(ps, kind) + Given(line, kind)
  {
    InPartsMore(ps, Part(Some(line), []), kind);
  }

  /** Cutting at headers loses nothing, since headers give nothing. */
  lemma {:induction false} PartsGive(lines: seq<Line>, opens: Line -> bool, kind: Kind)
    requires forall l | opens(l) :: l.Header()
    ensures InParts(Parts(lines, opens), kind) == Gives(lines, kind)
  {
    if lines == [] {
      InPartsMore([], Part(None, []), kind);
    } else {
      var front, last := lines[..|lines| - 1], lines[|lines| - 1];
      PartsGive(front, opens, kind);
      if opens(last) {
        HeaderGives(Parts(front, opens), last, kind);
      } else {
        LongerGives(Parts(front, opens), last, kind);
      }
    }
  }

  /** What is dropped has nothing to give. */
  lemma {:induction false} KeptGives(ps: seq<Part>, kind: Kind)
    ensures InParts(Kept(ps), kind) == InParts(ps, kind)
  {
    if ps != [] {
      var front, last := ps[..|ps| - 1], ps[|ps| - 1];
      KeptGives(front, kind);
      InPartsMore(Kept(front), last, kind);
      if Kept(ps) == [] {
        BlankGives(last.body, kind);
      }
    }
  }

  lemma InScenesMore(scenes: seq<Scene>, scene: Scene, kind: Kind)
    ensures InScenes(scenes + [scene], kind) == InScenes(scenes, kind) + Held(scene, kind)
  {
    assert (scenes + [scene])[..|scenes|] == scenes;
  }

  function InOne(scene: Option<Scene>, kind: Kind): seq<Item> {
    if scene.None? then [] else Held(scene.value, kind)
  }

  lemma SceneHolds(p: Part, kind: Kind)
    ensures InOne(SceneOf(p), kind) == Gives(p.body, kind)
  {
    NewSceneHolds(Heading(p, DEFAULT_SCENE), p.body, kind);
    if SceneOf(p).None? {
      BlankGives(p.body, kind);
    }
  }

  lemma InScenesAdd(scenes: seq<Scene>, scene: Option<Scene>, kind: Kind)
    ensures InScenes(scenes + AsSeq(scene), kind) == InScenes(scenes, kind) + InOne(scene, kind)
  {
    if scene.None? {
      assert scenes + [] == scenes;
    } else {
      InScenesMore(scenes, scene.value, kind);
    }
  }

  lemma {:induction false} ScenesHold(ps: seq<Part>, kind: Kind)
    ensures InScenes(ScenesOf(ps), kind) == InParts(ps, kind)
  {
    if ps != [] {
      var front, last := ps[..|ps| - 1], ps[|ps| - 1];
      ScenesHold(front, kind);
      SceneHolds(last, kind);
      InScenesAdd(ScenesOf(front), SceneOf(last), kind);
    }
  }

  lemma OneEpisodeHolds(episode: Episode, kind: Kind)
    ensures InEpisodes([episode], kind) == InScenes(episode.scenes, kind)
  {
    assert [episode][..0] == [] && InEpisodes([], kind) == [];
  }

  lemma EpisodeHolds(i: nat, p: Part, kind: Kind)
    ensures InEpisodes(EpisodeOf(i, p), kind) == Gives(p.body, kind)
  {
    PartsGive(p.body, IsScene(), kind);
    HoldsFrom(i, TitleOf(i, p), Parts(p.body, IsScene()), kind);
  }

  lemma HoldsFrom(i: nat, title: string, ps: seq<Part>, kind: Kind)
    ensures InEpisodes(EpisodeFrom(i, title, ps), kind) == InParts(ps, kind)
  {
    KeptGives(ps, kind);
    ScenesHold(KeptIn(i, ps), kind);
    if KeptIn(i, ps) != [] {
      OneEpisodeHolds(EpisodeFrom(i, title, ps)[0], kind);
    }
  }

  lemma InEpisodesJoin(episodes: seq<Episode>, i: nat, p: Part, kind: Kind)
    ensures InEpisodes(episodes + EpisodeOf(i, p), kind) == InEpisodes(episodes, kind) + InEpisodes(EpisodeOf(i, p), kind)
  {
    var more := EpisodeOf(i, p);
    if more == [] {
      assert episodes + more == episodes;
    } else {
      assert (episodes + more)[..|episodes|] == episodes && more[..0] == [];
    }
  }

  lemma {:induction false} EpisodesHold(ps: seq<Part>, kind: Kind)
    ensures InEpisodes(EpisodesIn(ps), kind) == InParts(ps, kind)
  {
    if ps != [] {
      var front, last := ps[..|ps| - 1], ps[|ps| - 1];
      EpisodesHold(front, kind);
      EpisodeHolds(|front|, last, kind);
      InEpisodesJoin(EpisodesIn(front), |front|, last, kind);
    }
  }

  /** The parsed script holds, kind by kind and in order, just what its lines give. */
  lemma NothingLost(lines: seq<Line>, kind: Kind)
    ensures InEpisodes(EpisodesOf(lines), kind) == Gives(lines, kind)
  {
    PartsGive(lines, IsEpisode(), kind);
    EpisodesHold(Parts(lines, IsEpisode()), kind);
  }

  // ---------- the indices of episodes ----------

  /** Episode `i`, not counting the default one, belongs to the header of part `i + 1`. */
  ghost predicate Numbered(episodes: seq<Episode>, ps: seq<Part>, i: nat) {
    i < |episodes| && i + 1 < |ps| && episodes[i].index == i && episodes[i].title == Heading(ps[i + 1], DEFAULT_EPISODE)
  }

  /** With a default episode or without, the titled episodes follow in order, numbered from zero. */
  lemma {:induction false} EpisodesAre(ps: seq<Part>)
    requires ps != []
    ensures var first := EpisodeOf(0, ps[0]);
            && first <= EpisodesIn(ps) && |EpisodesIn(ps)| == |first| + |ps| - 1
            && forall i | 0 <= i < |ps| - 1 :: Numbered(EpisodesIn(ps)[|first|..], ps, i)
  {
    var front, last := ps[..|ps| - 1], ps[|ps| - 1];
    if front == [] {
      assert EpisodesIn(front) == [] && [] + EpisodeOf(0, ps[0]) == EpisodeOf(0, ps[0]);
    } else {
      EpisodesAre(front);
      TitledEpisode(|front|, last);
      var first := EpisodeOf(0, ps[0]);
      assert EpisodesIn(ps)[|first|..] == EpisodesIn(front)[|first|..] + EpisodeOf(|front|, last);
      OneMoreNumbered(EpisodesIn(front)[|first|..], EpisodeOf(|front|, last)[0], EpisodesIn(ps)[|first|..], front, ps);
    }
  }

  lemma OneMoreNumbered(before: seq<Episode>, episode: Episode, after: seq<Episode>, front: seq<Part>, ps: seq<Part>)
    requires |ps| > 1 && front == ps[..|ps| - 1] && after == before + [episode] && |before| == |front| - 1
    requires forall i | 0 <= i < |front| - 1 :: Numbered(before, front, i)
    requires episode.index == |front| - 1 && episode.title == Heading(ps[|ps| - 1], DEFAULT_EPISODE)
    ensures forall i | 0 <= i < |ps| - 1 :: Numbered(after, ps, i)
  {
    forall i | 0 <= i < |ps| - 1 ensures Numbered(after, ps, i) {
      assert i < |front| - 1 ==> Numbered(before, front, i);
    }
  }

  lemma TitledEpisode(i: nat, p: Part)
    requires i > 0
    ensures |EpisodeOf(i, p)| == 1 && EpisodeOf(i, p)[0].index == i - 1 && EpisodeOf(i, p)[0].title == Heading(p, DEFAULT_EPISODE)
  {
  }

  ghost predicate SameIndex(episodes: seq<Episode>, i: nat, j: nat) {
    i < j < |episodes| && episodes[i].index == episodes[j].index
  }

  /** Two episodes have the same index exactly if something is to be stored before the first of the episode headers. */
  lemma IndicesClash(lines: seq<Line>)
    ensures (exists i, j :: SameIndex(EpisodesOf(lines), i, j)) <==> Stores(Parts(lines, IsEpisode())[0].body) && |Parts(lines, IsEpisode())| > 1
  {
    var ps := Parts(lines, IsEpisode());
    EpisodesAre(ps);
    DefaultEpisode(ps[0]);
    Clashing(EpisodesOf(lines), EpisodeOf(0, ps[0]), ps);
  }

  lemma Clashing(episodes: seq<Episode>, first: seq<Episode>, ps: seq<Part>)
    requires ps != [] && first <= episodes && |first| <= 1 && (first != [] ==> first[0].index == 0) && |episodes| == |first| + |ps| - 1
    requires forall i | 0 <= i < |ps| - 1 :: Numbered(episodes[|first|..], ps, i)
    ensures (exists i, j :: SameIndex(episodes, i, j)) <==> first != [] && |ps| > 1
  {
    if first != [] && |ps| > 1 {
      assert Numbered(episodes[|first|..], ps, 0);
      assert SameIndex(episodes, 0, 1);
    }
    if first == [] {
      assert episodes[|first|..] == episodes;
      forall i, j | 0 <= i < j < |episodes| ensures episodes[i].index != episodes[j].index {
        NumberedDiffer(episodes, ps, i, j);
      }
    }
  }

  lemma NumberedDiffer(episodes: seq<Episode>, ps: seq<Part>, i: nat, j: nat)
    requires i < j < |episodes| && Numbered(episodes, ps, i) && Numbered(episodes, ps, j)
    ensures episodes[i].index != episodes[j].index
  {
  }

  /** The default episode exists exactly if something is stored before the first episode header. */
  lemma DefaultEpisode(p: Part)
    ensures EpisodeOf(0, p) != [] <==> Stores(p.body)
    ensures |EpisodeOf(0, p)| <= 1 && forall e | e in EpisodeOf(0, p) :: e.index == 0
  {
    var ps := Parts(p.body, IsScene());
    KeptIs(ps);
    PartsStore(p.body);
  }

  lemma {:induction false} PartsStore(lines: seq<Line>)
    ensures Stores(lines) <==> exists p :: p in Parts(lines, IsScene()) && Stores(p.body)
  {
    if lines == [] {
      assert Parts(lines, IsScene()) == [Part(None, [])];
    } else {
      var front, last := lines[..|lines| - 1], lines[|lines| - 1];
      var ps := Parts(front, IsScene());
      var n := |ps| - 1;
      PartsStore(front);
      assert lines == front + [last];
      StoresMore(front, last);
      var more := Parts(lines, IsScene());
      if last.SceneHeader? {
        assert forall p :: p in more <==> p in ps || p == Part(Some(last), []);
      } else {
        StoresMore(ps[n].body, last);
        assert more[n] == ps[n].With(last) && more[..n] == ps[..n] && ps == ps[..n] + [ps[n]] && more == more[..n] + [more[n]];
      }
    }
  }
}
