/** Scenes: what they hold, and the lines they hold it from. */
module ScriptScenes {
  import opened Outcomes
  import opened Scripts
  import opened ScriptLines

  datatype Kind = People | Dialogues | Actions | Subtitles | Contents

  datatype Item = Person(name: string) | Said(dialogue: Dialogue) | Text(text: string)

  function Persons(names: seq<string>): (r: seq<Item>)
    ensures |r| == |names| && forall i | 0 <= i < |names| :: r[i] == Person(names[i])
  {
    seq(|names|, i requires 0 <= i < |names| => Person(names[i]))
  }

  function Sayings(ds: seq<Dialogue>): (r: seq<Item>)
    ensures |r| == |ds| && forall i | 0 <= i < |ds| :: r[i] == Said(ds[i])
  {
    seq(|ds|, i requires 0 <= i < |ds| => Said(ds[i]))
  }

  function Texts(ts: seq<string>): (r: seq<Item>)
    ensures |r| == |ts| && forall i | 0 <= i < |ts| :: r[i] == Text(ts[i])
  {
    seq(|ts|, i requires 0 <= i < |ts| => Text(ts[i]))
  }

  /** What a scene holds of one kind. */
  function Held(scene: Scene, kind: Kind): seq<Item> {
    match kind
    case People => Persons(scene.characters)
    case Dialogues => Sayings(scene.dialogues)
    case Actions => Texts(scene.actions)
    case Subtitles => Texts(scene.subtitles)
    case Contents => Texts(scene.content)
  }

  /** What a line has to give of one kind; empty actions and subtitles, and cast lines without names, give nothing. */
  function Given(line: Line, kind: Kind): seq<Item> {
    match (line, kind)
    case (CastLine(names), People) => Persons(names)
    case (Spoken(d), Dialogues) => [Said(d)]
    case (Action(t), Actions) => if t == [] then [] else [Text(t)]
    case (Subtitle(t), Subtitles) => if t == [] then [] else [Text(t)]
    case (Content(t), Contents) => [Text(t)]
    case _ => []
  }

  /** What some lines give, in order. */
  function Gives(lines: seq<Line>, kind: Kind): seq<Item> {
    if lines == [] then [] else Gives(lines[..|lines| - 1], kind) + Given(lines[|lines| - 1], kind)
  }

  /** The branches that store a line in the current scene. */
  function Add(scene: Scene, line: Line): Scene {
    match line
    case CastLine(names) => scene.(characters := scene.characters + names)
    case Spoken(d) => scene.(dialogues := scene.dialogues + [d])
    case Action(t) => if t == [] then scene else scene.(actions := scene.actions + [t])
    case Subtitle(t) => if t == [] then scene else scene.(subtitles := scene.subtitles + [t])
    case Content(t) => scene.(content := scene.content + [t])
    case _ => scene
  }

  /** The scene after these lines. */
  function Filled(scene: Scene, lines: seq<Line>): Scene {
    if lines == [] then scene else Add(Filled(scene, lines[..|lines| - 1]), lines[|lines| - 1])
  }

  /** Each line is stored once, under its own kind. */
  lemma AddStores(scene: Scene, line: Line, kind: Kind)
    ensures Held(Add(scene, line), kind) == Held(scene, kind) + Given(line, kind) && Add(scene, line).header == scene.header
  {
    match line
    case CastLine(names) => assert Persons(scene.characters + names) == Persons(scene.characters) + Persons(names);
    case Spoken(d) => assert Sayings(scene.dialogues + [d]) == Sayings(scene.dialogues) + [Said(d)];
    case Action(t) => assert Texts(scene.actions + [t]) == Texts(scene.actions) + [Text(t)];
    case Subtitle(t) => assert Texts(scene.subtitles + [t]) == Texts(scene.subtitles) + [Text(t)];
    case Content(t) => assert Texts(scene.content + [t]) == Texts(scene.content) + [Text(t)];
    case _ =>
  }

  lemma ThreeItems(a: seq<Item>, b: seq<Item>, c: seq<Item>)
    ensures (a + b) + c == a + (b + c)
  {
  }

  /** So the scene holds just what its lines give, kind by kind, in their order. */
  lemma {:induction false} FilledHolds(scene: Scene, lines: seq<Line>, kind: Kind)
    ensures Held(Filled(scene, lines), kind) == Held(scene, kind) + Gives(lines, kind)
  {
    if lines != [] {
      var front, last := lines[..|lines| - 1], lines[|lines| - 1];
      FilledHolds(scene, front, kind);
      AddStores(Filled(scene, front), last, kind);
      ThreeItems(Held(scene, kind), Gives(front, kind), Given(last, kind));
    }
  }

  lemma {:induction false} FilledHeader(scene: Scene, lines: seq<Line>)
    ensures Filled(scene, lines).header == scene.header
  {
    if lines != [] {
      FilledHeader(scene, lines[..|lines| - 1]);
    }
  }

  /** A new scene holds just what its lines give. */
  lemma NewSceneHolds(header: string, lines: seq<Line>, kind: Kind)
    ensures Held(Filled(EmptyScene(header), lines), kind) == Gives(lines, kind)
  {
    FilledHolds(EmptyScene(header), lines, kind);
    assert Held(EmptyScene(header), kind) == [];
    assert [] + Gives(lines, kind) == Gives(lines, kind);
  }

  /** The items of a scene determine it. */
  lemma ItemsDetermine(a: Scene, b: Scene)
    requires a.header == b.header && forall kind :: Held(a, kind) == Held(b, kind)
    ensures a == b
  {
    assert Held(a, People) == Held(b, People) && Held(a, Dialogues) == Held(b, Dialogues) && Held(a, Contents) == Held(b, Contents);
    assert Held(a, Actions) == Held(b, Actions) && Held(a, Subtitles) == Held(b, Subtitles);
    forall i | 0 <= i < |a.characters| ensures a.characters[i] == b.characters[i] {
      assert Persons(a.characters)[i] == Persons(b.characters)[i];
    }
    forall i | 0 <= i < |a.dialogues| ensures a.dialogues[i] == b.dialogues[i] {
      assert Sayings(a.dialogues)[i] == Sayings(b.dialogues)[i];
    }
    TextsDetermine(a.actions, b.actions);
    TextsDetermine(a.subtitles, b.subtitles);
    TextsDetermine(a.content, b.content);
  }

  lemma TextsDetermine(xs: seq<string>, ys: seq<string>)
    requires Texts(xs) == Texts(ys)
    ensures xs == ys
  {
    forall i | 0 <= i < |xs| ensures xs[i] == ys[i] {
      assert Texts(xs)[i] == Texts(ys)[i];
    }
  }

  /** And there is only one scene of that header that does. */
  lemma FilledExactly(header: string, lines: seq<Line>, scene: Scene)
    ensures scene == Filled(EmptyScene(header), lines) <==> scene.header == header && forall kind :: Held(scene, kind) == Gives(lines, kind)
  {
    var filled := Filled(EmptyScene(header), lines);
    FilledHeader(EmptyScene(header), lines);
    forall kind ensures Held(filled, kind) == Gives(lines, kind) {
      NewSceneHolds(header, lines, kind);
    }
    if scene.header == header && forall kind :: Held(scene, kind) == Gives(lines, kind) {
      forall kind ensures Held(scene, kind) == Held(filled, kind) {
        assert Held(scene, kind) == Gives(lines, kind);
      }
      ItemsDetermine(scene, filled);
    }
  }

  // ---------- lines ----------

  predicate Stores(lines: seq<Line>) {
    exists l :: l in lines && l.Stored()
  }

  lemma StoresMore(lines: seq<Line>, line: Line)
    ensures Stores(lines + [line]) <==> Stores(lines) || line.Stored()
  {
    if line.Stored() {
      assert line in lines + [line];
    }
    if l :| l in lines && l.Stored() {
      assert l in lines + [line];
    }
  }

  lemma FilledMore(scene: Scene, lines: seq<Line>, line: Line)
    ensures Filled(scene, lines + [line]) == Add(Filled(scene, lines), line)
  {
    assert (lines + [line])[..|lines|] == lines;
  }

  lemma {:induction false} FilledBlank(scene: Scene, lines: seq<Line>)
    requires !Stores(lines)
    ensures Filled(scene, lines) == scene
  {
    if lines != [] {
      var front, last := lines[..|lines| - 1], lines[|lines| - 1];
      assert last in lines && forall l | l in front :: l in lines;
      FilledBlank(scene, front);
    }
  }

  lemma GivesMore(lines: seq<Line>, line: Line, kind: Kind)
    ensures Gives(lines + [line], kind) == Gives(lines, kind) + Given(line, kind)
  {
    assert (lines + [line])[..|lines|] == lines;
  }

  lemma {:induction false} BlankGives(lines: seq<Line>, kind: Kind)
    requires !Stores(lines)
    ensures Gives(lines, kind) == []
  {
    if lines != [] {
      var front, last := lines[..|lines| - 1], lines[|lines| - 1];
      assert last in lines && forall l | l in front :: l in lines;
      BlankGives(front, kind);
    }
  }
}
