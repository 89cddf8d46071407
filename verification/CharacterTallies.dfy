/** The statistics of characters over a parsed script, `extract_characters_from_episodes`. */
module CharacterTallies {
  import opened Sorting
  import opened PathOrder
  import opened Scripts

  type Speaker = string

  datatype Stats = Stats(name: Speaker, scenes: nat, dialogues: nat, episodes: seq<nat>, first: nat, last: nat,
                         lineSamples: seq<string>, sceneSamples: seq<string>)

  // ---------- the cast of a scene ----------

  function Speakers(ds: seq<Dialogue>): (r: seq<Speaker>)
    ensures |r| == |ds| && forall i | 0 <= i < |ds| :: r[i] == ds[i].character
  {
    seq(|ds|, i requires 0 <= i < |ds| => ds[i].character)
  }

  /** `dedup`: of equal neighbours, one stays. */
  function Deduplicated(xs: seq<Speaker>): seq<Speaker> {
    if |xs| < 2 then xs
    else if xs[0] == xs[1] then Deduplicated(xs[1..])
    else [xs[0]] + Deduplicated(xs[1..])
  }

  /** `all_characters`: those listed and those who speak. */
  function Cast(scene: Scene): seq<Speaker> {
    Deduplicated(Sort(scene.characters + Speakers(scene.dialogues), NameOrder()))
  }

  lemma {:induction false} DeduplicatedSorted(xs: seq<Speaker>)
    requires Sorted(xs, NameOrder())
    ensures Distinct(Deduplicated(xs))
    ensures forall x :: x in Deduplicated(xs) <==> x in xs
  {
    if |xs| >= 2 {
      var rest := xs[1..];
      assert xs == [xs[0]] + rest;
      assert forall i | 0 <= i < |rest| :: rest[i] == xs[i + 1];
      DeduplicatedSorted(rest);
      if xs[0] != xs[1] {
        FirstIsNew(xs);
        DistinctConcat([xs[0]], Deduplicated(rest));
      }
    }
  }

  /** In a sorted list, what differs from its neighbour does not come again. */
  lemma FirstIsNew(xs: seq<Speaker>)
    requires |xs| >= 2 && Sorted(xs, NameOrder()) && xs[0] != xs[1]
    ensures xs[0] !in xs[1..]
  {
    forall i | 1 <= i < |xs| ensures xs[i] != xs[0] {
      assert NameOrder()(xs[0], xs[1]) && (i > 1 ==> NameOrder()(xs[1], xs[i]));
      NamesCompare(xs[0], xs[1]);
    }
  }

  /** The cast holds everyone who is listed or speaks, once. */
  lemma CastIs(scene: Scene)
    ensures Distinct(Cast(scene))
    ensures forall x :: x in Cast(scene) <==> x in scene.characters || exists d :: d in scene.dialogues && d.character == x
  {
    var all := scene.characters + Speakers(scene.dialogues);
    NameOrders();
    SortSorts(all, NameOrder());
    SortKeeps(all, NameOrder());
    DeduplicatedSorted(Sort(all, NameOrder()));
    forall x ensures x in all <==> x in scene.characters || exists d :: d in scene.dialogues && d.character == x {
      SpeakersAre(scene.dialogues, x);
    }
  }

  lemma SpeakersAre(ds: seq<Dialogue>, x: Speaker)
    ensures x in Speakers(ds) <==> exists d :: d in ds && d.character == x
  {
    if d :| d in ds && d.character == x {
      var i :| 0 <= i < |ds| && ds[i] == d;
      assert Speakers(ds)[i] == x;
    }
    if x in Speakers(ds) {
      var i :| 0 <= i < |ds| && Speakers(ds)[i] == x;
      assert ds[i] in ds;
    }
  }

  // ---------- what is to be counted ----------

  /** A scene with the index of its episode. */
  datatype Place = Place(episode: nat, scene: Scene)

  function Places(episodes: seq<Episode>): seq<Place> {
    if episodes == [] then []
    else Places(episodes[..|episodes| - 1]) + PlacesIn(episodes[|episodes| - 1].index, episodes[|episodes| - 1].scenes)
  }

  function PlacesIn(index: nat, scenes: seq<Scene>): (r: seq<Place>)
    ensures |r| == |scenes| && forall i | 0 <= i < |scenes| :: r[i] == Place(index, scenes[i])
  {
    seq(|scenes|, i requires 0 <= i < |scenes| => Place(index, scenes[i]))
  }

  /** The number of scenes in which the character appears. */
  function SceneCount(ps: seq<Place>, name: Speaker): nat {
    if ps == [] then 0 else SceneCount(ps[..|ps| - 1], name) + (if name in Cast(ps[|ps| - 1].scene) then 1 else 0)
  }

  function LineCount(ds: seq<Dialogue>, name: Speaker): nat {
    if ds == [] then 0 else LineCount(ds[..|ds| - 1], name) + (if ds[|ds| - 1].character == name then 1 else 0)
  }

  /** The number of lines the character speaks. */
  function DialogueCount(ps: seq<Place>, name: Speaker): nat {
    if ps == [] then 0 else DialogueCount(ps[..|ps| - 1], name) + LineCount(ps[|ps| - 1].scene.dialogues, name)
  }

  /** The lines the character speaks in a scene, and in all of them. */
  function LinesOf(ds: seq<Dialogue>, name: Speaker): (r: seq<string>)
    ensures |r| == LineCount(ds, name)
  {
    if ds == [] then [] else LinesOf(ds[..|ds| - 1], name) + (if ds[|ds| - 1].character == name then [ds[|ds| - 1].line] else [])
  }

  function Lines(ps: seq<Place>, name: Speaker): seq<string> {
    if ps == [] then [] else Lines(ps[..|ps| - 1], name) + LinesOf(ps[|ps| - 1].scene.dialogues, name)
  }

  /** The headers of the scenes in which the character appears. */
  function Headers(ps: seq<Place>, name: Speaker): seq<string> {
    if ps == [] then []
    else Headers(ps[..|ps| - 1], name) + (if name in Cast(ps[|ps| - 1].scene) then [ps[|ps| - 1].scene.header] else [])
  }

  /** The episodes of these scenes, with repetitions. */
  function Seen(ps: seq<Place>, name: Speaker): (r: seq<nat>)
    ensures |r| == SceneCount(ps, name)
  {
    if ps == [] then [] else Seen(ps[..|ps| - 1], name) + (if name in Cast(ps[|ps| - 1].scene) then [ps[|ps| - 1].episode] else [])
  }

  function FirstThree(xs: seq<string>): seq<string> {
    if |xs| <= 3 then xs else xs[..3]
  }

  function TotalLines(ps: seq<Place>): nat {
    if ps == [] then 0 else TotalLines(ps[..|ps| - 1]) + |ps[|ps| - 1].scene.dialogues|
  }

  ghost predicate AppearsIn(ps: seq<Place>, name: Speaker, episode: nat) {
    exists p :: p in ps && p.episode == episode && name in Cast(p.scene)
  }

  /** The table is right for the scenes seen so far. */
  ghost predicate Tallied(table: map<Speaker, Stats>, ps: seq<Place>) {
    forall name :: (name in table <==> SceneCount(ps, name) > 0) && (name in table ==> RightFor(table[name], ps, name))
  }

  ghost predicate RightFor(s: Stats, ps: seq<Place>, name: Speaker) {
    && s.name == name && s.scenes == SceneCount(ps, name) && s.dialogues == DialogueCount(ps, name)
    && Distinct(s.episodes) && (forall e :: e in s.episodes <==> AppearsIn(ps, name, e))
    && s.lineSamples == FirstThree(Lines(ps, name)) && s.sceneSamples == FirstThree(Headers(ps, name))
    && Seen(ps, name) != [] && s.first == Seen(ps, name)[0] && s.last == Seen(ps, name)[|Seen(ps, name)| - 1]
  }

  // ---------- the loops ----------

  /** The entry of a character after one more appearance. */
  function Appeared(table: map<Speaker, Stats>, name: Speaker, index: nat, header: string): Stats {
    var s := if name in table then table[name] else Stats(name, 0, 0, [], index, index, [], []);
    s.(scenes := s.scenes + 1, last := index,
       episodes := if index in s.episodes then s.episodes else s.episodes + [index],
       sceneSamples := if |s.sceneSamples| < 3 then s.sceneSamples + [header] else s.sceneSamples)
  }

  /** These names have appeared once more. */
  ghost predicate CastCounted(table: map<Speaker, Stats>, table': map<Speaker, Stats>, cast: seq<Speaker>, index: nat, header: string) {
    && (forall name :: name in table' <==> name in table || name in cast)
    && forall name | name in table' :: table'[name] == if name in cast then Appeared(table, name, index, header) else table[name]
  }

  lemma SameAppearance(table: map<Speaker, Stats>, table': map<Speaker, Stats>, name: Speaker, index: nat, header: string)
    requires (name in table' <==> name in table) && (name in table ==> table'[name] == table[name])
    ensures Appeared(table', name, index, header) == Appeared(table, name, index, header)
  {
  }

  lemma CastCountedMore(table: map<Speaker, Stats>, table': map<Speaker, Stats>, cast: seq<Speaker>, name: Speaker, s: Stats, index: nat, header: string)
    requires CastCounted(table, table', cast, index, header) && name !in cast && s == Appeared(table, name, index, header)
    ensures CastCounted(table, table'[name := s], cast + [name], index, header)
  {
    var next := table'[name := s];
    forall n
      ensures n in next <==> n in table || n in cast + [name]
      ensures n in next ==> next[n] == if n in cast + [name] then Appeared(table, n, index, header) else table[n]
    {
      assert n in cast + [name] <==> n in cast || n == name;
    }
  }

  method CountCast(table: map<Speaker, Stats>, index: nat, scene: Scene) returns (table': map<Speaker, Stats>)
    ensures CastCounted(table, table', Cast(scene), index, scene.header)
  {
    CastIs(scene);
    var cast := Cast(scene);
    table' := table;
    for k := 0 to |cast|
      invariant CastCounted(table, table', cast[..k], index, scene.header)
    {
      assert cast[..k + 1] == cast[..k] + [cast[k]];
      assert cast[k] !in cast[..k];
      SameAppearance(table, table', cast[k], index, scene.header);
      CastCountedMore(table, table', cast[..k], cast[k], Appeared(table', cast[k], index, scene.header), index, scene.header);
      table' := table'[cast[k] := Appeared(table', cast[k], index, scene.header)];
    }
    assert cast[..|cast|] == cast;
  }

  /** The entry of a character after one more line. */
  function Spoke(s: Stats, line: string): Stats {
    s.(dialogues := s.dialogues + 1, lineSamples := if |s.lineSamples| < 3 then s.lineSamples + [line] else s.lineSamples)
  }

  /** Only the counts and samples of lines differ. */
  ghost predicate MoreLines(s: Stats, t: Stats, lines: seq<string>) {
    && t.name == s.name && t.scenes == s.scenes && t.episodes == s.episodes && t.first == s.first && t.last == s.last
    && t.sceneSamples == s.sceneSamples && t.dialogues == s.dialogues + |lines|
    && (|s.lineSamples| <= 3 ==> t.lineSamples == FirstThree(s.lineSamples + lines))
  }

  ghost predicate LinesCounted(table: map<Speaker, Stats>, table': map<Speaker, Stats>, ds: seq<Dialogue>) {
    table'.Keys == table.Keys && forall name | name in table :: MoreLines(table[name], table'[name], LinesOf(ds, name))
  }

  lemma OneLineSpoken(s: Stats, t: Stats, lines: seq<string>, line: string)
    requires MoreLines(s, t, lines)
    ensures MoreLines(s, Spoke(t, line), lines + [line]) && lines + [] == lines
  {
    assert |s.lineSamples| <= 3 ==> FirstThree(FirstThree(s.lineSamples + lines) + [line]) == FirstThree(s.lineSamples + (lines + [line])) by {
      FirstThreeOn(s.lineSamples + lines, [line]);
      assert s.lineSamples + lines + [line] == s.lineSamples + (lines + [line]);
    }
  }

  lemma LinesCountedMore(table: map<Speaker, Stats>, table': map<Speaker, Stats>, ds: seq<Dialogue>, d: Dialogue)
    requires LinesCounted(table, table', ds)
    ensures LinesCounted(table, if d.character in table' then table'[d.character := Spoke(table'[d.character], d.line)] else table', ds + [d])
  {
    var next := if d.character in table' then table'[d.character := Spoke(table'[d.character], d.line)] else table';
    forall name | name in table ensures MoreLines(table[name], next[name], LinesOf(ds + [d], name)) {
      assert (ds + [d])[..|ds|] == ds;
      assert MoreLines(table[name], table'[name], LinesOf(ds, name));
      OneLineSpoken(table[name], table'[name], LinesOf(ds, name), d.line);
    }
  }

  method CountLines(table: map<Speaker, Stats>, ds: seq<Dialogue>) returns (table': map<Speaker, Stats>)
    ensures LinesCounted(table, table', ds)
  {
    table' := table;
    for k := 0 to |ds|
      invariant LinesCounted(table, table', ds[..k])
    {
      assert ds[..k + 1] == ds[..k] + [ds[k]];
      LinesCountedMore(table, table', ds[..k], ds[k]);
      var name := ds[k].character;
      if name in table' {
        table' := table'[name := Spoke(table'[name], ds[k].line)];
      }
    }
    assert ds[..|ds|] == ds;
  }

  lemma AppearsInMore(ps: seq<Place>, p: Place, name: Speaker, e: nat)
    ensures AppearsIn(ps + [p], name, e) <==> AppearsIn(ps, name, e) || (p.episode == e && name in Cast(p.scene))
  {
    assert p in ps + [p];
  }

  lemma {:induction false} NoLines(ds: seq<Dialogue>, name: Speaker)
    requires forall d | d in ds :: d.character != name
    ensures LineCount(ds, name) == 0
  {
    if ds != [] {
      assert ds[|ds| - 1] in ds;
      NoLines(ds[..|ds| - 1], name);
    }
  }

  /** Whoever does not appear, does not speak. */
  lemma {:induction false} SilentUnlessSeen(ps: seq<Place>, name: Speaker)
    requires SceneCount(ps, name) == 0
    ensures DialogueCount(ps, name) == 0 && Lines(ps, name) == [] && Headers(ps, name) == [] && forall e :: !AppearsIn(ps, name, e)
  {
    if ps != [] {
      var last := ps[|ps| - 1];
      SilentUnlessSeen(ps[..|ps| - 1], name);
      CastIs(last.scene);
      NoLines(last.scene.dialogues, name);
      forall e ensures !AppearsIn(ps, name, e) {
        AppearsInMore(ps[..|ps| - 1], last, name, e);
        assert ps == ps[..|ps| - 1] + [last];
      }
    }
  }

  lemma FirstThreeOn(xs: seq<string>, ys: seq<string>)
    ensures FirstThree(FirstThree(xs) + ys) == FirstThree(xs + ys)
  {
    if |xs| > 3 {
      assert (xs + ys)[..3] == xs[..3] == (xs[..3] + ys)[..3];
    }
  }

  /** What one more scene adds. */
  lemma OneSceneMore(ps: seq<Place>, p: Place, name: Speaker)
    ensures SceneCount(ps + [p], name) == SceneCount(ps, name) + if name in Cast(p.scene) then 1 else 0
    ensures DialogueCount(ps + [p], name) == DialogueCount(ps, name) + LineCount(p.scene.dialogues, name)
    ensures Lines(ps + [p], name) == Lines(ps, name) + LinesOf(p.scene.dialogues, name)
    ensures Headers(ps + [p], name) == Headers(ps, name) + if name in Cast(p.scene) then [p.scene.header] else []
    ensures Seen(ps + [p], name) == Seen(ps, name) + if name in Cast(p.scene) then [p.episode] else []
  {
    assert (ps + [p])[..|ps|] == ps;
  }

  /** One more appearance, before the lines of the scene are counted. */
  ghost predicate RightButLines(s: Stats, ps: seq<Place>, p: Place, name: Speaker) {
    && s.name == name && s.scenes == SceneCount(ps + [p], name) > 0 && s.dialogues == DialogueCount(ps, name)
    && Distinct(s.episodes) && (forall e :: e in s.episodes <==> AppearsIn(ps + [p], name, e))
    && s.lineSamples == FirstThree(Lines(ps, name)) && s.sceneSamples == FirstThree(Headers(ps + [p], name))
    && s.first == Seen(ps + [p], name)[0] && s.last == Seen(ps + [p], name)[|Seen(ps + [p], name)| - 1]
  }

  lemma StillRight(s: Stats, ps: seq<Place>, p: Place, name: Speaker)
    requires RightFor(s, ps, name) && name !in Cast(p.scene) && s.scenes > 0
    ensures RightButLines(s, ps, p, name)
  {
    OneSceneMore(ps, p, name);
    forall e ensures AppearsIn(ps + [p], name, e) <==> AppearsIn(ps, name, e) {
      AppearsInMore(ps, p, name, e);
    }
  }

  /** One more scene, for a record that is right so far or has just been made. */
  lemma RightOnceMore(s: Stats, ps: seq<Place>, p: Place, name: Speaker)
    requires name in Cast(p.scene) && s.name == name && s.scenes == SceneCount(ps, name) && s.dialogues == DialogueCount(ps, name)
    requires Distinct(s.episodes) && forall e :: e in s.episodes <==> AppearsIn(ps, name, e)
    requires s.lineSamples == FirstThree(Lines(ps, name)) && s.sceneSamples == FirstThree(Headers(ps, name))
    requires s.first == (Seen(ps, name) + [p.episode])[0]
    ensures RightButLines(Appeared(map[name := s], name, p.episode, p.scene.header), ps, p, name)
  {
    OneSceneMore(ps, p, name);
    FirstThreeOn(Headers(ps, name), [p.scene.header]);
    forall e ensures AppearsIn(ps + [p], name, e) <==> AppearsIn(ps, name, e) || p.episode == e {
      AppearsInMore(ps, p, name, e);
    }
    DistinctConcat(s.episodes, if p.episode in s.episodes then [] else [p.episode]);
  }

  lemma RightAppeared(ps: seq<Place>, p: Place, name: Speaker, before: map<Speaker, Stats>)
    requires Tallied(before, ps) && (name in before || name in Cast(p.scene))
    ensures RightButLines(if name in Cast(p.scene) then Appeared(before, name, p.episode, p.scene.header) else before[name], ps, p, name)
  {
    if name !in Cast(p.scene) {
      StillRight(before[name], ps, p, name);
    } else if name in before {
      RightOnceMore(before[name], ps, p, name);
    } else {
      SilentUnlessSeen(ps, name);
      RightOnceMore(Stats(name, 0, 0, [], p.episode, p.episode, [], []), ps, p, name);
    }
  }

  /** One scene further, one character at a time. */
  lemma RightAfter(ps: seq<Place>, p: Place, name: Speaker, before: map<Speaker, Stats>, t: Stats)
    requires Tallied(before, ps) && (name in before || name in Cast(p.scene))
    requires var s := if name in Cast(p.scene) then Appeared(before, name, p.episode, p.scene.header) else before[name];
             MoreLines(s, t, LinesOf(p.scene.dialogues, name))
    ensures SceneCount(ps + [p], name) > 0 && RightFor(t, ps + [p], name)
  {
    RightAppeared(ps, p, name, before);
    OneSceneMore(ps, p, name);
    FirstThreeOn(Lines(ps, name), LinesOf(p.scene.dialogues, name));
  }

  /** One scene. */
  method CountScene(table: map<Speaker, Stats>, index: nat, scene: Scene, ghost ps: seq<Place>) returns (table': map<Speaker, Stats>)
    requires Tallied(table, ps)
    ensures Tallied(table', ps + [Place(index, scene)])
  {
    var seen := CountCast(table, index, scene);
    table' := CountLines(seen, scene.dialogues);
    forall name
      ensures name in table' <==> SceneCount(ps + [Place(index, scene)], name) > 0
      ensures name in table' ==> RightFor(table'[name], ps + [Place(index, scene)], name)
    {
      assert (ps + [Place(index, scene)])[..|ps|] == ps;
      if name in table' {
        RightAfter(ps, Place(index, scene), name, table, table'[name]);
      }
    }
  }

  /** The inner loop, over the scenes of an episode. */
  method CountEpisode(table: map<Speaker, Stats>, episode: Episode, ghost ps: seq<Place>) returns (table': map<Speaker, Stats>)
    requires Tallied(table, ps)
    ensures Tallied(table', ps + PlacesIn(episode.index, episode.scenes))
  {
    table' := table;
    ghost var here := PlacesIn(episode.index, episode.scenes);
    assert ps + here[..0] == ps;
    for j := 0 to |episode.scenes|
      invariant Tallied(table', ps + here[..j])
    {
      assert ps + here[..j + 1] == (ps + here[..j]) + [here[j]];
      table' := CountScene(table', episode.index, episode.scenes[j], ps + here[..j]);
    }
    assert here[..|episode.scenes|] == here;
  }

  /** The outer loop, over the episodes. */
  method CountAll(episodes: seq<Episode>) returns (table: map<Speaker, Stats>)
    ensures Tallied(table, Places(episodes))
  {
    table := map[];
    for k := 0 to |episodes|
      invariant Tallied(table, Places(episodes[..k]))
    {
      assert episodes[..k + 1][..k] == episodes[..k];
      table := CountEpisode(table, episodes[k], Places(episodes[..k]));
    }
    assert episodes[..|episodes|] == episodes;
  }

  // ---------- nothing is lost ----------

  /** The sum of the lines of some characters. */
  function SumLines(ds: seq<Dialogue>, names: seq<Speaker>): nat {
    if names == [] then 0 else SumLines(ds, names[..|names| - 1]) + LineCount(ds, names[|names| - 1])
  }

  lemma {:induction false} OneLineMore(ds: seq<Dialogue>, d: Dialogue, names: seq<Speaker>)
    requires Distinct(names)
    ensures SumLines(ds + [d], names) == SumLines(ds, names) + (if d.character in names then 1 else 0)
    decreases |names|
  {
    if names != [] {
      var front := names[..|names| - 1];
      assert names == front + [names[|names| - 1]];
      OneLineMore(ds, d, front);
      assert (ds + [d])[..|ds|] == ds;
    }
  }

  /** Every line of a scene is counted for exactly one character, if all speakers are counted. */
  lemma {:induction false} LinesAddUp(ds: seq<Dialogue>, names: seq<Speaker>)
    requires Distinct(names) && forall d | d in ds :: d.character in names
    ensures SumLines(ds, names) == |ds|
    decreases |ds|
  {
    if ds == [] {
      NobodySpeaks(names);
    } else {
      var front := ds[..|ds| - 1];
      assert ds == front + [ds[|ds| - 1]];
      LinesAddUp(front, names);
      OneLineMore(front, ds[|ds| - 1], names);
    }
  }

  lemma {:induction false} NobodySpeaks(names: seq<Speaker>)
    ensures SumLines([], names) == 0
  {
    if names != [] {
      NobodySpeaks(names[..|names| - 1]);
    }
  }

  function SumDialogues(ps: seq<Place>, names: seq<Speaker>): nat {
    if names == [] then 0 else SumDialogues(ps, names[..|names| - 1]) + DialogueCount(ps, names[|names| - 1])
  }

  lemma {:induction false} SumsPerScene(ps: seq<Place>, p: Place, names: seq<Speaker>)
    ensures SumDialogues(ps + [p], names) == SumDialogues(ps, names) + SumLines(p.scene.dialogues, names)
    decreases |names|
  {
    if names != [] {
      SumsPerScene(ps, p, names[..|names| - 1]);
      assert (ps + [p])[..|ps|] == ps;
    }
  }

  lemma {:induction false} NothingSpoken(names: seq<Speaker>)
    ensures SumDialogues([], names) == 0
  {
    if names != [] {
      NothingSpoken(names[..|names| - 1]);
    }
  }

  /** The counts of all characters add up to the number of lines, which `analyze_script` reports. */
  lemma {:induction false} DialoguesAddUp(ps: seq<Place>, names: seq<Speaker>)
    requires Distinct(names) && forall p | p in ps :: forall x | x in Cast(p.scene) :: x in names
    ensures SumDialogues(ps, names) == TotalLines(ps)
    decreases |ps|
  {
    if ps == [] {
      NothingSpoken(names);
    } else {
      var front, last := ps[..|ps| - 1], ps[|ps| - 1];
      assert ps == front + [last] && last in ps;
      DialoguesAddUp(front, names);
      CastIs(last.scene);
      LinesAddUp(last.scene.dialogues, names);
      SumsPerScene(front, last, names);
    }
  }

  // ---------- the result ----------

  function MostScenesFirst(): (Stats, Stats) -> bool {
    (a: Stats, b: Stats) => b.scenes <= a.scenes
  }

  function NamesOf(stats: seq<Stats>): (r: seq<Speaker>)
    ensures |r| == |stats| && forall i | 0 <= i < |stats| :: r[i] == stats[i].name
  {
    seq(|stats|, i requires 0 <= i < |stats| => stats[i].name)
  }

  function SumOf(stats: seq<Stats>): nat {
    if stats == [] then 0 else SumOf(stats[..|stats| - 1]) + stats[|stats| - 1].dialogues
  }

  /** The statistics: one entry for everyone who appears, with the right counts, most scenes first. */
  ghost predicate IsSummary(stats: seq<Stats>, ps: seq<Place>) {
    && Sorted(stats, MostScenesFirst()) && Distinct(NamesOf(stats))
    && (forall s | s in stats :: RightFor(s, ps, s.name))
    && (forall name :: name in NamesOf(stats) <==> SceneCount(ps, name) > 0)
  }

  /** The entries of a table, in the order in which it happens to give them. */
  method Entries(table: map<Speaker, Stats>) returns (stats: seq<Stats>)
    requires forall name <- table :: table[name].name == name
    ensures Distinct(NamesOf(stats)) && forall s :: s in stats <==> s.name in table && table[s.name] == s
  {
    stats := [];
    var rest := table.Keys;
    while rest != {}
      invariant rest <= table.Keys && Distinct(NamesOf(stats))
      invariant forall s :: s in stats <==> s.name in table && s.name !in rest && table[s.name] == s
      decreases rest
    {
      var name :| name in rest;
      NamedOnce(stats, table[name]);
      stats, rest := stats + [table[name]], rest - {name};
    }
  }

  lemma NamedOnce(stats: seq<Stats>, s: Stats)
    requires Distinct(NamesOf(stats)) && forall t | t in stats :: t.name != s.name
    ensures Distinct(NamesOf(stats + [s]))
  {
    assert forall i | 0 <= i < |stats| :: stats[i] in stats;
  }

  lemma NamesPermuted(xs: seq<Stats>, ys: seq<Stats>)
    requires Distinct(NamesOf(xs)) && multiset(xs) == multiset(ys)
    ensures Distinct(NamesOf(ys))
  {
    assert forall i, j | 0 <= i < j < |xs| :: NamesOf(xs)[i] != NamesOf(xs)[j];
    DistinctPermuted(xs, ys);
    forall i, j | 0 <= i < j < |ys| ensures NamesOf(ys)[i] != NamesOf(ys)[j] {
      assert ys[i] in multiset(xs) && ys[j] in multiset(xs);
      var a :| 0 <= a < |xs| && xs[a] == ys[i];
      var b :| 0 <= b < |xs| && xs[b] == ys[j];
      assert a != b;
    }
  }

  /** `extract_characters_from_episodes`. */
  method ExtractCharacters(episodes: seq<Episode>) returns (stats: seq<Stats>)
    ensures IsSummary(stats, Places(episodes)) && SumOf(stats) == TotalLines(Places(episodes))
  {
    var table := CountAll(episodes);
    ghost var ps := Places(episodes);
    var entries := Entries(table);
    stats := Sort(entries, MostScenesFirst());
    SortSorts(entries, MostScenesFirst());
    SortPermutes(entries, MostScenesFirst());
    SortKeeps(entries, MostScenesFirst());
    NamesPermuted(entries, stats);
    NamesAre(table, ps, stats);
    SummaryAddsUp(stats, ps);
  }

  lemma NamesAre(table: map<Speaker, Stats>, ps: seq<Place>, stats: seq<Stats>)
    requires Tallied(table, ps) && forall s :: s in stats <==> s.name in table && table[s.name] == s
    ensures forall name :: name in NamesOf(stats) <==> SceneCount(ps, name) > 0
  {
    forall name ensures name in NamesOf(stats) <==> name in table {
      if name in table {
        assert table[name] in stats;
        var i :| 0 <= i < |stats| && stats[i] == table[name];
        assert NamesOf(stats)[i] == name;
      }
      if name in NamesOf(stats) {
        var i :| 0 <= i < |stats| && NamesOf(stats)[i] == name;
        assert stats[i] in stats;
      }
    }
  }

  lemma {:induction false} SumOfNames(stats: seq<Stats>, ps: seq<Place>)
    requires forall s | s in stats :: s.dialogues == DialogueCount(ps, s.name)
    ensures SumOf(stats) == SumDialogues(ps, NamesOf(stats))
  {
    if stats != [] {
      var front := stats[..|stats| - 1];
      assert stats[|stats| - 1] in stats && NamesOf(stats)[..|stats| - 1] == NamesOf(front);
      SumOfNames(front, ps);
    }
  }

  lemma {:induction false} CountedIfPresent(ps: seq<Place>, p: Place, x: Speaker)
    requires p in ps && x in Cast(p.scene)
    ensures SceneCount(ps, x) > 0
  {
    if p != ps[|ps| - 1] {
      assert ps == ps[..|ps| - 1] + [ps[|ps| - 1]];
      CountedIfPresent(ps[..|ps| - 1], p, x);
    }
  }

  lemma SummaryAddsUp(stats: seq<Stats>, ps: seq<Place>)
    requires IsSummary(stats, ps)
    ensures SumOf(stats) == TotalLines(ps)
  {
    SumOfNames(stats, ps);
    forall p, x | p in ps && x in Cast(p.scene) ensures x in NamesOf(stats) {
      CountedIfPresent(ps, p, x);
    }
    DialoguesAddUp(ps, NamesOf(stats));
  }

  function LinesIn(scenes: seq<Scene>): nat {
    if scenes == [] then 0 else LinesIn(scenes[..|scenes| - 1]) + |scenes[|scenes| - 1].dialogues|
  }

  lemma {:induction false} LinesInEpisode(ps: seq<Place>, index: nat, scenes: seq<Scene>)
    ensures TotalLines(ps + PlacesIn(index, scenes)) == TotalLines(ps) + LinesIn(scenes)
    decreases |scenes|
  {
    var here := PlacesIn(index, scenes);
    if scenes == [] {
      assert ps + here == ps;
    } else {
      var front := scenes[..|scenes| - 1];
      assert (ps + here)[..|ps + here| - 1] == ps + PlacesIn(index, front);
      LinesInEpisode(ps, index, front);
    }
  }

  method CountLinesIn(scenes: seq<Scene>) returns (count: nat)
    ensures count == LinesIn(scenes)
  {
    count := 0;
    for j := 0 to |scenes|
      invariant count == LinesIn(scenes[..j])
    {
      assert scenes[..j + 1][..j] == scenes[..j];
      count := count + |scenes[j].dialogues|;
    }
    assert scenes[..|scenes|] == scenes;
  }

  /** The dialogue count of `analyze_script` is the sum of the dialogue counts of the characters. */
  method AnalyzedDialogues(episodes: seq<Episode>) returns (count: nat, stats: seq<Stats>)
    ensures count == TotalLines(Places(episodes)) == SumOf(stats) && IsSummary(stats, Places(episodes))
  {
    stats := ExtractCharacters(episodes);
    count := 0;
    for k := 0 to |episodes|
      invariant count == TotalLines(Places(episodes[..k]))
    {
      assert episodes[..k + 1][..k] == episodes[..k];
      var lines := CountLinesIn(episodes[k].scenes);
      LinesInEpisode(Places(episodes[..k]), episodes[k].index, episodes[k].scenes);
      count := count + lines;
    }
    assert episodes[..|episodes|] == episodes;
  }
}
