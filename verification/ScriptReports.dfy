/** The report on a script, `analyze_script`: parsing, and counting what was parsed. */
module ScriptReports {
  import opened Outcomes
  import opened Sorting
  import opened Scripts
  import opened ScriptLines
  import opened ScriptScenes
  import opened ScriptParts
  import opened ScriptParsers
  import opened PlainScripts
  import opened CharacterTallies

  /** `ScriptParseReport`, without its summary text. */
  datatype Report = Report(episodes: nat, scenes: nat, characters: nat, dialogues: nat)

  function SpokenLines(lines: seq<Line>): nat {
    if lines == [] then 0 else SpokenLines(lines[..|lines| - 1]) + (if lines[|lines| - 1].Spoken? then 1 else 0)
  }

  /** What the lines give as dialogue is one item for each spoken line. */
  lemma {:induction false} SpokenGive(lines: seq<Line>)
    ensures |Gives(lines, Dialogues)| == SpokenLines(lines)
  {
    if lines != [] {
      SpokenGive(lines[..|lines| - 1]);
    }
  }

  lemma {:induction false} ScenesSpeak(scenes: seq<Scene>)
    ensures |InScenes(scenes, Dialogues)| == LinesIn(scenes)
  {
    if scenes != [] {
      ScenesSpeak(scenes[..|scenes| - 1]);
    }
  }

  lemma {:induction false} EpisodesSpeak(episodes: seq<Episode>)
    ensures |InEpisodes(episodes, Dialogues)| == TotalLines(Places(episodes))
  {
    if episodes != [] {
      var front, last := episodes[..|episodes| - 1], episodes[|episodes| - 1];
      EpisodesSpeak(front);
      ScenesSpeak(last.scenes);
      LinesInEpisode(Places(front), last.index, last.scenes);
    }
  }

  /** The dialogue lines the statistics find in a parsed script are the spoken lines of the script. */
  lemma ParsedDialogues(lines: seq<Line>, episodes: seq<Episode>)
    requires InEpisodes(episodes, Dialogues) == Gives(lines, Dialogues)
    ensures TotalLines(Places(episodes)) == SpokenLines(lines)
  {
    SpokenGive(lines);
    EpisodesSpeak(episodes);
  }

  function SceneTotal(episodes: seq<Episode>): nat {
    if episodes == [] then 0 else SceneTotal(episodes[..|episodes| - 1]) + |episodes[|episodes| - 1].scenes|
  }

  /** What is counted is what there is: each scene is one place, and each name of a cast one character. */
  lemma {:induction false} PlacesCounted(episodes: seq<Episode>)
    ensures |Places(episodes)| == SceneTotal(episodes)
  {
    if episodes != [] {
      PlacesCounted(episodes[..|episodes| - 1]);
    }
  }

  method CountScenes(episodes: seq<Episode>) returns (scenes: nat)
    ensures scenes == |Places(episodes)|
  {
    scenes := 0;
    for k := 0 to |episodes|
      invariant scenes == SceneTotal(episodes[..k])
    {
      assert episodes[..k + 1][..k] == episodes[..k];
      scenes := scenes + |episodes[k].scenes|;
    }
    assert episodes[..|episodes|] == episodes;
    PlacesCounted(episodes);
  }

  /** What is parsed: the structured or the plain reading. */
  function ParsedOf(lines: seq<string>): seq<Episode> {
    if HasMarkdown(lines) then EpisodesOf(Classified(lines)) else PlainOf(Classified(lines))
  }

  /**
    `analyze_script`, on the lines of the normalized text: as many dialogues as spoken lines, which is what all
    characters speak together, and as many characters as there are names in the casts of the scenes.
  */
  method AnalyzeScript(lines: seq<string>) returns (report: Report, stats: seq<Stats>)
    ensures report == Report(|ParsedOf(lines)|, |Places(ParsedOf(lines))|, |stats|, SpokenLines(Classified(lines)))
    ensures report.dialogues == SumOf(stats) && IsSummary(stats, Places(ParsedOf(lines)))
  {
    var parsed := ParseScript(lines);
    ParsedDialogues(Classified(lines), parsed);
    var dialogues;
    dialogues, stats := AnalyzedDialogues(parsed);
    var scenes := CountScenes(parsed);
    report := Report(|parsed|, scenes, |stats|, dialogues);
  }
}
