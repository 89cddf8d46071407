/** What a single line of a screenplay is. */
module ScriptLines {
  import opened Outcomes
  import opened Texts
  import opened Scripts

  datatype Line =
    | Blank
    | Comment
    | EpisodeHeader(title: string)
    | SceneHeader(header: string)
    | CastLine(names: seq<string>)
    | Spoken(dialogue: Dialogue)
    | Action(text: string)
    | Subtitle(text: string)
    | Content(text: string)
  {
    predicate Header() {
      EpisodeHeader? || SceneHeader?
    }

    /** Lines that belong into a scene. */
    predicate Stored() {
      !Blank? && !Comment? && !Header()
    }
  }

  function Colon(): char -> bool {
    c => c == '：' || c == ':'
  }

  /** `extract_parenthetical`. */
  function Parenthetical(name: string): (string, Option<string>) {
    var open := Find(name, c => c == '（');
    if open.None? then (name, None) else
      var rest := name[open.value + 1..];
      var close := Find(rest, c => c == '）');
      if close.None? then (name, None) else (Trim(name[..open.value]), Some(Trim(rest[..close.value])))
  }

  /** `try_parse_dialogue`. */
  function ParseDialogue(line: string): Option<Dialogue> {
    var trimmed := Trim(line);
    if |trimmed| < 3 then None else
      var colon := Find(trimmed, Colon());
      if colon.None? || colon.value == 0 then None else
        var name := Trim(trimmed[..colon.value]);
        if |name| > 15 || CountOf(name, c => AsciiPunctuation(c) || c == '。' || c == '，') > 1 then None
        else
          var (character, parenthetical) := Parenthetical(name);
          Some(Dialogue(character, parenthetical, Trim(trimmed[colon.value + 1..])))
  }

  /** `is_scene_header_line`. */
  predicate IsSceneHeader(line: string) {
    var trimmed := Trim(line);
    trimmed != [] && (
      || (AsciiDigit(trimmed[0]) && Contains(trimmed, "-"))
      || StartsWith(trimmed, "场景") || (StartsWith(trimmed, "第") && Contains(trimmed, "场"))
      || StartsWith(AsciiLower(trimmed), "scene "))
  }

  /** The name given to a scene without a header does not read like one. */
  lemma UnnamedIsNoHeader()
    ensures !IsSceneHeader("未命名场景")
  {
    var name := "未命名场景";
    assert Trim(name)[0] == '未' && AsciiLower(name)[0] == '未';
  }

  /** The names on a cast line, if it has a colon. */
  function CastNames(line: string): seq<string> {
    var colon := Find(line, Colon());
    if colon.None? then [] else NonEmpty(Split(line[colon.value + 1..], c => c == ',' || c == '，' || c == '、' || c == ' '))
  }

  function NonEmpty(parts: seq<string>): seq<string> {
    if parts == [] then [] else (if Trim(parts[0]) == [] then [] else [Trim(parts[0])]) + NonEmpty(parts[1..])
  }

  /** The kinds of lines both formats share. */
  function ClassifyText(trimmed: string): Line {
    var dialogue := ParseDialogue(trimmed);
    if dialogue.Some? then Spoken(dialogue.value)
    else if StartsWith(trimmed, "△") then Action(Trim(TrimStart(trimmed, c => c == '△')))
    else if StartsWith(trimmed, "【") && Contains(trimmed, "】") then
      Subtitle(TrimEnd(TrimStart(trimmed, c => c == '【'), c => c == '】'))
    else Content(trimmed)
  }

  /** The branches of `parse_markdown_script`, in their order. */
  function ClassifyMarkdown(line: string): Line {
    var trimmed := Trim(line);
    if trimmed == [] then Blank
    else if StartsWith(trimmed, "//") || StartsWith(trimmed, "--") then Comment
    else if StartsWith(trimmed, "## ") || StartsWith(trimmed, "## 第") then EpisodeHeader(Trim(TrimPrefixes(trimmed, "## ")))
    else if StartsWith(trimmed, "### ") || IsSceneHeader(trimmed) then SceneHeader(Trim(TrimPrefixes(trimmed, "### ")))
    else if StartsWith(trimmed, "出场人物") || StartsWith(trimmed, "出场角色") then CastLine(CastNames(trimmed))
    else ClassifyText(trimmed)
  }

  /** The branches of `parse_plain_script`. */
  function ClassifyPlain(line: string): Line {
    var trimmed := Trim(line);
    if trimmed == [] then Blank
    else if IsSceneHeader(trimmed) then SceneHeader(trimmed)
    else ClassifyText(trimmed)
  }

  /** `has_markdown_structure`. */
  predicate HasMarkdown(lines: seq<string>) {
    || (exists l :: l in lines && StartsWith(Trim(l), "## ") && (Contains(Trim(l), "集") || Contains(Trim(l), "Episode")))
    || ((exists l :: l in lines && Contains(l, "## ")) && exists l :: l in lines && (Contains(Trim(l), "：") || Contains(Trim(l), ":")))
  }
}
