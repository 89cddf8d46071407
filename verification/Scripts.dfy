/** A parsed screenplay. */
module Scripts {
  import opened Outcomes

  datatype Dialogue = Dialogue(character: string, parenthetical: Option<string>, line: string)

  datatype Scene = Scene(header: string, characters: seq<string>, dialogues: seq<Dialogue>, actions: seq<string>,
                         subtitles: seq<string>, content: seq<string>)

  datatype Episode = Episode(index: nat, title: string, scenes: seq<Scene>)

  function EmptyScene(header: string): Scene {
    Scene(header, [], [], [], [], [])
  }
}
