/** The character library, `CharacterStore`: two lists with indexes, kept in a file. */
module CharacterStores {
  import opened Outcomes
  import opened Sorting
  import opened Indexes

  /** The fields the store itself looks at; `rest` stands for all others. */
  datatype Character = Character(id: Id, folder: Option<Id>, createdAt: nat, updatedAt: nat, rest: string)

  datatype Folder = Folder(id: Id, name: string, parent: Option<Id>, project: Option<Id>, automatic: bool, createdAt: nat)

  /** The file: absent, not readable as a library, or a library. */
  datatype Stored = Missing | Broken | Library(characters: seq<Character>, folders: seq<Folder>)

  /** How far writing the file gets. */
  datatype Writing = NoDirectory | NotWritten | NotRenamed | Written

  function CharacterId(): Character -> Id {
    (c: Character) => c.id
  }

  function FolderId(): Folder -> Id {
    (f: Folder) => f.id
  }

  function NewestFirst(): (Character, Character) -> bool {
    (a: Character, b: Character) => b.updatedAt <= a.updatedAt
  }

  /** The character as it stands after a folder was deleted. */
  function Released(c: Character, folder: Id): Character {
    if c.folder == Some(folder) then c.(folder := None) else c
  }

  function ReleasedAll(m: map<Id, Character>, folder: Id): map<Id, Character> {
    map id | id in m :: Released(m[id], folder)
  }

  class CharacterStore {
    var characters: seq<Character>
    var folders: seq<Folder>
    var characterIndex: map<Id, nat>
    var folderIndex: map<Id, nat>
    var dirty: bool
    var file: Stored

    /** No lookup leaves the lists. */
    ghost predicate Safe()
      reads this
    {
      InRange(characters, characterIndex) && InRange(folders, folderIndex)
    }

    /** Both indexes are those a rebuild would give. */
    ghost predicate Agrees()
      reads this
    {
      Indexed(characters, CharacterId(), characterIndex) && Indexed(folders, FolderId(), folderIndex)
    }

    /** And no identifier is used twice. */
    ghost predicate Sound()
      reads this
    {
      Agrees() && DistinctKeys(characters, CharacterId()) && DistinctKeys(folders, FolderId())
    }

    ghost function Characters(): map<Id, Character>
      reads this
    {
      Contents(characters, CharacterId())
    }

    ghost function Folders(): map<Id, Folder>
      reads this
    {
      Contents(folders, FolderId())
    }

    constructor (file: Stored)
      ensures Sound() && characters == [] && folders == [] && !dirty && this.file == file
    {
      characters, folders, characterIndex, folderIndex, dirty := [], [], map[], map[], false;
      this.file := file;
    }

    method RebuildIndex()
      modifies `characterIndex, `folderIndex
      ensures Agrees()
    {
      characterIndex := Rebuild(characters, CharacterId());
      folderIndex := Rebuild(folders, FolderId());
    }

    /** Reads the file; a missing file leaves everything as it is. */
    method Reload()
      requires Safe()
      modifies this
      ensures !dirty && file == old(file) && Safe()
      ensures match old(file)
              case Missing => characters == old(characters) && folders == old(folders)
                              && characterIndex == old(characterIndex) && folderIndex == old(folderIndex)
              case Broken => characters == [] && folders == [] && Agrees()
              case Library(cs, fs) => characters == cs && folders == fs && Agrees()
    {
      match file {
        case Missing =>
        case Broken =>
          characters, folders := [], [];
          RebuildIndex();
        case Library(cs, fs) =>
          characters, folders := cs, fs;
          RebuildIndex();
      }
      dirty := false;
    }

    /** Writes the file, newest characters first. The list is sorted in place; the index is not rebuilt. */
    method Flush(writing: Writing)
      requires Safe()
      modifies `characters, `dirty, `file
      ensures Safe()
      ensures characters == if old(dirty) && writing != NoDirectory then Sort(old(characters), NewestFirst()) else old(characters)
      ensures file == if old(dirty) && writing == Written then Library(characters, folders) else old(file)
      ensures dirty <==> old(dirty) && (writing == NoDirectory || writing == NotWritten)
    {
      if !dirty || writing == NoDirectory {
        return;
      }
      SortKeeps(characters, NewestFirst());
      characters := Sort(characters, NewestFirst());
      if writing == NotWritten {
        return;
      }
      if writing == Written {
        file := Library(characters, folders);
      }
      dirty := false;
    }

    // ---------- characters ----------

    method CreateCharacter(character: Character, uuid: Id, now: nat) returns (id: Id)
      requires Safe()
      modifies this
      ensures Safe() && dirty && file == old(file) && folders == old(folders) && folderIndex == old(folderIndex)
      ensures id == if character.id == "" then uuid else character.id
      ensures characters == old(characters) + [character.(id := id, createdAt := now, updatedAt := now)]
      ensures characterIndex == old(characterIndex)[id := |old(characters)|]
      ensures old(Agrees()) ==>
                Agrees() && Characters() == old(Characters())[id := character.(id := id, createdAt := now, updatedAt := now)]
      ensures old(Sound()) && id !in old(Characters()) ==> Sound()
    {
      id := if character.id == "" then uuid else character.id;
      var created := character.(id := id, createdAt := now, updatedAt := now);
      if Agrees() {
        IndexedPush(characters, CharacterId(), characterIndex, created);
        ContentsHas(characters, CharacterId(), id);
      }
      characterIndex := characterIndex[id := |characters|];
      characters := characters + [created];
      dirty := true;
    }

    /** With an updater that keeps the identifier, this is an update of the map. */
    method UpdateCharacter(id: Id, updater: Character -> Character, now: nat) returns (r: Result<()>)
      requires Safe()
      modifies this
      ensures Safe() && file == old(file) && folders == old(folders) && folderIndex == old(folderIndex) && characterIndex == old(characterIndex)
      ensures r.Ok? <==> id in old(characterIndex)
      ensures dirty == (old(dirty) || r.Ok?) && (r.Err? ==> characters == old(characters))
      ensures old(Agrees()) ==> (r.Ok? <==> id in old(Characters()))
      ensures old(Agrees()) && r.Ok? && updater(old(Characters())[id]).id == id ==>
                Agrees() && Characters() == old(Characters())[id := updater(old(Characters())[id]).(updatedAt := now)]
      ensures old(Sound()) && r.Ok? && updater(old(Characters())[id]).id == id ==> Sound()
    {
      if Agrees() {
        LookupsAgree(characters, CharacterId(), characterIndex, id);
      }
      if id !in characterIndex {
        return Err(Other);
      }
      var at := characterIndex[id];
      var updated := updater(characters[at]).(updatedAt := now);
      if Agrees() && updated.id == id {
        IndexedUpdate(characters, CharacterId(), characterIndex, at, updated);
      }
      characters := characters[at := updated];
      dirty := true;
      return Ok(());
    }

    method MoveToFolder(id: Id, folder: Option<Id>, now: nat) returns (r: Result<()>)
      requires Safe()
      modifies this
      ensures Safe()
      ensures old(Agrees()) ==> Agrees() && (r.Ok? <==> id in old(Characters()))
      ensures old(Agrees()) && r.Ok? ==> Characters() == old(Characters())[id := old(Characters())[id].(folder := folder, updatedAt := now)]
      ensures old(Sound()) ==> Sound()
    {
      if Agrees() {
        LookupsAgree(characters, CharacterId(), characterIndex, id);
      }
      r := UpdateCharacter(id, (c: Character) => c.(folder := folder), now);
    }

    method DeleteCharacter(id: Id) returns (r: Result<()>)
      requires Safe()
      modifies this
      ensures Safe() && file == old(file) && folders == old(folders)
      ensures r.Ok? <==> id in old(characterIndex)
      ensures dirty == (old(dirty) || r.Ok?) && (r.Err? ==> characters == old(characters) && characterIndex == old(characterIndex))
      ensures r.Ok? ==> Agrees() && characters == Without(old(characters), old(characterIndex)[id])
      ensures old(Sound()) ==> Sound() && (r.Ok? <==> id in old(Characters())) && Characters() == old(Characters()) - {id}
      ensures old(Sound()) ==> Folders() == old(Folders())
    {
      if Sound() {
        DeletedById(characters, characterIndex, id);
      }
      if id !in characterIndex {
        return Err(Other);
      }
      characters := Without(characters, characterIndex[id]);
      RebuildIndex();
      dirty := true;
      return Ok(());
    }

    method GetCharacter(id: Id) returns (r: Option<Character>)
      requires Safe()
      ensures r == At(characters, characterIndex, id)
      ensures Agrees() ==> r == Lookup(Characters(), id)
    {
      if Agrees() {
        LookupsAgree(characters, CharacterId(), characterIndex, id);
      }
      return if id in characterIndex then Some(characters[characterIndex[id]]) else None;
    }

    /** Keeps the newest characters. */
    method Trim(limit: nat)
      requires Safe()
      modifies this
      ensures Safe() && file == old(file) && folders == old(folders)
      ensures old(|characters|) <= limit ==> characters == old(characters) && characterIndex == old(characterIndex) && dirty == old(dirty)
      ensures old(|characters|) > limit ==> Agrees() && dirty && characters == Newest(old(characters), limit)
      ensures old(Sound()) ==> Sound() && Kept(old(Characters()), Characters()) && |characters| == if old(|characters|) < limit then old(|characters|) else limit
    {
      if |characters| > limit {
        ghost var all := characters;
        SortKeeps(characters, NewestFirst());
        characters := Newest(characters, limit);
        RebuildIndex();
        dirty := true;
        if old(Sound()) {
          TrimmedKept(all, limit);
        }
      }
    }

    /** `import_characters`: as given, without a check of the identifiers. */
    method ImportCharacters(imported: seq<Character>) returns (count: nat)
      requires Safe()
      modifies this
      ensures Safe() && dirty && count == |imported| && file == old(file) && folders == old(folders) && folderIndex == old(folderIndex)
      ensures characters == old(characters) + imported
      ensures old(Agrees()) ==> Agrees()
      ensures old(Sound()) && DistinctKeys(imported, CharacterId()) && (forall c | c in imported :: c.id !in old(Characters())) ==> Sound()
      ensures old(Sound()) && Sound() ==> Characters() == old(Characters()) + Contents(imported, CharacterId())
    {
      ghost var before := characters;
      for k := 0 to |imported|
        invariant Safe() && file == old(file) && folders == old(folders) && folderIndex == old(folderIndex)
        invariant characters == before + imported[..k] && (old(Agrees()) ==> Agrees())
      {
        if Agrees() {
          IndexedPush(characters, CharacterId(), characterIndex, imported[k]);
        }
        assert imported[..k + 1] == imported[..k] + [imported[k]];
        characterIndex := characterIndex[imported[k].id := |characters|];
        characters := characters + [imported[k]];
      }
      assert imported[..|imported|] == imported;
      dirty := true;
      if old(Sound()) {
        ImportedContents(before, imported);
      }
      return |imported|;
    }

    // ---------- folders ----------

    method CreateFolder(uuid: Id, name: string, parent: Option<Id>, project: Option<Id>, now: nat) returns (id: Id)
      requires Safe()
      modifies this
      ensures Safe() && id == uuid && dirty && characters == old(characters) && characterIndex == old(characterIndex)
      ensures old(Agrees()) ==> Agrees() && Folders() == old(Folders())[id := Folder(id, name, parent, project, false, now)]
      ensures old(Sound()) && uuid !in old(Folders()) ==> Sound()
    {
      var folder := Folder(uuid, name, parent, project, false, now);
      if Agrees() {
        FolderPushed(folders, folderIndex, folder);
      }
      folderIndex := folderIndex[uuid := |folders|];
      folders := folders + [folder];
      dirty := true;
      return uuid;
    }

    method RenameFolder(id: Id, name: string) returns (r: Result<()>)
      requires Safe()
      modifies this
      ensures Safe() && characters == old(characters) && characterIndex == old(characterIndex)
      ensures old(Agrees()) ==> Agrees() && (r.Ok? <==> id in old(Folders()))
      ensures old(Agrees()) && r.Ok? ==> Folders() == old(Folders())[id := old(Folders())[id].(name := name)]
      ensures old(Sound()) ==> Sound()
    {
      if Agrees() {
        LookupsAgree(folders, FolderId(), folderIndex, id);
      }
      if id !in folderIndex {
        return Err(Other);
      }
      var at := folderIndex[id];
      if Agrees() {
        IndexedUpdate(folders, FolderId(), folderIndex, at, folders[at].(name := name));
      }
      folders := folders[at := folders[at].(name := name)];
      dirty := true;
      return Ok(());
    }

    /** Deletes the folder; its characters fall back to the top level, and no other character changes. */
    method DeleteFolder(id: Id) returns (r: Result<()>)
      requires Safe()
      modifies this
      ensures Safe() && (r.Ok? ==> Agrees())
      ensures old(Sound()) ==> Sound() && (r.Ok? <==> id in old(Folders())) && Folders() == old(Folders()) - {id}
      ensures old(Sound()) ==> Characters() == if r.Ok? then ReleasedAll(old(Characters()), id) else old(Characters())
    {
      if Sound() {
        LookupsAgree(folders, FolderId(), folderIndex, id);
      }
      if id !in folderIndex {
        return Err(Other);
      }
      var at := folderIndex[id];
      if Sound() {
        RemovedContents(folders, FolderId(), at);
        ReleasedContents(characters, id);
        ReleasedDistinct(characters, id);
      }
      folders := Without(folders, at);
      characters := ReleaseFrom(characters, id);
      RebuildIndex();
      dirty := true;
      return Ok(());
    }

    /** The first folder of the project, or a new one. */
    method EnsureProjectFolder(project: Id, name: string, uuid: Id, now: nat) returns (id: Id)
      requires Safe()
      modifies this
      ensures Safe() && characters == old(characters) && characterIndex == old(characterIndex)
      ensures ProjectFolder(old(folders), project) == Some(id) || (ProjectFolder(old(folders), project).None? && id == uuid)
      ensures ProjectFolder(old(folders), project).Some? ==> folders == old(folders) && folderIndex == old(folderIndex)
      ensures ProjectFolder(old(folders), project).None? && old(Agrees()) ==>
                Folders() == old(Folders())[id := Folder(id, name, None, Some(project), true, now)]
      ensures old(Agrees()) ==> Agrees()
      ensures old(Sound()) && uuid !in old(Folders()) ==> Sound()
    {
      var found := ProjectFolder(folders, project);
      if found.Some? {
        return found.value;
      }
      var folder := Folder(uuid, name, None, Some(project), true, now);
      if Agrees() {
        FolderPushed(folders, folderIndex, folder);
      }
      folders := folders + [folder];
      folderIndex := folderIndex[uuid := |folders| - 1];
      dirty := true;
      return uuid;
    }

    // ---------- the file ----------

    /** After a flush without errors, reading the file again gives the same library, with indexes in order. */
    method FlushAndReload()
      requires Safe() && dirty
      modifies this
      ensures Agrees() && file == Library(characters, folders) && !dirty
      ensures old(Sound()) ==> Sound() && Characters() == old(Characters()) && Folders() == old(Folders())
    {
      ghost var all := characters;
      Flush(Written);
      Reload();
      if old(Sound()) {
        SortedDistinctKeys(all, CharacterId(), NewestFirst());
      }
    }
  }

  /** The first folder of the project. */
  function ProjectFolder(folders: seq<Folder>, project: Id): (r: Option<Id>)
    ensures r.Some? ==> exists f :: f in folders && f.project == Some(project) && f.id == r.value
    ensures r.None? ==> forall f | f in folders :: f.project != Some(project)
  {
    if folders == [] then None
    else if folders[0].project == Some(project) then Some(folders[0].id)
    else
      assert folders == [folders[0]] + folders[1..];
      ProjectFolder(folders[1..], project)
  }

  lemma FolderPushed(folders: seq<Folder>, index: map<Id, nat>, folder: Folder)
    requires Indexed(folders, FolderId(), index)
    ensures Indexed(folders + [folder], FolderId(), index[folder.id := |folders|])
    ensures Contents(folders + [folder], FolderId()) == Contents(folders, FolderId())[folder.id := folder]
    ensures DistinctKeys(folders, FolderId()) && folder.id !in Contents(folders, FolderId()) ==> DistinctKeys(folders + [folder], FolderId())
  {
    IndexedPush(folders, FolderId(), index, folder);
    if DistinctKeys(folders, FolderId()) && folder.id !in Contents(folders, FolderId()) {
      DistinctPush(folders, FolderId(), folder);
    }
  }

  /** Some characters are kept, and they are newer than all others. */
  ghost predicate Kept(all: map<Id, Character>, kept: map<Id, Character>) {
    && (forall id | id in kept :: id in all && kept[id] == all[id])
    && (forall i, j | i in kept && j in all && j !in kept :: all[j].updatedAt <= kept[i].updatedAt)
  }

  lemma NewestFirstOrders()
    ensures Ordering(NewestFirst())
  {
  }

  /** Sorted, and cut off. */
  function Newest(cs: seq<Character>, limit: nat): seq<Character> {
    var sorted := Sort(cs, NewestFirst());
    if limit < |sorted| then sorted[..limit] else sorted
  }

  lemma PrefixContents(sorted: seq<Character>, limit: nat, id: Id)
    requires DistinctKeys(sorted, CharacterId()) && limit <= |sorted|
    ensures id in Contents(sorted[..limit], CharacterId()) ==>
              id in Contents(sorted, CharacterId()) && Contents(sorted[..limit], CharacterId())[id] == Contents(sorted, CharacterId())[id]
  {
    var kept := sorted[..limit];
    assert forall c | c in kept :: c in sorted;
    DistinctContents(kept, CharacterId(), id);
    DistinctContents(sorted, CharacterId(), id);
  }

  lemma NewerKept(sorted: seq<Character>, limit: nat, i: Id, j: Id)
    requires DistinctKeys(sorted, CharacterId()) && limit <= |sorted| && Sorted(sorted, NewestFirst())
    requires i in Contents(sorted[..limit], CharacterId()) && j in Contents(sorted, CharacterId()) && j !in Contents(sorted[..limit], CharacterId())
    ensures Contents(sorted, CharacterId())[j].updatedAt <= Contents(sorted[..limit], CharacterId())[i].updatedAt
  {
    var kept, key := sorted[..limit], CharacterId();
    DistinctContents(kept, key, i);
    DistinctContents(kept, key, j);
    DistinctContents(sorted, key, j);
    var a :| 0 <= a < limit && kept[a] == Contents(kept, key)[i];
    var b :| 0 <= b < |sorted| && sorted[b] == Contents(sorted, key)[j];
    assert forall k | 0 <= k < limit :: kept[k] in kept;
    assert NewestFirst()(sorted[a], sorted[b]);
  }

  lemma TrimmedKept(all: seq<Character>, limit: nat)
    requires DistinctKeys(all, CharacterId()) && limit < |all|
    ensures |Newest(all, limit)| == limit && DistinctKeys(Newest(all, limit), CharacterId())
    ensures Kept(Contents(all, CharacterId()), Contents(Newest(all, limit), CharacterId()))
  {
    var sorted, key := Sort(all, NewestFirst()), CharacterId();
    SortKeeps(all, NewestFirst());
    SortedDistinctKeys(all, key, NewestFirst());
    NewestFirstOrders();
    SortSorts(all, NewestFirst());
    forall id ensures id in Contents(sorted[..limit], key) ==>
                        id in Contents(sorted, key) && Contents(sorted[..limit], key)[id] == Contents(sorted, key)[id] {
      PrefixContents(sorted, limit, id);
    }
    forall i, j | i in Contents(sorted[..limit], key) && j in Contents(sorted, key) && j !in Contents(sorted[..limit], key)
      ensures Contents(sorted, key)[j].updatedAt <= Contents(sorted[..limit], key)[i].updatedAt
    {
      NewerKept(sorted, limit, i, j);
    }
  }

  lemma ImportedContents(before: seq<Character>, imported: seq<Character>)
    requires DistinctKeys(before, CharacterId())
    ensures DistinctKeys(imported, CharacterId()) && (forall c | c in imported :: c.id !in Contents(before, CharacterId())) ==>
              DistinctKeys(before + imported, CharacterId())
    ensures DistinctKeys(before + imported, CharacterId()) ==>
              Contents(before + imported, CharacterId()) == Contents(before, CharacterId()) + Contents(imported, CharacterId())
  {
    var key, all := CharacterId(), before + imported;
    if DistinctKeys(imported, key) && (forall c | c in imported :: c.id !in Contents(before, key)) {
      forall i, j | 0 <= i < j < |all| ensures key(all[i]) != key(all[j]) {
        if i < |before| <= j {
          ContentsHas(before, key, all[j].id);
          assert all[j] in imported;
        }
      }
    }
    ContentsConcat(before, imported);
  }

  lemma {:induction false} ContentsConcat(xs: seq<Character>, ys: seq<Character>)
    ensures Contents(xs + ys, CharacterId()) == Contents(xs, CharacterId()) + Contents(ys, CharacterId())
    decreases |ys|
  {
    if ys == [] {
      assert xs + ys == xs;
    } else {
      assert (xs + ys)[..|xs + ys| - 1] == xs + ys[..|ys| - 1];
      ContentsConcat(xs, ys[..|ys| - 1]);
    }
  }

  /** The loop of `delete_folder` over the characters. */
  function ReleaseFrom(cs: seq<Character>, folder: Id): (r: seq<Character>)
    ensures |r| == |cs| && forall i | 0 <= i < |cs| :: r[i] == Released(cs[i], folder)
  {
    seq(|cs|, i requires 0 <= i < |cs| => Released(cs[i], folder))
  }

  lemma ReleasedDistinct(cs: seq<Character>, folder: Id)
    requires DistinctKeys(cs, CharacterId())
    ensures DistinctKeys(ReleaseFrom(cs, folder), CharacterId())
  {
  }

  lemma {:induction false} ReleasedContents(cs: seq<Character>, folder: Id)
    ensures Contents(ReleaseFrom(cs, folder), CharacterId()) == ReleasedAll(Contents(cs, CharacterId()), folder)
    decreases |cs|
  {
    if cs != [] {
      var front, last := cs[..|cs| - 1], cs[|cs| - 1];
      ReleasedContents(front, folder);
      assert ReleaseFrom(cs, folder)[..|cs| - 1] == ReleaseFrom(front, folder);
      ReleasedOne(Contents(front, CharacterId()), last, folder);
    }
  }

  lemma ReleasedOne(m: map<Id, Character>, c: Character, folder: Id)
    ensures ReleasedAll(m[c.id := c], folder) == ReleasedAll(m, folder)[c.id := Released(c, folder)]
  {
  }

  /** What deleting by identifier does. */
  lemma DeletedById(cs: seq<Character>, index: map<Id, nat>, id: Id)
    requires Indexed(cs, CharacterId(), index) && DistinctKeys(cs, CharacterId())
    ensures id in index <==> id in Contents(cs, CharacterId())
    ensures id in index ==> DistinctKeys(Without(cs, index[id]), CharacterId())
                            && Contents(Without(cs, index[id]), CharacterId()) == Contents(cs, CharacterId()) - {id}
    ensures id !in index ==> Contents(cs, CharacterId()) - {id} == Contents(cs, CharacterId())
  {
    LookupsAgree(cs, CharacterId(), index, id);
    if id in index {
      RemovedContents(cs, CharacterId(), index[id]);
    }
  }

  /** Flushing keeps lookups right exactly if the characters were already in order, newest first. */
  lemma FlushAgreement(characters: seq<Character>, index: map<Id, nat>)
    requires DistinctKeys(characters, CharacterId()) && Indexed(characters, CharacterId(), index)
    ensures var flushed := Sort(characters, NewestFirst());
            && InRange(flushed, index) && Contents(flushed, CharacterId()) == Contents(characters, CharacterId())
            && ((forall id :: At(flushed, index, id) == Lookup(Contents(characters, CharacterId()), id)) <==> Sorted(characters, NewestFirst()))
  {
    NewestFirstOrders();
    SortedDistinctKeys(characters, CharacterId(), NewestFirst());
    SortedAgreement(characters, CharacterId(), index, NewestFirst());
  }

  /** A store into which two characters were imported. */
  method StoreOfTwo(older: Character, newer: Character) returns (store: CharacterStore)
    requires older.id != newer.id
    ensures fresh(store) && store.Safe() && store.dirty && store.characters == [older, newer]
    ensures older.id in store.characterIndex && store.characterIndex[older.id] == 0
  {
    store := new CharacterStore(Missing);
    var _ := store.ImportCharacters([older, newer]);
    assert store.characters == [older, newer] && store.characters[0] == older;
  }

  /** A run that goes wrong: after a flush, the name of the older character leads to the newer one, which deleting it removes. */
  method FlushMisleads(older: Character, newer: Character) returns (found: Option<Character>, deleted: Result<()>, left: seq<Character>)
    requires older.id != newer.id && older.updatedAt < newer.updatedAt
    ensures found == Some(newer)
    ensures deleted.Ok? && left == [older]
  {
    var store := StoreOfTwo(older, newer);
    SortedPair(older, newer);
    store.Flush(Written);
    found := store.GetCharacter(older.id);
    deleted := store.DeleteCharacter(older.id);
    left := store.characters;
  }

  lemma SortedPair(a: Character, b: Character)
    requires a.updatedAt < b.updatedAt
    ensures Sort([a, b], NewestFirst()) == [b, a]
  {
    assert [a, b][1..] == [b] && [b][1..] == [];
    assert Sort([b], NewestFirst()) == [b];
    assert Insert(a, [], NewestFirst()) == [a] && [b][1..] == [];
  }
}
