/** The table that caches script analyses by path, size and modification time. */
module ScriptIndexes {
  import opened Outcomes

  type ScriptPath = string

  const I64_MAX: nat := 0x7FFF_FFFF_FFFF_FFFF

  /** `u64_to_i64` and `usize_to_i64`. */
  function Clamped(n: nat): nat {
    if n < I64_MAX then n else I64_MAX
  }

  /** Size and modification time of a file, as the table keeps them. */
  datatype Fingerprint = Fingerprint(bytes: nat, modified: nat)

  function Kept(f: Fingerprint): Fingerprint {
    Fingerprint(Clamped(f.bytes), f.modified)
  }

  datatype Analysis = Analysis(episodes: nat, scenes: nat, characters: nat, dialogues: nat, summary: string, structure: string)

  /** Counts pass through a signed column. */
  function KeptAnalysis(a: Analysis): Analysis {
    a.(episodes := Clamped(a.episodes), scenes := Clamped(a.scenes), characters := Clamped(a.characters), dialogues := Clamped(a.dialogues))
  }

  datatype Status = Idle | Ready | Failed

  datatype Row = Row(fingerprint: Fingerprint, status: Status, analysis: Analysis, deleted: bool)

  const NO_ANALYSIS := Analysis(0, 0, 0, 0, "", "{\"scenes\":[],\"characters\":[]}")

  /** A file of the directory, as a scan finds it. */
  datatype Scanned = Scanned(path: ScriptPath, fingerprint: Fingerprint)

  /** What was stored last for a path, and for which file. */
  datatype Stored = Stored(fingerprint: Fingerprint, analysis: Analysis)

  type Table = map<ScriptPath, Row>

  /** A hit: the row has the present fingerprint and is ready. */
  function Hit(rows: Table, path: ScriptPath, present: Fingerprint): Option<Analysis> {
    if path in rows && rows[path].fingerprint == Kept(present) && rows[path].status.Ready? then Some(rows[path].analysis) else None
  }

  /** Every hit is the analysis last stored for the path, and it was stored for a file of this size and time. */
  ghost predicate Agrees(rows: Table, stored: map<ScriptPath, Stored>) {
    forall path: ScriptPath, present: Fingerprint | Hit(rows, path, present).Some? ::
      path in stored && Kept(stored[path].fingerprint) == Kept(present) && KeptAnalysis(stored[path].analysis) == Hit(rows, path, present).value
  }

  /** The same, row by row: a ready row holds what was stored last, under the fingerprint it was stored for. */
  lemma AgreesMeans(rows: Table, stored: map<ScriptPath, Stored>)
    requires Sane(rows)
    ensures Agrees(rows, stored) <==> forall path | path in rows && rows[path].status.Ready? :: RowAgrees(rows[path], stored, path)
  {
    if Agrees(rows, stored) {
      forall path | path in rows && rows[path].status.Ready? ensures RowAgrees(rows[path], stored, path) {
        assert Hit(rows, path, rows[path].fingerprint).Some?;
      }
    }
  }

  ghost predicate RowAgrees(row: Row, stored: map<ScriptPath, Stored>, path: ScriptPath) {
    path in stored && row.fingerprint == Kept(stored[path].fingerprint) && row.analysis == KeptAnalysis(stored[path].analysis)
  }

  /** Fingerprints in the table have been clamped. */
  ghost predicate Sane(rows: Table) {
    forall path <- rows :: Kept(rows[path].fingerprint) == rows[path].fingerprint
  }

  // ---------- synchronizing with a directory ----------

  /** `UPDATE scripts SET deleted = 1 WHERE path LIKE ..`; `under` says which paths the pattern matches. */
  function MarkDeleted(rows: Table, under: ScriptPath -> bool): Table {
    map path | path in rows :: if under(path) then rows[path].(deleted := true) else rows[path]
  }

  /** The upsert of one scanned file: size and time are moved, the status and the analysis stay. */
  function Refreshed(rows: Table, entry: Scanned): Table {
    rows[entry.path :=
      if entry.path in rows then rows[entry.path].(fingerprint := Kept(entry.fingerprint), deleted := false)
      else Row(Kept(entry.fingerprint), Idle, NO_ANALYSIS, false)]
  }

  function RefreshedAll(rows: Table, scanned: seq<Scanned>): Table {
    if scanned == [] then rows else Refreshed(RefreshedAll(rows, scanned[..|scanned| - 1]), scanned[|scanned| - 1])
  }

  /** No file that has a ready row has changed since. */
  ghost predicate NoneChanged(rows: Table, scanned: seq<Scanned>) {
    forall e | e in scanned && e.path in rows && rows[e.path].status.Ready? :: rows[e.path].fingerprint == Kept(e.fingerprint)
  }

  ghost predicate PathsDistinct(scanned: seq<Scanned>) {
    forall i, j | 0 <= i < j < |scanned| :: scanned[i].path != scanned[j].path
  }

  /** What a synchronization makes of one row. */
  lemma {:induction false} RefreshedRow(rows: Table, scanned: seq<Scanned>, path: ScriptPath)
    requires PathsDistinct(scanned) && Sane(rows)
    ensures Sane(RefreshedAll(rows, scanned))
    ensures (forall e | e in scanned :: e.path != path) ==>
              (path in RefreshedAll(rows, scanned) <==> path in rows) && (path in rows ==> RefreshedAll(rows, scanned)[path] == rows[path])
    ensures forall e | e in scanned && e.path == path :: path in RefreshedAll(rows, scanned)
              && RefreshedAll(rows, scanned)[path] == if path in rows then rows[path].(fingerprint := Kept(e.fingerprint), deleted := false)
                                                      else Row(Kept(e.fingerprint), Idle, NO_ANALYSIS, false)
    decreases |scanned|
  {
    if scanned != [] {
      var front, last := scanned[..|scanned| - 1], scanned[|scanned| - 1];
      assert scanned == front + [last];
      RefreshedRow(rows, front, path);
      if last.path == path {
        forall e | e in front ensures e.path != path {
          var i :| 0 <= i < |front| && front[i] == e;
          assert scanned[i] == e;
        }
      }
    }
  }

  lemma MarkedAgrees(rows: Table, under: ScriptPath -> bool, stored: map<ScriptPath, Stored>)
    requires Sane(rows)
    ensures Sane(MarkDeleted(rows, under))
    ensures Agrees(MarkDeleted(rows, under), stored) <==> Agrees(rows, stored)
    ensures forall scanned :: NoneChanged(MarkDeleted(rows, under), scanned) <==> NoneChanged(rows, scanned)
  {
    forall path, present ensures Hit(MarkDeleted(rows, under), path, present) == Hit(rows, path, present) {
    }
  }

  /** Synchronizing keeps the cache right exactly if it meets no ready row of a changed file. */
  lemma SyncAgreement(rows: Table, scanned: seq<Scanned>, stored: map<ScriptPath, Stored>)
    requires PathsDistinct(scanned) && Sane(rows) && Agrees(rows, stored)
    ensures Agrees(RefreshedAll(rows, scanned), stored) <==> NoneChanged(rows, scanned)
  {
    var after := RefreshedAll(rows, scanned);
    RefreshedRow(rows, scanned, "");
    AgreesMeans(rows, stored);
    AgreesMeans(after, stored);
    if NoneChanged(rows, scanned) {
      forall path | path in after && after[path].status.Ready? ensures RowAgrees(after[path], stored, path) {
        RefreshedRow(rows, scanned, path);
        if e :| e in scanned && e.path == path {
          assert after[path].fingerprint == Kept(e.fingerprint);
        }
      }
    } else {
      var e :| e in scanned && e.path in rows && rows[e.path].status.Ready? && rows[e.path].fingerprint != Kept(e.fingerprint);
      RefreshedRow(rows, scanned, e.path);
      assert RowAgrees(rows[e.path], stored, e.path);
      assert after[e.path].status.Ready? && !RowAgrees(after[e.path], stored, e.path);
    }
  }

  /** What a changed file gets after a synchronization: the analysis of its former contents. */
  lemma StaleHit(rows: Table, scanned: seq<Scanned>, stored: map<ScriptPath, Stored>, e: Scanned)
    requires PathsDistinct(scanned) && Sane(rows) && Agrees(rows, stored) && e in scanned
    requires e.path in rows && rows[e.path].status.Ready? && rows[e.path].fingerprint != Kept(e.fingerprint)
    ensures e.path in stored && Kept(stored[e.path].fingerprint) != Kept(e.fingerprint)
    ensures Hit(RefreshedAll(rows, scanned), e.path, e.fingerprint) == Some(KeptAnalysis(stored[e.path].analysis))
  {
    AgreesMeans(rows, stored);
    RefreshedRow(rows, scanned, e.path);
    assert RowAgrees(rows[e.path], stored, e.path);
  }

  class ScriptIndexStore {
    var rows: Table
    /** What was stored last for each path and not replaced by an error. */
    ghost var stored: map<ScriptPath, Stored>

    ghost predicate Valid()
      reads this
    {
      Sane(rows)
    }

    constructor ()
      ensures Valid() && rows == map[] && stored == map[] && Agrees(rows, stored)
    {
      rows, stored := map[], map[];
    }

    /** `upsert_analysis`; a file that is gone changes nothing. */
    method UpsertAnalysis(path: ScriptPath, file: Option<Fingerprint>, analysis: Analysis)
      requires Valid()
      modifies this
      ensures Valid() && (old(Agrees(rows, stored)) ==> Agrees(rows, stored))
      ensures file.None? ==> rows == old(rows) && stored == old(stored)
      ensures file.Some? ==> stored == old(stored)[path := Stored(file.value, analysis)] && Hit(rows, path, file.value) == Some(KeptAnalysis(analysis))
      ensures forall other, present | other != path :: Hit(rows, other, present) == Hit(old(rows), other, present)
    {
      if file.None? {
        return;
      }
      rows := rows[path := Row(Kept(file.value), Ready, KeptAnalysis(analysis), false)];
      stored := stored[path := Stored(file.value, analysis)];
      assert forall other, present | other != path :: Hit(rows, other, present) == Hit(old(rows), other, present);
    }

    /** `mark_parse_error`: no hit until the next analysis is stored. */
    method MarkParseError(path: ScriptPath, file: Option<Fingerprint>, error: string)
      requires Valid()
      modifies this
      ensures Valid() && (old(Agrees(rows, stored)) ==> Agrees(rows, stored))
      ensures file.None? ==> rows == old(rows) && stored == old(stored)
      ensures file.Some? ==> stored == old(stored) - {path} && forall present :: Hit(rows, path, present).None?
      ensures forall other, present | other != path :: Hit(rows, other, present) == Hit(old(rows), other, present)
    {
      if file.None? {
        return;
      }
      var was := if path in rows then rows[path].analysis else NO_ANALYSIS;
      rows := rows[path := Row(Kept(file.value), Failed, was.(summary := error), false)];
      stored := stored - {path};
      assert forall other, present | other != path :: Hit(rows, other, present) == Hit(old(rows), other, present);
    }

    /** `sync_dir` up to the listing it returns. */
    method SyncDir(under: ScriptPath -> bool, scanned: seq<Scanned>)
      requires Valid() && PathsDistinct(scanned)
      modifies `rows
      ensures Valid() && rows == RefreshedAll(MarkDeleted(old(rows), under), scanned)
      ensures old(Agrees(rows, stored)) ==> (Agrees(rows, stored) <==> NoneChanged(old(rows), scanned))
    {
      MarkedAgrees(rows, under, stored);
      rows := MarkDeleted(rows, under);
      ghost var marked := rows;
      for k := 0 to |scanned|
        invariant rows == RefreshedAll(marked, scanned[..k])
      {
        assert scanned[..k + 1][..k] == scanned[..k];
        rows := Refreshed(rows, scanned[k]);
      }
      assert scanned[..|scanned|] == scanned;
      RefreshedRow(marked, scanned, "");
      if old(Agrees(rows, stored)) {
        SyncAgreement(marked, scanned, stored);
      }
    }

    /** `cached_analysis`: a hit is the analysis last stored for the present size and time, while the table agrees. */
    method CachedAnalysis(path: ScriptPath, file: Option<Fingerprint>) returns (r: Option<Analysis>)
      requires Valid()
      ensures r == if file.None? then None else Hit(rows, path, file.value)
      ensures Agrees(rows, stored) && r.Some? ==>
                path in stored && Kept(stored[path].fingerprint) == Kept(file.value) && KeptAnalysis(stored[path].analysis) == r.value
    {
      if file.None? {
        return None;
      }
      return Hit(rows, path, file.value);
    }
  }

  /** The run that goes wrong: store an analysis, change the file, synchronize, look it up. */
  method SyncMisleads(path: ScriptPath, before: Fingerprint, after: Fingerprint, analysis: Analysis) returns (r: Option<Analysis>)
    requires Kept(before) != Kept(after)
    ensures r == Some(KeptAnalysis(analysis))
  {
    var store := new ScriptIndexStore();
    store.UpsertAnalysis(path, Some(before), analysis);
    ghost var rows := store.rows;
    var scanned := [Scanned(path, after)];
    assert Hit(rows, path, before).Some?;
    MarkedAgrees(rows, _ => true, store.stored);
    store.SyncDir(_ => true, scanned);
    assert scanned[0] in scanned;
    StaleHit(MarkDeleted(rows, _ => true), scanned, store.stored, scanned[0]);
    r := store.CachedAnalysis(path, Some(after));
  }
}
