/** The report of a migration, filled in step by step. */
module Reports {
  import opened Outcomes
  import opened Disks
  import opened Scans
  import opened Plans
  import opened Preparing

  /** The contents of a report; errors that concern no single entry have no path. */
  datatype Tally = Tally(total: nat, copied: nat, bytes: nat, failed: seq<Path>, errors: seq<Option<Path>>)

  class MigrationReport {
    var totalFiles: nat
    var copiedFiles: nat
    var copiedBytes: nat
    var failedFiles: seq<Path>
    var operationErrors: seq<Option<Path>>
    var moveSource: bool

    constructor (moveSource: bool)
      ensures Contents() == Tally(0, 0, 0, [], []) && this.moveSource == moveSource
    {
      totalFiles, copiedFiles, copiedBytes, failedFiles, operationErrors := 0, 0, 0, [], [];
      this.moveSource := moveSource;
    }

    ghost function Contents(): Tally
      reads this
    {
      Tally(totalFiles, copiedFiles, copiedBytes, failedFiles, operationErrors)
    }

    /** Everything but the mode starts afresh. */
    method Reset(total: nat)
      modifies this
      ensures Contents() == Tally(total, 0, 0, [], []) && moveSource == old(moveSource)
    {
      totalFiles, copiedFiles, copiedBytes, failedFiles, operationErrors := total, 0, 0, [], [];
    }

    method CountCopied(entry: Entry)
      modifies this
      ensures Contents() == Counted(old(Contents()), entry) && moveSource == old(moveSource)
    {
      if !entry.directory {
        copiedFiles := copiedFiles + 1;
        copiedBytes := copiedBytes + entry.size;
      }
    }

    method AddFailure(entry: Entry, path: Path)
      modifies this
      ensures Contents() == Failed(old(Contents()), entry, path) && moveSource == old(moveSource)
    {
      if entry.directory {
        operationErrors := operationErrors + [Some(path)];
      } else {
        failedFiles := failedFiles + [path];
      }
    }

    /** A file counted as copied turns out not to be; the source subtracts with `saturating_sub`. */
    method TakeBack(entry: Entry, path: Path)
      modifies this
      ensures Contents() == Tally(old(totalFiles), SaturatingSub(old(copiedFiles), 1), SaturatingSub(old(copiedBytes), entry.size),
                                       old(failedFiles) + [path], old(operationErrors))
      ensures moveSource == old(moveSource)
    {
      copiedFiles := SaturatingSub(copiedFiles, 1);
      copiedBytes := SaturatingSub(copiedBytes, entry.size);
      failedFiles := failedFiles + [path];
    }

    /** An error that is not listed yet is listed without a path. */
    method AddGeneral()
      modifies this
      ensures Contents() == Listed(old(Contents())) && moveSource == old(moveSource)
    {
      if failedFiles == [] && operationErrors == [] {
        operationErrors := [None];
      }
    }
  }

  function SaturatingSub(a: nat, b: nat): nat {
    if a < b then 0 else a - b
  }

  function Counted(t: Tally, entry: Entry): Tally {
    if entry.directory then t else t.(copied := t.copied + 1, bytes := t.bytes + entry.size)
  }

  function Failed(t: Tally, entry: Entry, path: Path): Tally {
    if entry.directory then t.(errors := t.errors + [Some(path)]) else t.(failed := t.failed + [path])
  }

  function Listed(t: Tally): Tally {
    if t.failed == [] && t.errors == [] then t.(errors := [None]) else t
  }

  /** The tally after the first `n` entries. */
  function CountedUpTo(t: Tally, entries: seq<Entry>, n: nat): Tally
    requires n <= |entries|
  {
    t.(copied := t.copied + Files(entries[..n]), bytes := t.bytes + Bytes(entries[..n]))
  }

  lemma CountedNext(t: Tally, entries: seq<Entry>, n: nat)
    requires n < |entries|
    ensures CountedUpTo(t, entries, n + 1) == Counted(CountedUpTo(t, entries, n), entries[n])
  {
    assert entries[..n + 1][..n] == entries[..n];
  }

  lemma {:induction false} PrefixCounts(entries: seq<Entry>, n: nat)
    requires n <= |entries|
    ensures Files(entries[..n]) <= Files(entries) && Bytes(entries[..n]) <= Bytes(entries)
    ensures n < |entries| && !entries[n].directory ==>
              Files(entries[..n]) < Files(entries) && Bytes(entries[..n]) + entries[n].size <= Bytes(entries)
    decreases |entries|
  {
    if n < |entries| {
      var front := entries[..|entries| - 1];
      assert front[..n] == entries[..n];
      PrefixCounts(front, n);
    } else {
      assert entries[..n] == entries;
    }
  }

  /** A plan stopped after `n` entries, at the next one if it failed there. */
  ghost predicate StoppedAt(t: Tally, t': Tally, plan: Plan, n: nat) {
    && n <= |plan.entries|
    && var counted := CountedUpTo(t, plan.entries, n);
       || (t' == counted && n == 0)
       || (n < |plan.entries| && t' == Failed(counted, plan.entries[n], plan.source.path + plan.entries[n].relative))
  }
}
