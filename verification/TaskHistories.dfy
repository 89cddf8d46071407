/** The history of finished tasks, `TaskHistory`: a list with an index, written to a file after every change. */
module TaskHistories {
  import opened Outcomes
  import opened Sorting
  import opened PathOrder
  import opened Indexes

  /** `rest` stands for the fields the history does not look at; times are kept as text. */
  datatype Task = Task(id: Id, status: string, finishedAt: string, createdAt: string, rest: string)

  function TaskId(): Task -> Id {
    (t: Task) => t.id
  }

  /** `sort_by(|a, b| b.finished_at.cmp(&a.finished_at))`. */
  function LatestFirst(): (Task, Task) -> bool {
    (a: Task, b: Task) => a.finishedAt == b.finishedAt || NameBefore(b.finishedAt, a.finishedAt)
  }

  lemma LatestFirstOrders()
    ensures Ordering(LatestFirst())
  {
    var le := LatestFirst();
    forall a: Task, b: Task ensures le(a, b) || le(b, a) {
      NamesCompare(a.finishedAt, b.finishedAt);
    }
    forall a: Task, b: Task, c: Task | le(a, b) && le(b, c) ensures le(a, c) {
      if NameBefore(c.finishedAt, b.finishedAt) && NameBefore(b.finishedAt, a.finishedAt) {
        NamesTransitive(c.finishedAt, b.finishedAt, a.finishedAt);
      }
    }
  }

  /** What a filter keeps. */
  predicate Stays(filter: string, task: Task) {
    if filter == "completed" then task.status != "completed"
    else if filter == "failed" then task.status != "failed" && task.status != "cancelled"
    else filter != "all"
  }

  function Retained(tasks: seq<Task>, filter: string): seq<Task> {
    if tasks == [] then []
    else Retained(tasks[..|tasks| - 1], filter) + (if Stays(filter, tasks[|tasks| - 1]) then [tasks[|tasks| - 1]] else [])
  }

  lemma {:induction false} RetainedAre(tasks: seq<Task>, filter: string)
    ensures forall t :: t in Retained(tasks, filter) <==> t in tasks && Stays(filter, t)
    ensures |Retained(tasks, filter)| <= |tasks| && (|Retained(tasks, filter)| == |tasks| ==> Retained(tasks, filter) == tasks)
  {
    if tasks != [] {
      var front := tasks[..|tasks| - 1];
      assert tasks == front + [tasks[|tasks| - 1]];
      RetainedAre(front, filter);
    }
  }

  lemma {:induction false} RetainedDistinct(tasks: seq<Task>, filter: string)
    requires DistinctKeys(tasks, TaskId())
    ensures DistinctKeys(Retained(tasks, filter), TaskId())
  {
    if tasks != [] {
      var front, last := tasks[..|tasks| - 1], tasks[|tasks| - 1];
      RetainedDistinct(front, filter);
      RetainedAre(front, filter);
      KeptApart(Retained(front, filter), last);
    }
  }

  lemma KeptApart(kept: seq<Task>, last: Task)
    requires DistinctKeys(kept, TaskId())
    ensures (forall t | t in kept :: t.id != last.id) ==> DistinctKeys(kept + [last], TaskId())
  {
  }

  /** The tasks of the map that a filter keeps. */
  ghost function StayingIn(m: map<Id, Task>, filter: string): map<Id, Task> {
    map id | id in m && Stays(filter, m[id]) :: m[id]
  }

  lemma RetainedContents(tasks: seq<Task>, filter: string)
    requires DistinctKeys(tasks, TaskId())
    ensures Contents(Retained(tasks, filter), TaskId()) == StayingIn(Contents(tasks, TaskId()), filter)
  {
    var kept, key := Retained(tasks, filter), TaskId();
    RetainedAre(tasks, filter);
    RetainedDistinct(tasks, filter);
    forall id ensures Lookup(Contents(kept, key), id) == Lookup(StayingIn(Contents(tasks, key), filter), id) {
      DistinctContents(tasks, key, id);
      DistinctContents(kept, key, id);
    }
    SameLookups(Contents(kept, key), StayingIn(Contents(tasks, key), filter));
  }

  class TaskHistory {
    var tasks: seq<Task>
    var index: map<Id, nat>
    var file: Option<seq<Task>>

    /** The index is the one a rebuild would give. */
    ghost predicate Valid()
      reads this
    {
      Indexed(tasks, TaskId(), index)
    }

    /** And no identifier is used twice, so that the index is the exact inverse of the list. */
    ghost predicate Sound()
      reads this
    {
      Valid() && DistinctKeys(tasks, TaskId())
    }

    ghost function Tasks(): map<Id, Task>
      reads this
    {
      Contents(tasks, TaskId())
    }

    /** Loads the file; one that is missing or cannot be read gives an empty history. */
    constructor Load(file: Option<seq<Task>>)
      ensures Valid() && this.file == file && tasks == if file.Some? then file.value else []
      ensures DistinctKeys(tasks, TaskId()) ==> Sound()
    {
      this.file := file;
      tasks := if file.Some? then file.value else [];
      index := map[];
      new;
      index := Rebuild(tasks, TaskId());
    }

    /** Writing can fail; then the file keeps what it had. */
    method Flush(written: bool)
      modifies `file
      ensures file == if written then Some(tasks) else old(file)
    {
      if written {
        file := Some(tasks);
      }
    }

    method Upsert(entry: Task, written: bool)
      requires Valid()
      modifies this
      ensures Valid() && Tasks() == old(Tasks())[entry.id := entry]
      ensures old(Sound()) ==> Sound()
      ensures |tasks| == old(|tasks|) + if entry.id in old(Tasks()) then 0 else 1
      ensures file == if written then Some(tasks) else old(file)
    {
      UpsertKeeps(tasks, index, entry);
      if entry.id in index {
        tasks := tasks[index[entry.id] := entry];
      } else {
        index := index[entry.id := |tasks|];
        tasks := tasks + [entry];
      }
      Flush(written);
    }

    method Get(id: Id) returns (r: Option<Task>)
      requires Valid()
      ensures r == Lookup(Tasks(), id)
    {
      LookupsAgree(tasks, TaskId(), index, id);
      return if id in index then Some(tasks[index[id]]) else None;
    }

    /** The latest `n` tasks, latest first. */
    method Recent(n: nat) returns (r: seq<Task>)
      ensures r == LatestOf(tasks, n) && Sorted(r, LatestFirst()) && Latest(r, tasks, n)
      ensures Sound() ==> DistinctKeys(r, TaskId())
    {
      var sorted := Sort(tasks, LatestFirst());
      r := if n < |sorted| then sorted[..n] else sorted;
      LatestAre(tasks, n);
    }

    method RemoveByFilter(filter: string, written: bool) returns (removed: nat)
      requires Valid()
      modifies this
      ensures Valid() && tasks == Retained(old(tasks), filter) && |tasks| + removed == old(|tasks|)
      ensures old(Sound()) ==> Sound() && Tasks() == StayingIn(old(Tasks()), filter)
      ensures file == if removed > 0 && written then Some(tasks) else old(file)
    {
      var before := |tasks|;
      RetainedAre(tasks, filter);
      if Sound() {
        RetainedDistinct(tasks, filter);
        RetainedContents(tasks, filter);
      }
      tasks := Retained(tasks, filter);
      if |tasks| == before {
        return 0;
      }
      index := Rebuild(tasks, TaskId());
      Flush(written);
      return before - |tasks|;
    }

    method RemoveById(id: Id, written: bool) returns (found: bool)
      requires Valid()
      modifies this
      ensures Valid() && (found <==> id in old(Tasks()))
      ensures found ==> id in old(index) && tasks == Without(old(tasks), old(index)[id])
      ensures !found ==> tasks == old(tasks) && file == old(file)
      ensures old(Sound()) ==> Sound() && Tasks() == old(Tasks()) - {id}
      ensures found ==> file == if written then Some(tasks) else old(file)
    {
      LookupsAgree(tasks, TaskId(), index, id);
      if id !in index {
        return false;
      }
      var at := index[id];
      if Sound() {
        RemovedContents(tasks, TaskId(), at);
      }
      tasks := Without(tasks, at);
      index := Rebuild(tasks, TaskId());
      Flush(written);
      return true;
    }

    /** Keeps the latest tasks. */
    method Trim(limit: nat, written: bool)
      requires Valid()
      modifies this
      ensures Valid() && Latest(tasks, old(tasks), limit)
      ensures tasks == if old(|tasks|) <= limit then old(tasks) else LatestOf(old(tasks), limit)
      ensures old(|tasks|) <= limit ==> file == old(file)
      ensures old(Sound()) ==> Sound()
    {
      if |tasks| > limit {
        tasks := Recent(limit);
        index := Rebuild(tasks, TaskId());
        Flush(written);
      }
    }
  }

  /** The latest `n` of the tasks. */
  ghost predicate Latest(recent: seq<Task>, tasks: seq<Task>, n: nat) {
    && |recent| == (if |tasks| < n then |tasks| else n)
    && (forall e | e in recent :: e in tasks)
    && (forall s, t | s in recent && t in tasks && t !in recent :: LatestFirst()(s, t))
  }

  /** The first `n` tasks of the list sorted by time, latest first. */
  function LatestOf(tasks: seq<Task>, n: nat): seq<Task> {
    var sorted := Sort(tasks, LatestFirst());
    if n < |sorted| then sorted[..n] else sorted
  }

  lemma LatestAre(tasks: seq<Task>, n: nat)
    ensures var r := LatestOf(tasks, n);
            Sorted(r, LatestFirst()) && Latest(r, tasks, n) && (DistinctKeys(tasks, TaskId()) ==> DistinctKeys(r, TaskId()))
  {
    var sorted, r := Sort(tasks, LatestFirst()), LatestOf(tasks, n);
    LatestFirstOrders();
    SortSorts(tasks, LatestFirst());
    SortKeeps(tasks, LatestFirst());
    if DistinctKeys(tasks, TaskId()) {
      SortedDistinctKeys(tasks, TaskId(), LatestFirst());
    }
    assert r == sorted[..|r|];
    CutAfter(sorted, |r|);
  }

  /** Sorted by time, with tasks of the same time as they stood. */
  ghost predicate StablySorted(all: seq<Task>, tasks: seq<Task>) {
    Sorted(all, LatestFirst()) && forall z :: Ties(all, z, LatestFirst()) == Ties(tasks, z, LatestFirst())
  }

  /** Which tasks are the latest depends on nothing but the list: among tasks of the same time those that stand first are taken, in their order. */
  lemma LatestExactly(tasks: seq<Task>, n: nat, r: seq<Task>)
    ensures r == LatestOf(tasks, n) <==> exists all :: StablySorted(all, tasks) && r == if n < |all| then all[..n] else all
  {
    var sorted := Sort(tasks, LatestFirst());
    LatestFirstOrders();
    SortSorts(tasks, LatestFirst());
    forall z ensures Ties(sorted, z, LatestFirst()) == Ties(tasks, z, LatestFirst()) {
      SortIsStable(tasks, LatestFirst(), z);
    }
    assert StablySorted(sorted, tasks);
    forall all | StablySorted(all, tasks) ensures all == sorted {
      StablyUnique(all, sorted, LatestFirst());
    }
  }

  /** Both branches of `upsert` put the entry into the map. */
  lemma UpsertKeeps(tasks: seq<Task>, index: map<Id, nat>, entry: Task)
    requires Indexed(tasks, TaskId(), index)
    ensures entry.id in index <==> entry.id in Contents(tasks, TaskId())
    ensures entry.id in index ==>
              && Indexed(tasks[index[entry.id] := entry], TaskId(), index)
              && Contents(tasks[index[entry.id] := entry], TaskId()) == Contents(tasks, TaskId())[entry.id := entry]
              && (DistinctKeys(tasks, TaskId()) ==> DistinctKeys(tasks[index[entry.id] := entry], TaskId()))
    ensures entry.id !in index ==>
              && Indexed(tasks + [entry], TaskId(), index[entry.id := |tasks|])
              && Contents(tasks + [entry], TaskId()) == Contents(tasks, TaskId())[entry.id := entry]
              && (DistinctKeys(tasks, TaskId()) ==> DistinctKeys(tasks + [entry], TaskId()))
  {
    LookupsAgree(tasks, TaskId(), index, entry.id);
    if entry.id in index {
      IndexedUpdate(tasks, TaskId(), index, index[entry.id], entry);
      if DistinctKeys(tasks, TaskId()) {
        DistinctUpdate(tasks, TaskId(), index[entry.id], entry);
      }
    } else {
      IndexedPush(tasks, TaskId(), index, entry);
      if DistinctKeys(tasks, TaskId()) {
        DistinctPush(tasks, TaskId(), entry);
      }
    }
  }

  /** What is cut off comes after what is kept. */
  lemma CutAfter(sorted: seq<Task>, n: nat)
    requires Sorted(sorted, LatestFirst()) && n <= |sorted|
    ensures forall s, t | s in sorted[..n] && t in sorted && t !in sorted[..n] :: LatestFirst()(s, t)
  {
    forall s, t | s in sorted[..n] && t in sorted && t !in sorted[..n] ensures LatestFirst()(s, t) {
      var i :| 0 <= i < n && sorted[i] == s;
      var j :| 0 <= j < |sorted| && sorted[j] == t;
      assert forall k | 0 <= k < n :: sorted[k] in sorted[..n];
      assert i < j;
    }
  }
}
