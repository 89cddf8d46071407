/** The task list of the user interface: live tasks merged with the history, in one total order. */
module TaskLists {
  import opened Outcomes
  import opened Sorting
  import opened PathOrder
  import opened Indexes
  import opened TaskHistories

  /** `rest` stands for the fields that neither the merge nor the order looks at. */
  datatype UiTask = UiTask(id: Id, status: string, finishedAt: Option<nat>, createdAt: nat, rest: string)

  function UiTaskId(): UiTask -> Id {
    (t: UiTask) => t.id
  }

  predicate Active(status: string) {
    status in {"running", "validating", "uploading", "submitted", "polling", "saving"}
  }

  // ---------- the comparator ----------

  datatype Order = Less | Equal | Greater {
    function Then(next: Order): Order {
      if Equal? then next else this
    }

    function Reverse(): Order {
      if Less? then Greater else if Greater? then Less else Equal
    }
  }

  function CompareNat(a: nat, b: nat): Order {
    if a < b then Less else if a == b then Equal else Greater
  }

  function CompareText(a: string, b: string): Order {
    if a == b then Equal else if NameBefore(a, b) then Less else Greater
  }

  function CompareActive(a: UiTask, b: UiTask): Order {
    CompareNat(if Active(b.status) then 1 else 0, if Active(a.status) then 1 else 0)
  }

  function CompareFinished(a: UiTask, b: UiTask): Order {
    match (a.finishedAt, b.finishedAt)
    case (Some(x), Some(y)) => CompareNat(y, x)
    case (Some(_), None) => Less
    case (None, Some(_)) => Greater
    case (None, None) => CompareNat(b.createdAt, a.createdAt)
  }

  /** Active tasks first, then the latest; the identifier decides between tasks of the same second. */
  function Compare(a: UiTask, b: UiTask): Order {
    CompareActive(a, b).Then(CompareFinished(a, b)).Then(CompareNat(b.createdAt, a.createdAt)).Then(CompareText(b.id, a.id))
  }

  function NotAfter(): (UiTask, UiTask) -> bool {
    (a: UiTask, b: UiTask) => !Compare(a, b).Greater?
  }

  lemma TextOrder(a: string, b: string, c: string)
    ensures CompareText(b, a) == CompareText(a, b).Reverse()
    ensures CompareText(a, b).Less? && CompareText(b, c).Less? ==> CompareText(a, c).Less?
  {
    NamesCompare(a, b);
    NamesCompare(a, c);
    if NameBefore(a, b) && NameBefore(b, c) {
      NamesTransitive(a, b, c);
    }
  }

  lemma CompareReverses(a: UiTask, b: UiTask)
    ensures Compare(b, a) == Compare(a, b).Reverse()
    ensures Compare(a, b).Equal? ==> a.id == b.id
  {
    TextOrder(a.id, b.id, a.id);
  }

  /** The keys before the identifier, as one comparison. */
  function CompareTimes(a: UiTask, b: UiTask): Order {
    CompareActive(a, b).Then(CompareFinished(a, b)).Then(CompareNat(b.createdAt, a.createdAt))
  }

  lemma TimesTransitive(a: UiTask, b: UiTask, c: UiTask)
    requires !CompareTimes(a, b).Greater? && !CompareTimes(b, c).Greater?
    ensures !CompareTimes(a, c).Greater?
    ensures CompareTimes(a, c).Equal? ==> CompareTimes(a, b).Equal? && CompareTimes(b, c).Equal?
  {
  }

  lemma CompareTransitive(a: UiTask, b: UiTask, c: UiTask)
    requires !Compare(a, b).Greater? && !Compare(b, c).Greater?
    ensures !Compare(a, c).Greater?
  {
    TimesTransitive(a, b, c);
    TextOrder(c.id, b.id, a.id);
    TextOrder(a.id, b.id, c.id);
  }

  /** The comparator is a total order, without ties between tasks of different identifiers. */
  lemma CompareOrders()
    ensures Ordering(NotAfter())
    ensures forall a, b | NotAfter()(a, b) && NotAfter()(b, a) :: a.id == b.id
  {
    forall a: UiTask, b: UiTask
      ensures NotAfter()(a, b) || NotAfter()(b, a)
      ensures NotAfter()(a, b) && NotAfter()(b, a) ==> a.id == b.id
    {
      CompareReverses(a, b);
    }
    forall a: UiTask, b: UiTask, c: UiTask | NotAfter()(a, b) && NotAfter()(b, c)
      ensures NotAfter()(a, c)
    {
      CompareTransitive(a, b, c);
    }
  }

  // ---------- the merged list ----------

  /** A live task as shown, with what is known about it filled in. */
  function Dressed(t: UiTask, meta: map<Id, string>): UiTask {
    if t.id in meta then t.(rest := meta[t.id]) else t
  }

  ghost predicate Keyed(states: map<Id, UiTask>) {
    forall id <- states :: states[id].id == id
  }

  ghost predicate KeepsId(item: Task -> UiTask) {
    forall e: Task :: item(e).id == e.id
  }

  /** What the list shows: every live task, and every recent task of the history that is not live. */
  ghost predicate Shown(t: UiTask, states: map<Id, UiTask>, meta: map<Id, string>, recent: seq<Task>, item: Task -> UiTask) {
    || (t.id in states && t == Dressed(states[t.id], meta))
    || (t.id !in states && exists e :: e in recent && t == item(e))
  }

  /** The task list: exactly what is to be shown, no identifier twice, in order. */
  ghost predicate IsTaskList(list: seq<UiTask>, states: map<Id, UiTask>, meta: map<Id, string>, recent: seq<Task>, item: Task -> UiTask) {
    && Sorted(list, NotAfter()) && DistinctKeys(list, UiTaskId())
    && forall t :: t in list <==> Shown(t, states, meta, recent, item)
  }

  /** There is only one such list, whatever the order of the map. */
  lemma TaskListUnique(xs: seq<UiTask>, ys: seq<UiTask>, states: map<Id, UiTask>, meta: map<Id, string>, recent: seq<Task>, item: Task -> UiTask)
    requires IsTaskList(xs, states, meta, recent, item) && IsTaskList(ys, states, meta, recent, item)
    ensures xs == ys
  {
    CompareOrders();
    KeysDistinct(xs, UiTaskId());
    KeysDistinct(ys, UiTaskId());
    DistinctSame(xs, ys);
    SortedUnique(xs, ys, NotAfter());
  }

  ghost predicate AllLive(items: seq<UiTask>, states: map<Id, UiTask>, meta: map<Id, string>) {
    forall t :: t in items <==> t.id in states && t == Dressed(states[t.id], meta)
  }

  ghost predicate Merged(live: seq<UiTask>, items: seq<UiTask>, recent: seq<Task>, item: Task -> UiTask) {
    forall t :: t in items <==> t in live || exists e :: e in recent && t == item(e) && !HasId(live, e.id)
  }

  /** The live tasks, in the order in which the map happens to give them. */
  method LiveTasks(states: map<Id, UiTask>, meta: map<Id, string>) returns (items: seq<UiTask>)
    requires Keyed(states)
    ensures DistinctKeys(items, UiTaskId()) && AllLive(items, states, meta)
  {
    items := [];
    var rest := states.Keys;
    while rest != {}
      invariant rest <= states.Keys && DistinctKeys(items, UiTaskId())
      invariant forall t :: t in items <==> t.id in states && t.id !in rest && t == Dressed(states[t.id], meta)
      decreases rest
    {
      var id :| id in rest;
      items, rest := items + [Dressed(states[id], meta)], rest - {id};
    }
  }

  /** Adds the tasks of the history that are not in the list yet. */
  method MergeHistory(live: seq<UiTask>, recent: seq<Task>, item: Task -> UiTask) returns (items: seq<UiTask>)
    requires DistinctKeys(live, UiTaskId()) && DistinctKeys(recent, TaskId()) && KeepsId(item)
    ensures DistinctKeys(items, UiTaskId()) && Merged(live, items, recent, item)
  {
    items := live;
    for k := 0 to |recent|
      invariant DistinctKeys(items, UiTaskId())
      invariant forall t :: t in items <==> t in live || exists e :: e in recent[..k] && t == item(e) && !HasId(live, e.id)
    {
      var e := recent[k];
      assert recent[..k + 1] == recent[..k] + [e];
      NotYetMerged(live, recent, k, item);
      if !HasId(items, e.id) {
        items := items + [item(e)];
      }
    }
    assert recent[..|recent|] == recent;
  }

  /** `items.iter().any(|t| t.id == entry.id)`. */
  predicate HasId(items: seq<UiTask>, id: Id) {
    exists t :: t in items && t.id == id
  }

  lemma NotYetMerged(live: seq<UiTask>, recent: seq<Task>, k: nat, item: Task -> UiTask)
    requires k < |recent| && DistinctKeys(recent, TaskId()) && KeepsId(item)
    ensures !(exists e :: e in recent[..k] && e.id == recent[k].id)
  {
    forall e | e in recent[..k] ensures e.id != recent[k].id {
      var i :| 0 <= i < k && recent[i] == e;
      assert TaskId()(recent[i]) != TaskId()(recent[k]);
    }
  }

  /** The live tasks and the 200 latest tasks of the history, unsorted. */
  method MergedTasks(states: map<Id, UiTask>, meta: map<Id, string>, history: TaskHistory, item: Task -> UiTask)
    returns (items: seq<UiTask>)
    requires Keyed(states) && history.Sound() && KeepsId(item)
    ensures DistinctKeys(items, UiTaskId()) && ShowsAll(items, states, meta, LatestOf(history.tasks, 200), item)
  {
    var live := LiveTasks(states, meta);
    var recent := history.Recent(200);
    items := MergeHistory(live, recent, item);
    MergedShows(live, items, states, meta, recent, item);
  }

  /** The list that is shown: it is determined by the live tasks and by the history as it stands. */
  method TaskList(states: map<Id, UiTask>, meta: map<Id, string>, history: TaskHistory, item: Task -> UiTask)
    returns (list: seq<UiTask>)
    requires Keyed(states) && history.Sound() && KeepsId(item)
    ensures IsTaskList(list, states, meta, LatestOf(history.tasks, 200), item)
  {
    var items := MergedTasks(states, meta, history, item);
    SortedShows(items, states, meta, LatestOf(history.tasks, 200), item);
    list := Sort(items, NotAfter());
  }

  ghost predicate ShowsAll(items: seq<UiTask>, states: map<Id, UiTask>, meta: map<Id, string>, recent: seq<Task>, item: Task -> UiTask) {
    forall t :: t in items <==> Shown(t, states, meta, recent, item)
  }

  lemma MergedShows(live: seq<UiTask>, items: seq<UiTask>, states: map<Id, UiTask>, meta: map<Id, string>, recent: seq<Task>, item: Task -> UiTask)
    requires Keyed(states) && KeepsId(item) && AllLive(live, states, meta) && Merged(live, items, recent, item)
    ensures ShowsAll(items, states, meta, recent, item)
  {
    forall t ensures t in items <==> Shown(t, states, meta, recent, item) {
      LiveOrNot(live, states, meta, t.id);
    }
  }

  lemma SortedShows(items: seq<UiTask>, states: map<Id, UiTask>, meta: map<Id, string>, recent: seq<Task>, item: Task -> UiTask)
    requires DistinctKeys(items, UiTaskId()) && ShowsAll(items, states, meta, recent, item)
    ensures IsTaskList(Sort(items, NotAfter()), states, meta, recent, item)
  {
    CompareOrders();
    SortSorts(items, NotAfter());
    SortKeeps(items, NotAfter());
    SortedDistinctKeys(items, UiTaskId(), NotAfter());
  }

  lemma LiveOrNot(live: seq<UiTask>, states: map<Id, UiTask>, meta: map<Id, string>, id: Id)
    requires Keyed(states) && AllLive(live, states, meta)
    ensures HasId(live, id) <==> id in states
  {
    if id in states {
      assert Dressed(states[id], meta) in live;
    }
  }

  // ---------- the events that change the map ----------

  datatype Event =
    | Started(id: Id)
    | Changed(id: Id, rest: string)
    | Finished(id: Id, status: string, rest: string)
    | Output(id: Id, rest: string)
    | Round

  const MAX_HISTORY_ENTRIES: nat := 500

  /** `to_history_entry`: only finished tasks are kept. */
  function HistoryEntry(t: UiTask, text: nat -> string): Option<Task> {
    if t.finishedAt.None? || Active(t.status) || t.status == "idle" then None
    else Some(Task(t.id, t.status, text(t.finishedAt.value), text(t.createdAt), t.rest))
  }

  /** What an event makes of its task, if the task is in the map. */
  function After(t: UiTask, event: Event, now: nat): UiTask {
    match event
    case Changed(_, rest) => t.(rest := rest)
    case Finished(_, status, rest) => t.(status := status, finishedAt := Some(now), rest := rest)
    case Output(_, rest) => t.(rest := rest)
    case _ => t
  }

  /** The tasks are those on record with `entry` added, or put in place of one with its identifier, cut to the latest. */
  ghost predicate Recorded(tasks: seq<Task>, before: map<Id, Task>, entry: Task) {
    exists all :: Contents(all, TaskId()) == before[entry.id := entry]
                  && tasks == if |all| <= MAX_HISTORY_ENTRIES then all else LatestOf(all, MAX_HISTORY_ENTRIES)
  }

  /** The record with the fields of a task renewed, if it is on record. */
  ghost function Renewed(before: map<Id, Task>, id: Id, rest: string): map<Id, Task> {
    if id in before then before[before[id].id := before[id].(rest := rest)] else before
  }

  class TaskBoard {
    var states: map<Id, UiTask>
    const history: TaskHistory
    const text: nat -> string

    constructor (history: TaskHistory, text: nat -> string)
      ensures this.history == history && this.text == text && Keyed(states) && states == map[]
    {
      this.history, this.text, states := history, text, map[];
    }

    /** `persist_task`: a finished task goes into the history, which is then cut to its limit. */
    method Persist(t: UiTask, written: bool)
      requires history.Valid()
      modifies history
      ensures history.Valid() && (old(history.Sound()) ==> history.Sound())
      ensures HistoryEntry(t, text).None? ==> history.tasks == old(history.tasks)
      ensures HistoryEntry(t, text).Some? ==> Recorded(history.tasks, old(history.Tasks()), HistoryEntry(t, text).value)
    {
      var entry := HistoryEntry(t, text);
      if entry.Some? {
        history.Upsert(entry.value, written);
        history.Trim(MAX_HISTORY_ENTRIES, written);
      }
    }

    /** The output path of a task that is in the history already is updated there too. */
    method PersistOutput(id: Id, rest: string, written: bool)
      requires history.Valid()
      modifies history
      ensures history.Valid() && (old(history.Sound()) ==> history.Sound())
      ensures history.Tasks() == Renewed(old(history.Tasks()), id, rest)
    {
      var known := history.Get(id);
      if known.Some? {
        history.Upsert(known.value.(rest := rest), written);
      }
    }

    /**
      `apply_event`. A task enters the map only when it starts, under its own identifier; later events change
      it only if it is there, and no event changes another task.
    */
    method Apply(event: Event, record: Option<UiTask>, now: nat, written: bool)
      requires Keyed(states) && history.Valid() && (event.Started? && record.Some? ==> record.value.id == event.id)
      modifies this, history
      ensures Keyed(states) && history.Valid() && (old(history.Sound()) ==> history.Sound())
      ensures states == if event.Started? && record.Some? then old(states)[event.id := record.value.(status := "running")]
                        else if !event.Started? && !event.Round? && event.id in old(states)
                        then old(states)[event.id := After(old(states)[event.id], event, now)]
                        else old(states)
      ensures !(event.Finished? || event.Output?) || event.id !in old(states) ==> history.tasks == old(history.tasks)
      ensures event.Output? && event.id in old(states) ==> history.Tasks() == Renewed(old(history.Tasks()), event.id, event.rest)
      ensures event.Finished? && event.id in old(states) ==>
                var entry := HistoryEntry(states[event.id], text);
                if entry.Some? then Recorded(history.tasks, old(history.Tasks()), entry.value) else history.tasks == old(history.tasks)
    {
      if event.Started? {
        if record.Some? {
          states := states[event.id := record.value.(status := "running")];
        }
      } else if !event.Round? && event.id in states {
        states := states[event.id := After(states[event.id], event, now)];
        if event.Finished? {
          Persist(states[event.id], written);
        } else if event.Output? {
          PersistOutput(event.id, event.rest, written);
        }
      }
    }
  }
}
