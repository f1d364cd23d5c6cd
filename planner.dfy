/** The planner drawer: tasks with an optional due date, split into upcoming and completed. */
module Planner {
  import opened Wrappers
  import opened Strings
  import opened Lists

  /** A task; `due` is an ISO date or "" for none. */
  datatype Task = Task(id: int, text: string, due: string, done: bool, createdAt: string)

  /** The new-task form. */
  datatype TaskDraft = TaskDraft(text: string, due: string)

  // ---------------------------------------------------------------------------
  // Views

  predicate DueNoLater(a: Task, b: Task) {
    LexLe(a.due, b.due)
  }

  predicate CreatedNoOlder(a: Task, b: Task) {
    LexLe(b.createdAt, a.createdAt)
  }

  lemma DueNoLaterIsTotalPreorder()
    ensures TotalPreorder(DueNoLater)
  {
    forall a: Task, b: Task ensures DueNoLater(a, b) || DueNoLater(b, a) {
      LexLeTotal(a.due, b.due);
    }
    forall a: Task, b: Task, c: Task | DueNoLater(a, b) && DueNoLater(b, c) ensures DueNoLater(a, c) {
      LexLeTransitive(a.due, b.due, c.due);
    }
  }

  lemma CreatedNoOlderIsTotalPreorder()
    ensures TotalPreorder(CreatedNoOlder)
  {
    forall a: Task, b: Task ensures CreatedNoOlder(a, b) || CreatedNoOlder(b, a) {
      LexLeTotal(a.createdAt, b.createdAt);
    }
    forall a: Task, b: Task, c: Task | CreatedNoOlder(a, b) && CreatedNoOlder(b, c)
      ensures CreatedNoOlder(a, c)
    {
      LexLeTransitive(c.createdAt, b.createdAt, a.createdAt);
    }
  }

  /** `upcoming`: exactly the open tasks, earliest due date first. */
  function Upcoming(tasks: seq<Task>): (r: seq<Task>)
    ensures forall t :: multiset(r)[t] == if !t.done then multiset(tasks)[t] else 0
    ensures forall i, j :: 0 <= i < j < |r| ==> LexLe(r[i].due, r[j].due)
    ensures StableBy(r, Filter(tasks, (t: Task) => !t.done), DueNoLater)
  {
    var open := Filter(tasks, (t: Task) => !t.done);
    DueNoLaterIsTotalPreorder();
    SortBySorted(open, DueNoLater);
    SortByStable(open, DueNoLater);
    SortBy(open, DueNoLater)
  }

  /** `completed`: exactly the done tasks, newest first. */
  function Completed(tasks: seq<Task>): (r: seq<Task>)
    ensures forall t :: multiset(r)[t] == if t.done then multiset(tasks)[t] else 0
    ensures forall i, j :: 0 <= i < j < |r| ==> LexLe(r[j].createdAt, r[i].createdAt)
    ensures StableBy(r, Filter(tasks, (t: Task) => t.done), CreatedNoOlder)
  {
    var finished := Filter(tasks, (t: Task) => t.done);
    CreatedNoOlderIsTotalPreorder();
    SortBySorted(finished, CreatedNoOlder);
    SortByStable(finished, CreatedNoOlder);
    SortBy(finished, CreatedNoOlder)
  }

  /** Every task is shown exactly once, in one of the two lists. */
  lemma UpcomingCompletedPartition(tasks: seq<Task>)
    ensures multiset(Upcoming(tasks)) + multiset(Completed(tasks)) == multiset(tasks)
  {
    var u, c := Upcoming(tasks), Completed(tasks);
    forall t ensures (multiset(u) + multiset(c))[t] == multiset(tasks)[t] {
    }
  }

  /** Upcoming tasks without a due date come before all those with one. */
  lemma UndatedFirst(tasks: seq<Task>, i: int, j: int)
    requires 0 <= i < j < |Upcoming(tasks)| && Upcoming(tasks)[j].due == ""
    ensures Upcoming(tasks)[i].due == ""
  {
  }

  /**
   * `overdue` in the task row: an open task whose due date, as epoch
   * milliseconds `dueAt` (`None` when it does not parse), is before the
   * start of today.
   */
  predicate Overdue(t: Task, dueAt: Option<int>, todayStart: int): (b: bool)
    ensures b ==> !t.done && t.due != ""
    ensures dueAt.None? ==> !b
    ensures b ==> dueAt.value < todayStart
    ensures !t.done && t.due != "" && dueAt.Some? && dueAt.value < todayStart ==> b
  {
    t.due != "" && !t.done && dueAt.Some? && dueAt.value < todayStart
  }

  /** A task that is overdue today is still overdue on any later day. */
  lemma OverdueStays(t: Task, dueAt: Option<int>, today: int, later: int)
    requires today <= later && Overdue(t, dueAt, today)
    ensures Overdue(t, dueAt, later)
  {
  }

  /** An overdue task is always listed under upcoming. */
  lemma OverdueIsUpcoming(tasks: seq<Task>, t: Task, dueAt: Option<int>, todayStart: int)
    requires t in tasks && Overdue(t, dueAt, todayStart)
    ensures t in Upcoming(tasks)
  {
  }

  // ---------------------------------------------------------------------------
  // State transitions of the task list

  /** `add`: unless the text is blank, prepends an open task with the trimmed text. */
  function WithTask(tasks: seq<Task>, d: TaskDraft, id: int, createdAt: string): (r: seq<Task>)
    ensures IsBlank(d.text) ==> r == tasks
    ensures !IsBlank(d.text) ==>
      && |r| == |tasks| + 1 && r[1..] == tasks
      && r[0] == Task(id, Trim(d.text), d.due, false, createdAt)
      && r[0].text != ""
      && !IsWhitespace(r[0].text[0]) && !IsWhitespace(r[0].text[|r[0].text| - 1])
  {
    var text := Trim(d.text);
    if text == "" then tasks
    else
      var last := text[|text| - 1];
      assert !IsWhitespace(text[0]) && !IsWhitespace(last);
      var r := [Task(id, text, d.due, false, createdAt)] + tasks;
      assert r[0].text[|r[0].text| - 1] == last;
      r
  }

  /** `toggle`: flips `done` on the matching tasks only. */
  function Toggled(tasks: seq<Task>, id: int): (r: seq<Task>)
    ensures |r| == |tasks|
    ensures forall i :: 0 <= i < |tasks| && tasks[i].id != id ==> r[i] == tasks[i]
    ensures forall i :: 0 <= i < |tasks| && tasks[i].id == id ==>
      r[i].(done := tasks[i].done) == tasks[i] && r[i].done == !tasks[i].done
  {
    seq(|tasks|, i requires 0 <= i < |tasks| =>
      if tasks[i].id == id then tasks[i].(done := !tasks[i].done) else tasks[i])
  }

  /** Toggling the same id twice restores the list. */
  lemma ToggleTwice(tasks: seq<Task>, id: int)
    ensures Toggled(Toggled(tasks, id), id) == tasks
  {
  }

  /** `remove`: drops every task with the id, the rest keep their order. */
  function WithoutTask(tasks: seq<Task>, id: int): (r: seq<Task>)
    ensures IsSubsequence(r, tasks)
    ensures forall t :: multiset(r)[t] == if t.id != id then multiset(tasks)[t] else 0
    ensures forall t :: t in r <==> t in tasks && t.id != id
    ensures (forall t :: t in tasks ==> t.id != id) ==> r == tasks
  {
    var keep := (t: Task) => t.id != id;
    FilterKeepsAll(tasks, keep);
    Filter(tasks, keep)
  }

  // ---------------------------------------------------------------------------
  // The page's state

  /** The page's `tasks` state and the "planner.tasks" storage slot it is written through to. */
  class TaskStore {
    var tasks: seq<Task>
    var saved: seq<Task>

    ghost predicate Valid()
      reads this
    {
      saved == tasks
    }

    constructor (stored: Option<seq<Task>>)
      ensures Valid()
      ensures tasks == stored.GetOr([])
    {
      tasks := stored.GetOr([]);
      saved := tasks;
    }

    method Add(draft: TaskDraft, now: int, nowIso: string)
      requires Valid()
      modifies this
      ensures Valid()
      ensures tasks == WithTask(old(tasks), draft, now, nowIso)
    {
      tasks := WithTask(tasks, draft, now, nowIso);
      saved := tasks;
    }

    method Toggle(id: int)
      requires Valid()
      modifies this
      ensures Valid()
      ensures tasks == Toggled(old(tasks), id)
    {
      tasks := Toggled(tasks, id);
      saved := tasks;
    }

    method Remove(id: int)
      requires Valid()
      modifies this
      ensures Valid()
      ensures tasks == WithoutTask(old(tasks), id)
    {
      tasks := WithoutTask(tasks, id);
      saved := tasks;
    }
  }
}
