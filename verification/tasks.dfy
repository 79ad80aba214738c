/** The task engine of `src/lib/tasks.ts`: the task list, the append-only
    completion log, the "today" filter and the queries derived from the log. */
module Tasks {
  import opened Seqs
  import opened Dates
  import Progression

  type Id = string

  datatype Category = Haushalt | Gesundheit | Routine | Sonstiges
  datatype Repeat = Taeglich | Woechentlich | Manuell
  datatype Priority = Hoch | Mittel | Niedrig

  datatype Subtask = Subtask(id: Id, title: string, completed: bool)

  datatype Task = Task(
    id: Id,
    title: string,
    category: Category,
    xp: int,
    repeat: Repeat,
    createdAt: string,
    priority: Option<Priority>,
    dueDate: Option<Date>,
    subtasks: seq<Subtask>,
    isArchived: bool,
    note: string)

  datatype TaskCompletion = TaskCompletion(taskId: Id, completedAt: string)

  /** `getDay()` of a Monday. */
  const Monday: int := 1

  /** `createTask`: `id` and `createdAt` stand for `generateId()` and the clock. */
  function CreateTask(id: Id, createdAt: string, title: string, category: Category, xp: int,
                      repeat: Repeat, priority: Priority := Mittel, dueDate: Option<Date> := None): (t: Task)
    ensures t.id == id && t.title == title && t.xp == xp && t.repeat == repeat
    ensures t.category == category && t.createdAt == createdAt
    ensures t.priority == Some(priority) && t.dueDate == dueDate
    ensures t.subtasks == [] && !t.isArchived && t.note == ""
  {
    Task(id, title, category, xp, repeat, createdAt, Some(priority), dueDate, [], false, "")
  }

  /** A `Partial<Task>`: None is a key that is absent; for the optional fields
      `Some(None)` is a key present with the value `undefined`. */
  datatype TaskPatch = TaskPatch(
    id: Option<Id>,
    title: Option<string>,
    category: Option<Category>,
    xp: Option<int>,
    repeat: Option<Repeat>,
    createdAt: Option<string>,
    priority: Option<Option<Priority>>,
    dueDate: Option<Option<Date>>,
    subtasks: Option<seq<Subtask>>,
    isArchived: Option<bool>,
    note: Option<string>)

  const EmptyPatch := TaskPatch(None, None, None, None, None, None, None, None, None, None, None)

  function Pick<T>(p: Option<T>, v: T): T
  {
    if p.Some? then p.value else v
  }

  /** `{ ...t, ...p }`. */
  function Merge(t: Task, p: TaskPatch): Task
  {
    Task(Pick(p.id, t.id), Pick(p.title, t.title), Pick(p.category, t.category), Pick(p.xp, t.xp),
         Pick(p.repeat, t.repeat), Pick(p.createdAt, t.createdAt), Pick(p.priority, t.priority),
         Pick(p.dueDate, t.dueDate), Pick(p.subtasks, t.subtasks), Pick(p.isArchived, t.isArchived),
         Pick(p.note, t.note))
  }

  lemma MergeLaws(t: Task, p: TaskPatch)
    ensures Merge(t, EmptyPatch) == t
    ensures Merge(Merge(t, p), p) == Merge(t, p)
  {
  }

  /** `if (task.dueDate)`: an empty string is falsy and counts as no due date. */
  predicate HasDueDate(t: Task)
  {
    t.dueDate.Some? && t.dueDate.value != ""
  }

  /** The filter callback of `getTodaysTasks`, in its order of precedence:
      archived, then due date, then repeat. */
  predicate IsVisibleToday(t: Task, today: Date, dayOfWeek: int)
  {
    if t.isArchived then false
    else if HasDueDate(t) then LexLeq(t.dueDate.value, today)
    else if t.repeat == Taeglich then true
    else if t.repeat == Woechentlich then dayOfWeek == Monday
    else true
  }

  /** `getTodaysTasks`; `today` and `dayOfWeek` stand for the clock. */
  function TodaysTasks(tasks: seq<Task>, today: Date, dayOfWeek: int): seq<Task>
  {
    Filter(tasks, t => IsVisibleToday(t, today, dayOfWeek))
  }

  /** The tasks shown today are the input's tasks, in input order, that are not archived,
      whose due date (when they have one) is not after today whatever their repeat,
      and which, without a due date, are weekly only on a Monday. */
  lemma TodaysTasksSpec(tasks: seq<Task>, today: Date, dayOfWeek: int)
    ensures var r := TodaysTasks(tasks, today, dayOfWeek);
      && IsSubseq(r, tasks)
      && (forall i :: 0 <= i < |r| ==> !r[i].isArchived)
      && (forall i :: 0 <= i < |r| && HasDueDate(r[i]) ==> LexLeq(r[i].dueDate.value, today))
      && (forall i :: 0 <= i < |r| && !HasDueDate(r[i]) && r[i].repeat == Woechentlich ==> dayOfWeek == Monday)
      && (forall i :: (0 <= i < |tasks| && !tasks[i].isArchived && HasDueDate(tasks[i])
                       && LexLeq(tasks[i].dueDate.value, today)) ==> tasks[i] in r)
      && (forall i :: (0 <= i < |tasks| && !tasks[i].isArchived && !HasDueDate(tasks[i])
                       && (tasks[i].repeat != Woechentlich || dayOfWeek == Monday)) ==> tasks[i] in r)
  {
  }

  /** An overdue task stays visible on every later day until it is archived,
      whatever its repeat rule and whatever the weekday. */
  lemma {:induction false} OverdueStaysVisible(t: Task, today: Date, later: Date, dow: int, laterDow: int)
    requires HasDueDate(t) && IsVisibleToday(t, today, dow)
    requires LexLeq(today, later)
    ensures IsVisibleToday(t, later, laterDow)
  {
    LexLeqTransitive(t.dueDate.value, today, later);
  }

  /** A task dated after today is hidden whatever its repeat rule. */
  lemma {:induction false} FutureTaskHidden(t: Task, today: Date, dow: int)
    requires HasDueDate(t) && !LexLeq(t.dueDate.value, today)
    ensures !IsVisibleToday(t, today, dow)
  {
  }

  /** `isTaskCompletedToday`: `Array.prototype.some` over the log. */
  function IsTaskCompletedToday(taskId: Id, completions: seq<TaskCompletion>, today: Date): (r: bool)
    ensures r <==> exists i :: 0 <= i < |completions| && completions[i].taskId == taskId
                                && StartsWith(completions[i].completedAt, today)
  {
    if completions == [] then false
    else if completions[0].taskId == taskId && StartsWith(completions[0].completedAt, today) then true
    else
      var r := IsTaskCompletedToday(taskId, completions[1..], today);
      assert forall i :: 1 <= i < |completions| ==> completions[i] == completions[1..][i - 1];
      r
  }

  /** `tasks.find((t: Task) => t.id === id)?.xp || 0`. */
  function XPOfTask(tasks: seq<Task>, id: Id): (xp: int)
    ensures (forall i :: 0 <= i < |tasks| ==> tasks[i].id != id) ==> xp == 0
    ensures (exists i :: 0 <= i < |tasks| && tasks[i].id == id) ==>
              exists i :: 0 <= i < |tasks| && tasks[i].id == id && xp == tasks[i].xp
                          && forall j :: 0 <= j < i ==> tasks[j].id != id
  {
    match FirstIndex(tasks, (t: Task) => t.id == id)
    case None => 0
    case Some(k) => tasks[k].xp
  }

  predicate IsFromToday(c: TaskCompletion, today: Date)
  {
    StartsWith(c.completedAt, today)
  }

  /** The `reduce` of `getTodaysXP`: the XP of the logged tasks, 0 for unknown ids. */
  function SumXP(cs: seq<TaskCompletion>, tasks: seq<Task>): int
  {
    if cs == [] then 0 else SumXP(cs[..|cs| - 1], tasks) + XPOfTask(tasks, cs[|cs| - 1].taskId)
  }

  /** `getTodaysXP`. */
  function TodaysXP(completions: seq<TaskCompletion>, tasks: seq<Task>, today: Date): int
  {
    SumXP(Filter(completions, (c: TaskCompletion) => IsFromToday(c, today)), tasks)
  }

  lemma {:induction false} SumXPAppend(a: seq<TaskCompletion>, b: seq<TaskCompletion>, tasks: seq<Task>)
    ensures SumXP(a + b, tasks) == SumXP(a, tasks) + SumXP(b, tasks)
  {
    if b == [] {
      assert a + b == a;
    } else {
      assert (a + b)[..|a + b| - 1] == a + b[..|b| - 1];
      SumXPAppend(a, b[..|b| - 1], tasks);
    }
  }

  lemma {:induction false} SumXPNonnegative(cs: seq<TaskCompletion>, tasks: seq<Task>)
    requires forall i :: 0 <= i < |tasks| ==> tasks[i].xp >= 0
    ensures SumXP(cs, tasks) >= 0
  {
    if cs != [] {
      SumXPNonnegative(cs[..|cs| - 1], tasks);
    }
  }

  /** Logging one more completion raises today's XP by that task's XP when the
      completion is from today, and leaves it unchanged otherwise. */
  lemma {:induction false} TodaysXPAppend(completions: seq<TaskCompletion>, c: TaskCompletion, tasks: seq<Task>, today: Date)
    ensures TodaysXP(completions + [c], tasks, today)
         == TodaysXP(completions, tasks, today) + (if IsFromToday(c, today) then XPOfTask(tasks, c.taskId) else 0)
  {
    var p := (x: TaskCompletion) => IsFromToday(x, today);
    FilterAppend(completions, [c], p);
    assert Filter([c], p) == (if p(c) then [c] else []) by {
      assert [c][1..] == [];
    }
    SumXPAppend(Filter(completions, p), Filter([c], p), tasks);
    assert SumXP([c], tasks) == XPOfTask(tasks, c.taskId) by {
      assert [c][..0] == [];
    }
  }

  /** A log with no completion from today is worth no XP today. */
  lemma {:induction false} NoCompletionTodayNoXP(completions: seq<TaskCompletion>, tasks: seq<Task>, today: Date)
    requires forall i :: 0 <= i < |completions| ==> !IsFromToday(completions[i], today)
    ensures TodaysXP(completions, tasks, today) == 0
  {
  }

  lemma {:induction false} TodaysXPNonnegative(completions: seq<TaskCompletion>, tasks: seq<Task>, today: Date)
    requires forall i :: 0 <= i < |tasks| ==> tasks[i].xp >= 0
    ensures TodaysXP(completions, tasks, today) >= 0
  {
    SumXPNonnegative(Filter(completions, (c: TaskCompletion) => IsFromToday(c, today)), tasks);
  }

  /** After logging a completion stamped today, the task counts as completed today. */
  lemma {:induction false} CompletedAfterLogging(completions: seq<TaskCompletion>, taskId: Id, now: string, today: Date, other: Id)
    requires StartsWith(now, today)
    ensures IsTaskCompletedToday(taskId, completions + [TaskCompletion(taskId, now)], today)
    ensures other != taskId ==>
      IsTaskCompletedToday(other, completions + [TaskCompletion(taskId, now)], today)
      == IsTaskCompletedToday(other, completions, today)
  {
    var log := completions + [TaskCompletion(taskId, now)];
    assert log[|completions|] == TaskCompletion(taskId, now);
    assert forall i :: 0 <= i < |completions| ==> log[i] == completions[i];
  }

  /** The task list and the completion log, each as `loadTasks`/`loadCompletions` returns it. */
  class TaskStore {
    var tasks: seq<Task>
    var completions: seq<TaskCompletion>

    constructor ()
      ensures tasks == [] && completions == []
    {
      tasks, completions := [], [];
    }

    method SaveTask(task: Task)
      modifies this
      ensures tasks == old(tasks) + [task]
      ensures completions == old(completions)
    {
      tasks := tasks + [task];
    }

    /** `updateTask`: merges the patch into the first task with that id, if any. */
    method UpdateTask(id: Id, updates: TaskPatch)
      modifies this
      ensures match FirstIndex(old(tasks), (t: Task) => t.id == id)
              case None => tasks == old(tasks)
              case Some(k) => tasks == old(tasks)[k := Merge(old(tasks)[k], updates)]
      ensures completions == old(completions)
    {
      var index := FirstIndex(tasks, (t: Task) => t.id == id);
      if index.Some? {
        tasks := tasks[index.value := Merge(tasks[index.value], updates)];
      }
    }

    method DeleteTask(id: Id)
      modifies this
      ensures tasks == Filter(old(tasks), (t: Task) => t.id != id)
      ensures forall i :: 0 <= i < |tasks| ==> tasks[i].id != id
      ensures completions == old(completions)
    {
      tasks := Filter(tasks, (t: Task) => t.id != id);
    }

    /** `completeTask`: logs the completion stamped `now` and updates the stats;
        `today`/`yesterday` are the dates `getToday` and the clock give. */
    method CompleteTask(taskId: Id, xpValue: int, now: string, today: Date, yesterday: Date,
                        stats: Progression.Stats) returns (r: Progression.TaskStats)
      modifies this, stats
      ensures completions == old(completions) + [TaskCompletion(taskId, now)]
      ensures tasks == old(tasks)
      ensures stats.Snapshot() == Progression.AfterCompletion(old(stats.Snapshot()), xpValue, today, yesterday)
      ensures r == stats.Snapshot()
    {
      completions := completions + [TaskCompletion(taskId, now)];
      r := stats.RecordCompletion(xpValue, today, yesterday);
    }
  }
}
