/**
 * The task store: an ordered collection of task records kept under one
 * persisted key (`@rhythme_tasks`), newest first.  The persisted array is the
 * field `TaskStorage.tasks`; an absent or unreadable key reads as the empty
 * sequence.  Ids and the current time are passed in by the caller.
 */
module TaskStore {
  import opened Common

  datatype Priority = High | Medium | Low
  datatype TaskStatus = Pending | InProgress | Completed
  /** Time-estimate class: quick (15m), medium (1h), deep (2h+). */
  datatype Difficulty = Quick | Medium | Deep

  datatype Subtask = Subtask(id: string, title: string, completed: bool)

  datatype Task = Task(
    id: string,
    title: string,
    description: Option<string>,
    status: TaskStatus,
    priority: Priority,
    difficulty: Difficulty,
    goalId: Option<string>,
    subGoalId: Option<string>,
    dueDate: Option<Timestamp>,
    category: Option<string>,
    tags: Option<seq<string>>,
    createdAt: Timestamp,
    updatedAt: Timestamp,
    completedAt: Option<Timestamp>,
    subtasks: Option<seq<Subtask>>,
    estimatedMinutes: Option<int>)

  /** What a caller supplies to `create`: a task without `id`, `createdAt` and `updatedAt`. */
  datatype TaskInput = TaskInput(
    title: string,
    description: Option<string>,
    status: TaskStatus,
    priority: Priority,
    difficulty: Difficulty,
    goalId: Option<string>,
    subGoalId: Option<string>,
    dueDate: Option<Timestamp>,
    category: Option<string>,
    tags: Option<seq<string>>,
    completedAt: Option<Timestamp>,
    subtasks: Option<seq<Subtask>>,
    estimatedMinutes: Option<int>)

  /**
   * A partial task for `update`: `None` leaves a field alone, `Some(v)` sets it
   * to `v`.  For an optional field `v` may itself be `None`, the explicit
   * `undefined` that a spread copies over.
   */
  datatype TaskPatch = TaskPatch(
    id: Option<string>,
    title: Option<string>,
    description: Option<Option<string>>,
    status: Option<TaskStatus>,
    priority: Option<Priority>,
    difficulty: Option<Difficulty>,
    goalId: Option<Option<string>>,
    subGoalId: Option<Option<string>>,
    dueDate: Option<Option<Timestamp>>,
    category: Option<Option<string>>,
    tags: Option<Option<seq<string>>>,
    createdAt: Option<Timestamp>,
    updatedAt: Option<Timestamp>,
    completedAt: Option<Option<Timestamp>>,
    subtasks: Option<Option<seq<Subtask>>>,
    estimatedMinutes: Option<Option<int>>)

  const EmptyPatch: TaskPatch :=
    TaskPatch(None, None, None, None, None, None, None, None, None, None, None, None, None, None, None, None)

  datatype TaskStats = TaskStats(
    total: nat,
    completed: nat,
    pending: nat,
    inProgress: nat,
    overdue: nat,
    completedToday: nat,
    highPriority: nat)

  // ---------------------------------------------------------------------------
  // Creation

  /** The input fields of a task: what `create` copies from its argument. */
  function InputOf(t: Task): TaskInput {
    TaskInput(t.title, t.description, t.status, t.priority, t.difficulty, t.goalId, t.subGoalId,
              t.dueDate, t.category, t.tags, t.completedAt, t.subtasks, t.estimatedMinutes)
  }

  /** The record `create` stores: the input spread, then a fresh id and both timestamps set to `now`. */
  function NewTask(input: TaskInput, id: string, now: Timestamp): (t: Task)
    ensures t.id == id && t.createdAt == now && t.updatedAt == now
    ensures InputOf(t) == input
  {
    Task(id, input.title, input.description, input.status, input.priority, input.difficulty,
         input.goalId, input.subGoalId, input.dueDate, input.category, input.tags,
         now, now, input.completedAt, input.subtasks, input.estimatedMinutes)
  }

  // ---------------------------------------------------------------------------
  // Lookup

  /** `findIndex` by id: the first position holding `id`, or -1. */
  function FindIndex(ts: seq<Task>, id: string): (i: int)
    ensures -1 <= i < |ts|
    ensures i == -1 <==> forall k :: 0 <= k < |ts| ==> ts[k].id != id
    ensures 0 <= i ==> ts[i].id == id && forall k :: 0 <= k < i ==> ts[k].id != id
  {
    if ts == [] then -1
    else if ts[0].id == id then 0
    else
      var j := FindIndex(ts[1..], id);
      if j == -1 then -1 else j + 1
  }

  /** `getById`: the first task holding `id`, if any. */
  function Find(ts: seq<Task>, id: string): (r: Option<Task>)
    ensures r.None? <==> forall k :: 0 <= k < |ts| ==> ts[k].id != id
    ensures r.Some? ==> exists i :: 0 <= i < |ts| && ts[i] == r.value && r.value.id == id
                                    && forall k :: 0 <= k < i ==> ts[k].id != id
  {
    var i := FindIndex(ts, id);
    if i == -1 then None else Some(ts[i])
  }

  // ---------------------------------------------------------------------------
  // Update

  /** Whether a patch stamps `completedAt`: it sets status completed on a task never completed before. */
  predicate StampsCompletion(t: Task, p: TaskPatch) {
    p.status == Some(Completed) && t.completedAt.None?
  }

  /**
   * The record `update` writes: the old task, then every field the patch
   * carries, then `updatedAt := now`; `completedAt` is stamped with `now` when
   * the patch completes a task that had no completion time.
   */
  function Merge(t: Task, p: TaskPatch, now: Timestamp): (u: Task)
    ensures u.updatedAt == now
    ensures StampsCompletion(t, p) ==> u.completedAt == Some(now)
    ensures !StampsCompletion(t, p) ==> u.completedAt == Pick(p.completedAt, t.completedAt)
    ensures u.id == Pick(p.id, t.id) && u.title == Pick(p.title, t.title)
    ensures u.description == Pick(p.description, t.description)
    ensures u.status == Pick(p.status, t.status) && u.priority == Pick(p.priority, t.priority)
    ensures u.difficulty == Pick(p.difficulty, t.difficulty)
    ensures u.goalId == Pick(p.goalId, t.goalId) && u.subGoalId == Pick(p.subGoalId, t.subGoalId)
    ensures u.dueDate == Pick(p.dueDate, t.dueDate) && u.category == Pick(p.category, t.category)
    ensures u.tags == Pick(p.tags, t.tags) && u.createdAt == Pick(p.createdAt, t.createdAt)
    ensures u.subtasks == Pick(p.subtasks, t.subtasks)
    ensures u.estimatedMinutes == Pick(p.estimatedMinutes, t.estimatedMinutes)
  {
    var spread := Task(
      Pick(p.id, t.id), Pick(p.title, t.title), Pick(p.description, t.description),
      Pick(p.status, t.status), Pick(p.priority, t.priority), Pick(p.difficulty, t.difficulty),
      Pick(p.goalId, t.goalId), Pick(p.subGoalId, t.subGoalId), Pick(p.dueDate, t.dueDate),
      Pick(p.category, t.category), Pick(p.tags, t.tags), Pick(p.createdAt, t.createdAt),
      now, Pick(p.completedAt, t.completedAt), Pick(p.subtasks, t.subtasks),
      Pick(p.estimatedMinutes, t.estimatedMinutes));
    if StampsCompletion(t, p) then spread.(completedAt := Some(now)) else spread
  }

  /** The task `update` returns together with the collection it leaves behind. */
  datatype UpdateOutcome = UpdateOutcome(result: Option<Task>, tasks: seq<Task>)

  /**
   * `update(id, patch)`: with no task holding `id` nothing is written;
   * otherwise only the first such position is replaced by the merged record.
   */
  function UpdateTasks(ts: seq<Task>, id: string, p: TaskPatch, now: Timestamp): (r: UpdateOutcome)
    ensures (forall k :: 0 <= k < |ts| ==> ts[k].id != id) ==> r == UpdateOutcome(None, ts)
    ensures r.result.Some? ==>
      var i := FindIndex(ts, id);
      && |r.tasks| == |ts|
      && r.result == Some(Merge(ts[i], p, now)) && r.tasks[i] == r.result.value
      && (forall k :: 0 <= k < |ts| && k != i ==> r.tasks[k] == ts[k])
    ensures r.result.None? <==> forall k :: 0 <= k < |ts| ==> ts[k].id != id
  {
    var i := FindIndex(ts, id);
    if i == -1 then UpdateOutcome(None, ts)
    else
      var u := Merge(ts[i], p, now);
      UpdateOutcome(Some(u), ts[i := u])
  }

  /** A completing update on an already-completed task keeps the first completion time. */
  lemma SecondCompletionKeepsStamp(t: Task, p1: TaskPatch, p2: TaskPatch, now1: Timestamp, now2: Timestamp)
    requires p1.status == Some(Completed) && p1.completedAt.None?
    requires p2.status == Some(Completed) && p2.completedAt.None?
    ensures Merge(t, p1, now1).completedAt.Some?
    ensures Merge(Merge(t, p1, now1), p2, now2).completedAt == Merge(t, p1, now1).completedAt
    ensures t.completedAt.None? ==> Merge(t, p1, now1).completedAt == Some(now1)
  {
  }

  /** A patch that moves status away from completed does not clear `completedAt`. */
  lemma RevertKeepsStamp(t: Task, p: TaskPatch, now: Timestamp)
    requires p.status.Some? && p.status != Some(Completed) && p.completedAt.None?
    ensures Merge(t, p, now).completedAt == t.completedAt
  {
  }

  /** After an update that keeps the id, the id is found at the same position. */
  lemma {:induction false} FindIndexAfterUpdate(ts: seq<Task>, id: string, p: TaskPatch, now: Timestamp)
    requires FindIndex(ts, id) != -1
    requires p.id.None? || p.id == Some(id)
    ensures FindIndex(UpdateTasks(ts, id, p, now).tasks, id) == FindIndex(ts, id)
  {
    var i := FindIndex(ts, id);
    var us := UpdateTasks(ts, id, p, now).tasks;
    assert us[i].id == id;
    assert forall k :: 0 <= k < i ==> us[k] == ts[k];
  }

  // ---------------------------------------------------------------------------
  // Toggle

  /** The status `toggleComplete` asks for: completed becomes pending, anything else completed. */
  function ToggledStatus(s: TaskStatus): (r: TaskStatus)
    ensures r == Pending <==> s == Completed
    ensures r != InProgress
  {
    if s == Completed then Pending else Completed
  }

  /** `toggleComplete(id)`: null for an absent id, otherwise an update carrying only the toggled status. */
  function ToggleTasks(ts: seq<Task>, id: string, now: Timestamp): (r: UpdateOutcome)
    ensures r.result.None? <==> forall k :: 0 <= k < |ts| ==> ts[k].id != id
    ensures r.result.None? ==> r.tasks == ts
    ensures r.result.Some? ==> r.result.value.status == ToggledStatus(Find(ts, id).value.status)
    ensures r.result.Some? ==>
      var i := FindIndex(ts, id);
      var p := EmptyPatch.(status := Some(ToggledStatus(ts[i].status)));
      && |r.tasks| == |ts|
      && r.result == Some(Merge(ts[i], p, now)) && r.tasks[i] == r.result.value
      && (forall k :: 0 <= k < |ts| && k != i ==> r.tasks[k] == ts[k])
    ensures r.result.Some? && Find(ts, id).value.status != Completed && Find(ts, id).value.completedAt.None? ==>
      r.result.value.completedAt == Some(now)
    ensures r.result.Some? && Find(ts, id).value.status == Completed ==>
      r.result.value.completedAt == Find(ts, id).value.completedAt
  {
    match Find(ts, id)
    case None => UpdateOutcome(None, ts)
    case Some(t) => UpdateTasks(ts, id, EmptyPatch.(status := Some(ToggledStatus(t.status))), now)
  }

  /** Toggling twice from pending returns to pending and leaves the task in its position. */
  lemma ToggleTwiceFromPending(ts: seq<Task>, id: string, now1: Timestamp, now2: Timestamp)
    requires Find(ts, id).Some? && Find(ts, id).value.status == Pending
    ensures var once := ToggleTasks(ts, id, now1);
            once.result.Some? && once.result.value.status == Completed &&
            var twice := ToggleTasks(once.tasks, id, now2);
            twice.result.Some? && twice.result.value.status == Pending &&
            FindIndex(twice.tasks, id) == FindIndex(ts, id)
  {
    var p1 := EmptyPatch.(status := Some(Completed));
    FindIndexAfterUpdate(ts, id, p1, now1);
    var once := ToggleTasks(ts, id, now1);
    var p2 := EmptyPatch.(status := Some(Pending));
    FindIndexAfterUpdate(once.tasks, id, p2, now2);
  }

  // ---------------------------------------------------------------------------
  // Filtering: `delete` and the statistics

  /** `Array.prototype.filter`: the elements satisfying `keep`, in their original order. */
  function Filter<T>(s: seq<T>, keep: T -> bool): (r: seq<T>)
    ensures |r| <= |s|
    ensures forall k :: 0 <= k < |r| ==> keep(r[k])
    ensures forall k :: 0 <= k < |r| ==> r[k] in s
    ensures forall k :: 0 <= k < |s| && keep(s[k]) ==> s[k] in r
  {
    if s == [] then []
    else if keep(s[0]) then [s[0]] + Filter(s[1..], keep)
    else Filter(s[1..], keep)
  }

  /** Filtering distributes over concatenation: relative order is kept. */
  lemma {:induction false} FilterAppend<T>(a: seq<T>, b: seq<T>, keep: T -> bool)
    ensures Filter(a + b, keep) == Filter(a, keep) + Filter(b, keep)
  {
    if a != [] {
      assert (a + b)[0] == a[0] && (a + b)[1..] == a[1..] + b;
      FilterAppend(a[1..], b, keep);
    } else {
      assert a + b == b;
    }
  }

  /** Filtering with a test every element passes changes nothing. */
  lemma {:induction false} FilterKeepsAll<T>(s: seq<T>, keep: T -> bool)
    requires forall k :: 0 <= k < |s| ==> keep(s[k])
    ensures Filter(s, keep) == s
  {
    if s != [] {
      FilterKeepsAll(s[1..], keep);
    }
  }

  /** Two tests no element passes together keep at most the whole sequence between them. */
  lemma {:induction false} FilterDisjoint<T>(s: seq<T>, p: T -> bool, q: T -> bool)
    requires forall x :: !(p(x) && q(x))
    ensures |Filter(s, p)| + |Filter(s, q)| <= |s|
  {
    if s != [] {
      FilterDisjoint(s[1..], p, q);
    }
  }

  function IdIsNot(id: string): Task -> bool {
    (t: Task) => t.id != id
  }

  /** `delete(id)`'s new collection: the tasks whose id differs, in their original order. */
  function Remove(ts: seq<Task>, id: string): (r: seq<Task>)
    ensures forall t :: t in r <==> t in ts && t.id != id
    ensures (forall k :: 0 <= k < |ts| ==> ts[k].id != id) ==> r == ts
    ensures |r| < |ts| <==> exists k :: 0 <= k < |ts| && ts[k].id == id
  {
    var r := Filter(ts, IdIsNot(id));
    if forall k :: 0 <= k < |ts| ==> ts[k].id != id then
      FilterKeepsAll(ts, IdIsNot(id));
      r
    else
      var k :| 0 <= k < |ts| && ts[k].id == id;
      RemoveShrinks(ts, id, k);
      r
  }

  /**
   * `delete` keeps the original order: it works piecewise over a concatenation
   * and keeps or drops each single task, which determines `Remove` on every
   * collection.
   */
  lemma RemoveKeepsOrder(a: seq<Task>, b: seq<Task>, t: Task, id: string)
    ensures Remove(a + b, id) == Remove(a, id) + Remove(b, id)
    ensures Remove([t], id) == if t.id != id then [t] else []
  {
    FilterAppend(a, b, IdIsNot(id));
    assert [t][1..] == [];
  }

  lemma {:induction false} RemoveShrinks(ts: seq<Task>, id: string, k: nat)
    requires k < |ts| && ts[k].id == id
    ensures |Filter(ts, IdIsNot(id))| < |ts|
  {
    if k == 0 {
      assert !IdIsNot(id)(ts[0]);
    } else {
      RemoveShrinks(ts[1..], id, k - 1);
    }
  }

  predicate IsPending(t: Task) { t.status == Pending }
  predicate IsInProgress(t: Task) { t.status == InProgress }
  predicate IsCompleted(t: Task) { t.status == Completed }

  /** Has a due date earlier than `now` and is not completed. */
  predicate IsOverdue(t: Task, now: Timestamp) {
    t.dueDate.Some? && t.status != Completed && t.dueDate.value < now
  }

  /** Has a completion time on the same calendar day as `now`, whatever its status. */
  predicate CompletedOnDay(t: Task, now: Timestamp, dayOf: Timestamp -> int) {
    t.completedAt.Some? && dayOf(t.completedAt.value) == dayOf(now)
  }

  /** High priority and not completed. */
  predicate IsOpenHighPriority(t: Task) { t.priority == High && t.status != Completed }

  function OverdueAt(now: Timestamp): Task -> bool {
    (t: Task) => IsOverdue(t, now)
  }

  function CompletedOn(now: Timestamp, dayOf: Timestamp -> int): Task -> bool {
    (t: Task) => CompletedOnDay(t, now, dayOf)
  }

  /** Every task has exactly one of the three statuses. */
  lemma {:induction false} StatusPartition(ts: seq<Task>)
    ensures |Filter(ts, IsCompleted)| + |Filter(ts, IsPending)| + |Filter(ts, IsInProgress)| == |ts|
  {
    if ts != [] {
      StatusPartition(ts[1..]);
    }
  }

  /**
   * `getStats`: the counts over the whole collection.  `dayOf` maps a time to
   * its local calendar day (what `toDateString` compares).
   */
  function Stats(ts: seq<Task>, now: Timestamp, dayOf: Timestamp -> int): (s: TaskStats)
    ensures s.total == |ts|
    ensures s.completed + s.pending + s.inProgress == s.total
    ensures s.overdue + s.completed <= s.total
    ensures s.highPriority + s.completed <= s.total
    ensures s.completedToday <= s.total
    ensures s.completed == |Filter(ts, IsCompleted)| && s.pending == |Filter(ts, IsPending)|
    ensures s.inProgress == |Filter(ts, IsInProgress)|
    ensures s.overdue == |Filter(ts, OverdueAt(now))|
    ensures s.completedToday == |Filter(ts, CompletedOn(now, dayOf))|
    ensures s.highPriority == |Filter(ts, IsOpenHighPriority)|
  {
    StatusPartition(ts);
    FilterDisjoint(ts, OverdueAt(now), IsCompleted);
    FilterDisjoint(ts, IsOpenHighPriority, IsCompleted);
    TaskStats(
      |ts|,
      |Filter(ts, IsCompleted)|,
      |Filter(ts, IsPending)|,
      |Filter(ts, IsInProgress)|,
      |Filter(ts, OverdueAt(now))|,
      |Filter(ts, CompletedOn(now, dayOf))|,
      |Filter(ts, IsOpenHighPriority)|)
  }

  /** Changing a task's status never changes the completed-today count. */
  lemma {:induction false} CompletedTodayIgnoresStatus(ts: seq<Task>, i: nat, s: TaskStatus,
                                                       now: Timestamp, dayOf: Timestamp -> int)
    requires i < |ts|
    ensures Stats(ts[i := ts[i].(status := s)], now, dayOf).completedToday
         == Stats(ts, now, dayOf).completedToday
  {
    var ts' := ts[i := ts[i].(status := s)];
    if i == 0 {
      assert ts'[1..] == ts[1..];
    } else {
      assert ts'[1..] == ts[1..][i - 1 := ts[i].(status := s)];
      CompletedTodayIgnoresStatus(ts[1..], i - 1, s, now, dayOf);
    }
  }

  lemma FilterOfThree<T>(a: T, b: T, c: T, keep: T -> bool)
    ensures Filter([a, b, c], keep)
         == (if keep(a) then [a] else []) + (if keep(b) then [b] else []) + (if keep(c) then [c] else [])
  {
    assert [a, b, c][1..] == [b, c] && [b, c][1..] == [c] && [c][1..] == [];
    assert Filter([c], keep) == (if keep(c) then [c] else []);
    assert Filter([b, c], keep) == (if keep(b) then [b] else []) + Filter([c], keep);
  }

  /**
   * Three tasks: one completed today, one pending and due yesterday, one
   * pending, high priority and due tomorrow.
   */
  lemma StatsScenario(a: Task, b: Task, c: Task, now: Timestamp, dayOf: Timestamp -> int)
    requires a.status == Completed && a.completedAt.Some? && dayOf(a.completedAt.value) == dayOf(now)
    requires b.status == Pending && b.priority != High && b.completedAt.None?
    requires b.dueDate == Some(now - MsPerDay)
    requires c.status == Pending && c.priority == High && c.completedAt.None?
    requires c.dueDate == Some(now + MsPerDay)
    ensures Stats([a, b, c], now, dayOf) == TaskStats(3, 1, 2, 0, 1, 1, 1)
  {
    FilterOfThree(a, b, c, IsCompleted);
    FilterOfThree(a, b, c, IsPending);
    FilterOfThree(a, b, c, IsInProgress);
    FilterOfThree(a, b, c, OverdueAt(now));
    FilterOfThree(a, b, c, CompletedOn(now, dayOf));
    FilterOfThree(a, b, c, IsOpenHighPriority);
  }

  /** When every task is completed, none counts as pending, in progress, overdue or open high priority. */
  lemma AllCompletedStats(ts: seq<Task>, now: Timestamp, dayOf: Timestamp -> int)
    requires forall k :: 0 <= k < |ts| ==> ts[k].status == Completed
    ensures var s := Stats(ts, now, dayOf);
      && s.completed == s.total && s.pending == 0 && s.inProgress == 0
      && s.overdue == 0 && s.highPriority == 0
  {
    FilterKeepsAll(ts, IsCompleted);
  }

  // ---------------------------------------------------------------------------
  // Demo data

  /** The seven demo tasks, with their dates relative to `now`. */
  function SampleTasks(now: Timestamp): (s: seq<TaskInput>)
    ensures |s| == 7
  {
    [ TaskInput("Review project proposal", Some("Go through the Q1 project proposal and provide feedback"),
                Completed, High, Difficulty.Medium, None, None, Some(now), Some("Work"), None,
                Some(now), None, None),
      TaskInput("Team standup meeting", None,
                Completed, Priority.Medium, Quick, None, None, Some(now), Some("Work"), None,
                Some(now), None, None),
      TaskInput("Update documentation", Some("Update API docs for v2.0 release"),
                InProgress, Priority.Medium, Deep, None, None, Some(now), Some("Work"), None,
                None, None, None),
      TaskInput("Code review for PR #42", None,
                Pending, High, Difficulty.Medium, None, None, Some(now + MsPerDay), Some("Work"), None,
                None, None, None),
      TaskInput("Prepare presentation", Some("Create slides for Friday's demo"),
                Pending, Low, Deep, None, None, Some(now + 2 * MsPerDay), Some("Work"), None,
                None, None, None),
      TaskInput("Buy groceries", None,
                Pending, Priority.Medium, Quick, None, None, Some(now), Some("Personal"), None,
                None, None, None),
      TaskInput("Call mom", None,
                Pending, Low, Quick, None, None, None, Some("Personal"), None,
                None, None, None) ]
  }

  // ---------------------------------------------------------------------------
  // The store

  class TaskStorage {
    /** The persisted array under `@rhythme_tasks`; absent reads as empty. */
    var tasks: seq<Task>

    constructor ()
      ensures tasks == []
    {
      tasks := [];
    }

    /** `getAll`: the collection in storage order. */
    method GetAll() returns (r: seq<Task>)
      ensures r == tasks
    {
      r := tasks;
    }

    /** `getById`: the first task with `id`, or none. */
    method GetById(id: string) returns (r: Option<Task>)
      ensures r.None? <==> forall k :: 0 <= k < |tasks| ==> tasks[k].id != id
      ensures r.Some? ==> r.value == tasks[FindIndex(tasks, id)]
    {
      r := Find(tasks, id);
    }

    /** `create`: the new task is prepended (`unshift`) to the stored collection. */
    method Create(input: TaskInput, id: string, now: Timestamp) returns (t: Task)
      modifies this
      ensures t.id == id && t.createdAt == now && t.updatedAt == now && InputOf(t) == input
      ensures tasks == [t] + old(tasks)
    {
      t := NewTask(input, id, now);
      tasks := [t] + tasks;
    }

    /** `update`: replaces the first task with `id` by the merged record; no write when absent. */
    method Update(id: string, p: TaskPatch, now: Timestamp) returns (r: Option<Task>)
      modifies this
      ensures UpdateOutcome(r, tasks) == UpdateTasks(old(tasks), id, p, now)
    {
      var index := FindIndex(tasks, id);
      if index == -1 {
        return None;
      }
      var updated := Merge(tasks[index], p, now);
      tasks := tasks[index := updated];
      r := Some(updated);
    }

    /** `delete`: keeps the tasks with another id; succeeds whether or not one matched. */
    method Delete(id: string) returns (ok: bool)
      modifies this
      ensures ok
      ensures tasks == Remove(old(tasks), id)
    {
      tasks := Remove(tasks, id);
      ok := true;
    }

    /** `toggleComplete`: looks the task up, then updates it with the toggled status. */
    method ToggleComplete(id: string, now: Timestamp) returns (r: Option<Task>)
      modifies this
      ensures UpdateOutcome(r, tasks) == ToggleTasks(old(tasks), id, now)
    {
      var task := Find(tasks, id);
      if task.None? {
        return None;
      }
      var newStatus := ToggledStatus(task.value.status);
      r := Update(id, EmptyPatch.(status := Some(newStatus)), now);
    }

    /** `getStats` over the stored collection. */
    method GetStats(now: Timestamp, dayOf: Timestamp -> int) returns (s: TaskStats)
      ensures s == Stats(tasks, now, dayOf)
      ensures s.total == |tasks| && s.completed + s.pending + s.inProgress == s.total
    {
      s := Stats(tasks, now, dayOf);
    }

    /**
     * `seedSampleData`: on an empty store, creates the samples one by one, so
     * the last sample ends up first; a non-empty store is left alone.
     * `ids[k]` and `stamps[k]` are the id and time the k-th `create` takes.
     */
    method SeedSampleData(now: Timestamp, ids: seq<string>, stamps: seq<Timestamp>)
      requires |ids| == 7 && |stamps| == 7
      modifies this
      ensures old(tasks) != [] ==> tasks == old(tasks)
      ensures old(tasks) == [] ==>
        |tasks| == 7 &&
        forall j :: 0 <= j < 7 ==> tasks[j] == NewTask(SampleTasks(now)[6 - j], ids[6 - j], stamps[6 - j])
    {
      var existing := GetAll();
      if |existing| > 0 {
        return;
      }
      var samples := SampleTasks(now);
      for i := 0 to |samples|
        invariant |tasks| == i
        invariant forall j :: 0 <= j < i ==> tasks[j] == NewTask(samples[i - 1 - j], ids[i - 1 - j], stamps[i - 1 - j])
      {
        var _ := Create(samples[i], ids[i], stamps[i]);
      }
    }
  }
}
