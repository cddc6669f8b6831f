/** `taskService`: the record each mutation sends to the store, the
    completion-timestamp rule, the read-then-write of `toggleComplete`, the
    conditions of the query helpers, and how each reply is read back. The
    store itself is not modelled: every reply is a parameter, and the
    current instant `now` and the current day `today` are inputs. */
module TaskService {
  import opened Common
  import opened Text
  import opened Tasks
  import TaskFilters
  import Store

  /** What `create` is given (the form's data): `tags`, `description` and
      `priority` may be missing; `categoryId` is the select's string value. */
  datatype TaskDraft = TaskDraft(
    title: string,
    tags: Option<string>,
    description: Option<string>,
    priority: Option<string>,
    dueDate: Option<int>,
    categoryId: string)

  /** The record `create` sends. `categoryId` is `parseInt` of the draft's
      value, `None` for `NaN`. */
  datatype TaskRecord = TaskRecord(
    name: string,
    tags: string,
    title: string,
    description: string,
    priority: string,
    dueDate: Option<int>,
    completed: bool,
    createdAt: nat,
    completedAt: Option<nat>,
    categoryId: Option<int>)

  /** The record built by `create` at instant `now`. */
  function CreateRecord(d: TaskDraft, now: nat): (r: TaskRecord)
    ensures !r.completed && r.completedAt.None?
    ensures r.name == d.title && r.title == d.title
    ensures Truthy(d.description) ==> r.description == d.description.value
    ensures !Truthy(d.description) ==> r.description == ""
    ensures Truthy(d.priority) ==> r.priority == d.priority.value
    ensures !Truthy(d.priority) ==> r.priority == "medium"
    ensures Truthy(d.tags) ==> r.tags == d.tags.value
    ensures !Truthy(d.tags) ==> r.tags == ""
    ensures r.dueDate == d.dueDate && r.createdAt == now
  {
    TaskRecord(d.title, Or(d.tags, ""), d.title, Or(d.description, ""), Or(d.priority, "medium"),
               d.dueDate, false, now, None, ParseInt(d.categoryId))
  }

  /** A category chosen from the select, whose option value is the
      category's id written in decimal, reaches the record as that id. */
  lemma CreateKeepsChosenCategory(d: TaskDraft, now: nat, categoryId: nat)
    requires d.categoryId == ShowNat(categoryId)
    ensures CreateRecord(d, now).categoryId == Some(categoryId)
  {
    ParseShowNat(categoryId);
  }

  /** A record is consistent when its completion instant is set exactly
      while it is completed. */
  predicate CompletionConsistent(completed: bool, completedAt: Option<nat>) {
    completedAt.Some? <==> completed
  }

  /** Every created record is consistent. */
  lemma CreateIsConsistent(d: TaskDraft, now: nat)
    ensures CompletionConsistent(CreateRecord(d, now).completed, CreateRecord(d, now).completedAt)
  {
  }

  // ---------------------------------------------------------------------
  // update

  /** What `update` is given: `completed` and `priority` may be undefined. */
  datatype TaskUpdate = TaskUpdate(
    title: string,
    tags: Option<string>,
    description: Option<string>,
    priority: Option<string>,
    dueDate: Option<int>,
    completed: Option<bool>,
    categoryId: string)

  /** The `completed_at` key of an update record: left out, set to `null`,
      or set to an instant. */
  datatype CompletionStamp = Omitted | Cleared | StampedAt(time: nat)

  /** The record `update` sends. `priority` and `completed` are passed
      through as given, so they may be undefined too. */
  datatype TaskPatch = TaskPatch(
    id: int,
    name: string,
    tags: string,
    title: string,
    description: string,
    priority: Option<string>,
    dueDate: Option<int>,
    completed: Option<bool>,
    completedAt: CompletionStamp,
    categoryId: Option<int>)

  /** The completion-timestamp rule of `update`. */
  function Stamp(completed: Option<bool>, now: nat): (s: CompletionStamp)
    ensures s.Omitted? <==> completed.None?
    ensures s.StampedAt? <==> completed == Some(true)
    ensures s.Cleared? <==> completed == Some(false)
    ensures s.StampedAt? ==> s.time == now
  {
    match completed
    case None => Omitted
    case Some(c) => if c then StampedAt(now) else Cleared
  }

  /** The record built by `update(id, u)` at instant `now`. */
  function UpdateRecord(id: int, u: TaskUpdate, now: nat): (p: TaskPatch)
    ensures p.id == id && p.name == u.title && p.title == u.title
    ensures !Truthy(u.description) ==> p.description == ""
    ensures Truthy(u.description) ==> p.description == u.description.value
    ensures p.priority == u.priority && p.completed == u.completed && p.dueDate == u.dueDate
    ensures p.completedAt.Omitted? <==> u.completed.None?
    ensures p.completedAt.StampedAt? <==> u.completed == Some(true)
    ensures p.completedAt.Cleared? <==> u.completed == Some(false)
    ensures p.completedAt.StampedAt? ==> p.completedAt.time == now
    ensures Truthy(u.tags) ==> p.tags == u.tags.value
    ensures !Truthy(u.tags) ==> p.tags == ""
    ensures p.categoryId == ParseInt(u.categoryId)
  {
    TaskPatch(id, u.title, Or(u.tags, ""), u.title, Or(u.description, ""), u.priority, u.dueDate,
              u.completed, Stamp(u.completed, now), ParseInt(u.categoryId))
  }

  /** A category chosen from the select reaches the update record as that
      id, as it does on create. */
  lemma UpdateKeepsChosenCategory(id: int, u: TaskUpdate, now: nat, categoryId: nat)
    requires u.categoryId == ShowNat(categoryId)
    ensures UpdateRecord(id, u, now).categoryId == Some(categoryId)
  {
    ParseShowNat(categoryId);
  }

  /** Applying a patch to a stored task: keys that are sent overwrite, an
      omitted `completed_at` leaves the stored instant alone. */
  function ApplyCompletion(t: Task, completed: Option<bool>, s: CompletionStamp): (r: Task)
    ensures r.id == t.id && r.title == t.title && r.dueDate == t.dueDate
    ensures completed.Some? ==> r.completed == completed.value
    ensures completed.None? ==> r.completed == t.completed
    ensures s.Omitted? ==> r.completedAt == t.completedAt
  {
    var c := if completed.Some? then completed.value else t.completed;
    match s
    case Omitted => t.(completed := c)
    case Cleared => t.(completed := c, completedAt := None)
    case StampedAt(time) => t.(completed := c, completedAt := Some(time))
  }

  /** An update that sets `completed` leaves the task consistent, whatever
      its state before; one that omits it leaves consistency as it was. */
  lemma UpdateKeepsConsistency(t: Task, id: int, u: TaskUpdate, now: nat)
    ensures var p := UpdateRecord(id, u, now);
            var r := ApplyCompletion(t, p.completed, p.completedAt);
            (u.completed.Some? ==> CompletionConsistent(r.completed, r.completedAt))
            && (u.completed.None? ==>
                  (CompletionConsistent(r.completed, r.completedAt)
                   <==> CompletionConsistent(t.completed, t.completedAt)))
  {
  }

  // ---------------------------------------------------------------------
  // toggleComplete

  /** The record `toggleComplete` sends. */
  datatype TogglePatch = TogglePatch(id: int, completed: bool, completedAt: Option<nat>)

  /** The flip: the opposite of the current state, with an instant exactly
      when the new state is completed. */
  function ToggleRecord(id: int, current: Task, now: nat): (p: TogglePatch)
    ensures p.id == id
    ensures p.completed == !current.completed
    ensures CompletionConsistent(p.completed, p.completedAt)
  {
    TogglePatch(id, !current.completed, if !current.completed then Some(now) else None)
  }

  /** The stored task once the flip is written. */
  function ApplyToggle(t: Task, p: TogglePatch): (r: Task)
    ensures r.completed == p.completed && r.completedAt == p.completedAt
    ensures r.(completed := t.completed, completedAt := t.completedAt) == t
  {
    t.(completed := p.completed, completedAt := p.completedAt)
  }

  /** Two flips restore `completed`, and, for a consistent task, whether a
      completion instant is set (not the instant itself). */
  lemma ToggleTwice(id: int, t: Task, now1: nat, now2: nat)
    ensures var once := ApplyToggle(t, ToggleRecord(id, t, now1));
            var twice := ApplyToggle(once, ToggleRecord(id, once, now2));
            twice.completed == t.completed
            && (CompletionConsistent(t.completed, t.completedAt)
                ==> twice.completedAt.Some? == t.completedAt.Some?)
            && twice.(completedAt := t.completedAt) == t
  {
  }

  /** `toggleComplete(id)`: read the task, then write the flip. `lookup` is
      the reply of the read and `write` the reply of the write; `sent` is
      the record written, if the write is reached. */
  method ToggleComplete(id: int, lookup: Store.ReadReply<Task>, now: nat, write: Store.WriteReply<Task>)
    returns (sent: Option<TogglePatch>, r: Result<Option<Task>>)
    ensures (lookup.ReadThrew? || !lookup.success) ==> sent.None? && r == Err(lookup.message)
    ensures lookup.ReadReplied? && lookup.success && lookup.data.None?
            ==> sent.None? && r == Err("Task not found")
    ensures lookup.ReadReplied? && lookup.success && lookup.data.Some?
            ==> sent == Some(ToggleRecord(id, lookup.data.value, now))
                && r == Store.WriteResult(write, "Failed to toggle task completion")
    ensures sent.Some? ==> sent.value.completed == !lookup.data.value.completed
    ensures r.Ok? ==> sent.Some?
  {
    var current := Store.ReadOne(lookup);
    if current.Err? {
      return None, Err(current.message);
    }
    if current.value.None? {
      return None, Err("Task not found");
    }
    var p := ToggleRecord(id, current.value.value, now);
    sent := Some(p);
    r := Store.WriteResult(write, "Failed to toggle task completion");
  }

  // ---------------------------------------------------------------------
  // create, update and delete as calls

  /** `create(taskData)`: the record sent and what the call resolves to. */
  function Create(d: TaskDraft, now: nat, reply: Store.WriteReply<Task>): (c: (TaskRecord, Result<Option<Task>>))
    ensures !c.0.completed && c.0.completedAt.None?
    ensures c.1.Err? && reply.WriteReplied? && reply.success ==> c.1.message == "Failed to create task"
    ensures c.1.Ok? <==> Store.AllSucceeded(reply)
    ensures reply.WriteThrew? || !reply.success ==> c.1 == Err(reply.message)
    ensures c.1.Ok? && reply.results.Some? && reply.results.value != [] ==> c.1.value == reply.results.value[0].data
    ensures c.1.Ok? && (reply.results.None? || reply.results.value == []) ==> c.1.value.None?
  {
    (CreateRecord(d, now), Store.WriteResult(reply, "Failed to create task"))
  }

  /** `update(id, updateData)`: the record sent and what the call resolves to. */
  function Update(id: int, u: TaskUpdate, now: nat, reply: Store.WriteReply<Task>): (c: (TaskPatch, Result<Option<Task>>))
    ensures c.0.id == id
    ensures c.1.Err? && reply.WriteReplied? && reply.success ==> c.1.message == "Failed to update task"
    ensures c.1.Ok? <==> Store.AllSucceeded(reply)
    ensures reply.WriteThrew? || !reply.success ==> c.1 == Err(reply.message)
    ensures c.1.Ok? && reply.results.Some? && reply.results.value != [] ==> c.1.value == reply.results.value[0].data
    ensures c.1.Ok? && (reply.results.None? || reply.results.value == []) ==> c.1.value.None?
  {
    (UpdateRecord(id, u, now), Store.WriteResult(reply, "Failed to update task"))
  }

  /** `delete(id)`: `{ success: true }` exactly when the store succeeded and
      no entry failed. */
  function Delete(reply: Store.WriteReply<Task>): (res: Result<()>)
    ensures res.Ok? <==> Store.AllSucceeded(reply)
    ensures res.Err? && reply.WriteReplied? && reply.success ==> res.message == "Failed to delete task"
    ensures reply.WriteThrew? || !reply.success ==> res == Err(reply.message)
  {
    Store.DeleteResult(reply, "Failed to delete task")
  }

  // ---------------------------------------------------------------------
  // The query helpers

  /** The condition each list read sends with its request. */
  datatype Query =
    | AllTasks
    | ByCategory(categoryId: string)
    | CompletedOnly
    | PendingOnly
    | OverdueOn(today: int)
    | DueOn(today: int)
    | WeekOf(today: int)

  /** `getThisWeek`'s bounds: back to the Sunday on or before `today`, and
      six days on. */
  function SundayOnOrBefore(today: int): int {
    today - DayOfWeek(today)
  }

  /** A stored task meets the request's condition. A task without a due
      date meets no condition on `due_date`, and the week condition is
      date-fns's Sunday-start week of `today`. */
  predicate Meets(q: Query, t: Task)
    ensures Meets(q, t) && (q.OverdueOn? || q.DueOn? || q.WeekOf?) ==> t.dueDate.Some?
    ensures q.WeekOf? ==> (Meets(q, t) <==> t.dueDate.Some? && SameWeek(t.dueDate.value, q.today, 0))
  {
    match q
    case AllTasks => true
    case ByCategory(c) => t.categoryId == c
    case CompletedOnly => t.completed
    case PendingOnly => !t.completed
    case OverdueOn(today) => !t.completed && t.dueDate.Some? && t.dueDate.value < today
    case DueOn(today) => t.dueDate == Some(today)
    case WeekOf(today) =>
      SundayIsWeekStart(today);
      t.dueDate.Some? &&
      (SameWeekIff(t.dueDate.value, today, 0);
       SundayOnOrBefore(today) <= t.dueDate.value <= SundayOnOrBefore(today) + 6)
  }

  function QueryTest(q: Query): Task -> bool { t => Meets(q, t) }

  /** What a store that honours the condition answers, in stored order. */
  function Answer(q: Query, stored: seq<Task>): seq<Task> {
    Filter(stored, QueryTest(q))
  }

  /** A list read: the store's answer, or `[]` if the read failed. */
  function ReadList(reply: Store.ReadReply<seq<Task>>): (xs: seq<Task>)
    ensures reply.ReadThrew? || !reply.success ==> xs == []
    ensures reply.ReadReplied? && reply.success && reply.data.Some? ==> xs == reply.data.value
    ensures reply.ReadReplied? && reply.success && reply.data.None? ==> xs == []
  {
    Store.ListRead(reply)
  }

  /** `getById(id)`: the store's message is rethrown on failure. */
  function GetById(reply: Store.ReadReply<Task>): (res: Result<Option<Task>>)
    ensures res.Err? <==> reply.ReadThrew? || !reply.success
    ensures res.Err? ==> res.message == reply.message
  {
    Store.ReadOne(reply)
  }

  /** The server-side conditions select exactly what the hook's views
      select from the same tasks: overdue, today and completed agree, and
      the week query agrees with the week view when that view's week
      starts on Sunday. */
  lemma QueriesAgreeWithViews(stored: seq<Task>, today: int)
    ensures Answer(OverdueOn(today), stored) == TaskFilters.TasksByView(stored, "overdue", today, 0)
    ensures Answer(DueOn(today), stored) == TaskFilters.TasksByView(stored, "today", today, 0)
    ensures Answer(CompletedOnly, stored) == TaskFilters.TasksByView(stored, "completed", today, 0)
    ensures Answer(WeekOf(today), stored) == TaskFilters.TasksByView(stored, "week", today, 0)
  {
    FilterAgree(stored, QueryTest(OverdueOn(today)), TaskFilters.OverdueTest(today));
    FilterAgree(stored, QueryTest(DueOn(today)), TaskFilters.TodayTest(today));
    FilterAgree(stored, QueryTest(CompletedOnly), TaskFilters.IsCompleted);
    forall t | t in stored
      ensures Meets(WeekOf(today), t) == TaskFilters.IsDueThisWeek(t, today, 0)
    {
      SundayIsWeekStart(today);
      if t.dueDate.Some? {
        SameWeekIff(t.dueDate.value, today, 0);
      }
    }
    FilterAgree(stored, QueryTest(WeekOf(today)), TaskFilters.WeekTest(today, 0));
  }

  /** `getDay()` steps back to the Sunday date-fns calls the week's start. */
  lemma SundayIsWeekStart(today: int)
    ensures SundayOnOrBefore(today) == WeekStart(today, 0)
  {
  }

  /** Completed and pending split every answer. */
  lemma CompletedAndPendingSplit(stored: seq<Task>)
    ensures |Answer(CompletedOnly, stored)| + |Answer(PendingOnly, stored)| == |stored|
  {
    FilterSplit(stored, QueryTest(CompletedOnly), QueryTest(PendingOnly));
  }
}
