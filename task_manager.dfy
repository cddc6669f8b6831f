/** The task collection of `useTasks`: the `tasks`, `loading` and `error`
    state, and how each service outcome is folded into it. A service call is
    not made here; its outcome (the value it resolved to, or the message it
    rejected with) is the parameter of the operation. */
module TaskManager {
  import opened Common
  import opened Tasks
  import Store

  /** An entry of the collection. The service's create, update and toggle
      may resolve to `null` (a reply without `results`), and the hook stores
      whatever they resolve to, so an entry may be absent. */
  type Slot = Option<Task>

  /** The test `task.Id === id` of the hook's `map` and `filter`. An absent
      entry never matches. */
  predicate HasId(slot: Slot, id: int) {
    slot.Some? && slot.value.id == id
  }

  predicate Holds(s: seq<Slot>, id: int) {
    exists i :: 0 <= i < |s| && HasId(s[i], id)
  }

  /** Every fetched task as an entry. */
  function Present(ts: seq<Task>): (s: seq<Slot>)
    ensures |s| == |ts|
    ensures forall i :: 0 <= i < |ts| ==> s[i] == Some(ts[i])
  {
    seq(|ts|, i requires 0 <= i < |ts| => Some(ts[i]))
  }

  /** `prev.map(task => task.Id === id ? v : task)`. */
  function ReplaceById(s: seq<Slot>, id: int, v: Slot): (r: seq<Slot>)
    ensures |r| == |s|
    ensures forall i :: 0 <= i < |s| && !HasId(s[i], id) ==> r[i] == s[i]
    ensures forall i :: 0 <= i < |s| && HasId(s[i], id) ==> r[i] == v
  {
    seq(|s|, i requires 0 <= i < |s| => if HasId(s[i], id) then v else s[i])
  }

  function NotId(id: int): Slot -> bool { slot => !HasId(slot, id) }

  /** `prev.filter(task => task.Id !== id)`: an order-preserving sub-list
      that keeps every copy of each entry it keeps. */
  function RemoveById(s: seq<Slot>, id: int): (r: seq<Slot>)
    ensures IsSubsequence(r, s)
    ensures forall x :: x in r ==> multiset(r)[x] == multiset(s)[x]
  {
    FilterIsSubsequence(s, NotId(id));
    FilterKeepsCopies(s, NotId(id));
    Filter(s, NotId(id))
  }

  /** Removing keeps the order, keeps every entry with another id (and
      every absent entry), and leaves no entry with `id`. */
  lemma RemoveByIdSpec(s: seq<Slot>, id: int)
    ensures IsSubsequence(RemoveById(s, id), s)
    ensures forall x :: x in RemoveById(s, id) <==> x in s && !HasId(x, id)
    ensures !Holds(RemoveById(s, id), id)
    ensures |RemoveById(s, id)| < |s| <==> Holds(s, id)
  {
    FilterIsSubsequence(s, NotId(id));
    forall x
      ensures x in RemoveById(s, id) <==> x in s && !HasId(x, id)
    {
      assert NotId(id)(x) == !HasId(x, id);
    }
    FilterSplit(s, NotId(id), (x: Slot) => HasId(x, id));
    FilterNonEmpty(s, (x: Slot) => HasId(x, id));
  }

  /** An id that is not in the collection: replacing changes nothing. */
  lemma ReplaceAbsent(s: seq<Slot>, id: int, v: Slot)
    requires !Holds(s, id)
    ensures ReplaceById(s, id, v) == s
  {
  }

  /** An id that is not in the collection: removing changes nothing. */
  lemma RemoveAbsent(s: seq<Slot>, id: int)
    requires !Holds(s, id)
    ensures RemoveById(s, id) == s
  {
    FilterKeepsAll(s, NotId(id));
  }

  /** When the store answers with the task under the same id, the entries
      holding `id` stay exactly where they were, so a second update finds
      the same entries; and repeating the replacement changes nothing. */
  lemma ReplaceKeepsPositions(s: seq<Slot>, id: int, v: Slot)
    requires HasId(v, id)
    ensures forall i :: 0 <= i < |s| ==> (HasId(ReplaceById(s, id, v)[i], id) <==> HasId(s[i], id))
    ensures ReplaceById(ReplaceById(s, id, v), id, v) == ReplaceById(s, id, v)
  {
  }

  /** Deleting the id of a task that was just appended, when no earlier
      entry held that id, gives back the collection as it was. */
  lemma {:induction false} RemoveUndoesAppend(s: seq<Slot>, t: Task)
    requires !Holds(s, t.id)
    ensures RemoveById(s + [Some(t)], t.id) == s
  {
    FilterAppend(s, [Some(t)], NotId(t.id));
    RemoveAbsent(s, t.id);
    assert [Some(t)][1..] == [];
  }

  /** The hook's state. */
  class TaskCollection {
    var tasks: seq<Slot>
    var loading: bool
    var error: string

    /** `useState([])`, `useState(true)`, `useState("")`. */
    constructor ()
      ensures tasks == [] && loading && error == ""
    {
      tasks := [];
      loading := true;
      error := "";
    }

    /** `loadTasks()` with the reply of the list read. The list read turns
        every failure into `[]`, so the `catch` branch cannot run: a failed
        fetch empties the collection and leaves `error` blank. */
    method LoadTasks(reply: Store.ReadReply<seq<Task>>)
      modifies this
      ensures tasks == Present(Store.ListRead(reply))
      ensures (reply.ReadThrew? || !reply.success) ==> tasks == []
      ensures error == "" && !loading
    {
      loading := true;
      error := "";
      var data := Store.ListRead(reply);
      tasks := Present(data);
      loading := false;
    }

    /** `createTask(taskData)`, given what `taskService.create` resolved to
        (`Ok`) or rejected with (`Err`). */
    method CreateTask(outcome: Result<Slot>) returns (r: Result<Slot>)
      modifies this
      ensures outcome.Ok? ==> tasks == old(tasks) + [outcome.value] && r == outcome
      ensures outcome.Err? ==> tasks == old(tasks)
                               && r == Err(Describe(outcome.message, "Failed to create task"))
      ensures loading == old(loading) && error == old(error)
    {
      match outcome
      case Ok(newTask) =>
        tasks := tasks + [newTask];
        r := Ok(newTask);
      case Err(m) =>
        r := Err(Describe(m, "Failed to create task"));
    }

    /** `updateTask(id, updateData)`, given the outcome of `taskService.update`. */
    method UpdateTask(id: int, outcome: Result<Slot>) returns (r: Result<Slot>)
      modifies this
      ensures outcome.Ok? ==> tasks == ReplaceById(old(tasks), id, outcome.value) && r == outcome
      ensures outcome.Err? ==> tasks == old(tasks)
                               && r == Err(Describe(outcome.message, "Failed to update task"))
      ensures loading == old(loading) && error == old(error)
    {
      match outcome
      case Ok(updated) =>
        tasks := ReplaceById(tasks, id, updated);
        r := Ok(updated);
      case Err(m) =>
        r := Err(Describe(m, "Failed to update task"));
    }

    /** `deleteTask(id)`, given the outcome of `taskService.delete`. */
    method DeleteTask(id: int, outcome: Result<()>) returns (r: Result<()>)
      modifies this
      ensures outcome.Ok? ==> tasks == RemoveById(old(tasks), id) && r == Ok(())
      ensures outcome.Err? ==> tasks == old(tasks)
                               && r == Err(Describe(outcome.message, "Failed to delete task"))
      ensures loading == old(loading) && error == old(error)
    {
      match outcome
      case Ok(_) =>
        tasks := RemoveById(tasks, id);
        r := Ok(());
      case Err(m) =>
        r := Err(Describe(m, "Failed to delete task"));
    }

    /** `toggleComplete(id)`, given the outcome of `taskService.toggleComplete`:
        the same replacement by id as an update. */
    method ToggleComplete(id: int, outcome: Result<Slot>) returns (r: Result<Slot>)
      modifies this
      ensures outcome.Ok? ==> tasks == ReplaceById(old(tasks), id, outcome.value) && r == outcome
      ensures outcome.Err? ==> tasks == old(tasks)
                               && r == Err(Describe(outcome.message, "Failed to toggle task completion"))
      ensures loading == old(loading) && error == old(error)
    {
      match outcome
      case Ok(updated) =>
        tasks := ReplaceById(tasks, id, updated);
        r := Ok(updated);
      case Err(m) =>
        r := Err(Describe(m, "Failed to toggle task completion"));
    }
  }
}
