/** The Today page: the `today` view, searched, and its header. */
module TodayTasks {
  import opened Common
  import opened Text
  import opened Tasks
  import opened TaskFilters
  import opened Pages

  /** `getTasksByView("today")` (the week convention plays no part). */
  function TodayView(tasks: seq<Task>, today: int): seq<Task> {
    TasksByView(tasks, "today", today, 0)
  }

  /** `filteredTodayTasks`: the tasks due today that match the query. */
  function FilteredTodayTasks(tasks: seq<Task>, today: int, query: string): (r: seq<Task>)
    ensures forall t :: t in r <==> t in tasks && t.dueDate == Some(today) && PassesSearch(query, t)
  {
    TasksByViewSpec(tasks, "today", today, 0);
    Searched(TodayView(tasks, today), query)
  }

  /** The header above the list: it counts the tasks due today, split into
      completed and pending. */
  function TodayHeader(tasks: seq<Task>, today: int): (h: Header)
    ensures h.total == |Filter(tasks, TodayTest(today))| <= |tasks|
    ensures h.completed + h.pending == h.total
  {
    HeaderCounts(TodayView(tasks, today))
  }

  /** The listed tasks are an ordered sub-list of the today view, are the
      tasks due today that match the query, and are the whole view when the
      query is blank. */
  lemma FilteredTodayTasksSpec(tasks: seq<Task>, today: int, query: string)
    ensures IsSubsequence(FilteredTodayTasks(tasks, today, query), TodayView(tasks, today))
    ensures forall t :: t in FilteredTodayTasks(tasks, today, query)
                    <==> t in tasks && t.dueDate == Some(today) && PassesSearch(query, t)
    ensures Blank(query) ==> FilteredTodayTasks(tasks, today, query) == TodayView(tasks, today)
  {
    TasksByViewSpec(tasks, "today", today, 0);
    SearchedSpec(TodayView(tasks, today), query);
  }

  /** The header counts the tasks due today, whatever is typed in the
      search box, and never fewer than the list shows. */
  lemma TodayHeaderSpec(tasks: seq<Task>, today: int, query: string)
    ensures TodayHeader(tasks, today).completed + TodayHeader(tasks, today).pending
         == TodayHeader(tasks, today).total
    ensures TodayHeader(tasks, today).total == |Filter(tasks, TodayTest(today))|
    ensures |FilteredTodayTasks(tasks, today, query)| <= TodayHeader(tasks, today).total
  {
    SearchedSpec(TodayView(tasks, today), query);
  }
}
