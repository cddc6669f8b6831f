/** The Week page: the `week` view, searched; seven day columns from Monday
    to Sunday, each listing the tasks due that day (three at most, then
    "+N more"); and the header. The view comes from the hook, whose week
    starts on Sunday, while the columns start on Monday. */
module WeekTasks {
  import opened Common
  import opened Text
  import opened Tasks
  import opened TaskFilters
  import opened Pages

  /** `getTasksByView("week")`: the hook calls `isThisWeek` with the
      date-fns default, a week from Sunday. */
  function WeekView(tasks: seq<Task>, today: int): seq<Task> {
    TasksByView(tasks, "week", today, 0)
  }

  /** `filteredWeekTasks`: the tasks due in the Sunday-start week of
      `today` that match the query. */
  function FilteredWeekTasks(tasks: seq<Task>, today: int, query: string): (r: seq<Task>)
    ensures forall t :: t in r <==>
      t in tasks && t.dueDate.Some? && WeekStart(today, 0) <= t.dueDate.value <= WeekEnd(today, 0)
      && PassesSearch(query, t)
  {
    TasksByViewSpec(tasks, "week", today, 0);
    Searched(WeekView(tasks, today), query)
  }

  /** `weekDays`: every day from the Monday-start week's start to its end. */
  function WeekDays(today: int): (days: seq<int>)
    ensures |days| == 7
    ensures days[0] == WeekStart(today, 1) && days[6] == WeekEnd(today, 1)
    ensures DayOfWeek(days[0]) == 1
    ensures forall i :: 0 < i < 7 ==> days[i] == days[i - 1] + 1
    ensures today in days
  {
    var start := WeekStart(today, 1);
    var days := seq(7, i => start + i);
    assert days[today - start] == today;
    days
  }

  function DueOn(d: int): Task -> bool { (t: Task) => t.dueDate == Some(d) }

  /** `getTasksForDay(date)`: the filtered week tasks due that day, in
      order. */
  function TasksForDay(filtered: seq<Task>, d: int): (r: seq<Task>)
    ensures IsSubsequence(r, filtered)
    ensures forall t :: t in r <==> t in filtered && t.dueDate == Some(d)
  {
    FilterIsSubsequence(filtered, DueOn(d));
    Filter(filtered, DueOn(d))
  }

  /** A column lists exactly the filtered tasks due on its day, in order;
      a task without a due date is in no column. */
  lemma TasksForDaySpec(filtered: seq<Task>, d: int)
    ensures IsSubsequence(TasksForDay(filtered, d), filtered)
    ensures forall t :: t in TasksForDay(filtered, d) <==> t in filtered && t.dueDate == Some(d)
    ensures forall t :: t in filtered && t.dueDate.None? ==> t !in TasksForDay(filtered, d)
  {
    FilterIsSubsequence(filtered, DueOn(d));
  }

  /** Distinct days have no task in common, and a filtered task due on one
      of the seven days is in that day's column. */
  lemma ColumnsPartition(filtered: seq<Task>, today: int, t: Task)
    requires t in filtered && t.dueDate.Some? && t.dueDate.value in WeekDays(today)
    ensures exists i :: 0 <= i < 7 && t in TasksForDay(filtered, WeekDays(today)[i])
    ensures forall i :: 0 <= i < 7 && t in TasksForDay(filtered, WeekDays(today)[i])
                    ==> WeekDays(today)[i] == t.dueDate.value
  {
    var days := WeekDays(today);
    var i :| 0 <= i < 7 && days[i] == t.dueDate.value;
    TasksForDaySpec(filtered, days[i]);
    forall j | 0 <= j < 7 && t in TasksForDay(filtered, days[j])
      ensures days[j] == t.dueDate.value
    {
      TasksForDaySpec(filtered, days[j]);
    }
  }

  /** The tasks a column shows: the first three. */
  function Shown(dayTasks: seq<Task>): (shown: seq<Task>)
    ensures |shown| <= 3
    ensures |dayTasks| <= 3 ==> shown == dayTasks
    ensures |dayTasks| > 3 ==> |shown| == 3
    ensures shown == dayTasks[..|shown|]
  {
    dayTasks[..if |dayTasks| < 3 then |dayTasks| else 3]
  }

  /** The "+N more" line: present only when a column has more than three
      tasks, and then N is the number not shown. */
  function More(dayTasks: seq<Task>): (n: Option<nat>)
    ensures n.Some? <==> |dayTasks| > 3
    ensures n.Some? ==> n.value > 0
  {
    if |dayTasks| > 3 then Some(|dayTasks| - 3) else None
  }

  /** The shown tasks and the "more" count together account for every task
      of the column, and the shown ones come first. */
  lemma ShownAndMoreAccount(dayTasks: seq<Task>)
    ensures |Shown(dayTasks)| + (if More(dayTasks).Some? then More(dayTasks).value else 0) == |dayTasks|
    ensures Shown(dayTasks) + dayTasks[|Shown(dayTasks)|..] == dayTasks
  {
  }

  /** The header above the columns: counts of the unfiltered week view,
      whatever the query. */
  function WeekHeader(tasks: seq<Task>, today: int): (h: Header)
    ensures h.total == |WeekView(tasks, today)| <= |tasks|
    ensures h.completed + h.pending == h.total
  {
    HeaderCounts(WeekView(tasks, today))
  }

  /** The listed tasks are an ordered sub-list of the week view and all of
      it for a blank query; the header counts the week view whatever the
      query. */
  lemma FilteredWeekTasksSpec(tasks: seq<Task>, today: int, query: string)
    ensures IsSubsequence(FilteredWeekTasks(tasks, today, query), WeekView(tasks, today))
    ensures Blank(query) ==> FilteredWeekTasks(tasks, today, query) == WeekView(tasks, today)
    ensures forall t :: t in FilteredWeekTasks(tasks, today, query) <==> t in WeekView(tasks, today) && PassesSearch(query, t)
    ensures WeekHeader(tasks, today).completed + WeekHeader(tasks, today).pending == WeekHeader(tasks, today).total
    ensures |FilteredWeekTasks(tasks, today, query)| <= WeekHeader(tasks, today).total
  {
    SearchedSpec(WeekView(tasks, today), query);
  }

  /** The two week conventions disagree. On a Monday, a matching task due
      the day before (a Sunday) is in the hook's week view and so in the
      list, but in none of the seven Monday-to-Sunday columns; and a task
      due the coming Sunday has a column but is not in the view. */
  lemma WeekConventionsDisagree(tasks: seq<Task>, today: int, query: string, t: Task, u: Task)
    requires DayOfWeek(today) == 1
    requires t in tasks && t.dueDate == Some(today - 1) && PassesSearch(query, t)
    requires u in tasks && u.dueDate == Some(today + 6)
    ensures t in FilteredWeekTasks(tasks, today, query)
    ensures forall i :: 0 <= i < 7 ==> t !in TasksForDay(FilteredWeekTasks(tasks, today, query), WeekDays(today)[i])
    ensures today + 6 == WeekDays(today)[6]
    ensures u !in WeekView(tasks, today)
  {
    var filtered := FilteredWeekTasks(tasks, today, query);
    assert WeekStart(today, 0) == today - 1;
    assert WeekStart(today, 1) == today;
    TasksByViewSpec(tasks, "week", today, 0);
    SearchedSpec(WeekView(tasks, today), query);
    forall i | 0 <= i < 7
      ensures t !in TasksForDay(filtered, WeekDays(today)[i])
    {
      TasksForDaySpec(filtered, WeekDays(today)[i]);
    }
  }
}
