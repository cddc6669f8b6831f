/** The filter and view engine of `useTaskFilters`: the search + status +
    priority + category filter, the named views, the aggregate counts, and
    the filter selection state that `updateFilter` / `clearFilters` change. */
module TaskFilters {
  import opened Common
  import opened Text
  import opened Tasks

  /** What the filter step reads: the search box and the three selects. */
  datatype Selection = Selection(query: string, status: string, priority: string, category: string)

  // ---------------------------------------------------------------------
  // The four tests a task must pass

  /** The search test once the query is known not to be blank: the lowered
      query occurs in the lowered title, or in the lowered description when
      there is a (non-empty) description. */
  predicate MatchesQuery(t: Task, lowered: string) {
    Contains(Lower(t.title), lowered)
    || (Truthy(t.description) && Contains(Lower(t.description.value), lowered))
  }

  /** The search test as a whole: a blank query lets everything through;
      otherwise the untrimmed, lowered query must match. */
  predicate PassesSearch(query: string, t: Task) {
    Blank(query) || MatchesQuery(t, Lower(query))
  }

  /** Only `"completed"` and `"pending"` restrict; any other value passes all. */
  predicate PassesStatus(status: string, t: Task) {
    if status == "completed" then t.completed
    else if status == "pending" then !t.completed
    else true
  }

  predicate PassesPriority(priority: string, t: Task) {
    priority == "all" || t.priority == priority
  }

  predicate PassesCategory(category: string, t: Task) {
    category == "all" || t.categoryId == category
  }

  /** The conjunction of the four tests. */
  predicate Matches(sel: Selection, t: Task) {
    PassesSearch(sel.query, t) && PassesStatus(sel.status, t)
    && PassesPriority(sel.priority, t) && PassesCategory(sel.category, t)
  }

  predicate IsCompleted(t: Task) { t.completed }
  predicate IsPending(t: Task) { !t.completed }

  // The same tests as function values, so that every filter over them is
  // built from one term.
  function QueryTest(lowered: string): Task -> bool { t => MatchesQuery(t, lowered) }
  function SearchTest(query: string): Task -> bool { t => PassesSearch(query, t) }
  function StatusTest(status: string): Task -> bool { t => PassesStatus(status, t) }
  function PriorityIs(priority: string): Task -> bool { (t: Task) => t.priority == priority }
  function PriorityTest(priority: string): Task -> bool { t => PassesPriority(priority, t) }
  function CategoryIs(category: string): Task -> bool { (t: Task) => t.categoryId == category }
  function CategoryTest(category: string): Task -> bool { t => PassesCategory(category, t) }
  function SelectionTest(sel: Selection): Task -> bool { t => Matches(sel, t) }

  // ---------------------------------------------------------------------
  // `filteredTasks`: four steps, each applied only when its control is set

  function SearchStep(s: seq<Task>, query: string): seq<Task> {
    if !Blank(query) then Filter(s, QueryTest(Lower(query))) else s
  }

  function StatusStep(s: seq<Task>, status: string): seq<Task> {
    if status != "all" then
      if status == "completed" then Filter(s, IsCompleted)
      else if status == "pending" then Filter(s, IsPending)
      else s
    else s
  }

  function PriorityStep(s: seq<Task>, priority: string): seq<Task> {
    if priority != "all" then Filter(s, PriorityIs(priority)) else s
  }

  function CategoryStep(s: seq<Task>, category: string): seq<Task> {
    if category != "all" then Filter(s, CategoryIs(category)) else s
  }

  /** The reference definition: the tasks passing all four tests at once. */
  function Selected(tasks: seq<Task>, sel: Selection): seq<Task> {
    Filter(tasks, SelectionTest(sel))
  }

  lemma SearchStepIsFilter(s: seq<Task>, query: string)
    ensures SearchStep(s, query) == Filter(s, SearchTest(query))
  {
    if Blank(query) {
      FilterKeepsAll(s, SearchTest(query));
    } else {
      FilterAgree(s, QueryTest(Lower(query)), SearchTest(query));
    }
  }

  lemma StatusStepIsFilter(s: seq<Task>, status: string)
    ensures StatusStep(s, status) == Filter(s, StatusTest(status))
  {
    if status == "completed" {
      FilterAgree(s, IsCompleted, StatusTest(status));
    } else if status == "pending" {
      FilterAgree(s, IsPending, StatusTest(status));
    } else {
      FilterKeepsAll(s, StatusTest(status));
    }
  }

  lemma PriorityStepIsFilter(s: seq<Task>, priority: string)
    ensures PriorityStep(s, priority) == Filter(s, PriorityTest(priority))
  {
    if priority == "all" {
      FilterKeepsAll(s, PriorityTest(priority));
    } else {
      FilterAgree(s, PriorityIs(priority), PriorityTest(priority));
    }
  }

  lemma CategoryStepIsFilter(s: seq<Task>, category: string)
    ensures CategoryStep(s, category) == Filter(s, CategoryTest(category))
  {
    if category == "all" {
      FilterKeepsAll(s, CategoryTest(category));
    } else {
      FilterAgree(s, CategoryIs(category), CategoryTest(category));
    }
  }

  /** `filteredTasks`: search, then status, then priority, then category.
      The chain is exactly the tasks passing the conjunction of the four
      tests, in the collection's order. */
  function FilteredTasks(tasks: seq<Task>, sel: Selection): (r: seq<Task>)
    ensures r == Selected(tasks, sel)
  {
    var search, status := SearchTest(sel.query), StatusTest(sel.status);
    var priority, category := PriorityTest(sel.priority), CategoryTest(sel.category);
    var s1 := SearchStep(tasks, sel.query);
    SearchStepIsFilter(tasks, sel.query);
    var s2 := StatusStep(s1, sel.status);
    StatusStepIsFilter(s1, sel.status);
    var s3 := PriorityStep(s2, sel.priority);
    PriorityStepIsFilter(s2, sel.priority);
    CategoryStepIsFilter(s3, sel.category);
    FilterFuse(tasks, search, status, And(search, status));
    FilterFuse(tasks, And(search, status), priority, And(And(search, status), priority));
    FilterFuse(tasks, And(And(search, status), priority), category,
               And(And(And(search, status), priority), category));
    FilterAgree(tasks, And(And(And(search, status), priority), category), SelectionTest(sel));
    CategoryStep(s3, sel.category)
  }

  /** No task is fabricated or duplicated, the order is kept, and a task is
      listed exactly when it is in the collection and passes every test. */
  lemma FilteredTasksIsSubsequence(tasks: seq<Task>, sel: Selection)
    ensures IsSubsequence(FilteredTasks(tasks, sel), tasks)
    ensures multiset(FilteredTasks(tasks, sel)) <= multiset(tasks)
    ensures forall t :: t in FilteredTasks(tasks, sel) <==> t in tasks && Matches(sel, t)
    ensures forall t :: t in FilteredTasks(tasks, sel) ==> multiset(FilteredTasks(tasks, sel))[t] == multiset(tasks)[t]
  {
    FilterIsSubsequence(tasks, SelectionTest(sel));
    FilterKeepsCopies(tasks, SelectionTest(sel));
  }

  /** A blank query and three `"all"` selects return the collection as is. */
  lemma FilteredTasksDefault(tasks: seq<Task>, sel: Selection)
    requires Blank(sel.query) && sel.status == "all" && sel.priority == "all" && sel.category == "all"
    ensures FilteredTasks(tasks, sel) == tasks
  {
    FilterKeepsAll(tasks, SelectionTest(sel));
  }

  /** The four steps of `filteredTasks`, as values, so that an order of
      application can be written down. */
  datatype Step = Search | Status | Priority | Category

  function ApplyStep(s: seq<Task>, k: Step, sel: Selection): seq<Task> {
    match k
    case Search => SearchStep(s, sel.query)
    case Status => StatusStep(s, sel.status)
    case Priority => PriorityStep(s, sel.priority)
    case Category => CategoryStep(s, sel.category)
  }

  /** The steps applied one after the other, `order[0]` first. */
  function ApplySteps(s: seq<Task>, order: seq<Step>, sel: Selection): seq<Task>
    decreases |order|
  {
    if order == [] then s else ApplySteps(ApplyStep(s, order[0], sel), order[1..], sel)
  }

  function StepTest(k: Step, sel: Selection): Task -> bool {
    match k
    case Search => SearchTest(sel.query)
    case Status => StatusTest(sel.status)
    case Priority => PriorityTest(sel.priority)
    case Category => CategoryTest(sel.category)
  }

  /** A task passes every step named in `order`. */
  function PassesAll(order: seq<Step>, sel: Selection): Task -> bool {
    t => forall k :: k in order ==> StepTest(k, sel)(t)
  }

  lemma ApplyStepIsFilter(s: seq<Task>, k: Step, sel: Selection)
    ensures ApplyStep(s, k, sel) == Filter(s, StepTest(k, sel))
  {
    match k
    case Search => SearchStepIsFilter(s, sel.query);
    case Status => StatusStepIsFilter(s, sel.status);
    case Priority => PriorityStepIsFilter(s, sel.priority);
    case Category => CategoryStepIsFilter(s, sel.category);
  }

  /** Steps applied in any order keep exactly the tasks passing all of
      them, in the collection's order. */
  lemma {:induction false} ApplyStepsIsFilter(s: seq<Task>, order: seq<Step>, sel: Selection)
    ensures ApplySteps(s, order, sel) == Filter(s, PassesAll(order, sel))
    decreases |order|
  {
    if order == [] {
      FilterKeepsAll(s, PassesAll(order, sel));
    } else {
      var k, rest := order[0], order[1..];
      assert order == [k] + rest;
      ApplyStepIsFilter(s, k, sel);
      ApplyStepsIsFilter(ApplyStep(s, k, sel), rest, sel);
      FilterFuse(s, StepTest(k, sel), PassesAll(rest, sel), PassesAll(order, sel));
    }
  }

  /** The steps may run in any order: every order that runs each of the
      four steps (once or more) gives `filteredTasks`. */
  lemma FilterStepsCommute(tasks: seq<Task>, sel: Selection, order: seq<Step>)
    requires Search in order && Status in order && Priority in order && Category in order
    ensures ApplySteps(tasks, order, sel) == FilteredTasks(tasks, sel)
  {
    ApplyStepsIsFilter(tasks, order, sel);
    forall t | t in tasks
      ensures PassesAll(order, sel)(t) == SelectionTest(sel)(t)
    {
      assert StepTest(Search, sel)(t) == PassesSearch(sel.query, t);
      assert StepTest(Status, sel)(t) == PassesStatus(sel.status, t);
      assert StepTest(Priority, sel)(t) == PassesPriority(sel.priority, t);
      assert StepTest(Category, sel)(t) == PassesCategory(sel.category, t);
    }
    FilterAgree(tasks, PassesAll(order, sel), SelectionTest(sel));
  }

  /** In particular the code's order and its reverse agree. */
  lemma FilterStepsReversed(tasks: seq<Task>, sel: Selection)
    ensures SearchStep(StatusStep(PriorityStep(CategoryStep(tasks, sel.category), sel.priority), sel.status), sel.query)
         == FilteredTasks(tasks, sel)
  {
    var order := [Category, Priority, Status, Search];
    FilterStepsCommute(tasks, sel, order);
    assert ApplySteps(tasks, order, sel)
        == SearchStep(StatusStep(PriorityStep(CategoryStep(tasks, sel.category), sel.priority), sel.status), sel.query);
  }

  // ---------------------------------------------------------------------
  // `getTasksByView`

  /** date-fns `isPast` of a due day's first instant, at some instant of day
      `today`: every earlier day, and today itself (the first instant of
      today has passed unless it is exactly midnight, a case the overdue
      test excludes through `isToday` anyway). */
  predicate IsPastDay(d: int, today: int) { d <= today }

  predicate IsDueToday(t: Task, today: int) {
    t.dueDate.Some? && t.dueDate.value == today
  }

  /** date-fns `isThisWeek`, with the week starting on `weekStartsOn`. */
  predicate IsDueThisWeek(t: Task, today: int, weekStartsOn: int)
    requires 0 <= weekStartsOn < 7
  {
    t.dueDate.Some? && SameWeek(t.dueDate.value, today, weekStartsOn)
  }

  /** The one overdue test, shared by the view and the statistics. */
  predicate IsOverdue(t: Task, today: int) {
    !t.completed && t.dueDate.Some? && IsPastDay(t.dueDate.value, today)
    && !(t.dueDate.value == today)
  }

  function TodayTest(today: int): Task -> bool { t => IsDueToday(t, today) }
  function WeekTest(today: int, weekStartsOn: int): Task -> bool
    requires 0 <= weekStartsOn < 7
  {
    t => IsDueThisWeek(t, today, weekStartsOn)
  }
  function OverdueTest(today: int): Task -> bool { t => IsOverdue(t, today) }

  /** `getTasksByView(view)`. The `week` view uses `weekStartsOn`; the source
      calls `isThisWeek` without options, i.e. Sunday (0). */
  function TasksByView(tasks: seq<Task>, view: string, today: int, weekStartsOn: int): (r: seq<Task>)
    requires 0 <= weekStartsOn < 7
    ensures IsSubsequence(r, tasks)
    ensures forall t :: t in r ==> multiset(r)[t] == multiset(tasks)[t]
  {
    if view == "today" then
      FilterIsSubsequence(tasks, TodayTest(today));
      FilterKeepsCopies(tasks, TodayTest(today));
      Filter(tasks, TodayTest(today))
    else if view == "week" then
      FilterIsSubsequence(tasks, WeekTest(today, weekStartsOn));
      FilterKeepsCopies(tasks, WeekTest(today, weekStartsOn));
      Filter(tasks, WeekTest(today, weekStartsOn))
    else if view == "completed" then
      FilterIsSubsequence(tasks, IsCompleted);
      FilterKeepsCopies(tasks, IsCompleted);
      Filter(tasks, IsCompleted)
    else if view == "overdue" then
      FilterIsSubsequence(tasks, OverdueTest(today));
      FilterKeepsCopies(tasks, OverdueTest(today));
      Filter(tasks, OverdueTest(today))
    else
      SubsequenceOfSelf(tasks);
      tasks
  }

  /** What each view holds, in day terms; an unknown view is the whole
      collection; every view is an order-preserving sub-list that keeps
      every copy of each task it lists. */
  lemma TasksByViewSpec(tasks: seq<Task>, view: string, today: int, weekStartsOn: int)
    requires 0 <= weekStartsOn < 7
    ensures IsSubsequence(TasksByView(tasks, view, today, weekStartsOn), tasks)
    ensures forall t :: t in TasksByView(tasks, view, today, weekStartsOn) ==>
      multiset(TasksByView(tasks, view, today, weekStartsOn))[t] == multiset(tasks)[t]
    ensures view == "today" ==>
      (forall t :: t in TasksByView(tasks, view, today, weekStartsOn) <==> t in tasks && t.dueDate == Some(today))
    ensures view == "week" ==>
      (forall t :: t in TasksByView(tasks, view, today, weekStartsOn) <==>
         t in tasks && t.dueDate.Some?
         && WeekStart(today, weekStartsOn) <= t.dueDate.value <= WeekEnd(today, weekStartsOn))
    ensures view == "completed" ==>
      (forall t :: t in TasksByView(tasks, view, today, weekStartsOn) <==> t in tasks && t.completed)
    ensures view == "overdue" ==>
      (forall t :: t in TasksByView(tasks, view, today, weekStartsOn) <==>
         t in tasks && !t.completed && t.dueDate.Some? && t.dueDate.value < today)
    ensures view !in {"today", "week", "completed", "overdue"} ==> TasksByView(tasks, view, today, weekStartsOn) == tasks
  {
    var v := TasksByView(tasks, view, today, weekStartsOn);
    if view == "today" {
      FilterIsSubsequence(tasks, TodayTest(today));
    } else if view == "week" {
      FilterIsSubsequence(tasks, WeekTest(today, weekStartsOn));
      forall t | t in tasks && t.dueDate.Some?
        ensures IsDueThisWeek(t, today, weekStartsOn)
            <==> WeekStart(today, weekStartsOn) <= t.dueDate.value <= WeekEnd(today, weekStartsOn)
      {
        SameWeekIff(t.dueDate.value, today, weekStartsOn);
      }
    } else if view == "completed" {
      FilterIsSubsequence(tasks, IsCompleted);
    } else if view == "overdue" {
      FilterIsSubsequence(tasks, OverdueTest(today));
    }
  }

  lemma {:induction false} SubsequenceOfSelf(s: seq<Task>)
    ensures IsSubsequence(s, s)
  {
    if s != [] {
      SubsequenceOfSelf(s[1..]);
    }
  }

  /** A task due today, or a completed task, is never overdue. */
  lemma OverdueExcludesTodayAndCompleted(tasks: seq<Task>, today: int, weekStartsOn: int, t: Task)
    requires 0 <= weekStartsOn < 7
    requires t in TasksByView(tasks, "overdue", today, weekStartsOn)
    ensures t.dueDate != Some(today) && !t.completed
  {
    TasksByViewSpec(tasks, "overdue", today, weekStartsOn);
  }

  // ---------------------------------------------------------------------
  // `getTaskStats`

  datatype Stats = Stats(total: nat, completed: nat, pending: nat, overdue: nat)

  /** `getTaskStats`: counts over the whole collection. */
  function GetTaskStats(tasks: seq<Task>, today: int): (st: Stats)
    ensures st.total == |tasks|
    ensures st.completed + st.pending == st.total
    ensures st.overdue <= st.pending
  {
    FilterSplit(tasks, IsCompleted, IsPending);
    FilterMonotone(tasks, OverdueTest(today), IsPending);
    Stats(|tasks|, |Filter(tasks, IsCompleted)|, |Filter(tasks, IsPending)|,
          |Filter(tasks, OverdueTest(today))|)
  }

  /** The overdue count and the overdue view use the same test, so they
      always agree, whatever week convention the week view uses. */
  lemma StatsAgreeWithViews(tasks: seq<Task>, today: int, weekStartsOn: int)
    requires 0 <= weekStartsOn < 7
    ensures GetTaskStats(tasks, today).overdue == |TasksByView(tasks, "overdue", today, weekStartsOn)|
    ensures GetTaskStats(tasks, today).completed == |TasksByView(tasks, "completed", today, weekStartsOn)|
  {
  }

  /** The worked example: A due yesterday and pending, B due today and
      pending, C due today and completed, D without a due date. */
  lemma ViewsExample(today: int, a: Task, b: Task, c: Task, d: Task)
    requires a == Task(1, "A", None, "work", "low", Some(today - 1), false, 0, None)
    requires b == Task(2, "B", None, "work", "low", Some(today), false, 0, None)
    requires c == Task(3, "C", None, "work", "low", Some(today), true, 0, Some(0))
    requires d == Task(4, "D", None, "work", "low", None, false, 0, None)
    ensures TasksByView([a, b, c, d], "today", today, 0) == [b, c]
    ensures TasksByView([a, b, c, d], "overdue", today, 0) == [a]
    ensures GetTaskStats([a, b, c, d], today) == Stats(4, 1, 3, 1)
  {
    assert [a, b, c, d][1..] == [b, c, d] && [b, c, d][1..] == [c, d] && [c, d][1..] == [d] && [d][1..] == [];
    var due, late := TodayTest(today), OverdueTest(today);
    assert Filter([d], due) == [];
    assert Filter([c, d], due) == [c];
    assert Filter([b, c, d], due) == [b, c];
    assert Filter([d], late) == [];
    assert Filter([c, d], late) == [];
    assert Filter([b, c, d], late) == [];
    assert Filter([d], IsCompleted) == [];
    assert Filter([c, d], IsCompleted) == [c];
    assert Filter([b, c, d], IsCompleted) == [c];
  }

  /** The search example: "groc" finds "Buy groceries" and not "Call mom". */
  lemma SearchExample(g: Task, m: Task)
    requires g == Task(1, "Buy groceries", None, "personal", "medium", None, false, 0, None)
    requires m == Task(2, "Call mom", None, "personal", "medium", None, false, 0, None)
    ensures FilteredTasks([g, m], Selection("groc", "all", "all", "all")) == [g]
  {
    SearchExampleText();
    var q := QueryTest("groc");
    assert q(g) && !q(m);
    assert [g, m][1..] == [m] && [m][1..] == [];
    assert Filter([m], q) == [];
    assert Filter([g, m], q) == [g];
  }

  lemma SearchExampleText()
    ensures !Blank("groc") && Lower("groc") == "groc"
    ensures Contains(Lower("Buy groceries"), "groc")
    ensures !Contains(Lower("Call mom"), "groc")
  {
    assert !IsSpace("groc"[0]);
    LowerBuyGroceries();
    LowerCallMom();
  }

  lemma LowerBuyGroceries()
    ensures Contains(Lower("Buy groceries"), "groc")
  {
    var s := Lower("Buy groceries");
    assert s[4..8] == "groc";
    ContainsAt(s, "groc", 4);
  }

  lemma LowerCallMom()
    ensures !Contains(Lower("Call mom"), "groc")
  {
    var s := Lower("Call mom");
    assert 'g' !in s;
    if Contains(s, "groc") {
      ContainsFirstChar(s, "groc");
    }
  }

  // ---------------------------------------------------------------------
  // The filter selection state

  /** The selects' initial values. */
  function DefaultFilters(): map<string, string> {
    map["status" := "all", "priority" := "all", "category" := "all"]
  }

  /** The hook's `searchQuery` and `filters` state. `filters` is an object
      keyed by control name; `updateFilter` may add any key, and the three
      the filter step reads are always present. */
  class FilterState {
    var searchQuery: string
    var filters: map<string, string>

    ghost predicate Valid()
      reads this
    {
      "status" in filters && "priority" in filters && "category" in filters
    }

    /** The selection the filter step reads. */
    function CurrentSelection(): (sel: Selection)
      reads this
      requires Valid()
    {
      Selection(searchQuery, filters["status"], filters["priority"], filters["category"])
    }

    constructor ()
      ensures Valid()
      ensures searchQuery == "" && filters == DefaultFilters()
    {
      searchQuery := "";
      filters := DefaultFilters();
    }

    /** `setSearchQuery(q)`. */
    method SetSearchQuery(q: string)
      requires Valid()
      modifies this
      ensures Valid()
      ensures searchQuery == q && filters == old(filters)
    {
      searchQuery := q;
    }

    /** `updateFilter(key, value)`: only `key` changes. */
    method UpdateFilter(key: string, value: string)
      requires Valid()
      modifies this
      ensures Valid()
      ensures filters == old(filters)[key := value]
      ensures forall k :: k in old(filters) && k != key ==> k in filters && filters[k] == old(filters)[k]
      ensures searchQuery == old(searchQuery)
    {
      filters := filters[key := value];
    }

    /** `clearFilters()`: the three selects back to `"all"` and an empty
      query, after which the filter step lists the whole collection. */
    method ClearFilters()
      requires Valid()
      modifies this
      ensures Valid()
      ensures filters == DefaultFilters() && searchQuery == ""
      ensures CurrentSelection() == Selection("", "all", "all", "all")
    {
      filters := DefaultFilters();
      searchQuery := "";
    }
  }
}
