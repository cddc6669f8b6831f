# taskflow in Dafny

A model of the logic of *taskflow*, a React task manager that keeps its
tasks, categories and settings in a remote record store. The model covers:

- the filter and view engine of the `useTaskFilters` hook: the search,
  status, priority and category filter; the `today`, `week`, `completed`
  and `overdue` views; the statistics; the filter selection state;
- the task collection of the `useTasks` hook (`tasks`, `loading`, `error`),
  as a class whose operations receive the service's outcome;
- the task and category services: the records they send to the store, the
  completion-timestamp rule, the read-then-write of `toggleComplete`, the
  conditions of the query helpers, and how a store reply becomes a value,
  `null`, `[]` or a rejection;
- the settings service: the fixed defaults, the read that falls back to
  them, the merge of a partial update onto the stored record, the create
  path, and reset / theme / notifications / preferences;
- the task form: initial data, edit-mode initialisation, validation, field
  changes and the submit guard;
- the Today and Week pages: search on top of a view, header counts, the
  seven day columns and the "first three, then +N more" rule.

Dates are whole day numbers (day 0 is 1970-01-01, a Thursday); "today" and
the current instant are parameters. Every store call is replaced by its
reply, passed in as a value. Strings are `seq<char>`; lower-casing is ASCII.

Files: `common.dfy` (optional values, outcomes, `filter`, sub-sequences),
`text.dfy` (trim emptiness, lower-casing, `includes`, `parseInt`),
`tasks.dfy` (the task and the calendar), `store.dfy` (store replies and
their interpretation), `task_filters.dfy`, `task_manager.dfy`,
`task_service.dfy`, `category_service.dfy`, `settings_service.dfy`,
`task_form.dfy`, `pages.dfy`, `today_tasks.dfy`, `week_tasks.dfy`.

Two behaviours of the code are kept as they are. A failed task load
empties the collection rather than keeping the old tasks and reporting an
error: the list read swallows every failure, so the hook's `catch` never
runs. And the weeks disagree: the hook's week view starts weeks on Sunday
(the date-fns default), the Week page's columns start on Monday, and the
store query `getThisWeek` asks for Sunday to Saturday. The week start is a
parameter of the view, and `WeekTasks.WeekConventionsDisagree` shows a task
that is listed on the Week page but sits in no column.

## Model

| member | source | states |
|---|---|---|
| `Common.Describe` | src/hooks/useTasks.js:28 | a rethrown error carries the store's message, or the fixed text when that message is empty |
| `Text.ParseShowNat` | src/services/api/taskService.js:100 | `parseInt` reads a decimal id back unchanged |
| `Text.ParseInt` | src/services/api/taskService.js:100 | `parseInt` of a blank string is `NaN`; a negative value needs a leading `-` after the white space |
| `Tasks.WeekStart` | src/components/pages/WeekTasks.jsx:26 | the week start is on the chosen weekday and at most six days before the given day |
| `Tasks.WeekEnd` | src/components/pages/WeekTasks.jsx:27 | the week end is six days after the week's start, falls on the weekday before the start day, and the given day lies between start and end |
| `Tasks.SameWeekIff` | src/hooks/useTaskFilters.js:52-55 | a day is in today's week exactly when it lies between today's week start and week end |
| `Store.ListRead` | src/services/api/taskService.js:41-50 | a list read yields `[]` on a thrown error or `!success`, `[]` for a successful reply without data, else the returned data |
| `Store.ReadOne` | src/services/api/taskService.js:73-82 | a single read rejects with the store's message exactly when it throws or fails |
| `Store.WriteResult` | src/services/api/taskService.js:107-124 | rejects exactly when the call threw, failed, or any entry failed; store message vs fixed text; first entry's data when all succeed; `null` without results |
| `Store.DeleteResult` | src/services/api/taskService.js:190-204 | success exactly when the store succeeded and no entry failed |
| `TaskFilters.SearchStepIsFilter` | src/hooks/useTaskFilters.js:15-22 | the search step keeps exactly the tasks whose lowered title, or non-empty lowered description, contains the lowered untrimmed query; a blank query keeps all |
| `TaskFilters.StatusStepIsFilter` | src/hooks/useTaskFilters.js:24-31 | the status step keeps completed or pending tasks, and filters nothing for any other value |
| `TaskFilters.PriorityStepIsFilter` | src/hooks/useTaskFilters.js:33-36 | the priority step keeps tasks of the chosen priority unless it is `"all"` |
| `TaskFilters.CategoryStepIsFilter` | src/hooks/useTaskFilters.js:38-41 | the category step keeps tasks of the chosen category unless it is `"all"` |
| `TaskFilters.FilteredTasks` | src/hooks/useTaskFilters.js:12-44 | the four chained steps equal one filter by the conjunction of the four tests (`Selected`), in collection order |
| `TaskFilters.FilteredTasksIsSubsequence` | src/hooks/useTaskFilters.js:12-44 | `filteredTasks` is an order-preserving sub-list with no task added or repeated; a task is in it iff it is in the collection and passes every test |
| `TaskFilters.FilteredTasksDefault` | src/hooks/useTaskFilters.js:16-41 | a blank query and three `"all"` selects give the collection unchanged |
| `TaskFilters.ApplyStepsIsFilter` | src/hooks/useTaskFilters.js:15-41 | steps applied in any order keep exactly the tasks passing every step applied, in collection order |
| `TaskFilters.FilterStepsCommute` | src/hooks/useTaskFilters.js:15-41 | every order that runs each of the four steps gives `filteredTasks` |
| `TaskFilters.FilterStepsReversed` | src/hooks/useTaskFilters.js:15-41 | in particular the four steps in reverse order give the same list |
| `TaskFilters.TasksByView` | src/hooks/useTaskFilters.js:46-67 | every view is an ordered sub-list of the collection that keeps every copy of each task it lists |
| `TaskFilters.TasksByViewSpec` | src/hooks/useTaskFilters.js:46-67 | today = due today; week = due within today's week; completed = completed; overdue = pending and due before today; any other view = all tasks; each an ordered sub-list keeping every copy of the tasks it lists |
| `TaskFilters.OverdueExcludesTodayAndCompleted` | src/hooks/useTaskFilters.js:58-64 | an overdue task is neither due today nor completed |
| `TaskFilters.GetTaskStats` | src/hooks/useTaskFilters.js:70-82 | total is the collection's length, completed + pending = total, overdue <= pending |
| `TaskFilters.StatsAgreeWithViews` | src/hooks/useTaskFilters.js:56-81 | the overdue and completed counts equal the lengths of the overdue and completed views |
| `TaskFilters.ViewsExample` | src/hooks/useTaskFilters.js:46-82 | worked example: views and statistics for tasks due yesterday, today, today (completed) and never |
| `TaskFilters.SearchExample` | src/hooks/useTaskFilters.js:15-22 | worked example: "groc" finds "Buy groceries" and not "Call mom" |
| `TaskFilters.FilterState.constructor` | src/hooks/useTaskFilters.js:5-10 | the query starts empty and the three selects at `"all"` |
| `TaskFilters.FilterState.SetSearchQuery` | src/hooks/useTaskFilters.js:5 | only the query changes |
| `TaskFilters.FilterState.UpdateFilter` | src/hooks/useTaskFilters.js:84-89 | only key `key` of the filters changes; every other key and the query keep their values |
| `TaskFilters.FilterState.ClearFilters` | src/hooks/useTaskFilters.js:91-98 | the selects return to `"all"` and the query to `""` |
| `TaskManager.ReplaceById` | src/hooks/useTasks.js:35-37 | same length; entries with the id become the new value; all others unchanged |
| `TaskManager.RemoveById` | src/hooks/useTasks.js:47 | removal is an ordered sub-list that keeps every copy of each entry it keeps |
| `TaskManager.RemoveByIdSpec` | src/hooks/useTasks.js:47 | removal keeps order, keeps exactly the entries without the id, and shortens the list iff the id was present |
| `TaskManager.ReplaceAbsent` | src/hooks/useTasks.js:35-37 | replacing an id that is not present changes nothing |
| `TaskManager.RemoveAbsent` | src/hooks/useTasks.js:47 | removing an id that is not present changes nothing |
| `TaskManager.ReplaceKeepsPositions` | src/hooks/useTasks.js:56-58 | when the reply has the same id, the id stays at the same positions and a repeated replacement changes nothing |
| `TaskManager.RemoveUndoesAppend` | src/hooks/useTasks.js:22-51 | deleting the id of a just-created task with a fresh id restores the collection |
| `TaskManager.TaskCollection.constructor` | src/hooks/useTasks.js:5-7 | no tasks, loading, no error |
| `TaskManager.TaskCollection.LoadTasks` | src/hooks/useTasks.js:9-20 | the collection becomes exactly the fetched tasks (`[]` on a failed read); error blank; loading off |
| `TaskManager.TaskCollection.CreateTask` | src/hooks/useTasks.js:22-30 | success appends the returned value (possibly `null`) at the end; failure leaves the tasks and rethrows with message or "Failed to create task" |
| `TaskManager.TaskCollection.UpdateTask` | src/hooks/useTasks.js:32-42 | success replaces the entries with the id; failure leaves the tasks and rethrows with message or "Failed to update task" |
| `TaskManager.TaskCollection.DeleteTask` | src/hooks/useTasks.js:44-51 | success removes the entries with the id; failure leaves the tasks and rethrows with message or "Failed to delete task" |
| `TaskManager.TaskCollection.ToggleComplete` | src/hooks/useTasks.js:53-63 | success replaces by id as update does; failure leaves the tasks and rethrows with message or "Failed to toggle task completion" |
| `TaskService.CreateRecord` | src/services/api/taskService.js:89-101 | a created record is pending with no completion instant; `Name` and `title` are the title; description defaults to `""`, priority to `"medium"`; tags as given when non-empty, else `""`; due day as given |
| `TaskService.CreateKeepsChosenCategory` | src/services/api/taskService.js:100 | a category id chosen from the select reaches the record unchanged |
| `TaskService.CreateIsConsistent` | src/services/api/taskService.js:97-99 | a created record has a completion instant exactly when completed |
| `TaskService.Stamp` | src/services/api/taskService.js:146-149 | `completed_at` is omitted when `completed` is undefined, `null` when false, the current instant when true |
| `TaskService.UpdateRecord` | src/services/api/taskService.js:134-149 | the update record carries the id, the title as `Name`, description and tags as given when non-empty else `""`, priority, completed and due day as given, `category_id` as `parseInt` of the chosen value, and the completion rule: omitted iff `completed` is undefined, the current instant iff it is `true`, `null` iff `false` |
| `TaskService.UpdateKeepsChosenCategory` | src/services/api/taskService.js:143 | a category id chosen from the select reaches the update record unchanged |
| `TaskService.ApplyCompletion` | src/services/api/taskService.js:142-149 | a sent `completed` overwrites the stored one; an omitted `completed_at` keeps the stored instant |
| `TaskService.UpdateKeepsConsistency` | src/services/api/taskService.js:142-149 | an update that sets `completed` leaves the task consistent; one that omits it keeps consistency as it was |
| `TaskService.ToggleRecord` | src/services/api/taskService.js:464-474 | the flip writes the opposite state, with an instant exactly when the new state is completed |
| `TaskService.ApplyToggle` | src/services/api/taskService.js:466-474 | writing the flip changes only `completed` and the completion instant |
| `TaskService.ToggleTwice` | src/services/api/taskService.js:464-471 | two flips restore `completed`, and for a consistent task whether an instant is set |
| `TaskService.ToggleComplete` | src/services/api/taskService.js:455-500 | a failed read rethrows its message; no task gives "Task not found" with nothing written; otherwise the flip is written and the reply read as a mutation reply |
| `TaskService.Create` | src/services/api/taskService.js:85-129 | the record is pending; the call succeeds exactly when the store and every entry succeeded, and then resolves to the first entry's data, or `null` without results; the store's message when the call throws or `success` is false; "Failed to create task" for a failed entry |
| `TaskService.Update` | src/services/api/taskService.js:131-179 | the record carries the id; the call succeeds exactly when the store and every entry succeeded, and then resolves to the first entry's data, or `null` without results; the store's message when the call throws or `success` is false; "Failed to update task" for a failed entry |
| `TaskService.Delete` | src/services/api/taskService.js:181-209 | success exactly when the store and every entry succeeded; the store's message when the call throws or `success` is false; "Failed to delete task" for a failed entry |
| `TaskService.ReadList` | src/services/api/taskService.js:18-51 | `getAll` and the query helpers yield `[]` on any failure and on a successful reply without data, else the returned tasks |
| `TaskService.GetById` | src/services/api/taskService.js:53-83 | `getById` rejects with the store's message exactly on failure |
| `TaskService.QueriesAgreeWithViews` | src/services/api/taskService.js:316-453 | the overdue (pending and due before today), today, completed and Sunday-to-Saturday week conditions select what the hook's views select with a Sunday week |
| `TaskService.Meets` | src/services/api/taskService.js:227-453 | a task without a due date meets no due-date condition; the week condition holds exactly for a due day in the Sunday-start week of today |
| `TaskService.SundayIsWeekStart` | src/services/api/taskService.js:405-407 | stepping back `getDay()` days lands on the Sunday week start |
| `TaskService.CompletedAndPendingSplit` | src/services/api/taskService.js:246-314 | the completed and pending queries split the stored tasks |
| `CategoryService.OrderIndexOr1` | src/services/api/categoryService.js:85 | a falsy order index (missing or 0) becomes 1, a truthy one is kept |
| `CategoryService.CreateRecord` | src/services/api/categoryService.js:80-86 | `Name`, color and icon as given, tags defaulting to `""` |
| `CategoryService.CreateOrderIndexDefault` | src/services/api/categoryService.js:85 | a created category never has order index 0; 0 and missing both become 1 |
| `CategoryService.UpdateRecord` | src/services/api/categoryService.js:119-129 | the update record carries the id and passes name, color, icon and order index through |
| `CategoryService.CreateAndUpdateAgree` | src/services/api/categoryService.js:78-130 | create and update send the same fields, apart from the order-index default and the id |
| `CategoryService.GetAll` | src/services/api/categoryService.js:18-46 | any failure and a successful reply without data yield `[]`, otherwise the returned categories |
| `CategoryService.GetById` | src/services/api/categoryService.js:48-73 | rejects with the store's message exactly on failure |
| `CategoryService.ReadPoliciesDiffer` | src/services/api/categoryService.js:36-72 | on the same failed reply the list read gives `[]` and the single read rejects |
| `CategoryService.Create` | src/services/api/categoryService.js:75-114 | succeeds exactly when the store and every entry succeeded, and then resolves to the first entry's data, or `null` without results; store message or "Failed to create category" |
| `CategoryService.Update` | src/services/api/categoryService.js:116-156 | succeeds exactly when the store and every entry succeeded, and then resolves to the first entry's data, or `null` without results; store message or "Failed to update category" |
| `CategoryService.Delete` | src/services/api/categoryService.js:158-186 | success exactly when the store and every entry succeeded; the store's message when the call throws or `success` is false; "Failed to delete category" for a failed entry |
| `SettingsService.GetDefaultSettings` | src/services/api/settingsService.js:55-69 | the defaults are the fixed complete record, with no id, name or tags |
| `SettingsService.GetSettings` | src/services/api/settingsService.js:18-53 | the first stored record, or the defaults when the read throws, fails or finds nothing |
| `SettingsService.FailedReadHasNoId` | src/services/api/settingsService.js:76-78 | after a failed read the update takes the create path |
| `SettingsService.Merge` | src/services/api/settingsService.js:80-97 | the merged record keeps the stored id and always has a name and tags |
| `SettingsService.MergeStringFields` | src/services/api/settingsService.js:84-95 | a string field takes the update value when non-empty, else keeps the stored one |
| `SettingsService.MergeBooleanFields` | src/services/api/settingsService.js:88-96 | a boolean field takes any given update value, `false` included, else keeps the stored one |
| `SettingsService.EmptyStringKeepsFalseOverwrites` | src/services/api/settingsService.js:86-92 | an empty theme cannot overwrite, a `false` digest does |
| `SettingsService.MergeNoChanges` | src/services/api/settingsService.js:80-97 | an empty update leaves every settings field and the id unchanged |
| `SettingsService.MergeIdempotent` | src/services/api/settingsService.js:80-97 | sending the same update twice changes nothing more |
| `SettingsService.CreateFields` | src/services/api/settingsService.js:121-137 | the created record is complete, has no id, and is named "User Settings" unless a name is given |
| `SettingsService.CreateIsMergeOntoDefaults` | src/services/api/settingsService.js:119-137 | the create path equals the update path applied to the defaults |
| `SettingsService.MergeKeepsComplete` | src/services/api/settingsService.js:80-97 | merging onto a complete record gives a complete record |
| `SettingsService.MergeDefaults` | src/services/api/settingsService.js:168-171 | merging the defaults, on either path, gives the default settings |
| `SettingsService.UpdateSettings` | src/services/api/settingsService.js:71-166 | a stored record with an id is updated by the merge, otherwise a record is created from the defaults; the reply is read with the matching failure text |
| `SettingsService.ResetSettings` | src/services/api/settingsService.js:168-176 | whichever path is taken, every settings field sent is the default; resolves as the write on that path does |
| `SettingsService.UpdateTheme` | src/services/api/settingsService.js:178-185 | only the theme can differ from the stored (or default) settings, a non-empty theme is sent as given, and the call resolves as the write on that path does |
| `SettingsService.UpdateNotifications` | src/services/api/settingsService.js:187-198 | only the three notification switches can differ, a given switch is sent as given, and the call resolves as the write on that path does |
| `SettingsService.UpdatePreferences` | src/services/api/settingsService.js:200-212 | only the four preferences can differ; a non-empty start of week, time format or default priority and a given auto-archive switch are sent as given; the call resolves as the write on that path does |
| `TaskForm.InitialFormData` | src/components/organisms/TaskForm.jsx:19-25 | empty title, description and category, priority "medium", no due date |
| `TaskForm.FromTask` | src/components/organisms/TaskForm.jsx:29-39 | the edited task's fields, with a missing description as `""` and a missing due date as `null` |
| `TaskForm.SetGet` | src/components/organisms/TaskForm.jsx:73-77 | setting a field changes that field and no other |
| `TaskForm.Validate` | src/components/organisms/TaskForm.jsx:41-54 | a title error iff the trimmed title is empty, a category error iff no category is chosen, nothing else |
| `TaskForm.InitialFormIsInvalid` | src/components/organisms/TaskForm.jsx:19-50 | a fresh form has both errors |
| `TaskForm.FilledFormIsValid` | src/components/organisms/TaskForm.jsx:41-54 | a non-blank title and a chosen category give no errors |
| `TaskForm.Form.constructor` | src/components/organisms/TaskForm.jsx:19-27 | the initial data and no errors |
| `TaskForm.Form.InitFromTask` | src/components/organisms/TaskForm.jsx:29-39 | the data becomes the task's, errors untouched |
| `TaskForm.Form.ValidateForm` | src/components/organisms/TaskForm.jsx:41-54 | the errors are replaced by the validation's, and the result is true iff there are none |
| `TaskForm.Form.HandleChange` | src/components/organisms/TaskForm.jsx:73-86 | only the field changes; only its error is cleared, and only if one was shown |
| `TaskForm.Form.HandleSubmit` | src/components/organisms/TaskForm.jsx:56-71 | the data reaches `onSave` exactly when validation recorded no error |
| `Pages.HeaderCounts` | src/components/pages/TodayTasks.jsx:106-125 | total is the view's length, completed + pending = total |
| `Pages.Searched` | src/components/pages/TodayTasks.jsx:60-65 | the page search is an ordered sub-list of the view holding exactly the view's tasks that match the query |
| `Pages.SearchedSpec` | src/components/pages/TodayTasks.jsx:60-65 | the page search is an ordered sub-list, keeps exactly the matching tasks, keeps all for a blank query, and equals the hook's search step |
| `TodayTasks.FilteredTodayTasksSpec` | src/components/pages/TodayTasks.jsx:60-65 | the list is the tasks due today that match the query, in order; all of them for a blank query |
| `TodayTasks.TodayHeaderSpec` | src/components/pages/TodayTasks.jsx:101-125 | the header counts the unsearched today view: completed + pending = total, and never fewer than the list shows |
| `TodayTasks.FilteredTodayTasks` | src/components/pages/TodayTasks.jsx:60-65 | the list holds exactly the tasks due today that match the query |
| `TodayTasks.TodayHeader` | src/components/pages/TodayTasks.jsx:101-125 | the header's total is the number of tasks due today, at most the collection's size, and completed + pending = total |
| `WeekTasks.WeekDays` | src/components/pages/WeekTasks.jsx:25-28 | seven consecutive days from the Monday week start to the week end, today among them |
| `WeekTasks.TasksForDaySpec` | src/components/pages/WeekTasks.jsx:71-76 | a column holds exactly the filtered tasks due that day; none without a due date |
| `WeekTasks.TasksForDay` | src/components/pages/WeekTasks.jsx:71-76 | a column is an ordered sub-list of the listed tasks holding exactly those due that day |
| `WeekTasks.ColumnsPartition` | src/components/pages/WeekTasks.jsx:134-137 | a filtered task due on one of the seven days is in that day's column and no other |
| `WeekTasks.Shown` | src/components/pages/WeekTasks.jsx:159 | a column shows its first three tasks, all of them when it has three or fewer |
| `WeekTasks.More` | src/components/pages/WeekTasks.jsx:175-177 | "+N more" appears exactly when a column has more than three tasks, with N positive |
| `WeekTasks.ShownAndMoreAccount` | src/components/pages/WeekTasks.jsx:158-179 | the shown tasks plus N account for the whole column, shown ones first |
| `WeekTasks.FilteredWeekTasksSpec` | src/components/pages/WeekTasks.jsx:64-69 | the list is an ordered sub-list of the week view, all of it for a blank query; the header counts the unsearched view |
| `WeekTasks.FilteredWeekTasks` | src/components/pages/WeekTasks.jsx:64-69 | the list holds exactly the tasks due in the Sunday-start week of today that match the query |
| `WeekTasks.WeekHeader` | src/components/pages/WeekTasks.jsx:105-131 | the header counts the unsearched week view: total at most the collection's size, completed + pending = total |
| `WeekTasks.WeekConventionsDisagree` | src/components/pages/WeekTasks.jsx:24-28 | on a Monday a task due the day before is listed but in no column, and a task due on the coming Sunday is not in the view |

## Left out

- The store client (`fetchRecords`, `createRecord`, `updateRecord`, `deleteRecord`, `getRecordById`), its lazily cached instance in `getApperClient`, the SDK global and the environment keys: every call is replaced by its reply as a parameter. Where the model follows a stored record through an update (`TaskService.ApplyCompletion`, `TaskService.ApplyToggle`), the store is taken to apply an update field by field: a field the update sends replaces the stored value and a field it omits (such as `completed_at` when `completed` is not sent) keeps it.
- The `fields` lists and the `orderBy` of the reads (tasks by creation time descending, categories by order index ascending): the ordering is done by the store, which is not modelled; a list read returns whatever order the store answered in.
- `console.error` logging: no behaviour.
- Clocks and calendars: `new Date()`, `toISOString().split('T')`, time zones and the parsing of date-only strings. Days are integers and instants opaque naturals; the due date is a day, not a date string, in both create and update.
- date-fns `isPast` on a due day is modelled as "that day is today or earlier", which with the `!isToday` guard makes overdue mean "due before today".
- Full Unicode lower-casing: only ASCII letters are lowered.
- `parseInt` on `NaN`-producing input gives `None`; numbers beyond exact integers, exponents and `Infinity` are not modelled.
- JavaScript `null` as a value distinct from `undefined` in settings updates (`!== undefined` lets `null` through): a key is either missing or holds a value.
- TaskFilters.FilteredTasks, TaskFilters.TasksByView, TaskFilters.GetTaskStats, Pages.Searched, Pages.HeaderCounts, TodayTasks.FilteredTodayTasks, TodayTasks.TodayHeader, WeekTasks.FilteredWeekTasks, WeekTasks.TasksForDay and WeekTasks.WeekHeader take a list of tasks without `null` entries. In the source, a create, update or toggle whose store reply holds no results resolves to `null` (taskService.js lines 124, 174 and 495) and the hook stores that `null` in the collection. From then on the calls that read a field of each task throw on it: an active search, status, priority or category step of `filteredTasks`; the today, week, completed and overdue views; `getTaskStats`; and the Today and Week page lists and headers. With a blank query and all three selects at `"all"`, `filteredTasks` runs no filter and returns the list with the `null` in it, and so does `getTasksByView` for an unknown view. The model does not capture the throw; the collection itself (`TaskManager`) does hold absent entries.
- TaskManager.HasId: an absent (`null`) entry in the collection never matches an id; in the source reading `.Id` of `null` throws inside the state update.
- The hook reads `dueDate`, `categoryId` and `Id` on the tasks while the store records use `due_date`, `category_id`: the model uses one task entity with the hook's field names. In the source, tasks loaded from the store carry only `due_date` and `category_id` (the fields requested at taskService.js:28 and 32), while the hook and the form read `dueDate` and `categoryId` (useTaskFilters.js:40, 50, 54, 61; TaskForm.jsx:34, 36). On loaded tasks every date view (today, week, overdue) therefore comes out empty, the category filter never matches, and the edit form opens with no category and no due date. The model describes the hook as written against the field names it reads, not this mismatch.
- React plumbing: `useState`/`useMemo`/`useEffect` scheduling, the mount-time load, and overlapping asynchronous calls on the same id.
- Rendering, animation, toasts, routing, the presentation atoms, and the border colours of TaskCard.
- `handleSaveTask` in the pages and Dashboard (wiring of the form to create or update), and what `handleSubmit` does after `onSave` (toasts, closing the form).
- `getByCategory` compares the stored category id with the given value; the model compares the task's category as a string.
