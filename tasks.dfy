/** The task entity as the hooks and pages read it, and the calendar on
    which due dates live. Dates are whole day numbers; the clock's "today"
    is always passed in. */
module Tasks {
  import opened Common

  /** A task as held in the in-memory collection. `description` and
      `dueDate` may be absent; `completedAt` is `null` while the task is
      pending. Timestamps are opaque instants. */
  datatype Task = Task(
    id: int,
    title: string,
    description: Option<string>,
    categoryId: string,
    priority: string,
    dueDate: Option<int>,
    completed: bool,
    createdAt: nat,
    completedAt: Option<nat>)

  /** Day `d` counts days from 1970-01-01, which was a Thursday. The result
      follows `Date.prototype.getDay`: 0 is Sunday, 1 Monday, ..., 6 Saturday. */
  function DayOfWeek(d: int): (w: int)
    ensures 0 <= w < 7
  {
    (d + 4) % 7
  }

  /** date-fns `startOfWeek(d, { weekStartsOn })`: step back
      `(day < weekStartsOn ? 7 : 0) + day - weekStartsOn` days. */
  function WeekStart(d: int, weekStartsOn: int): (s: int)
    requires 0 <= weekStartsOn < 7
    ensures s <= d < s + 7
    ensures DayOfWeek(s) == weekStartsOn
  {
    var day := DayOfWeek(d);
    d - ((if day < weekStartsOn then 7 else 0) + day - weekStartsOn)
  }

  /** date-fns `endOfWeek`, as a day: six days after the week's start, so
      the last day of the seven-day week holding `d`, on the weekday before
      `weekStartsOn`. */
  function WeekEnd(d: int, weekStartsOn: int): (e: int)
    requires 0 <= weekStartsOn < 7
    ensures e == WeekStart(d, weekStartsOn) + 6
    ensures e - 6 <= d <= e
    ensures DayOfWeek(e) == (weekStartsOn + 6) % 7
  {
    WeekStart(d, weekStartsOn) + 6
  }

  /** Two days less than a week apart fall on the same weekday only if they
      are the same day. */
  lemma SameWeekdayWithinAWeek(a: int, b: int)
    requires a <= b < a + 7
    requires DayOfWeek(a) == DayOfWeek(b)
    ensures a == b
  {
    var k := b - a;
    assert (a + 4 + k) % 7 == ((a + 4) % 7 + k) % 7;
  }

  /** date-fns `isSameWeek`: both days have the same start of week. */
  predicate SameWeek(a: int, b: int, weekStartsOn: int)
    requires 0 <= weekStartsOn < 7
  {
    WeekStart(a, weekStartsOn) == WeekStart(b, weekStartsOn)
  }

  /** A day is in the same week as `today` exactly when it lies in the seven
      days from `today`'s start of week. */
  lemma SameWeekIff(d: int, today: int, weekStartsOn: int)
    requires 0 <= weekStartsOn < 7
    ensures SameWeek(d, today, weekStartsOn)
        <==> WeekStart(today, weekStartsOn) <= d <= WeekEnd(today, weekStartsOn)
  {
    var s := WeekStart(today, weekStartsOn);
    var sd := WeekStart(d, weekStartsOn);
    if s <= d <= s + 6 {
      if sd <= s {
        SameWeekdayWithinAWeek(sd, s);
      } else {
        SameWeekdayWithinAWeek(s, sd);
      }
    }
  }
}
