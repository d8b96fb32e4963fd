/**
 * The task board (`tasks-kanban.tsx`): tasks are bucketed by due date into
 * four columns (Today, Tomorrow, This Week, Later), narrowed by the search
 * box and the priority filter, and fetched either from the task cache or
 * from the server, sorted by due date. Dates are epoch milliseconds; the
 * local calendar day of an instant is taken at a fixed offset from UTC.
 */
module Kanban {
  import opened Common
  import opened Text
  import opened Sorting
  import Crm

  /** A task as the board uses it; `first_name` and `description` may be missing. */
  datatype Task = Task(
    name: string,
    title: string,
    firstName: Option<string>,
    description: Option<string>,
    priority: string,
    status: string,
    dueDate: int,
    referenceDocname: string)

  /** `{ id, title, tasks, color }` */
  datatype Column = Column(id: string, title: string, tasks: seq<Task>, color: string)

  /** The local calendar day of an instant, for a zone `offset` milliseconds ahead of UTC. */
  function LocalDay(t: int, offset: int): int
  {
    (t + offset) / Crm.DayMs
  }

  /** `dueDate.toDateString() === day.toDateString()` */
  function DueOn(day: int, offset: int): Task -> bool
  {
    (t: Task) => LocalDay(t.dueDate, offset) == day
  }

  /** `dueDate > after && dueDate <= upTo` */
  function DueWithin(after: int, upTo: int): Task -> bool
  {
    (t: Task) => after < t.dueDate <= upTo
  }

  /** `dueDate > after` */
  function DueAfter(after: int): Task -> bool
  {
    (t: Task) => t.dueDate > after
  }

  /** `tomorrow`: today's clock time on the next day. */
  function Tomorrow(now: int): int { now + Crm.DayMs }

  /** `endOfWeek`: seven days from now. */
  function EndOfWeek(now: int): int { now + 7 * Crm.DayMs }

  /** `initializeColumns(taskList)` at instant `now`. */
  function InitializeColumns(taskList: seq<Task>, now: int, offset: int): (r: seq<Column>)
    ensures |r| == 4
    ensures r[0].id == "today" && r[1].id == "tomorrow" && r[2].id == "this-week" && r[3].id == "later"
    ensures r[0].title == "Today" && r[1].title == "Tomorrow" && r[2].title == "This Week" && r[3].title == "Later"
  {
    [
      Column("today", "Today", Filter(taskList, DueOn(LocalDay(now, offset), offset)), "bg-red-50 border-red-200"),
      Column("tomorrow", "Tomorrow", Filter(taskList, DueOn(LocalDay(Tomorrow(now), offset), offset)), "bg-orange-50 border-orange-200"),
      Column("this-week", "This Week", Filter(taskList, DueWithin(Tomorrow(now), EndOfWeek(now))), "bg-blue-50 border-blue-200"),
      Column("later", "Later", Filter(taskList, DueAfter(EndOfWeek(now))), "bg-gray-50 border-gray-200")
    ]
  }

  /** Which tasks each column holds: stated on the due date alone. */
  lemma ColumnMembers(taskList: seq<Task>, now: int, offset: int, t: Task)
    ensures var c := InitializeColumns(taskList, now, offset);
      && (t in c[0].tasks <==> t in taskList && LocalDay(t.dueDate, offset) == LocalDay(now, offset))
      && (t in c[1].tasks <==> t in taskList && LocalDay(t.dueDate, offset) == LocalDay(now, offset) + 1)
      && (t in c[2].tasks <==> t in taskList && now + Crm.DayMs < t.dueDate <= now + 7 * Crm.DayMs)
      && (t in c[3].tasks <==> t in taskList && t.dueDate > now + 7 * Crm.DayMs)
  {
    FilterMembers(taskList, DueOn(LocalDay(now, offset), offset));
    FilterMembers(taskList, DueOn(LocalDay(Tomorrow(now), offset), offset));
    FilterMembers(taskList, DueWithin(Tomorrow(now), EndOfWeek(now)));
    FilterMembers(taskList, DueAfter(EndOfWeek(now)));
    NextDay(now, offset);
  }

  /** One day later is the next calendar day. */
  lemma NextDay(t: int, offset: int)
    ensures LocalDay(t + Crm.DayMs, offset) == LocalDay(t, offset) + 1
  {
    var d := LocalDay(t, offset);
    FloorOfRange(t + offset, Crm.DayMs, d);
    FloorOfRange(t + Crm.DayMs + offset, Crm.DayMs, d + 1);
  }

  /** Within the day: an instant on calendar day `d` lies in `[d * DayMs, (d + 1) * DayMs)` local time. */
  lemma DayBounds(t: int, offset: int)
    ensures var d := LocalDay(t, offset);
      d * Crm.DayMs <= t + offset < d * Crm.DayMs + Crm.DayMs
  {
    var d := LocalDay(t, offset);
    FloorAtLeast(t + offset, Crm.DayMs, d);
    FloorAtLeast(t + offset, Crm.DayMs, d + 1);
  }

  /** Days are ordered like the instants in them. */
  lemma EarlierDayEarlierInstant(a: int, b: int, offset: int)
    requires LocalDay(a, offset) < LocalDay(b, offset)
    ensures a < b
  {
    DayBounds(a, offset);
    DayBounds(b, offset);
    MulMonotone(Crm.DayMs, LocalDay(a, offset) + 1, LocalDay(b, offset));
  }

  /** A task due on an earlier calendar day than today is shown in no column. */
  lemma OverdueInNoColumn(taskList: seq<Task>, now: int, offset: int, t: Task)
    requires LocalDay(t.dueDate, offset) < LocalDay(now, offset)
    ensures forall c :: c in InitializeColumns(taskList, now, offset) ==> t !in c.tasks
  {
    ColumnMembers(taskList, now, offset, t);
    EarlierDayEarlierInstant(t.dueDate, now, offset);
  }

  /** A task of the list due today or on a later day is shown in at least one column. */
  lemma CurrentTaskShown(taskList: seq<Task>, now: int, offset: int, t: Task)
    requires t in taskList && LocalDay(t.dueDate, offset) >= LocalDay(now, offset)
    ensures exists c :: c in InitializeColumns(taskList, now, offset) && t in c.tasks
  {
    var columns := InitializeColumns(taskList, now, offset);
    ColumnMembers(taskList, now, offset, t);
    NextDay(now, offset);
    if LocalDay(t.dueDate, offset) > LocalDay(now, offset) + 1 {
      EarlierDayEarlierInstant(now + Crm.DayMs, t.dueDate, offset);
      if t.dueDate <= now + 7 * Crm.DayMs {
        assert t in columns[2].tasks;
      } else {
        assert t in columns[3].tasks;
      }
    } else if LocalDay(t.dueDate, offset) == LocalDay(now, offset) {
      assert t in columns[0].tasks;
    } else {
      assert t in columns[1].tasks;
    }
  }

  /**
   * The columns overlap in one way only: a task due tomorrow at a later
   * clock time than now is in both Tomorrow and This Week; any other pair of
   * columns has no task in common.
   */
  lemma ColumnsOverlap(taskList: seq<Task>, now: int, offset: int, t: Task)
    ensures var c := InitializeColumns(taskList, now, offset);
      && (t in c[1].tasks && t in c[2].tasks <==>
            t in taskList && LocalDay(t.dueDate, offset) == LocalDay(now, offset) + 1 && t.dueDate > now + Crm.DayMs)
      && !(t in c[0].tasks && t in c[1].tasks)
      && !(t in c[0].tasks && t in c[2].tasks)
      && !(t in c[0].tasks && t in c[3].tasks)
      && !(t in c[1].tasks && t in c[3].tasks)
      && !(t in c[2].tasks && t in c[3].tasks)
  {
    ColumnMembers(taskList, now, offset, t);
    NextDay(now, offset);
    NextDay(now + Crm.DayMs, offset);
    if LocalDay(t.dueDate, offset) == LocalDay(now, offset) {
      EarlierDayEarlierInstant(t.dueDate, now + Crm.DayMs, offset);
    }
    if LocalDay(t.dueDate, offset) == LocalDay(now, offset) + 1 {
      EarlierDayEarlierInstant(t.dueDate, now + 2 * Crm.DayMs, offset);
    }
  }

  /**
   * Every column keeps the input order: bucketing a list made of two parts
   * gives, in each column, the first part's tasks followed by the second's.
   */
  lemma ColumnsKeepOrder(a: seq<Task>, b: seq<Task>, now: int, offset: int)
    ensures forall i :: 0 <= i < 4 ==>
      InitializeColumns(a + b, now, offset)[i].tasks ==
        InitializeColumns(a, now, offset)[i].tasks + InitializeColumns(b, now, offset)[i].tasks
  {
    FilterAppend(a, b, DueOn(LocalDay(now, offset), offset));
    FilterAppend(a, b, DueOn(LocalDay(Tomorrow(now), offset), offset));
    FilterAppend(a, b, DueWithin(Tomorrow(now), EndOfWeek(now)));
    FilterAppend(a, b, DueAfter(EndOfWeek(now)));
  }

  // ---------------------------------------------------------------------
  // Order

  /** `(a, b) => dueA - dueB`: the earliest due date first. */
  function EarliestDueFirst(a: Task, b: Task): int
  {
    a.dueDate - b.dueDate
  }

  /** No task is due later than one after it. */
  ghost predicate DueAscending(s: seq<Task>)
  {
    forall i, j :: 0 <= i < j < |s| ==> s[i].dueDate <= s[j].dueDate
  }

  lemma {:induction false} AscendingFromNeighbours(s: seq<Task>)
    requires SortedBy(s, EarliestDueFirst)
    ensures DueAscending(s)
  {
    if |s| > 1 {
      AscendingFromNeighbours(s[1..]);
      forall i, j | 0 <= i < j < |s| ensures s[i].dueDate <= s[j].dueDate {
        if i == 0 {
          assert EarliestDueFirst(s[0], s[1]) <= 0;
          if j > 1 {
            assert s[1..][0] == s[1] && s[1..][j - 1] == s[j];
          }
        } else {
          assert s[1..][i - 1] == s[i] && s[1..][j - 1] == s[j];
        }
      }
    }
  }

  /** `tasksData.sort(...)`: the fetched tasks come out earliest due first. */
  lemma SortedByDue(tasks: seq<Task>)
    ensures DueAscending(Sort(tasks, EarliestDueFirst))
  {
    SortSorted(tasks, EarliestDueFirst);
    AscendingFromNeighbours(Sort(tasks, EarliestDueFirst));
  }

  /** Filtering keeps the input order, so it keeps a due-date order. */
  lemma {:induction false} FilterKeepsAscending(s: seq<Task>, p: Task -> bool)
    requires DueAscending(s)
    ensures DueAscending(Filter(s, p))
  {
    if s != [] {
      FilterKeepsAscending(s[1..], p);
      FilterMembers(s[1..], p);
      var rest := Filter(s[1..], p);
      if p(s[0]) {
        forall j | 0 <= j < |rest| ensures s[0].dueDate <= rest[j].dueDate {
          assert rest[j] in s[1..];
          var k :| 0 <= k < |s[1..]| && s[1..][k] == rest[j];
          assert s[k + 1] == rest[j];
        }
        assert Filter(s, p) == [s[0]] + rest;
      }
    }
  }

  /** On a list sorted by due date, as `fetchTasks` builds it, every column is sorted by due date too. */
  lemma ColumnsAscending(taskList: seq<Task>, now: int, offset: int)
    requires DueAscending(taskList)
    ensures forall c :: c in InitializeColumns(taskList, now, offset) ==> DueAscending(c.tasks)
  {
    FilterKeepsAscending(taskList, DueOn(LocalDay(now, offset), offset));
    FilterKeepsAscending(taskList, DueOn(LocalDay(Tomorrow(now), offset), offset));
    FilterKeepsAscending(taskList, DueWithin(Tomorrow(now), EndOfWeek(now)));
    FilterKeepsAscending(taskList, DueAfter(EndOfWeek(now)));
  }

  // ---------------------------------------------------------------------
  // Search and priority filter

  /** The search box and the priority dropdown, as `getFilteredColumns` applies them to one task. */
  predicate TaskMatches(t: Task, searchTerm: string, priority: string)
  {
    && (|| searchTerm == ""
        || IncludesIgnoringCase(t.title, searchTerm)
        || (t.firstName.Some? && IncludesIgnoringCase(t.firstName.value, searchTerm))
        || (t.description.Some? && IncludesIgnoringCase(t.description.value, searchTerm)))
    && (priority == "all" || t.priority == priority)
  }

  function Matching(searchTerm: string, priority: string): Task -> bool
  {
    (t: Task) => TaskMatches(t, searchTerm, priority)
  }

  /** `{ ...column, tasks: column.tasks.filter(...) }` */
  function FilterColumn(c: Column, searchTerm: string, priority: string): Column
  {
    c.(tasks := Filter(c.tasks, Matching(searchTerm, priority)))
  }

  /** `getFilteredColumns()`: the columns as they are when nothing is filtered, else each column narrowed. */
  function GetFilteredColumns(columns: seq<Column>, searchTerm: string, priority: string): (r: seq<Column>)
    ensures |r| == |columns|
    ensures forall i :: 0 <= i < |r| ==>
      r[i].id == columns[i].id && r[i].title == columns[i].title && r[i].color == columns[i].color
  {
    if searchTerm == "" && priority == "all" then columns
    else seq(|columns|, i requires 0 <= i < |columns| => FilterColumn(columns[i], searchTerm, priority))
  }

  /** A task stays on the board exactly when its column held it and it matches the search and the priority. */
  lemma FilteredColumnMembers(columns: seq<Column>, searchTerm: string, priority: string, i: int, t: Task)
    requires 0 <= i < |columns|
    ensures t in GetFilteredColumns(columns, searchTerm, priority)[i].tasks <==>
      t in columns[i].tasks && TaskMatches(t, searchTerm, priority)
  {
    FilterMembers(columns[i].tasks, Matching(searchTerm, priority));
  }

  /** The shortcut for an empty search and 'all' agrees with filtering: every task matches then. */
  lemma ShortcutAgrees(columns: seq<Column>)
    ensures seq(|columns|, i requires 0 <= i < |columns| => FilterColumn(columns[i], "", "all"))
      == GetFilteredColumns(columns, "", "all")
  {
    forall i | 0 <= i < |columns| ensures FilterColumn(columns[i], "", "all") == columns[i] {
      FilterAll(columns[i].tasks, Matching("", "all"));
    }
  }

  // ---------------------------------------------------------------------
  // Due-date text of a new task

  /** The local date and time fields of a `Date`: `getFullYear`, `getMonth` (from 0), `getDate`, `getHours`, `getMinutes`. */
  datatype LocalTime = LocalTime(year: int, month: nat, day: nat, hours: nat, minutes: nat)

  predicate ValidTime(d: LocalTime)
  {
    d.month < 12 && 1 <= d.day <= 31 && d.hours < 24 && d.minutes < 60
  }

  /** The `due_date` text of `createTask`: `YYYY-MM-DD HH:MM:00`. */
  function FormatDueDate(d: LocalTime): string
  {
    IntText(d.year) + "-" + PadTwo(d.month + 1) + "-" + PadTwo(d.day) + " " +
    PadTwo(d.hours) + ":" + PadTwo(d.minutes) + ":00"
  }

  predicate DigitsAt(s: string, from: int, to: int)
  {
    0 <= from <= to <= |s| && forall i :: from <= i < to ==> IsDigit(s[i])
  }

  /** Reads a `YYYY-MM-DD HH:MM:SS` text back into its fields; anything else is `None`. */
  function ParseDueDate(s: string): Option<LocalTime>
  {
    if |s| == 19 && DigitsAt(s, 0, 4) && s[4] == '-' && DigitsAt(s, 5, 7) && s[7] == '-'
       && DigitsAt(s, 8, 10) && s[10] == ' ' && DigitsAt(s, 11, 13) && s[13] == ':'
       && DigitsAt(s, 14, 16) && s[16] == ':' && DigitsAt(s, 17, 19)
       && DecimalValue(s[5..7]) >= 1
    then Some(LocalTime(DecimalValue(s[0..4]), DecimalValue(s[5..7]) - 1, DecimalValue(s[8..10]),
                        DecimalValue(s[11..13]), DecimalValue(s[14..16])))
    else None
  }

  /** For a four-digit year the text is 19 characters with the fields at fixed places and `00` seconds. */
  lemma FormatDueDateShape(d: LocalTime)
    requires ValidTime(d) && 1000 <= d.year <= 9999
    ensures var s := FormatDueDate(d);
      && |s| == 19
      && s[4] == '-' && s[7] == '-' && s[10] == ' ' && s[13] == ':' && s[16] == ':'
      && s[17..] == "00"
      && s[0..4] == IntText(d.year) && s[5..7] == PadTwo(d.month + 1) && s[8..10] == PadTwo(d.day)
      && s[11..13] == PadTwo(d.hours) && s[14..16] == PadTwo(d.minutes)
  {
    DecimalLength(d.year);
  }

  /** Every field of a valid time can be read back from its due-date text. */
  lemma FormatDueDateRoundTrip(d: LocalTime)
    requires ValidTime(d) && 1000 <= d.year <= 9999
    ensures ParseDueDate(FormatDueDate(d)) == Some(d)
  {
    var s := FormatDueDate(d);
    FormatDueDateShape(d);
    DecimalRoundTrip(d.year);
    assert DigitsAt(s, 0, 4) && DigitsAt(s, 5, 7) && DigitsAt(s, 8, 10);
    assert DigitsAt(s, 11, 13) && DigitsAt(s, 14, 16) && DigitsAt(s, 17, 19);
  }

  // ---------------------------------------------------------------------
  // Component state

  class KanbanPage {
    var tasks: seq<Task>
    var columns: seq<Column>
    var loading: bool
    var refreshing: bool
    var error: Option<string>

    constructor ()
      ensures tasks == [] && columns == [] && loading && !refreshing && error == None
    {
      tasks := [];
      columns := [];
      loading := true;
      refreshing := false;
      error := None;
    }

    /**
     * `fetchTasks()` at instant `now`: the cached list when the task cache
     * has one for this user, otherwise the server's list sorted by due date;
     * a failed request keeps the board and shows a fixed message.
     */
    method FetchTasks(employeeId: string, email: string, cached: Option<seq<Task>>,
                      response: Result<seq<Task>>, now: int, offset: int)
      modifies this`tasks, this`columns, this`loading, this`error
      ensures !loading
      ensures (employeeId == "" || email == "") ==>
        error == Some("User authentication required") && tasks == old(tasks) && columns == old(columns)
      ensures employeeId != "" && email != "" && cached.Some? ==>
        tasks == cached.value && columns == InitializeColumns(cached.value, now, offset) && error == None
      ensures employeeId != "" && email != "" && cached.None? && response.Ok? ==>
        && tasks == Sort(response.value, EarliestDueFirst)
        && columns == InitializeColumns(tasks, now, offset)
        && error == None
      ensures employeeId != "" && email != "" && cached.None? && response.Err? ==>
        error == Some("Failed to load tasks. Please try again.") && tasks == old(tasks) && columns == old(columns)
    {
      if employeeId == "" || email == "" {
        error := Some("User authentication required");
        loading := false;
        return;
      }
      loading := true;
      error := None;
      if cached.Some? {
        tasks := cached.value;
        columns := InitializeColumns(cached.value, now, offset);
        loading := false;
        return;
      }
      if response.Ok? {
        var tasksData := Sort(response.value, EarliestDueFirst);
        tasks := tasksData;
        columns := InitializeColumns(tasksData, now, offset);
      } else {
        error := Some("Failed to load tasks. Please try again.");
      }
      loading := false;
    }

    /** `refreshTasks()`: drop the task cache and fetch from the server. */
    method RefreshTasks(employeeId: string, email: string, response: Result<seq<Task>>, now: int, offset: int)
      modifies this`tasks, this`columns, this`loading, this`error, this`refreshing
      ensures (employeeId == "" || email == "") ==> unchanged(this)
      ensures employeeId != "" && email != "" ==> !refreshing && !loading
      ensures employeeId != "" && email != "" && response.Ok? ==>
        tasks == Sort(response.value, EarliestDueFirst) && columns == InitializeColumns(tasks, now, offset)
        && error == None
      ensures employeeId != "" && email != "" && response.Err? ==>
        error == Some("Failed to load tasks. Please try again.") && tasks == old(tasks) && columns == old(columns)
    {
      if employeeId == "" || email == "" {
        return;
      }
      refreshing := true;
      error := None;
      FetchTasks(employeeId, email, None, response, now, offset);
      refreshing := false;
    }
  }
}
