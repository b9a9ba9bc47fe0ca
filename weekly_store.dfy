/** The weekly planner's store (`src/context/TaskContext.jsx`): one record with
    the week's start, a quote, a task list per date, a habit grid and notes
    per date. Each operation replaces the record by an updated copy; the
    derived views fold the record into counts and percentages. */
module WeeklyStore {
  import opened Common

  datatype Task = Task(id: Id, text: string, completed: bool)

  datatype Habit = Habit(id: Id, name: string, completedDays: seq<Day>)

  /** The three note sections of a day. */
  datatype Section = NotesSection | Improvements | Thanks

  datatype Notes = Notes(notes: seq<string>, improvements: seq<string>, thanks: seq<string>)

  datatype WeeklyRecord = WeeklyRecord(
    isSetupComplete: bool,
    weekStartDate: Day,
    quote: string,
    tasks: map<Day, seq<Task>>,
    habits: seq<Habit>,
    notes: map<Day, Notes>)

  const DefaultQuote: string := "Inspiration comes only during work"

  /** The notes of a date nobody has written on: three empty slots per section. */
  const EmptyNotes: Notes := Notes(["", "", ""], ["", "", ""], ["", "", ""])

  /** `initialState`, with the week start computed from the given clock reading. */
  function InitialRecord(today: Day): (r: WeeklyRecord)
    ensures !r.isSetupComplete && r.quote == DefaultQuote
    ensures r.weekStartDate <= today < r.weekStartDate + 7 && Weekday(r.weekStartDate) == 0
    ensures r.tasks == map[] && r.habits == [] && r.notes == map[]
  {
    WeeklyRecord(false, SundayOnOrBefore(today), DefaultQuote, map[], [], map[])
  }

  /** `getWeekDates`: the seven days of the week starting at `start`. */
  function WeekDates(start: Day): (ds: seq<Day>)
    ensures |ds| == 7 && ds[0] == start
    ensures forall i :: 0 <= i < 6 ==> ds[i + 1] == ds[i] + 1
    ensures forall i, j :: 0 <= i < j < 7 ==> ds[i] != ds[j]
  {
    seq(7, i => start + i)
  }

  /** `tasks[date] || []`. */
  function TasksOn(tasks: map<Day, seq<Task>>, date: Day): seq<Task>
  {
    if date in tasks then tasks[date] else []
  }

  function TaskId(t: Task): Id { t.id }

  function HabitId(h: Habit): Id { h.id }

  /** Ids are unique in every date's task list and in the habit list. */
  ghost predicate UniqueIds(r: WeeklyRecord)
  {
    && (forall d :: d in r.tasks ==> DistinctKeys(r.tasks[d], TaskId))
    && DistinctKeys(r.habits, HabitId)
  }

  /** The `map` inside `toggleTask`: flips `completed` of exactly the tasks with `id`. */
  function ToggleTasks(ts: seq<Task>, id: Id): (r: seq<Task>)
    ensures |r| == |ts|
    ensures forall i :: 0 <= i < |ts| ==> r[i].id == ts[i].id && r[i].text == ts[i].text
    ensures forall i :: 0 <= i < |ts| ==> r[i].completed == (ts[i].completed != (ts[i].id == id))
  {
    if ts == [] then []
    else
      var t := ts[|ts| - 1];
      ToggleTasks(ts[..|ts| - 1], id) + [if t.id == id then t.(completed := !t.completed) else t]
  }

  /** Toggling a task twice gives back the date's list. */
  lemma ToggleTasksTwice(ts: seq<Task>, id: Id)
    ensures ToggleTasks(ToggleTasks(ts, id), id) == ts
  {
    var r := ToggleTasks(ToggleTasks(ts, id), id);
    assert forall i :: 0 <= i < |ts| ==> r[i] == ts[i];
  }

  /** Flip of `date` in a habit's completed days (`filter` it out, or append it). */
  function ToggleDay(days: seq<Day>, date: Day): (r: seq<Day>)
    ensures date in r <==> date !in days
    ensures forall e :: e != date ==> (e in r <==> e in days)
  {
    if date in days then Filter(days, (d: Day) => d != date) else days + [date]
  }

  /** The `map` inside `toggleHabitDay`: only habits with `habitId` change. */
  function ToggledHabits(habits: seq<Habit>, habitId: Id, date: Day): (r: seq<Habit>)
    ensures |r| == |habits|
    ensures forall i :: 0 <= i < |habits| ==> r[i].id == habits[i].id && r[i].name == habits[i].name
    ensures forall i :: 0 <= i < |habits| && habits[i].id != habitId ==> r[i] == habits[i]
    ensures forall i :: 0 <= i < |habits| && habits[i].id == habitId ==>
              r[i].completedDays == ToggleDay(habits[i].completedDays, date)
  {
    if habits == [] then []
    else
      var h := habits[|habits| - 1];
      ToggledHabits(habits[..|habits| - 1], habitId, date)
        + [if h.id == habitId then h.(completedDays := ToggleDay(h.completedDays, date)) else h]
  }

  /** Toggling a habit's day twice restores which days every habit has completed. */
  lemma ToggleHabitDayTwice(habits: seq<Habit>, habitId: Id, date: Day)
    ensures var r := ToggledHabits(ToggledHabits(habits, habitId, date), habitId, date);
            |r| == |habits| &&
            forall i, e :: 0 <= i < |habits| ==> (e in r[i].completedDays <==> e in habits[i].completedDays)
  {
  }

  // ---------------------------------------------------------------- statistics

  datatype DayStat = DayStat(total: nat, completed: nat, percentage: nat)

  datatype TaskStats = TaskStats(totalTasks: nat, completedTasks: nat, percentage: nat, dailyStats: map<Day, DayStat>)

  function CompletedCount(ts: seq<Task>): (n: nat)
    ensures n <= |ts|
  {
    Count(ts, (t: Task) => t.completed)
  }

  /** One entry of `dailyStats`. */
  function DayStatOf(ts: seq<Task>): (s: DayStat)
    ensures s.total == |ts| && s.completed == CompletedCount(ts) && s.completed <= s.total
    ensures s.percentage <= 100 && (s.total == 0 ==> s.percentage == 0)
    ensures s.total > 0 ==> 2 * s.total * s.percentage <= 200 * s.completed + s.total < 2 * s.total * (s.percentage + 1)
  {
    DayStat(|ts|, CompletedCount(ts), RoundPercent(CompletedCount(ts), |ts|))
  }

  /** Number of tasks on the days `ds`. */
  function SumTotals(tasks: map<Day, seq<Task>>, ds: seq<Day>): nat
  {
    if ds == [] then 0 else SumTotals(tasks, ds[..|ds| - 1]) + |TasksOn(tasks, ds[|ds| - 1])|
  }

  /** Number of completed tasks on the days `ds`: never more than all of them. */
  function SumCompleted(tasks: map<Day, seq<Task>>, ds: seq<Day>): (n: nat)
    ensures n <= SumTotals(tasks, ds)
  {
    if ds == [] then 0 else SumCompleted(tasks, ds[..|ds| - 1]) + CompletedCount(TasksOn(tasks, ds[|ds| - 1]))
  }

  /** `getTaskStats`: the loop over the week's dates with running counters. */
  method GetTaskStats(r: WeeklyRecord) returns (stats: TaskStats)
    ensures var dates := WeekDates(r.weekStartDate);
            && stats.totalTasks == SumTotals(r.tasks, dates)
            && stats.completedTasks == SumCompleted(r.tasks, dates)
            && (forall i :: 0 <= i < 7 ==>
                  dates[i] in stats.dailyStats && stats.dailyStats[dates[i]] == DayStatOf(TasksOn(r.tasks, dates[i])))
            && (forall d :: d in stats.dailyStats ==> d in dates)
    ensures stats.completedTasks <= stats.totalTasks && stats.percentage <= 100
    ensures stats.percentage == RoundPercent(stats.completedTasks, stats.totalTasks)
  {
    var dates := WeekDates(r.weekStartDate);
    var start := r.weekStartDate;
    var totalTasks, completedTasks := 0, 0;
    var dailyStats: map<Day, DayStat> := map[];
    for i := 0 to 7
      invariant totalTasks == SumTotals(r.tasks, dates[..i])
      invariant completedTasks == SumCompleted(r.tasks, dates[..i])
      invariant forall j :: 0 <= j < i ==>
                  dates[j] in dailyStats && dailyStats[dates[j]] == DayStatOf(TasksOn(r.tasks, dates[j]))
      invariant forall d :: d in dailyStats ==> start <= d < start + i
    {
      var date := dates[i];
      var dayTasks := TasksOn(r.tasks, date);
      var dayCompleted := CompletedCount(dayTasks);
      var dayTotal := |dayTasks|;
      SumsStep(r.tasks, dates, i);
      totalTasks := totalTasks + dayTotal;
      completedTasks := completedTasks + dayCompleted;
      dailyStats := dailyStats[date := DayStat(dayTotal, dayCompleted, RoundPercent(dayCompleted, dayTotal))];
    }
    assert dates[..7] == dates;
    forall d | d in dailyStats ensures d in dates {
      assert dates[d - start] == d;
    }
    stats := TaskStats(totalTasks, completedTasks, RoundPercent(completedTasks, totalTasks), dailyStats);
  }

  lemma SumsStep(tasks: map<Day, seq<Task>>, ds: seq<Day>, i: nat)
    requires i < |ds|
    ensures SumTotals(tasks, ds[..i + 1]) == SumTotals(tasks, ds[..i]) + |TasksOn(tasks, ds[i])|
    ensures SumCompleted(tasks, ds[..i + 1]) == SumCompleted(tasks, ds[..i]) + CompletedCount(TasksOn(tasks, ds[i]))
  {
    assert ds[..i + 1][..i] == ds[..i];
  }

  /** Position of the first habit with `habitId`, or `|habits|` when there is none. */
  function FirstHabitIndex(habits: seq<Habit>, habitId: Id): (k: nat)
    ensures k <= |habits|
    ensures forall j :: 0 <= j < k ==> habits[j].id != habitId
    ensures k < |habits| ==> habits[k].id == habitId
  {
    if habits == [] then 0
    else if habits[0].id == habitId then 0
    else 1 + FirstHabitIndex(habits[1..], habitId)
  }

  /** `habits.find(h => h.id === habitId)`. */
  function FindHabit(habits: seq<Habit>, habitId: Id): (r: Option<Habit>)
    ensures r.None? <==> forall i :: 0 <= i < |habits| ==> habits[i].id != habitId
    ensures r.Some? ==> r.value.id == habitId && r.value == habits[FirstHabitIndex(habits, habitId)]
  {
    var k := FirstHabitIndex(habits, habitId);
    if k < |habits| then Some(habits[k]) else None
  }

  /** Number of the week's dates on which the habit is marked done. */
  function DaysDoneInWeek(h: Habit, dates: seq<Day>): (n: nat)
    ensures n <= |dates|
  {
    Count(dates, (d: Day) => d in h.completedDays)
  }

  /** `getHabitProgress`: the rounded share of the week's seven dates the habit was done. */
  function HabitProgress(r: WeeklyRecord, habitId: Id): (p: nat)
    ensures p <= 100
    ensures FindHabit(r.habits, habitId).None? ==> p == 0
    ensures FindHabit(r.habits, habitId).Some? ==>
              var k := DaysDoneInWeek(FindHabit(r.habits, habitId).value, WeekDates(r.weekStartDate));
              14 * p <= 200 * k + 7 < 14 * (p + 1)
  {
    match FindHabit(r.habits, habitId)
    case None => 0
    case Some(h) => RoundPercent(DaysDoneInWeek(h, WeekDates(r.weekStartDate)), 7)
  }

  lemma {:induction false} CountAllTrue<T>(s: seq<T>, p: T -> bool)
    requires forall i :: 0 <= i < |s| ==> p(s[i])
    ensures Count(s, p) == |s|
  {
    if s != [] {
      CountAllTrue(s[..|s| - 1], p);
    }
  }

  lemma {:induction false} CountAllFalse<T>(s: seq<T>, p: T -> bool)
    requires forall i :: 0 <= i < |s| ==> !p(s[i])
    ensures Count(s, p) == 0
  {
    if s != [] {
      CountAllFalse(s[..|s| - 1], p);
    }
  }

  /** A habit done on every day of the week shows 100%, one done on none shows 0%. */
  lemma HabitProgressExtremes(r: WeeklyRecord, h: Habit)
    requires FindHabit(r.habits, h.id) == Some(h)
    ensures (forall i :: 0 <= i < 7 ==> WeekDates(r.weekStartDate)[i] in h.completedDays) ==> HabitProgress(r, h.id) == 100
    ensures (forall i :: 0 <= i < 7 ==> WeekDates(r.weekStartDate)[i] !in h.completedDays) ==> HabitProgress(r, h.id) == 0
  {
    var dates := WeekDates(r.weekStartDate);
    if forall i :: 0 <= i < 7 ==> dates[i] in h.completedDays {
      CountAllTrue(dates, (d: Day) => d in h.completedDays);
      RoundPercentEnds(7);
    }
    if forall i :: 0 <= i < 7 ==> dates[i] !in h.completedDays {
      CountAllFalse(dates, (d: Day) => d in h.completedDays);
      RoundPercentEnds(7);
    }
  }

  // ---------------------------------------------------------------- notes

  function SectionOf(n: Notes, s: Section): seq<string>
  {
    match s
    case NotesSection => n.notes
    case Improvements => n.improvements
    case Thanks => n.thanks
  }

  function WithSection(n: Notes, s: Section, v: seq<string>): (r: Notes)
    ensures SectionOf(r, s) == v
    ensures forall o :: o != s ==> SectionOf(r, o) == SectionOf(n, o)
  {
    match s
    case NotesSection => n.(notes := v)
    case Improvements => n.(improvements := v)
    case Thanks => n.(thanks := v)
  }

  /** `getNotes`: the stored notes of `date`, or three empty slots per section. */
  function NotesOn(notes: map<Day, Notes>, date: Day): (n: Notes)
    ensures date !in notes ==> n == EmptyNotes
    ensures date in notes ==> n == notes[date]
  {
    if date in notes then notes[date] else EmptyNotes
  }

  /** `newSectionNotes[index] = value` on a copy of a section. Writing past the end
      grows the array; the slots in between read as empty strings. */
  function SetSlot(sec: seq<string>, index: nat, value: string): (r: seq<string>)
    ensures |r| == if index < |sec| then |sec| else index + 1
    ensures r[index] == value
    ensures forall j :: 0 <= j < |sec| && j != index ==> r[j] == sec[j]
    ensures forall j :: |sec| <= j < index ==> r[j] == ""
  {
    if index < |sec| then sec[index := value]
    else sec + seq(index - |sec|, _ => "") + [value]
  }

  /** The new notes map written by `updateNote`. */
  function UpdatedNotes(notes: map<Day, Notes>, date: Day, section: Section, index: nat, value: string): (r: map<Day, Notes>)
    ensures r.Keys == notes.Keys + {date}
    ensures forall d :: d in notes && d != date ==> r[d] == notes[d]
    ensures SectionOf(r[date], section) == SetSlot(SectionOf(NotesOn(notes, date), section), index, value)
    ensures SectionOf(r[date], section)[index] == value
    ensures forall o :: o != section ==> SectionOf(r[date], o) == SectionOf(NotesOn(notes, date), o)
  {
    var current := NotesOn(notes, date);
    notes[date := WithSection(current, section, SetSlot(SectionOf(current, section), index, value))]
  }

  // ---------------------------------------------------------------- the store

  /** The `TaskProvider`: holds the record and replaces it on every operation. */
  class WeeklyTracker {
    var state: WeeklyRecord

    ghost predicate Valid()
      reads this
    {
      UniqueIds(state)
    }

    /** A store that loaded nothing: the default record for the week containing `today`. */
    constructor (today: Day)
      ensures state == InitialRecord(today) && Valid()
    {
      state := InitialRecord(today);
    }

    method CompleteSetup(weekStartDate: Day, quote: string)
      requires Valid()
      modifies this
      ensures Valid()
      ensures state == old(state).(isSetupComplete := true, weekStartDate := weekStartDate, quote := quote)
    {
      state := state.(isSetupComplete := true, weekStartDate := weekStartDate, quote := quote);
    }

    method UpdateQuote(quote: string)
      requires Valid()
      modifies this
      ensures Valid()
      ensures state == old(state).(quote := quote)
    {
      state := state.(quote := quote);
    }

    method UpdateWeekStart(weekStartDate: Day)
      requires Valid()
      modifies this
      ensures Valid()
      ensures state == old(state).(weekStartDate := weekStartDate)
    {
      state := state.(weekStartDate := weekStartDate);
    }

    /** `addTask`: `freshId` stands for `crypto.randomUUID()`. */
    method AddTask(date: Day, text: string, freshId: Id)
      requires Valid()
      requires forall t :: t in TasksOn(state.tasks, date) ==> t.id != freshId
      modifies this
      ensures Valid()
      ensures state == old(state).(tasks := old(state).tasks[date := TasksOn(old(state).tasks, date) + [Task(freshId, text, false)]])
    {
      var dateTasks := TasksOn(state.tasks, date);
      var newTasks := dateTasks + [Task(freshId, text, false)];
      assert dateTasks == [] || date in state.tasks;
      assert DistinctKeys(newTasks, TaskId) by {
        forall i, j | 0 <= i < j < |newTasks| ensures newTasks[i].id != newTasks[j].id {
          if j == |dateTasks| {
            assert newTasks[i] in dateTasks;
          } else {
            assert newTasks[i] == dateTasks[i] && newTasks[j] == dateTasks[j];
          }
        }
      }
      state := state.(tasks := state.tasks[date := newTasks]);
    }

    /** `toggleTask`; on a date without tasks it stores an empty list. */
    method ToggleTask(date: Day, taskId: Id)
      requires Valid()
      modifies this
      ensures Valid()
      ensures state == old(state).(tasks := old(state).tasks[date := ToggleTasks(TasksOn(old(state).tasks, date), taskId)])
    {
      var toggled := ToggleTasks(TasksOn(state.tasks, date), taskId);
      assert DistinctKeys(toggled, TaskId) by {
        assert DistinctKeys(TasksOn(state.tasks, date), TaskId);
      }
      state := state.(tasks := state.tasks[date := toggled]);
    }

    /** `deleteTask`; on a date without tasks it stores an empty list. */
    method DeleteTask(date: Day, taskId: Id)
      requires Valid()
      modifies this
      ensures Valid()
      ensures state == old(state).(tasks := old(state).tasks[date := RemoveById(TasksOn(old(state).tasks, date), TaskId, taskId)])
    {
      var kept := RemoveById(TasksOn(state.tasks, date), TaskId, taskId);
      RemoveByIdKeepsOrder(TasksOn(state.tasks, date), TaskId, taskId);
      state := state.(tasks := state.tasks[date := kept]);
    }

    method AddHabit(name: string, freshId: Id)
      requires Valid()
      requires forall h :: h in state.habits ==> h.id != freshId
      modifies this
      ensures Valid()
      ensures state == old(state).(habits := old(state).habits + [Habit(freshId, name, [])])
    {
      var habits := state.habits + [Habit(freshId, name, [])];
      assert DistinctKeys(habits, HabitId) by {
        forall i, j | 0 <= i < j < |habits| ensures habits[i].id != habits[j].id {
          if j == |state.habits| {
            assert habits[i] in state.habits;
          } else {
            assert habits[i] == state.habits[i] && habits[j] == state.habits[j];
          }
        }
      }
      state := state.(habits := habits);
    }

    method ToggleHabitDay(habitId: Id, date: Day)
      requires Valid()
      modifies this
      ensures Valid()
      ensures state == old(state).(habits := ToggledHabits(old(state).habits, habitId, date))
    {
      state := state.(habits := ToggledHabits(state.habits, habitId, date));
    }

    method DeleteHabit(habitId: Id)
      requires Valid()
      modifies this
      ensures Valid()
      ensures state == old(state).(habits := RemoveById(old(state).habits, HabitId, habitId))
    {
      RemoveByIdKeepsOrder(state.habits, HabitId, habitId);
      state := state.(habits := RemoveById(state.habits, HabitId, habitId));
    }

    /** `updateNote`: sets one slot of one section of one date. */
    method UpdateNote(date: Day, section: Section, index: nat, value: string)
      requires Valid()
      modifies this
      ensures Valid()
      ensures state == old(state).(notes := UpdatedNotes(old(state).notes, date, section, index, value))
    {
      state := state.(notes := UpdatedNotes(state.notes, date, section, index, value));
    }

    /** `resetAll`: the default record with the week start recomputed from `today`. */
    method ResetAll(today: Day)
      modifies this
      ensures Valid()
      ensures state == InitialRecord(today)
    {
      state := InitialRecord(today);
    }
  }
}
