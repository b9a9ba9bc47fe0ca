# Habit tracker stores and views, modelled in Dafny

The application is a React single-page app with four trackers, each built on a
context provider that holds one state object and replaces it on every action:

- the **weekly planner** (`src/context/TaskContext.jsx`): a week start, a
  quote, per-date task lists, a habit grid and per-date notes, with weekly and
  per-day completion statistics;
- the **task list** (`src/context/TaskListContext.jsx`): seeded categories,
  priorities and statuses, and an ordered list of tasks with due dates and
  statistics (due today, overdue, completion percentage);
- the **finance tracker** (`src/context/FinanceContext.jsx`): a current
  month, a starting amount, three category lists and, per month, three tables
  (income, expenses, debts) whose cells keep whatever text the form typed and
  are read back through `parseFloat`;
- the **streak habit list** (`src/context/HabitContext.jsx`): habits with
  completed dates and a streak counter.

Alongside them, the model covers what the dashboards derive from the stores in
`FinanceDashboard.jsx`, `HabitDashboard.jsx`, `TaskListDashboard.jsx` and
`weekly/ProgressChart.jsx`. That means padded tables, chart data, filters,
look-ups with fallbacks, and guarded add forms.

Layout:

| file | module | what |
|---|---|---|
| `common.dfy` | `Common` | days, weekdays, rounding of percentages, counting/filtering, `trim` |
| `js_number.dfy` | `JsNumber` | `parseFloat` and `Number` over decimal strings |
| `weekly_store.dfy` | `WeeklyStore` | the weekly planner store (class `WeeklyTracker`) |
| `task_list_store.dfy` | `TaskListStore` | the task-list store (class `TaskList`) |
| `finance_store.dfy` | `FinanceStore` | the finance store (class `FinanceTracker`) |
| `habit_store.dfy` | `HabitStore` | the streak habit store (class `HabitList`) |
| `task_list_view.dfy` | `TaskListView` | derivations of the task-list dashboard |
| `finance_view.dfy` | `FinanceView` | derivations of the finance dashboard |
| `habit_view.dfy` | `HabitView` | derivations of the monthly habit dashboard |
| `progress_chart.dfy` | `ProgressChart` | the seven-day activity chart |

Each provider is a class whose single field (`state` or `habits`) is replaced
by every method. Each method's `ensures` gives the new state as a pure
function of the old one, and lemmas prove what those functions promise.
Dates are day numbers, with day 0 = 1970-01-01, a Thursday. A `yyyy-MM-dd`
string stands for its day number, and a `yyyy-MM` month for a `MonthKey`.
The clock and `crypto.randomUUID()` become parameters: `today`, `now`,
`freshId`.

## Model

| member | source | states |
|---|---|---|
| Common.SundayOnOrBefore | src/context/TaskContext.jsx:12-16 | the default week start is a Sunday, at most six days before today |
| Common.Weekday | src/components/weekly/ProgressChart.jsx:11-18 | the day of week of a date is in 0..6 (0 = Sunday) |
| Common.RoundPercent | src/context/TaskContext.jsx:160 | `Math.round(c / t * 100)`, and 0 without tasks: the result is the nearest integer to 100c/t (ties up), at most 100 when c <= t |
| Common.RoundPercentEnds | src/context/TaskContext.jsx:160-167 | 0 of t rounds to 0% and t of t to 100% |
| Common.Trim | src/components/tasklist/TaskListDashboard.jsx:47 | `trim()`: the result is an infix of the input with no white space at either end |
| Common.TrimEmptyIff | src/components/tasklist/TaskListDashboard.jsx:47 | the trimmed text is empty exactly when every character is white space |
| Common.TrimIsInfix | src/components/habits/HabitDashboard.jsx:74-75 | the trimmed text is the input with its leading and trailing white space cut off |
| Common.RemoveById | src/context/TaskListContext.jsx:107-112 | the id filter behind every delete (weekly tasks and habits, task-list tasks and categories, streak habits): the kept elements are exactly those whose id differs |
| Common.RemoveByIdKeepsOrder | src/context/TaskListContext.jsx:107-112 | deleting keeps the others in order, removes one entry per element with the id, and keeps unique ids unique |
| WeeklyStore.InitialRecord | src/context/TaskContext.jsx:18-25 | not set up, the default quote, no tasks, habits or notes, and a Sunday week start within the last seven days |
| WeeklyStore.WeekDates | src/context/TaskContext.jsx:42-45 | seven consecutive, distinct days starting at the week start |
| WeeklyStore.ToggleTasks | src/context/TaskContext.jsx:83-93 | same length, ids and texts; `completed` flips exactly on the tasks with the id |
| WeeklyStore.ToggleTasksTwice | src/context/TaskContext.jsx:83-93 | toggling a task twice gives the date's list back |
| WeeklyStore.ToggleDay | src/context/TaskContext.jsx:122-127 | the date is present after exactly when it was absent before; no other day changes |
| WeeklyStore.ToggledHabits | src/context/TaskContext.jsx:117-133 | only habits with the id change, and for them only the completed days, by `ToggleDay` |
| WeeklyStore.ToggleHabitDayTwice | src/context/TaskContext.jsx:117-133 | toggling twice restores the set of completed days of every habit |
| WeeklyStore.CompletedCount | src/context/TaskContext.jsx:151 | the number of completed tasks is at most the number of tasks |
| WeeklyStore.DayStatOf | src/context/TaskContext.jsx:150-161 | total, completed <= total, and the completed share rounded to a percentage in 0..100 (0 on an empty day) |
| WeeklyStore.SumCompleted | src/context/TaskContext.jsx:154-155 | completed tasks over several days never exceed their tasks |
| WeeklyStore.GetTaskStats | src/context/TaskContext.jsx:143-170 | the loop's totals are the sums over the seven week dates, `dailyStats` holds exactly those dates with their day statistics, and the overall percentage is the rounded share |
| WeeklyStore.SumsStep | src/context/TaskContext.jsx:149-156 | one loop step adds the date's totals to the running sums |
| WeeklyStore.FirstHabitIndex | src/context/TaskContext.jsx:173 | the position of the first habit with the id, or the list's length |
| WeeklyStore.FindHabit | src/context/TaskContext.jsx:173 | `find`: none exactly when no habit has the id, else the first one |
| WeeklyStore.DaysDoneInWeek | src/context/TaskContext.jsx:177 | at most the number of week dates |
| WeeklyStore.HabitProgress | src/context/TaskContext.jsx:172-179 | 0 for an unknown habit, else the nearest integer to 100k/7 for its k done days; never above 100 |
| WeeklyStore.CountAllTrue | src/context/TaskContext.jsx:177 | a filter that keeps every date counts all of them |
| WeeklyStore.CountAllFalse | src/context/TaskContext.jsx:177 | a filter that keeps no date counts 0 |
| WeeklyStore.HabitProgressExtremes | src/context/TaskContext.jsx:172-179 | a habit done every day of the week shows 100%, one done on none 0% |
| WeeklyStore.WithSection | src/context/TaskContext.jsx:212-215 | replaces exactly one note section |
| WeeklyStore.NotesOn | src/context/TaskContext.jsx:182-188 | the stored notes of the date, or three empty slots per section |
| WeeklyStore.SetSlot | src/context/TaskContext.jsx:206-207 | writes the slot, keeps the others, grows the array when the index is past its end |
| WeeklyStore.UpdatedNotes | src/context/TaskContext.jsx:199-219 | only the date's entry changes; within it only the section, and within that only the slot |
| WeeklyStore.WeeklyTracker.constructor | src/context/TaskContext.jsx:18-25 | the store starts with the initial record |
| WeeklyStore.WeeklyTracker.CompleteSetup | src/context/TaskContext.jsx:48-55 | marks setup done with the given week start and quote; nothing else changes |
| WeeklyStore.WeeklyTracker.UpdateQuote | src/context/TaskContext.jsx:57-59 | only the quote changes |
| WeeklyStore.WeeklyTracker.UpdateWeekStart | src/context/TaskContext.jsx:61-63 | only the week start changes |
| WeeklyStore.WeeklyTracker.AddTask | src/context/TaskContext.jsx:66-81 | appends an uncompleted task to the date's list (created if absent); ids stay unique |
| WeeklyStore.WeeklyTracker.ToggleTask | src/context/TaskContext.jsx:83-93 | replaces the date's list by its toggled copy |
| WeeklyStore.WeeklyTracker.DeleteTask | src/context/TaskContext.jsx:95-103 | replaces the date's list by its filtered copy; ids stay unique |
| WeeklyStore.WeeklyTracker.AddHabit | src/context/TaskContext.jsx:106-115 | appends a habit with no completed days; ids stay unique |
| WeeklyStore.WeeklyTracker.ToggleHabitDay | src/context/TaskContext.jsx:117-133 | replaces the habits by their toggled copy |
| WeeklyStore.WeeklyTracker.DeleteHabit | src/context/TaskContext.jsx:135-140 | replaces the habits by their filtered copy |
| WeeklyStore.WeeklyTracker.UpdateNote | src/context/TaskContext.jsx:199-219 | replaces the notes by the updated map |
| WeeklyStore.WeeklyTracker.ResetAll | src/context/TaskContext.jsx:191-197 | back to the initial record with a freshly computed week start |
| TaskListStore.SeedTables | src/context/TaskListContext.jsx:12-44 | the seeded categories, priorities and statuses have unique ids; the first category is "1" |
| TaskListStore.NewTask | src/context/TaskListContext.jsx:66-81 | the appended task: the given fields, priority "medium", status "not-started", the first category (absent when there is none) for falsy fields, not completed |
| TaskListStore.MergeTask | src/context/TaskListContext.jsx:87 | `{ ...task, ...updates }`: present fields overwrite, id and creation time stay |
| TaskListStore.UpdateTasks | src/context/TaskListContext.jsx:83-90 | only tasks with the id change, each by the merge |
| TaskListStore.UpdateUnknownId | src/context/TaskListContext.jsx:83-90 | updating an id no task has changes nothing |
| TaskListStore.ToggleComplete | src/context/TaskListContext.jsx:96-101 | `completed` flips and the status becomes "done" or "not-started" to match; nothing else changes |
| TaskListStore.ToggledTasks | src/context/TaskListContext.jsx:92-105 | only tasks with the id are toggled |
| TaskListStore.ToggleForgetsInProgress | src/context/TaskListContext.jsx:96-101 | an unfinished "in-progress" task toggled twice comes back "not-started" |
| TaskListStore.ToggleTwice | src/context/TaskListContext.jsx:96-101 | toggling twice restores a task exactly when its status already agreed with its completion flag |
| TaskListStore.StatsOf | src/context/TaskListContext.jsx:134-157 | counts of all, completed, due today, overdue and unfinished tasks; completed + unfinished = all, overdue <= unfinished, due today + overdue <= all, and the rounded completion percentage |
| TaskListStore.DueTodayNotOverdue | src/context/TaskListContext.jsx:140-145 | a task due today is never counted as overdue |
| TaskListStore.TaskList.constructor | src/context/TaskListContext.jsx:38-44 | the store starts with the seeded record, ids unique |
| TaskListStore.TaskList.CompleteSetup | src/context/TaskListContext.jsx:61-63 | only the setup flag changes |
| TaskListStore.TaskList.AddTask | src/context/TaskListContext.jsx:66-81 | appends the new task; ids stay unique |
| TaskListStore.TaskList.UpdateTask | src/context/TaskListContext.jsx:83-90 | replaces the tasks by their updated copy |
| TaskListStore.TaskList.ToggleTaskComplete | src/context/TaskListContext.jsx:92-105 | replaces the tasks by their toggled copy |
| TaskListStore.TaskList.DeleteTask | src/context/TaskListContext.jsx:107-112 | replaces the tasks by their filtered copy; ids stay unique |
| TaskListStore.TaskList.AddCategory | src/context/TaskListContext.jsx:115-124 | appends a category; ids stay unique |
| TaskListStore.TaskList.DeleteCategory | src/context/TaskListContext.jsx:126-131 | removes the category and leaves every task, stale category ids included, as it was |
| JsNumber.DigitValue | src/context/FinanceContext.jsx:149 | the value of a decimal digit is below 10 |
| JsNumber.DigitChar | src/components/finance/FinanceDashboard.jsx:368 | the digit shown for a value below 10 when a number cell becomes the input's text; inverse of `DigitValue` |
| JsNumber.LeadingDigits | src/context/FinanceContext.jsx:149 | the length of the leading run of digits |
| JsNumber.Pow10 | src/context/FinanceContext.jsx:149 | powers of ten are positive |
| JsNumber.SignLength | src/context/FinanceContext.jsx:149 | 1 for a leading sign, else 0 |
| JsNumber.IntEnd | src/context/FinanceContext.jsx:149 | the integer digits after the sign end here |
| JsNumber.FracStart | src/context/FinanceContext.jsx:149 | just after a '.' following the integer digits, else the integer end |
| JsNumber.FracEnd | src/context/FinanceContext.jsx:149 | the fraction digits end here |
| JsNumber.DecimalPrefix | src/context/FinanceContext.jsx:149 | the longest decimal prefix; none exactly when it has no digit; non-negative without a minus sign |
| JsNumber.DecimalPrefixNoneIff | src/context/FinanceContext.jsx:149 | no literal exactly when the sign is followed by neither a digit nor a '.' and a digit |
| JsNumber.NoDigitsIsNaN | src/context/FinanceContext.jsx:67 | text without digits is NaN for `parseFloat` |
| JsNumber.LeadingDigitsAppend | src/context/FinanceContext.jsx:149 | appending text that does not start with a digit leaves a closed digit run alone |
| JsNumber.IntEndBeforeSpace | src/context/FinanceContext.jsx:180-181 | trailing non-digits do not move the integer end |
| JsNumber.FracEndBeforeSpace | src/context/FinanceContext.jsx:180-181 | trailing non-digits do not move the fraction end |
| JsNumber.DecimalPrefixBeforeSpace | src/context/FinanceContext.jsx:180-181 | a literal followed by white space reads the same |
| JsNumber.LiteralBeforeSpace | src/context/FinanceContext.jsx:180-181 | the literal's value depends only on its own characters |
| JsNumber.NumberAgreesWithParseFloat | src/context/FinanceContext.jsx:180-181 | whenever `Number(s)` is a non-zero number, `parseFloat(s)` is that number |
| JsNumber.NatString | src/components/finance/FinanceDashboard.jsx:368 | a cell holding a natural number is shown as its decimal text (`value={row.plan \|\| ''}`), a non-empty run of digits |
| JsNumber.NatOfNatString | src/context/FinanceContext.jsx:149 | reading a rendered natural number gives it back |
| JsNumber.AllDigitsLeading | src/context/FinanceContext.jsx:149 | a run of digits is all leading digits |
| JsNumber.NoSpaceEndsTrim | src/context/FinanceContext.jsx:180 | text without white space at its ends trims to itself |
| JsNumber.DigitsLiteral | src/context/FinanceContext.jsx:149 | a run of digits is a literal spanning the whole text, valued as its digits |
| JsNumber.ParseNatString | src/context/FinanceContext.jsx:149-154 | both conversions read a rendered natural number back as that number |
| FinanceStore.NextMonthKey | src/context/FinanceContext.jsx:55-58 | the following month (December rolls into January of the next year) |
| FinanceStore.PrevMonthKey | src/context/FinanceContext.jsx:60-63 | the preceding month (January rolls back into December of the previous year) |
| FinanceStore.MonthIndexInjective | src/context/FinanceContext.jsx:55-63 | two month keys with the same index are equal |
| FinanceStore.NextPrevRoundTrip | src/context/FinanceContext.jsx:55-63 | next then previous, and previous then next, return to the same month |
| FinanceStore.MonthDataOf | src/context/FinanceContext.jsx:71-77 | the current month's tables, or three empty tables |
| FinanceStore.MergeRow | src/context/FinanceContext.jsx:88 | `{ ...row, ...data }` on an income or expense row |
| FinanceStore.MergeDebtRow | src/context/FinanceContext.jsx:132 | `{ ...row, ...data }` on a debt row |
| FinanceStore.PlanThenActual | src/context/FinanceContext.jsx:80-99 | typing a plan and then an actual into a new row keeps both |
| FinanceStore.Upsert | src/context/FinanceContext.jsx:85-89 | an index inside the table merges into that row only; any other index appends one merged template row |
| FinanceStore.AmountValue | src/context/FinanceContext.jsx:149 | `parseFloat(x) \|\| 0`: NaN reads as 0 |
| FinanceStore.PositiveParses | src/context/FinanceContext.jsx:180-181 | a cell that compares above 0 is read by `parseFloat` as that same positive number |
| FinanceStore.NonNumericIsZero | src/context/FinanceContext.jsx:149-154 | text without digits adds 0 to the sums |
| FinanceStore.SumOfUpdate | src/context/FinanceContext.jsx:149-154 | replacing a row moves the sum by the difference of the two rows' values |
| FinanceStore.SumOfAppend | src/context/FinanceContext.jsx:149-154 | appending a row adds its value to the sum |
| FinanceStore.SumOfUpsert | src/context/FinanceContext.jsx:80-99 | an update moves its column sum by the new row's value minus the replaced one's |
| FinanceStore.StatsOf | src/context/FinanceContext.jsx:146-172 | column sums of the current month, balances as income minus expenses, totals as starting amount plus balance, debts minus payments |
| FinanceStore.EmptyMonthStats | src/context/FinanceContext.jsx:146-172 | a month without entries has zero sums and both totals equal to the starting amount |
| FinanceStore.StatsReadCurrentMonth | src/context/FinanceContext.jsx:146-172 | statistics depend only on the current month's tables and the starting amount |
| FinanceStore.OneIncomeRowStats | src/context/FinanceContext.jsx:149-158 | an income row planned at the text of any natural number n raises the planned income and the planned total balance by n |
| FinanceStore.Contribution | src/context/FinanceContext.jsx:181 | what a qualifying row adds to its source is positive |
| FinanceStore.Sources | src/context/FinanceContext.jsx:175-186 | the grouped names, none of them empty |
| FinanceStore.GroupBySource | src/context/FinanceContext.jsx:175-200 | the loop's entries are the qualifying sources in first-appearance order, each with the sum of its positive actuals |
| FinanceStore.GroupStep | src/context/FinanceContext.jsx:179-184 | one row's effect on the grouped names and values |
| FinanceStore.SourcesDistinct | src/context/FinanceContext.jsx:175-186 | each source appears once |
| FinanceStore.SourcesMembership | src/context/FinanceContext.jsx:180 | a name is grouped exactly when some row with a non-empty source and a positive actual carries it |
| FinanceStore.SourceTotalPositive | src/context/FinanceContext.jsx:180-181 | every grouped value is positive |
| FinanceStore.SourceTotalNonNegative | src/context/FinanceContext.jsx:180-181 | no source accumulates a negative value |
| FinanceStore.TotalOfStep | src/context/FinanceContext.jsx:179-184 | a new row adds its contribution to the total of the grouped names that include its source |
| FinanceStore.GroupTotal | src/context/FinanceContext.jsx:175-186 | the grouped values add up to the sum of all qualifying actuals |
| FinanceStore.SourceTotalAbsent | src/context/FinanceContext.jsx:181 | a name no qualifying row carries has value 0 (the `\|\| 0` of the accumulator) |
| FinanceStore.AddCategory | src/context/FinanceContext.jsx:203-210 | empty or listed names are ignored, any other is appended; the old list is a prefix |
| FinanceStore.AddCategoryIdempotent | src/context/FinanceContext.jsx:203-210 | adding a name twice is adding it once |
| FinanceStore.AddCategoryKeepsDistinct | src/context/FinanceContext.jsx:203-210 | a duplicate-free list stays duplicate-free |
| FinanceStore.DeleteCategory | src/context/FinanceContext.jsx:212-217 | every copy of the name goes, the others stay |
| FinanceStore.DeleteCategoryKeepsOrder | src/context/FinanceContext.jsx:212-217 | the kept names stay in order and duplicate-free |
| FinanceStore.DefaultCategoriesDistinct | src/context/FinanceContext.jsx:12-34 | the default category lists hold no name twice |
| FinanceStore.IncomeDefaultsDistinct | src/context/FinanceContext.jsx:12-16 | the default income categories are distinct |
| FinanceStore.ExpenseDefaultsDistinct | src/context/FinanceContext.jsx:18-22 | the default expense categories are distinct |
| FinanceStore.DebtDefaultsDistinct | src/context/FinanceContext.jsx:24 | the default debt categories are distinct |
| FinanceStore.FinanceTracker.constructor | src/context/FinanceContext.jsx:26-34 | the store starts with the initial record for the current month |
| FinanceStore.FinanceTracker.SetMonth | src/context/FinanceContext.jsx:51-53 | only the current month changes |
| FinanceStore.FinanceTracker.NextMonth | src/context/FinanceContext.jsx:55-58 | the current month moves one month on |
| FinanceStore.FinanceTracker.PrevMonth | src/context/FinanceContext.jsx:60-63 | the current month moves one month back |
| FinanceStore.FinanceTracker.SetStartingAmount | src/context/FinanceContext.jsx:66-68 | the starting amount becomes `parseFloat(amount) \|\| 0` |
| FinanceStore.FinanceTracker.UpdateIncome | src/context/FinanceContext.jsx:80-99 | the current month's income table upserted, stored under the current month |
| FinanceStore.FinanceTracker.UpdateExpense | src/context/FinanceContext.jsx:102-121 | the current month's expense table upserted |
| FinanceStore.FinanceTracker.UpdateDebt | src/context/FinanceContext.jsx:124-143 | the current month's debt table upserted |
| FinanceStore.FinanceTracker.AddIncomeCategory | src/context/FinanceContext.jsx:203-210 | the income categories after `AddCategory`; still duplicate-free |
| FinanceStore.FinanceTracker.DeleteIncomeCategory | src/context/FinanceContext.jsx:212-217 | the income categories after `DeleteCategory` |
| FinanceStore.FinanceTracker.AddExpenseCategory | src/context/FinanceContext.jsx:219-226 | the expense categories after `AddCategory` |
| FinanceStore.FinanceTracker.DeleteExpenseCategory | src/context/FinanceContext.jsx:228-233 | the expense categories after `DeleteCategory` |
| FinanceStore.FinanceTracker.AddDebtCategory | src/context/FinanceContext.jsx:235-242 | the debt categories after `AddCategory` |
| FinanceStore.FinanceTracker.DeleteDebtCategory | src/context/FinanceContext.jsx:244-249 | the debt categories after `DeleteCategory` |
| FinanceStore.IncomePlanAfterUpdate | src/context/FinanceContext.jsx:80-99 | an income update moves the planned income by the new plan minus the old, and leaves expenses and debts alone |
| HabitStore.NewHabit | src/context/HabitContext.jsx:22-30 | the defaults (fresh id, now, streak 0, no dates) with the draft's fields spread over them |
| HabitStore.PlainDraftDefaults | src/context/HabitContext.jsx:22-30 | a draft with only name, colour and frequency gets the fresh id, streak 0 and no dates |
| HabitStore.ToggledHabit | src/context/HabitContext.jsx:32-61 | done today: today removed and the streak decreased but not below 0; else today appended and the streak increased; no other day or field changes |
| HabitStore.StreakNonNegative | src/context/HabitContext.jsx:47 | un-checking never leaves a negative streak; checking keeps a non-negative one |
| HabitStore.ToggleTwiceFromUndone | src/context/HabitContext.jsx:40-51 | checking then un-checking today restores the habit exactly |
| HabitStore.ToggleTwiceFromDone | src/context/HabitContext.jsx:40-51 | un-checking then re-checking keeps the same days, today last, and the streak (at least 1) |
| HabitStore.ToggleHabits | src/context/HabitContext.jsx:34-60 | only habits with the id are toggled |
| HabitStore.HabitList.constructor | src/context/HabitContext.jsx:12-16 | the store starts empty |
| HabitStore.HabitList.AddHabit | src/context/HabitContext.jsx:22-30 | appends the new habit; non-negative streaks stay so when the draft's streak is not negative |
| HabitStore.HabitList.ToggleHabit | src/context/HabitContext.jsx:32-61 | replaces the habits by their toggled copy; non-negative streaks stay non-negative |
| HabitStore.HabitList.DeleteHabit | src/context/HabitContext.jsx:63-65 | replaces the habits by their filtered copy |
| TaskListView.FilteredTasks | src/components/tasklist/TaskListDashboard.jsx:39-44 | exactly the tasks matching every filter that is not "all" |
| TaskListView.AllFiltersShowEverything | src/components/tasklist/TaskListDashboard.jsx:39-44 | with all filters on "all" every task is shown |
| TaskListView.FilteredKeepsOrder | src/components/tasklist/TaskListDashboard.jsx:39-44 | shown tasks keep the stored order |
| TaskListView.CategoryFilterHidesUncategorised | src/components/tasklist/TaskListDashboard.jsx:42 | a category filter never shows a task without a category |
| TaskListView.IsOverdue | src/components/tasklist/TaskListDashboard.jsx:61-64 | false without a due date, else due strictly before today |
| TaskListView.OverdueMarkerMatchesStats | src/components/tasklist/TaskListDashboard.jsx:61-64 | on unfinished tasks the row marker agrees with the store's overdue count |
| TaskListView.CategoryInfo | src/components/tasklist/TaskListDashboard.jsx:66-68 | the first category with the id, else "None" without emoji |
| TaskListView.PriorityInfo | src/components/tasklist/TaskListDashboard.jsx:70-72 | the first priority with the id, else "Medium" in yellow |
| TaskListView.StatusInfo | src/components/tasklist/TaskListDashboard.jsx:74-76 | the first status with the id, else "Not Started" with a warning sign |
| TaskListView.LookupFound | src/components/tasklist/TaskListDashboard.jsx:66-68 | a listed category id shows that category |
| TaskListView.DeletedCategoryShowsNone | src/components/tasklist/TaskListDashboard.jsx:66-68 | after deleting a category, tasks still carrying its id show "None" |
| TaskListView.UnknownStatusFallback | src/components/tasklist/TaskListDashboard.jsx:74-76 | an unlisted status shows "Not Started" |
| TaskListView.StatusChoice | src/components/tasklist/TaskListDashboard.jsx:275-278 | the drop-down sends the status and `completed` exactly when it is "done", nothing else |
| TaskListView.StatusChoiceCouples | src/components/tasklist/TaskListDashboard.jsx:275-278 | after a choice the completion flag agrees with the status; nothing else changes |
| TaskListView.DefaultForm | src/components/tasklist/TaskListDashboard.jsx:26-33 | empty text and note, due today, "medium", "not-started", the first category or "" |
| TaskListView.SubmitTask | src/components/tasklist/TaskListDashboard.jsx:46-59 | a blank text sends nothing and keeps the form; else the form is sent and reset |
| TaskListView.SubmitTaskGuard | src/components/tasklist/TaskListDashboard.jsx:46-59 | nothing is sent exactly when the text is all white space; a sent text is untrimmed |
| TaskListView.SubmittedDefaultsReachStore | src/components/tasklist/TaskListDashboard.jsx:26-33 | a submitted default form becomes a medium, not-started task in the first category, due today |
| FinanceView.PadRows | src/components/finance/FinanceDashboard.jsx:46-59 | the stored rows in order, then blank rows up to the shown count |
| FinanceView.DisplayedTables | src/components/finance/FinanceDashboard.jsx:46-59 | income and debt tables padded to 10 rows, expenses to 12, stored rows first |
| FinanceView.EditPaddingRow | src/components/finance/FinanceDashboard.jsx:356 | editing a blank padding row appends the edit after the stored rows, whatever its position |
| FinanceView.EditStoredRow | src/components/finance/FinanceDashboard.jsx:356 | editing a stored row edits it in place |
| FinanceView.PlanActualData | src/components/finance/FinanceDashboard.jsx:62-65 | one bar pair for income and one for expenses |
| FinanceView.SubmitCategory | src/components/finance/FinanceDashboard.jsx:67-86 | a blank input changes nothing; else the trimmed text is added and the input cleared |
| FinanceView.SubmitCategoryGuard | src/components/finance/FinanceDashboard.jsx:67-86 | white space only changes nothing; an added name has no white space at its ends; the list stays duplicate-free |
| HabitView.FlattenPush | src/components/habits/HabitDashboard.jsx:46-52 | closing a week appends its days |
| HabitView.PushWeek | src/components/habits/HabitDashboard.jsx:46-52 | closing a week on a day with `dayOfWeek` 6, or the last week, keeps the cut well formed |
| HabitView.GroupWeeks | src/components/habits/HabitDashboard.jsx:41-52 | the weeks hold the month's days in order, each non-empty and numbered 1, 2, ...; a day with `dayOfWeek` 6 always ends its week |
| HabitView.WellCutShape | src/components/habits/HabitDashboard.jsx:47-51 | every week but the last ends on a day with `dayOfWeek` 6, and no such day sits inside a week |
| HabitView.ChartData | src/components/habits/HabitDashboard.jsx:55-58 | one point per month day with that day's percentage |
| HabitView.OrZero | src/components/habits/HabitDashboard.jsx:65-66 | `value \|\| 0` |
| HabitView.MentalStateData | src/components/habits/HabitDashboard.jsx:61-68 | one point per month day, missing values as 0 |
| HabitView.UnrecordedDayPlotsZero | src/components/habits/HabitDashboard.jsx:61-68 | a day without a record plots 0 on both curves |
| HabitView.SubmitHabit | src/components/habits/HabitDashboard.jsx:73-79 | a blank name sends nothing; else the trimmed name and emoji are sent and the form reset to the pushpin |
| HabitView.SubmitHabitGuard | src/components/habits/HabitDashboard.jsx:73-79 | nothing is sent exactly when the name is all white space; a sent name has no white space at its ends |
| HabitView.BarWidth | src/components/habits/HabitDashboard.jsx:335 | `Math.min(percentage, 100)` |
| ProgressChart.DayCount | src/components/weekly/ProgressChart.jsx:21-26 | a date occurs at most as often as there are dates |
| ProgressChart.FindBucket | src/components/weekly/ProgressChart.jsx:22 | the first bucket with the date, or -1 when none has it |
| ProgressChart.LastSevenDays | src/components/weekly/ProgressChart.jsx:10-30 | seven buckets, today-6 to today in order, each counting the completed-date entries equal to its date |
| ProgressChart.Render | src/components/weekly/ProgressChart.jsx:32 | nothing exactly when there are no habits, else the seven counts |
| ProgressChart.WindowCountStep | src/components/weekly/ProgressChart.jsx:21-26 | one more date adds 1 to the window count exactly when it falls in the window |
| ProgressChart.WindowCountBound | src/components/weekly/ProgressChart.jsx:21-26 | the days of a window together count each date at most once |
| ProgressChart.WindowOfNoDates | src/components/weekly/ProgressChart.jsx:11-18 | without dates every bucket is 0 |
| ProgressChart.WindowOccurrencesStep | src/components/weekly/ProgressChart.jsx:20-27 | one more habit adds its window count |
| ProgressChart.WindowAtMostTotal | src/components/weekly/ProgressChart.jsx:20-27 | the window counts together never exceed the number of completed-date entries |
| ProgressChart.WindowOfNoHabits | src/components/weekly/ProgressChart.jsx:11-18 | without habits every bucket is 0 |
| ProgressChart.ChartTotalBound | src/components/weekly/ProgressChart.jsx:10-30 | the seven bars sum to at most the number of completed-date entries |

## Left out

- Persistence: loading from and saving to `localStorage` (and merging a saved object over the defaults) is not modelled; every store starts from its initial state.
- The clock, `crypto.randomUUID()` and `toISOString()` are parameters (`today`, `now`, `freshId`). The `AddTask`/`AddHabit`/`AddCategory` methods that keep ids unique require the fresh id to be unused, as a random UUID is in practice.
- Dates: `date-fns` formatting and parsing, time zones, and malformed date strings are not modelled; a date is a day number and a month a `MonthKey`. So `SetMonth` accepts only well-formed months, and `Weekday` stands for the `EEE` label.
- Common.RoundPercent: computes the rounding exactly, where the source rounds `(c / t) * 100` in floating point; the two can differ where the floating-point product lands just below a `.5`.
- Floating point: amounts are `real`, not IEEE doubles, so the sums are exact and no rounding error is modelled.
- JsNumber.DecimalPrefix: reads sign, digits, '.' and digits only; exponents, `Infinity` and hexadecimal, binary and octal literals are not read. What follows differs by conversion. `ParseFloat` stops at the `e` and reads the mantissa, so a number cell holding "1e3" adds 1 to the `getStats` sums where JavaScript adds 1000. `ParseFloat("Infinity")` is NaN and adds 0 where JavaScript adds Infinity. `NumberOf` of any such text ("1e3", "Infinity", "0x10", "0b1", "0o7") is NaN, so a row whose actual is written that way fails the `actual > 0` test and is left out of `GroupBySource`, where JavaScript includes it.
- FinanceStore.GroupBySource: returns sources in first-appearance order. A JavaScript object lists integer-like keys (such as "2024") first in numeric order, and a key like `__proto__`, or an inherited name such as `toString` or `constructor`, starts from an inherited value instead of 0 (for the functions, `(categories[name] || 0) + parseFloat(actual)` concatenates the function's text with the number); none of this is modelled.
- FinanceStore.FinanceTracker.UpdateIncome: the index is a `nat`; a negative index, which the dashboards never pass, is not modelled. The same holds for `UpdateExpense` and `UpdateDebt`.
- WeeklyStore.SetSlot: writing past the end of a note section fills the gap with empty strings, where JavaScript leaves holes that display as empty.
- Stale closures: `addTask` of the task list reads `state.categories`, and `add*Category` of the finance store checks `state`, where the update itself starts from `prev`. Actions are modelled one at a time, so the two agree; interleaved React updates are not modelled.
- The monthly habit dashboard reads `currentMonth`, `getMonthDays`, `getMonthStats`, `getDayStats`, `getMentalState`, `getYearlyStats` and more from the habit context. The provider (`src/context/HabitContext.jsx:68`) supplies only `habits`, `addHabit`, `toggleHabit` and `deleteHabit`, so the first of these calls (`getMonthDays()`, `HabitDashboard.jsx:36`) throws on the first render. The results of these calls are therefore inputs to `HabitView`: `MonthDay.dayOfWeek` is an uninterpreted number, and the yearly statistics are not modelled.
- HabitView.SubmitHabit: models what the form hands over, `(trimmed name, emoji)`. The store's `addHabit(habit)` takes one object and spreads it, so the dashboard's `addHabit(name, emoji)` would create a habit whose fields are the name's characters under index keys, with no `name` field. That call is not modelled as reaching `HabitStore`.
- HabitStore.HabitDraft: always carries a name, a colour and a frequency (as `src/components/AddHabitModal.jsx` sends them); extra fields of an arbitrary spread object are not modelled.
- TaskListView.CategoryInfo: takes the task's category as an option, since a task added while no category existed has none.
- Presentation: JSX layout, styling, modals, `toFixed` formatting, the circular-progress geometry and the charting library are not modelled.
