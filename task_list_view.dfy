/** The derivations of the task-list dashboard
    (`src/components/tasklist/TaskListDashboard.jsx`): the filter bar, the
    overdue marker, lookups with fallbacks, the status drop-down and the add form. */
module TaskListView {
  import opened Common
  import opened TaskListStore

  /** The filter value that lets every task through. */
  const All: string := "all"

  /** The `filteredTasks` predicate: every filter is either "all" or equal to the task's field. */
  predicate MatchesFilters(t: Task, priority: string, status: string, category: string)
  {
    && (priority == All || t.priority == priority)
    && (status == All || t.status == status)
    && (category == All || t.category == Some(category))
  }

  /** `filteredTasks`. */
  function FilteredTasks(tasks: seq<Task>, priority: string, status: string, category: string): (r: seq<Task>)
    ensures forall i :: 0 <= i < |r| ==> r[i] in tasks && MatchesFilters(r[i], priority, status, category)
    ensures forall i :: 0 <= i < |tasks| && MatchesFilters(tasks[i], priority, status, category) ==> tasks[i] in r
  {
    Filter(tasks, (t: Task) => MatchesFilters(t, priority, status, category))
  }

  /** With every filter on "all" the whole list is shown. */
  lemma AllFiltersShowEverything(tasks: seq<Task>)
    ensures FilteredTasks(tasks, All, All, All) == tasks
  {
    FilterAll(tasks, (t: Task) => MatchesFilters(t, All, All, All));
  }

  /** The shown tasks keep the stored order. */
  lemma FilteredKeepsOrder(tasks: seq<Task>, priority: string, status: string, category: string)
    ensures IsSubsequence(FilteredTasks(tasks, priority, status, category), tasks)
  {
    FilterIsSubsequence(tasks, (t: Task) => MatchesFilters(t, priority, status, category));
  }

  /** A category filter never shows a task saved without a category. */
  lemma CategoryFilterHidesUncategorised(tasks: seq<Task>, priority: string, status: string, category: string)
    requires category != All
    ensures forall i :: 0 <= i < |FilteredTasks(tasks, priority, status, category)| ==>
              FilteredTasks(tasks, priority, status, category)[i].category.Some?
  {
  }

  /** `isOverdue`: false without a due date, else "due strictly before today". */
  function IsOverdue(dueDate: Option<Day>, today: Day): (b: bool)
    ensures dueDate.None? ==> !b
    ensures dueDate.Some? ==> (b <==> dueDate.value < today)
  {
    dueDate.Some? && dueDate.value < today
  }

  /** The row marker and the store's overdue count agree on unfinished tasks. */
  lemma OverdueMarkerMatchesStats(t: Task, today: Day)
    requires !t.completed
    ensures IsOverdue(t.dueDate, today) == IsOverdueTask(t, today)
  {
  }

  datatype CategoryLabel = CategoryLabel(name: string, emoji: string)
  datatype PriorityLabel = PriorityLabel(name: string, color: string)
  datatype StatusLabel = StatusLabel(name: string, icon: string)

  /** `getCategoryInfo`: the first category with the id, or "None" with no emoji. */
  function CategoryInfo(categories: seq<Category>, id: Option<Id>): (r: CategoryLabel)
    ensures var i := FindIndex(categories, (c: Category) => Some(c.id) == id);
            && (i < |categories| ==> r == CategoryLabel(categories[i].name, categories[i].emoji))
            && (i == |categories| ==> r == CategoryLabel("None", ""))
  {
    var i := FindIndex(categories, (c: Category) => Some(c.id) == id);
    if i < |categories| then CategoryLabel(categories[i].name, categories[i].emoji) else CategoryLabel("None", "")
  }

  /** `getPriorityInfo`: the first priority with the id, or "Medium" in yellow. */
  function PriorityInfo(priorities: seq<Priority>, id: Id): (r: PriorityLabel)
    ensures var i := FindIndex(priorities, (p: Priority) => p.id == id);
            && (i < |priorities| ==> r == PriorityLabel(priorities[i].name, priorities[i].color))
            && (i == |priorities| ==> r == PriorityLabel("Medium", "#fdd835"))
  {
    var i := FindIndex(priorities, (p: Priority) => p.id == id);
    if i < |priorities| then PriorityLabel(priorities[i].name, priorities[i].color) else PriorityLabel("Medium", "#fdd835")
  }

  /** `getStatusInfo`: the first status with the id, or "Not Started" with a warning sign. */
  function StatusInfo(statuses: seq<Status>, id: Id): (r: StatusLabel)
    ensures var i := FindIndex(statuses, (s: Status) => s.id == id);
            && (i < |statuses| ==> r == StatusLabel(statuses[i].name, statuses[i].icon))
            && (i == |statuses| ==> r == StatusLabel("Not Started", "\U{26A0}\U{FE0F}"))
  {
    var i := FindIndex(statuses, (s: Status) => s.id == id);
    if i < |statuses| then StatusLabel(statuses[i].name, statuses[i].icon) else StatusLabel("Not Started", "\U{26A0}\U{FE0F}")
  }

  /** A listed id yields the first entry that carries it. */
  lemma LookupFound(categories: seq<Category>, k: nat)
    requires k < |categories| && forall j :: 0 <= j < k ==> categories[j].id != categories[k].id
    ensures CategoryInfo(categories, Some(categories[k].id)) == CategoryLabel(categories[k].name, categories[k].emoji)
  {
    var i := FindIndex(categories, (c: Category) => Some(c.id) == Some(categories[k].id));
    assert i <= k;
  }

  /** A deleted category still referenced by a task is shown as "None". */
  lemma DeletedCategoryShowsNone(categories: seq<Category>, id: Id)
    ensures CategoryInfo(RemoveById(categories, CategoryId, id), Some(id)) == CategoryLabel("None", "")
  {
  }

  /** A status id that is not listed shows as "Not Started". */
  lemma UnknownStatusFallback(statuses: seq<Status>, id: Id)
    requires forall j :: 0 <= j < |statuses| ==> statuses[j].id != id
    ensures StatusInfo(statuses, id) == StatusLabel("Not Started", "\U{26A0}\U{FE0F}")
  {
  }

  /** The update the status drop-down sends: the chosen status, and `completed`
      exactly when it is "done". */
  function StatusChoice(status: Id): (p: TaskPatch)
    ensures p.status == Some(status) && p.completed == Some(status == "done")
    ensures p.text.None? && p.dueDate.None? && p.priority.None? && p.category.None? && p.note.None?
  {
    TaskPatch(None, None, None, Some(status), None, None, Some(status == "done"))
  }

  /** After a drop-down choice the task's completion flag agrees with its
      status, and nothing else about the task changes. */
  lemma StatusChoiceCouples(t: Task, status: Id)
    ensures MergeTask(t, StatusChoice(status)).status == status
    ensures MergeTask(t, StatusChoice(status)).completed == (status == "done")
    ensures MergeTask(t, StatusChoice(status)).(status := t.status, completed := t.completed) == t
  {
  }

  /** The add form's fresh state: due today, medium, not started, the first
      category (or "" when there is none). */
  function DefaultForm(today: Day, categories: seq<Category>): (f: TaskDraft)
    ensures f.text == "" && f.dueDate == Some(today) && f.note == ""
    ensures f.priority == "medium" && f.status == "not-started"
    ensures f.category == (if categories != [] then categories[0].id else "")
  {
    TaskDraft("", Some(today), "medium", "not-started", if categories != [] then categories[0].id else "", "")
  }

  /** `handleAddTask`: what is passed to `addTask` (if anything) and the form afterwards. */
  datatype Submission = Submission(sent: Option<TaskDraft>, form: TaskDraft)

  function SubmitTask(form: TaskDraft, today: Day, categories: seq<Category>): (s: Submission)
    ensures Trim(form.text) == [] ==> s == Submission(None, form)
    ensures Trim(form.text) != [] ==> s == Submission(Some(form), DefaultForm(today, categories))
  {
    if Trim(form.text) != [] then Submission(Some(form), DefaultForm(today, categories)) else Submission(None, form)
  }

  /** A text made only of white space sends nothing and keeps the form; any
      other text is sent as typed, surrounding spaces included. */
  lemma SubmitTaskGuard(form: TaskDraft, today: Day, categories: seq<Category>)
    ensures SubmitTask(form, today, categories).sent.None? <==> forall i :: 0 <= i < |form.text| ==> IsSpace(form.text[i])
    ensures SubmitTask(form, today, categories).sent.Some? ==> SubmitTask(form, today, categories).sent.value.text == form.text
  {
    TrimEmptyIff(form.text);
  }

  /** A submitted form with its defaults untouched becomes a task with the
      form's priority and status and the first category. */
  lemma SubmittedDefaultsReachStore(text: string, today: Day, categories: seq<Category>, id: Id, now: int)
    requires categories != []
    ensures var t := NewTask(DefaultForm(today, categories).(text := text), categories, id, now);
            t.priority == "medium" && t.status == "not-started" && t.dueDate == Some(today)
            && t.category == Some(categories[0].id) && t.text == text && !t.completed
  {
  }
}
