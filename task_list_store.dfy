/** The task-list store (`src/context/TaskListContext.jsx`): seed tables of
    categories, priorities and statuses, and an ordered list of tasks. */
module TaskListStore {
  import opened Common

  datatype Category = Category(id: Id, name: string, emoji: string)
  datatype Priority = Priority(id: Id, name: string, color: string)
  datatype Status = Status(id: Id, name: string, icon: string)

  /** A stored task. `category` is absent when the task was added while no
      category existed; `createdAt` is the clock reading at creation. */
  datatype Task = Task(
    id: Id,
    text: string,
    dueDate: Option<Day>,
    priority: Id,
    status: Id,
    category: Option<Id>,
    note: string,
    completed: bool,
    createdAt: int)

  /** What a caller of `addTask` passes; the empty string stands for a falsy field. */
  datatype TaskDraft = TaskDraft(
    text: string,
    dueDate: Option<Day>,
    priority: string,
    status: string,
    category: string,
    note: string)

  /** The `updates` object of `updateTask`: only the present fields are written. */
  datatype TaskPatch = TaskPatch(
    text: Option<string>,
    dueDate: Option<Option<Day>>,
    priority: Option<Id>,
    status: Option<Id>,
    category: Option<Id>,
    note: Option<string>,
    completed: Option<bool>)

  datatype TaskListRecord = TaskListRecord(
    isSetupComplete: bool,
    categories: seq<Category>,
    priorities: seq<Priority>,
    statuses: seq<Status>,
    tasks: seq<Task>)

  const DefaultCategories: seq<Category> := [
    Category("1", "Health", "\U{1F4AA}"),
    Category("2", "Work", "\U{1F4BC}"),
    Category("3", "Money", "\U{1F4B0}"),
    Category("4", "Family", "\U{1F468}\U{200D}\U{1F469}\U{200D}\U{1F467}"),
    Category("5", "Personal Growth", "\U{1F4DA}"),
    Category("6", "Chores", "\U{1F9F9}"),
    Category("7", "Ideas", "\U{1F4A1}"),
    Category("8", "Leisure", "\U{1F3AE}"),
    Category("9", "Spirituality", "\U{1F9D8}")
  ]

  const DefaultPriorities: seq<Priority> := [
    Priority("high", "High", "#e53935"),
    Priority("medium", "Medium", "#fdd835"),
    Priority("low", "Low", "#1e88e5"),
    Priority("optional", "Optional", "#9e9e9e")
  ]

  const DefaultStatuses: seq<Status> := [
    Status("done", "Done", "\U{2705}"),
    Status("in-progress", "In Progress", "\U{270F}\U{FE0F}"),
    Status("not-started", "Not Started", "\U{26A0}\U{FE0F}"),
    Status("canceled", "Canceled", "\U{274C}")
  ]

  const InitialRecord: TaskListRecord := TaskListRecord(false, DefaultCategories, DefaultPriorities, DefaultStatuses, [])

  function CategoryId(c: Category): Id { c.id }

  function TaskId(t: Task): Id { t.id }

  /** Task ids and category ids are unique. */
  ghost predicate UniqueIds(r: TaskListRecord)
  {
    DistinctKeys(r.tasks, TaskId) && DistinctKeys(r.categories, CategoryId)
  }

  /** The seed tables have unique ids, and the first seeded category is "1". */
  lemma SeedTables()
    ensures UniqueIds(InitialRecord)
    ensures DistinctKeys(DefaultPriorities, (p: Priority) => p.id)
    ensures DistinctKeys(DefaultStatuses, (s: Status) => s.id)
    ensures InitialRecord.categories[0].id == "1"
  {
  }

  /** The task `addTask` appends: the draft with its defaults filled in. */
  function NewTask(draft: TaskDraft, categories: seq<Category>, id: Id, now: int): (t: Task)
    ensures t.id == id && t.text == draft.text && t.dueDate == draft.dueDate && t.createdAt == now
    ensures !t.completed
    ensures t.priority == (if draft.priority == "" then "medium" else draft.priority)
    ensures t.status == (if draft.status == "" then "not-started" else draft.status)
    ensures t.note == draft.note
    ensures draft.category != "" ==> t.category == Some(draft.category)
    ensures draft.category == "" && categories != [] ==> t.category == Some(categories[0].id)
    ensures draft.category == "" && categories == [] ==> t.category == None
  {
    Task(id, draft.text, draft.dueDate,
         if draft.priority == "" then "medium" else draft.priority,
         if draft.status == "" then "not-started" else draft.status,
         if draft.category != "" then Some(draft.category)
         else if categories != [] then Some(categories[0].id) else None,
         draft.note, false, now)
  }

  /** `{ ...task, ...updates }`. */
  function MergeTask(t: Task, p: TaskPatch): (r: Task)
    ensures r.id == t.id && r.createdAt == t.createdAt
    ensures r.text == (if p.text.Some? then p.text.value else t.text)
    ensures r.dueDate == (if p.dueDate.Some? then p.dueDate.value else t.dueDate)
    ensures r.priority == (if p.priority.Some? then p.priority.value else t.priority)
    ensures r.status == (if p.status.Some? then p.status.value else t.status)
    ensures r.category == (if p.category.Some? then Some(p.category.value) else t.category)
    ensures r.note == (if p.note.Some? then p.note.value else t.note)
    ensures r.completed == (if p.completed.Some? then p.completed.value else t.completed)
  {
    Task(t.id,
         if p.text.Some? then p.text.value else t.text,
         if p.dueDate.Some? then p.dueDate.value else t.dueDate,
         if p.priority.Some? then p.priority.value else t.priority,
         if p.status.Some? then p.status.value else t.status,
         if p.category.Some? then Some(p.category.value) else t.category,
         if p.note.Some? then p.note.value else t.note,
         if p.completed.Some? then p.completed.value else t.completed,
         t.createdAt)
  }

  /** `updateTask`'s `map`: merges the patch into the tasks with `id`, and only those. */
  function UpdateTasks(tasks: seq<Task>, id: Id, p: TaskPatch): (r: seq<Task>)
    ensures |r| == |tasks|
    ensures forall i :: 0 <= i < |tasks| && tasks[i].id == id ==> r[i] == MergeTask(tasks[i], p)
    ensures forall i :: 0 <= i < |tasks| && tasks[i].id != id ==> r[i] == tasks[i]
  {
    if tasks == [] then []
    else
      var t := tasks[|tasks| - 1];
      UpdateTasks(tasks[..|tasks| - 1], id, p) + [if t.id == id then MergeTask(t, p) else t]
  }

  /** Updating an id no task has leaves the list as it was. */
  lemma UpdateUnknownId(tasks: seq<Task>, id: Id, p: TaskPatch)
    requires forall i :: 0 <= i < |tasks| ==> tasks[i].id != id
    ensures UpdateTasks(tasks, id, p) == tasks
  {
  }

  /** One task after `toggleTaskComplete`: `completed` flips and `status` follows it. */
  function ToggleComplete(t: Task): (r: Task)
    ensures r.completed == !t.completed
    ensures r.status == (if r.completed then "done" else "not-started")
    ensures r.(completed := t.completed, status := t.status) == t
  {
    t.(completed := !t.completed, status := if !t.completed then "done" else "not-started")
  }

  /** `toggleTaskComplete`'s `map`. */
  function ToggledTasks(tasks: seq<Task>, id: Id): (r: seq<Task>)
    ensures |r| == |tasks|
    ensures forall i :: 0 <= i < |tasks| && tasks[i].id == id ==> r[i] == ToggleComplete(tasks[i])
    ensures forall i :: 0 <= i < |tasks| && tasks[i].id != id ==> r[i] == tasks[i]
  {
    if tasks == [] then []
    else
      var t := tasks[|tasks| - 1];
      ToggledTasks(tasks[..|tasks| - 1], id) + [if t.id == id then ToggleComplete(t) else t]
  }

  /** Toggling is lossy on the status: an unfinished "in-progress" task becomes
      "done", and toggling it back gives "not-started", not "in-progress". */
  lemma ToggleForgetsInProgress(t: Task)
    requires !t.completed && t.status == "in-progress"
    ensures ToggleComplete(t).completed && ToggleComplete(t).status == "done"
    ensures !ToggleComplete(ToggleComplete(t)).completed
    ensures ToggleComplete(ToggleComplete(t)).status == "not-started"
    ensures ToggleComplete(ToggleComplete(t)) != t
  {
  }

  /** Toggling twice restores the task exactly when its status already agreed
      with its completion flag. */
  lemma ToggleTwice(t: Task)
    ensures ToggleComplete(ToggleComplete(t)) == t <==>
              t.status == (if t.completed then "done" else "not-started")
  {
  }

  // ---------------------------------------------------------------- statistics

  datatype TaskListStats = TaskListStats(total: nat, completed: nat, today: nat, overdue: nat, notCompleted: nat, percentage: nat)

  /** The overdue test of `getStats`: not done, and due strictly before today. */
  predicate IsOverdueTask(t: Task, today: Day)
  {
    !t.completed && t.dueDate.Some? && t.dueDate.value < today
  }

  /** `getStats` against the day `today`. */
  function StatsOf(tasks: seq<Task>, today: Day): (s: TaskListStats)
    ensures s.total == |tasks|
    ensures s.completed + s.notCompleted == s.total
    ensures s.overdue <= s.notCompleted
    ensures s.today + s.overdue <= s.total
    ensures s.percentage <= 100 && (s.total == 0 ==> s.percentage == 0)
    ensures s.total > 0 ==> 2 * s.total * s.percentage <= 200 * s.completed + s.total < 2 * s.total * (s.percentage + 1)
    ensures s.completed == Count(tasks, (t: Task) => t.completed)
    ensures s.today == Count(tasks, (t: Task) => t.dueDate == Some(today))
    ensures s.overdue == Count(tasks, (t: Task) => IsOverdueTask(t, today))
  {
    var done := (t: Task) => t.completed;
    var notDone := (t: Task) => !t.completed;
    var dueToday := (t: Task) => t.dueDate == Some(today);
    var overdue := (t: Task) => IsOverdueTask(t, today);
    CountComplement(tasks, done, notDone);
    CountMono(tasks, overdue, notDone);
    CountDisjoint(tasks, dueToday, overdue);
    var completed := Count(tasks, done);
    TaskListStats(|tasks|, completed, Count(tasks, dueToday), Count(tasks, overdue),
                  Count(tasks, notDone), RoundPercent(completed, |tasks|))
  }

  /** A task due today is never overdue. */
  lemma DueTodayNotOverdue(t: Task, today: Day)
    requires t.dueDate == Some(today)
    ensures !IsOverdueTask(t, today)
  {
  }

  // ---------------------------------------------------------------- the store

  /** The `TaskListProvider`: holds the record and replaces it on every operation. */
  class TaskList {
    var state: TaskListRecord

    ghost predicate Valid()
      reads this
    {
      UniqueIds(state)
    }

    /** A store that loaded nothing: the seeded default record. */
    constructor ()
      ensures state == InitialRecord && Valid()
    {
      state := InitialRecord;
      SeedTables();
    }

    method CompleteSetup()
      requires Valid()
      modifies this
      ensures Valid()
      ensures state == old(state).(isSetupComplete := true)
    {
      state := state.(isSetupComplete := true);
    }

    /** `addTask`: `freshId` stands for `crypto.randomUUID()`, `now` for the clock. */
    method AddTask(draft: TaskDraft, freshId: Id, now: int)
      requires Valid()
      requires forall t :: t in state.tasks ==> t.id != freshId
      modifies this
      ensures Valid()
      ensures state == old(state).(tasks := old(state).tasks + [NewTask(draft, old(state).categories, freshId, now)])
    {
      var tasks := state.tasks + [NewTask(draft, state.categories, freshId, now)];
      assert DistinctKeys(tasks, TaskId) by {
        forall i, j | 0 <= i < j < |tasks| ensures tasks[i].id != tasks[j].id {
          if j == |state.tasks| {
            assert tasks[i] in state.tasks;
          } else {
            assert tasks[i] == state.tasks[i] && tasks[j] == state.tasks[j];
          }
        }
      }
      state := state.(tasks := tasks);
    }

    method UpdateTask(taskId: Id, updates: TaskPatch)
      requires Valid()
      modifies this
      ensures Valid()
      ensures state == old(state).(tasks := UpdateTasks(old(state).tasks, taskId, updates))
    {
      state := state.(tasks := UpdateTasks(state.tasks, taskId, updates));
    }

    method ToggleTaskComplete(taskId: Id)
      requires Valid()
      modifies this
      ensures Valid()
      ensures state == old(state).(tasks := ToggledTasks(old(state).tasks, taskId))
    {
      state := state.(tasks := ToggledTasks(state.tasks, taskId));
    }

    method DeleteTask(taskId: Id)
      requires Valid()
      modifies this
      ensures Valid()
      ensures state == old(state).(tasks := RemoveById(old(state).tasks, TaskId, taskId))
    {
      RemoveByIdKeepsOrder(state.tasks, TaskId, taskId);
      state := state.(tasks := RemoveById(state.tasks, TaskId, taskId));
    }

    method AddCategory(name: string, emoji: string, freshId: Id)
      requires Valid()
      requires forall c :: c in state.categories ==> c.id != freshId
      modifies this
      ensures Valid()
      ensures state == old(state).(categories := old(state).categories + [Category(freshId, name, emoji)])
    {
      var categories := state.categories + [Category(freshId, name, emoji)];
      assert DistinctKeys(categories, CategoryId) by {
        forall i, j | 0 <= i < j < |categories| ensures categories[i].id != categories[j].id {
          if j == |state.categories| {
            assert categories[i] in state.categories;
          } else {
            assert categories[i] == state.categories[i] && categories[j] == state.categories[j];
          }
        }
      }
      state := state.(categories := categories);
    }

    /** `deleteCategory`: tasks that referred to the category keep the stale id. */
    method DeleteCategory(categoryId: Id)
      requires Valid()
      modifies this
      ensures Valid()
      ensures state == old(state).(categories := RemoveById(old(state).categories, CategoryId, categoryId))
      ensures state.tasks == old(state).tasks
    {
      RemoveByIdKeepsOrder(state.categories, CategoryId, categoryId);
      state := state.(categories := RemoveById(state.categories, CategoryId, categoryId));
    }
  }
}
