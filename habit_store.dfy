/** The streak-counting habit store (`src/context/HabitContext.jsx`): a list of
    habits, each with the dates it was done and a streak counter. */
module HabitStore {
  import opened Common

  datatype Habit = Habit(
    id: Id,
    createdAt: int,
    streak: int,
    completedDates: seq<Day>,
    name: string,
    color: string,
    frequency: string)

  /** The object passed to `addHabit`. Its fields are spread over the defaults,
      so a present `id`, `createdAt`, `streak` or `completedDates` wins. */
  datatype HabitDraft = HabitDraft(
    id: Option<Id>,
    createdAt: Option<int>,
    streak: Option<int>,
    completedDates: Option<seq<Day>>,
    name: string,
    color: string,
    frequency: string)

  /** The habit `addHabit` appends; `freshId` and `now` stand for
      `crypto.randomUUID()` and the clock. */
  function NewHabit(draft: HabitDraft, freshId: Id, now: int): (h: Habit)
    ensures h.id == (if draft.id.Some? then draft.id.value else freshId)
    ensures h.createdAt == (if draft.createdAt.Some? then draft.createdAt.value else now)
    ensures h.streak == (if draft.streak.Some? then draft.streak.value else 0)
    ensures h.completedDates == (if draft.completedDates.Some? then draft.completedDates.value else [])
    ensures h.name == draft.name && h.color == draft.color && h.frequency == draft.frequency
  {
    Habit(if draft.id.Some? then draft.id.value else freshId,
          if draft.createdAt.Some? then draft.createdAt.value else now,
          if draft.streak.Some? then draft.streak.value else 0,
          if draft.completedDates.Some? then draft.completedDates.value else [],
          draft.name, draft.color, draft.frequency)
  }

  /** A draft that only names the habit (as the add form sends it) starts with
      no streak and no completed dates. */
  lemma PlainDraftDefaults(name: string, color: string, frequency: string, freshId: Id, now: int)
    ensures var h := NewHabit(HabitDraft(None, None, None, None, name, color, frequency), freshId, now);
            h.id == freshId && h.streak == 0 && h.completedDates == []
  {
  }

  /** One habit after `toggleHabit` on the day `today`: done today means the day
      is removed and the streak drops by one but not below 0; otherwise the day
      is appended and the streak grows by one. */
  function ToggledHabit(h: Habit, today: Day): (r: Habit)
    ensures today in h.completedDates ==> today !in r.completedDates && r.streak == (if h.streak > 0 then h.streak - 1 else 0)
    ensures today !in h.completedDates ==> r.completedDates == h.completedDates + [today] && r.streak == h.streak + 1
    ensures forall d :: d != today ==> (d in r.completedDates <==> d in h.completedDates)
    ensures r.(completedDates := h.completedDates, streak := h.streak) == h
  {
    if today in h.completedDates then
      h.(completedDates := Filter(h.completedDates, (d: Day) => d != today),
         streak := if h.streak - 1 > 0 then h.streak - 1 else 0)
    else
      h.(completedDates := h.completedDates + [today], streak := h.streak + 1)
  }

  /** The streak is never negative after un-checking, and stays non-negative
      after checking when it was. */
  lemma StreakNonNegative(h: Habit, today: Day)
    ensures today in h.completedDates ==> ToggledHabit(h, today).streak >= 0
    ensures h.streak >= 0 ==> ToggledHabit(h, today).streak >= 0
  {
  }

  /** Checking and then un-checking a habit not done today restores it exactly. */
  lemma ToggleTwiceFromUndone(h: Habit, today: Day)
    requires today !in h.completedDates && h.streak >= 0
    ensures ToggledHabit(ToggledHabit(h, today), today) == h
  {
    var dates := h.completedDates + [today];
    FilterAll(h.completedDates, (d: Day) => d != today);
    assert Filter(dates, (d: Day) => d != today) == Filter(h.completedDates, (d: Day) => d != today) by {
      assert dates[..|dates| - 1] == h.completedDates;
    }
  }

  /** Un-checking and then re-checking a habit done today keeps the same set of
      days (today moves to the end) and gives back the streak when it was positive. */
  lemma ToggleTwiceFromDone(h: Habit, today: Day)
    requires today in h.completedDates
    ensures var r := ToggledHabit(ToggledHabit(h, today), today);
            && (forall d :: d in r.completedDates <==> d in h.completedDates)
            && r.completedDates[|r.completedDates| - 1] == today
            && r.streak == (if h.streak > 0 then h.streak else 1)
  {
  }

  /** The `map` of `toggleHabit`: only habits with the id change. */
  function ToggleHabits(habits: seq<Habit>, id: Id, today: Day): (r: seq<Habit>)
    ensures |r| == |habits|
    ensures forall i :: 0 <= i < |habits| && habits[i].id == id ==> r[i] == ToggledHabit(habits[i], today)
    ensures forall i :: 0 <= i < |habits| && habits[i].id != id ==> r[i] == habits[i]
  {
    if habits == [] then []
    else
      var h := habits[|habits| - 1];
      ToggleHabits(habits[..|habits| - 1], id, today) + [if h.id == id then ToggledHabit(h, today) else h]
  }

  function HabitId(h: Habit): Id { h.id }

  /** Every streak is non-negative. */
  ghost predicate StreaksNonNegative(habits: seq<Habit>)
  {
    forall i :: 0 <= i < |habits| ==> habits[i].streak >= 0
  }

  /** The `HabitProvider`'s state. */
  class HabitList {
    var habits: seq<Habit>

    /** A store that loaded nothing. */
    constructor ()
      ensures habits == []
    {
      habits := [];
    }

    method AddHabit(draft: HabitDraft, freshId: Id, now: int)
      modifies this
      ensures habits == old(habits) + [NewHabit(draft, freshId, now)]
      ensures old(StreaksNonNegative(habits)) && (draft.streak.None? || draft.streak.value >= 0) ==> StreaksNonNegative(habits)
    {
      habits := habits + [NewHabit(draft, freshId, now)];
    }

    /** `toggleHabit`, with `today` the clock's current day. */
    method ToggleHabit(id: Id, today: Day)
      modifies this
      ensures habits == ToggleHabits(old(habits), id, today)
      ensures old(StreaksNonNegative(habits)) ==> StreaksNonNegative(habits)
    {
      var before := habits;
      habits := ToggleHabits(habits, id, today);
      forall i | 0 <= i < |before| && before[i].id == id
        ensures habits[i].streak >= 0 || before[i].streak < 0
      {
        StreakNonNegative(before[i], today);
      }
    }

    method DeleteHabit(id: Id)
      modifies this
      ensures habits == RemoveById(old(habits), HabitId, id)
      ensures old(StreaksNonNegative(habits)) ==> StreaksNonNegative(habits)
    {
      habits := RemoveById(habits, HabitId, id);
      assert forall i :: 0 <= i < |habits| ==> habits[i] in old(habits);
    }
  }
}
