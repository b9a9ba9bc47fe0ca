/** The derivations of the monthly habit dashboard
    (`src/components/habits/HabitDashboard.jsx`). The month's days, the day
    percentages and the mood records come from store functions that
    `src/context/HabitContext.jsx` does not define, so they are inputs here. */
module HabitView {
  import opened Common

  /** One entry of `getMonthDays()`: day of month, date, and a day-of-week number.
      No store defines `getMonthDays`, so the meaning of the number is unknown;
      the week cut only tests it against 6. */
  datatype MonthDay = MonthDay(day: int, date: Day, dayOfWeek: int)

  datatype Week = Week(week: int, days: seq<MonthDay>)

  /** The days of `ws`, week after week. */
  function Flatten(ws: seq<Week>): seq<MonthDay>
  {
    if ws == [] then [] else Flatten(ws[..|ws| - 1]) + ws[|ws| - 1].days
  }

  /** Every week but possibly the last closes on a day with `dayOfWeek` 6, and
      no such day sits anywhere but last in its week. */
  ghost predicate WellCut(ws: seq<Week>, lastOpen: bool)
  {
    && (forall w :: 0 <= w < |ws| ==> ws[w].days != [] && ws[w].week == w + 1)
    && (forall w :: 0 <= w < |ws| ==> ws[w].days[|ws[w].days| - 1].dayOfWeek == 6 || (lastOpen && w == |ws| - 1))
    && (forall w, j :: 0 <= w < |ws| && 0 <= j < |ws[w].days| - 1 ==> ws[w].days[j].dayOfWeek != 6)
  }

  lemma FlattenPush(ws: seq<Week>, w: Week)
    ensures Flatten(ws + [w]) == Flatten(ws) + w.days
  {
    assert (ws + [w])[..|ws|] == ws;
  }

  /** Closing a week that ends on a day with `dayOfWeek` 6, or the month's last
      week, keeps the cut well formed. */
  lemma PushWeek(ws: seq<Week>, days: seq<MonthDay>, lastOpen: bool)
    requires WellCut(ws, false)
    requires days != [] && (days[|days| - 1].dayOfWeek == 6 || lastOpen)
    requires forall j :: 0 <= j < |days| - 1 ==> days[j].dayOfWeek != 6
    ensures WellCut(ws + [Week(|ws| + 1, days)], lastOpen)
  {
    var ws' := ws + [Week(|ws| + 1, days)];
    assert forall w :: 0 <= w < |ws| ==> ws'[w] == ws[w];
  }

  /** The `forEach` that cuts the month into weeks: a day with `dayOfWeek` 6
      or the month's last day closes the current week. */
  method GroupWeeks(monthDays: seq<MonthDay>) returns (weeks: seq<Week>)
    ensures Flatten(weeks) == monthDays
    ensures WellCut(weeks, true)
  {
    weeks := [];
    var currentWeek := 1;
    var weekDays: seq<MonthDay> := [];
    for index := 0 to |monthDays|
      invariant Flatten(weeks) + weekDays == monthDays[..index]
      invariant currentWeek == |weeks| + 1
      invariant forall j :: 0 <= j < |weekDays| ==> weekDays[j].dayOfWeek != 6
      invariant WellCut(weeks, index == |monthDays|)
      invariant index == |monthDays| ==> weekDays == []
    {
      var day := monthDays[index];
      assert monthDays[..index + 1] == monthDays[..index] + [day];
      weekDays := weekDays + [day];
      if day.dayOfWeek == 6 || index == |monthDays| - 1 {
        PushWeek(weeks, weekDays, index + 1 == |monthDays|);
        FlattenPush(weeks, Week(currentWeek, weekDays));
        weeks := weeks + [Week(currentWeek, weekDays)];
        currentWeek := currentWeek + 1;
        weekDays := [];
      }
    }
    assert monthDays[..|monthDays|] == monthDays;
  }

  /** What a well-formed cut promises: weeks numbered 1, 2, ..., none empty,
      each but the last closing on a day with `dayOfWeek` 6, no such day before
      a week's end. */
  lemma WellCutShape(ws: seq<Week>)
    requires WellCut(ws, true)
    ensures forall w :: 0 <= w < |ws| ==> ws[w].days != [] && ws[w].week == w + 1
    ensures forall w :: 0 <= w < |ws| - 1 ==> ws[w].days[|ws[w].days| - 1].dayOfWeek == 6
    ensures forall w, j :: 0 <= w < |ws| && 0 <= j < |ws[w].days| - 1 ==> ws[w].days[j].dayOfWeek != 6
  {
  }

  datatype ChartPoint = ChartPoint(day: int, progress: int)

  /** `chartData`: one point per month day, in order; `percentageOn` stands for
      `getDayStats(date).percentage`. */
  function ChartData(monthDays: seq<MonthDay>, percentageOn: Day -> int): (r: seq<ChartPoint>)
    ensures |r| == |monthDays|
    ensures forall i :: 0 <= i < |r| ==> r[i] == ChartPoint(monthDays[i].day, percentageOn(monthDays[i].date))
  {
    seq(|monthDays|, i requires 0 <= i < |monthDays| => ChartPoint(monthDays[i].day, percentageOn(monthDays[i].date)))
  }

  /** A day's recorded mental state; either value may be missing. */
  datatype MentalState = MentalState(mood: Option<int>, motivation: Option<int>)

  datatype MoodPoint = MoodPoint(day: int, mood: int, motivation: int)

  /** `value || 0`: a missing value (or 0) reads as 0. */
  function OrZero(v: Option<int>): (r: int)
    ensures v.None? ==> r == 0
    ensures v.Some? ==> r == v.value
  {
    if v.Some? then v.value else 0
  }

  /** `mentalStateData`: one point per month day, in order, missing values as 0;
      `stateOn` stands for `getMentalState(date)`. */
  function MentalStateData(monthDays: seq<MonthDay>, stateOn: Day -> MentalState): (r: seq<MoodPoint>)
    ensures |r| == |monthDays|
    ensures forall i :: 0 <= i < |r| ==>
              r[i] == MoodPoint(monthDays[i].day, OrZero(stateOn(monthDays[i].date).mood), OrZero(stateOn(monthDays[i].date).motivation))
  {
    seq(|monthDays|, i requires 0 <= i < |monthDays| =>
      MoodPoint(monthDays[i].day, OrZero(stateOn(monthDays[i].date).mood), OrZero(stateOn(monthDays[i].date).motivation)))
  }

  /** A day without a record plots at 0 for both curves. */
  lemma UnrecordedDayPlotsZero(monthDays: seq<MonthDay>, stateOn: Day -> MentalState, i: nat)
    requires i < |monthDays| && stateOn(monthDays[i].date) == MentalState(None, None)
    ensures MentalStateData(monthDays, stateOn)[i].mood == 0 && MentalStateData(monthDays, stateOn)[i].motivation == 0
  {
  }

  /** The add-habit inputs: a name and an emoji, which starts as a pushpin. */
  datatype HabitForm = HabitForm(name: string, emoji: string)

  const Pushpin: string := "\U{1F4CC}"

  /** `handleAddHabit`: the `(name, emoji)` passed to the store, if any, and the form afterwards. */
  datatype HabitSubmission = HabitSubmission(sent: Option<(string, string)>, form: HabitForm)

  function SubmitHabit(form: HabitForm): (s: HabitSubmission)
    ensures Trim(form.name) == [] ==> s == HabitSubmission(None, form)
    ensures Trim(form.name) != [] ==> s == HabitSubmission(Some((Trim(form.name), form.emoji)), HabitForm("", Pushpin))
  {
    if Trim(form.name) != [] then HabitSubmission(Some((Trim(form.name), form.emoji)), HabitForm("", Pushpin))
    else HabitSubmission(None, form)
  }

  /** White-space-only names are ignored; otherwise the trimmed name is sent
      and the form goes back to an empty name and the pushpin. */
  lemma SubmitHabitGuard(form: HabitForm)
    ensures SubmitHabit(form).sent.None? <==> forall i :: 0 <= i < |form.name| ==> IsSpace(form.name[i])
    ensures SubmitHabit(form).sent.Some? ==>
              var name := SubmitHabit(form).sent.value.0;
              name != [] && !IsSpace(name[0]) && !IsSpace(name[|name| - 1])
              && SubmitHabit(form).form == HabitForm("", Pushpin)
  {
    TrimEmptyIff(form.name);
  }

  /** The analysis bar width in percent: the habit's percentage capped at 100. */
  function BarWidth(percentage: int): (w: int)
    ensures w <= 100
    ensures w == percentage || (w == 100 && percentage > 100)
  {
    if percentage < 100 then percentage else 100
  }
}
