/** The activity chart of the streak habit tracker
    (`src/components/weekly/ProgressChart.jsx`): seven day buckets ending today,
    each counting how often that day appears among the habits' completed dates. */
module ProgressChart {
  import opened Common
  import opened HabitStore

  /** One bar: the day of week it is labelled with, its date, and its count. */
  datatype Bucket = Bucket(weekday: nat, fullDate: Day, count: nat)

  /** How often `d` occurs in `dates`. */
  function DayCount(dates: seq<Day>, d: Day): (n: nat)
    ensures n <= |dates|
  {
    if dates == [] then 0 else DayCount(dates[..|dates| - 1], d) + (if dates[|dates| - 1] == d then 1 else 0)
  }

  /** How often `d` occurs among the completed dates of all `habits`. */
  function Occurrences(habits: seq<Habit>, d: Day): nat
  {
    if habits == [] then 0
    else Occurrences(habits[..|habits| - 1], d) + DayCount(habits[|habits| - 1].completedDates, d)
  }

  /** The first bucket whose date is `date`, or -1 (`last7Days.find`). */
  method FindBucket(buckets: array<Bucket>, date: Day) returns (k: int)
    ensures -1 <= k < buckets.Length
    ensures k == -1 ==> forall j :: 0 <= j < buckets.Length ==> buckets[j].fullDate != date
    ensures k >= 0 ==> buckets[k].fullDate == date && forall j :: 0 <= j < k ==> buckets[j].fullDate != date
  {
    k := 0;
    while k < buckets.Length
      invariant 0 <= k <= buckets.Length
      invariant forall j :: 0 <= j < k ==> buckets[j].fullDate != date
    {
      if buckets[k].fullDate == date {
        return;
      }
      k := k + 1;
    }
    k := -1;
  }

  /** The `data` of the chart for the day `today`: seven buckets for
      today-6 .. today in ascending order, each holding the number of
      completed-date entries equal to its date. */
  method LastSevenDays(habits: seq<Habit>, today: Day) returns (data: seq<Bucket>)
    ensures |data| == 7
    ensures forall i :: 0 <= i < 7 ==>
              data[i] == Bucket(Weekday(today - 6 + i), today - 6 + i, Occurrences(habits, today - 6 + i))
  {
    var buckets := new Bucket[7](i => Bucket(Weekday(today - 6 + i), today - 6 + i, 0));
    for h := 0 to |habits|
      invariant forall i :: 0 <= i < 7 ==>
                  buckets[i] == Bucket(Weekday(today - 6 + i), today - 6 + i, Occurrences(habits[..h], today - 6 + i))
    {
      var dates := habits[h].completedDates;
      assert habits[..h + 1][..h] == habits[..h];
      for j := 0 to |dates|
        invariant forall i :: 0 <= i < 7 ==>
                    buckets[i] == Bucket(Weekday(today - 6 + i), today - 6 + i,
                                         Occurrences(habits[..h], today - 6 + i) + DayCount(dates[..j], today - 6 + i))
      {
        assert dates[..j + 1][..j] == dates[..j];
        var k := FindBucket(buckets, dates[j]);
        if k >= 0 {
          buckets[k] := buckets[k].(count := buckets[k].count + 1);
        }
      }
      assert dates[..|dates|] == dates;
    }
    assert habits[..|habits|] == habits;
    data := buckets[..];
  }

  /** What the component shows: nothing without habits, else the seven buckets. */
  method Render(habits: seq<Habit>, today: Day) returns (chart: Option<seq<Bucket>>)
    ensures chart.None? <==> habits == []
    ensures chart.Some? ==>
              && |chart.value| == 7
              && forall i :: 0 <= i < 7 ==> chart.value[i].count == Occurrences(habits, today - 6 + i)
  {
    var data := LastSevenDays(habits, today);
    if |habits| == 0 {
      return None;
    }
    return Some(data);
  }

  // ---------------------------------------------------------------- bounds

  /** Occurrences of the `n` days from `start` on among `dates`. */
  function WindowCount(dates: seq<Day>, start: Day, n: nat): nat
  {
    if n == 0 then 0 else WindowCount(dates, start, n - 1) + DayCount(dates, start + n - 1)
  }

  lemma {:induction false} WindowCountStep(dates: seq<Day>, x: Day, start: Day, n: nat)
    ensures WindowCount(dates + [x], start, n) == WindowCount(dates, start, n) + (if start <= x < start + n then 1 else 0)
  {
    assert (dates + [x])[..|dates|] == dates;
    if n > 0 {
      WindowCountStep(dates, x, start, n - 1);
    }
  }

  /** Days of a window are distinct, so together they count each entry at most once. */
  lemma {:induction false} WindowCountBound(dates: seq<Day>, start: Day, n: nat)
    ensures WindowCount(dates, start, n) <= |dates|
  {
    if dates == [] {
      WindowOfNoDates(start, n);
    } else {
      var init := dates[..|dates| - 1];
      WindowCountBound(init, start, n);
      assert init + [dates[|dates| - 1]] == dates;
      WindowCountStep(init, dates[|dates| - 1], start, n);
    }
  }

  lemma {:induction false} WindowOfNoDates(start: Day, n: nat)
    ensures WindowCount([], start, n) == 0
  {
    if n > 0 {
      WindowOfNoDates(start, n - 1);
    }
  }

  /** Number of completed-date entries over all habits. */
  function TotalDates(habits: seq<Habit>): nat
  {
    if habits == [] then 0 else TotalDates(habits[..|habits| - 1]) + |habits[|habits| - 1].completedDates|
  }

  /** Sum of the first `n` bucket counts of the window starting at `start`. */
  function WindowOccurrences(habits: seq<Habit>, start: Day, n: nat): nat
  {
    if n == 0 then 0 else WindowOccurrences(habits, start, n - 1) + Occurrences(habits, start + n - 1)
  }

  lemma {:induction false} WindowOccurrencesStep(habits: seq<Habit>, start: Day, n: nat)
    requires habits != []
    ensures WindowOccurrences(habits, start, n) ==
              WindowOccurrences(habits[..|habits| - 1], start, n) + WindowCount(habits[|habits| - 1].completedDates, start, n)
  {
    if n > 0 {
      WindowOccurrencesStep(habits, start, n - 1);
    }
  }

  /** Dates outside the window are ignored: the bars together count at most
      all completed-date entries. */
  lemma {:induction false} WindowAtMostTotal(habits: seq<Habit>, start: Day, n: nat)
    ensures WindowOccurrences(habits, start, n) <= TotalDates(habits)
  {
    if habits == [] {
      WindowOfNoHabits(start, n);
    } else {
      WindowOccurrencesStep(habits, start, n);
      WindowAtMostTotal(habits[..|habits| - 1], start, n);
      WindowCountBound(habits[|habits| - 1].completedDates, start, n);
    }
  }

  lemma {:induction false} WindowOfNoHabits(start: Day, n: nat)
    ensures WindowOccurrences([], start, n) == 0
  {
    if n > 0 {
      WindowOfNoHabits(start, n - 1);
    }
  }

  /** The seven bars of the chart sum to at most the number of completed-date entries. */
  lemma ChartTotalBound(data: seq<Bucket>, habits: seq<Habit>, today: Day)
    requires |data| == 7
    requires forall i :: 0 <= i < 7 ==> data[i].count == Occurrences(habits, today - 6 + i)
    ensures data[0].count + data[1].count + data[2].count + data[3].count + data[4].count + data[5].count + data[6].count
              <= TotalDates(habits)
  {
    var s := today - 6;
    WindowAtMostTotal(habits, s, 7);
    assert WindowOccurrences(habits, s, 1) == data[0].count;
    assert WindowOccurrences(habits, s, 2) == data[0].count + data[1].count;
    assert WindowOccurrences(habits, s, 3) == data[0].count + data[1].count + data[2].count;
    assert WindowOccurrences(habits, s, 4) == WindowOccurrences(habits, s, 3) + data[3].count;
    assert WindowOccurrences(habits, s, 5) == WindowOccurrences(habits, s, 4) + data[4].count;
    assert WindowOccurrences(habits, s, 6) == WindowOccurrences(habits, s, 5) + data[5].count;
    assert WindowOccurrences(habits, s, 7) == WindowOccurrences(habits, s, 6) + data[6].count;
  }
}
