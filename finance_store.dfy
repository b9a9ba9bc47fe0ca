/** The finance tracker's store (`src/context/FinanceContext.jsx`): a current
    month, a starting amount, three category lists and, per month, three row
    tables (income, expenses, debts) whose cells hold whatever the form typed. */
module FinanceStore {
  import opened Common
  import opened JsNumber

  // ---------------------------------------------------------------- months

  type Month = m: int | 1 <= m <= 12 witness 1

  /** A `yyyy-MM` key. */
  datatype MonthKey = MonthKey(year: int, month: Month)

  /** Months counted from January of year 0. */
  function MonthIndex(k: MonthKey): int
  {
    12 * k.year + (k.month - 1)
  }

  /** `format(addMonths(current, 1), 'yyyy-MM')`. */
  function NextMonthKey(k: MonthKey): (r: MonthKey)
    ensures MonthIndex(r) == MonthIndex(k) + 1
  {
    if k.month == 12 then MonthKey(k.year + 1, 1) else MonthKey(k.year, k.month + 1)
  }

  /** `format(subMonths(current, 1), 'yyyy-MM')`. */
  function PrevMonthKey(k: MonthKey): (r: MonthKey)
    ensures MonthIndex(r) == MonthIndex(k) - 1
  {
    if k.month == 1 then MonthKey(k.year - 1, 12) else MonthKey(k.year, k.month - 1)
  }

  /** A month key is determined by its index. */
  lemma MonthIndexInjective(j: MonthKey, k: MonthKey)
    requires MonthIndex(j) == MonthIndex(k)
    ensures j == k
  {
    assert j.year == MonthIndex(j) / 12 && j.month - 1 == MonthIndex(j) % 12;
    assert k.year == MonthIndex(k) / 12 && k.month - 1 == MonthIndex(k) % 12;
  }

  /** Going forward then back, or back then forward, returns to the same month. */
  lemma NextPrevRoundTrip(k: MonthKey)
    ensures PrevMonthKey(NextMonthKey(k)) == k
    ensures NextMonthKey(PrevMonthKey(k)) == k
  {
    MonthIndexInjective(PrevMonthKey(NextMonthKey(k)), k);
    MonthIndexInjective(NextMonthKey(PrevMonthKey(k)), k);
  }

  // ---------------------------------------------------------------- rows

  /** A cell value: the template's number or the text the form typed. */
  datatype Amount = Num(r: real) | Text(s: string)

  datatype Row = Row(source: string, plan: Amount, actual: Amount)

  datatype DebtRow = DebtRow(source: string, debt: Amount, paidOut: Amount)

  /** The `data` object of `updateIncome`/`updateExpense`: present fields overwrite. */
  datatype RowPatch = RowPatch(source: Option<string>, plan: Option<Amount>, actual: Option<Amount>)

  /** The `data` object of `updateDebt`. */
  datatype DebtPatch = DebtPatch(source: Option<string>, debt: Option<Amount>, paidOut: Option<Amount>)

  datatype MonthData = MonthData(income: seq<Row>, expenses: seq<Row>, debts: seq<DebtRow>)

  datatype FinanceRecord = FinanceRecord(
    currentMonth: MonthKey,
    startingAmount: real,
    incomeCategories: seq<string>,
    expenseCategories: seq<string>,
    debtCategories: seq<string>,
    monthlyData: map<MonthKey, MonthData>)

  /** The row template `{ source: '', plan: 0, actual: 0 }`. */
  const BlankRow: Row := Row("", Num(0.0), Num(0.0))

  const BlankDebtRow: DebtRow := DebtRow("", Num(0.0), Num(0.0))

  const EmptyMonth: MonthData := MonthData([], [], [])

  const DefaultIncomeCategories: seq<string> := [
    "Salary", "Bonus", "Freelance", "Business / Dividends", "Investments & Deposits",
    "Real Estate", "Transfer from family / friends", "Debt repayment", "Selling items",
    "Scholarship / Grant", "Social benefits", "Other income"
  ]

  const DefaultExpenseCategories: seq<string> := [
    "Rent", "Mobile phone", "Internet", "Insurance", "Subscriptions", "Utilities",
    "Family", "Pets", "Personal", "Self-care", "Charity", "Transportation",
    "Taxi", "Food", "Cafes & Restaurants", "Car", "Gasoline", "Travel", "Hobbies"
  ]

  const DefaultDebtCategories: seq<string> := ["Loans", "Debts", "Credit Cards", "Mortgage", "Liabilities"]

  /** `initialState`, with the month taken from the given clock reading. */
  function InitialRecord(month: MonthKey): FinanceRecord
  {
    FinanceRecord(month, 0.0, DefaultIncomeCategories, DefaultExpenseCategories, DefaultDebtCategories, map[])
  }

  /** `getMonthData`: the current month's tables, or three empty tables when the
      month has no entry (without creating one). */
  function MonthDataOf(r: FinanceRecord): (m: MonthData)
    ensures r.currentMonth !in r.monthlyData ==> m == EmptyMonth
    ensures r.currentMonth in r.monthlyData ==> m == r.monthlyData[r.currentMonth]
  {
    if r.currentMonth in r.monthlyData then r.monthlyData[r.currentMonth] else EmptyMonth
  }

  /** `{ ...row, ...data }` for income and expense rows. */
  function MergeRow(row: Row, p: RowPatch): (r: Row)
    ensures r.source == (if p.source.Some? then p.source.value else row.source)
    ensures r.plan == (if p.plan.Some? then p.plan.value else row.plan)
    ensures r.actual == (if p.actual.Some? then p.actual.value else row.actual)
  {
    Row(if p.source.Some? then p.source.value else row.source,
        if p.plan.Some? then p.plan.value else row.plan,
        if p.actual.Some? then p.actual.value else row.actual)
  }

  /** `{ ...row, ...data }` for debt rows. */
  function MergeDebtRow(row: DebtRow, p: DebtPatch): (r: DebtRow)
    ensures r.source == (if p.source.Some? then p.source.value else row.source)
    ensures r.debt == (if p.debt.Some? then p.debt.value else row.debt)
    ensures r.paidOut == (if p.paidOut.Some? then p.paidOut.value else row.paidOut)
  {
    DebtRow(if p.source.Some? then p.source.value else row.source,
            if p.debt.Some? then p.debt.value else row.debt,
            if p.paidOut.Some? then p.paidOut.value else row.paidOut)
  }

  /** Typing a plan and then an actual into a fresh row keeps the plan. */
  lemma PlanThenActual(plan: string, actual: string)
    ensures MergeRow(MergeRow(BlankRow, RowPatch(None, Some(Text(plan)), None)), RowPatch(None, None, Some(Text(actual))))
              == Row("", Text(plan), Text(actual))
  {
  }

  /** The positional upsert of `update*`: an index inside the table merges into
      that row only; any index past the end appends one merged template row. */
  function Upsert<R>(rows: seq<R>, index: nat, blank: R, merge: R -> R): (r: seq<R>)
    ensures |r| == if index < |rows| then |rows| else |rows| + 1
    ensures forall j :: 0 <= j < |rows| && j != index ==> r[j] == rows[j]
    ensures index < |rows| ==> r[index] == merge(rows[index])
    ensures index >= |rows| ==> r[|rows|] == merge(blank)
  {
    if index < |rows| then rows[index := merge(rows[index])] else rows + [merge(blank)]
  }

  // ---------------------------------------------------------------- numbers

  /** `parseFloat(x)` of a cell. */
  function ParseAmount(a: Amount): Option<real>
  {
    match a
    case Num(r) => Some(r)
    case Text(s) => ParseFloat(s)
  }

  /** `parseFloat(x) || 0`: NaN reads as 0. */
  function AmountValue(a: Amount): (v: real)
    ensures ParseAmount(a).None? ==> v == 0.0
    ensures ParseAmount(a).Some? ==> v == ParseAmount(a).value
  {
    match ParseAmount(a)
    case Some(v) => v
    case None => 0.0
  }

  /** `x > 0`, where a string compares through `Number`. */
  predicate IsPositive(a: Amount)
  {
    match a
    case Num(r) => r > 0.0
    case Text(s) => NumberOf(s).Some? && NumberOf(s).value > 0.0
  }

  /** A cell that compares above 0 is read by `parseFloat` as that same positive number. */
  lemma PositiveParses(a: Amount)
    requires IsPositive(a)
    ensures ParseAmount(a).Some? && ParseAmount(a).value > 0.0
    ensures a.Text? ==> ParseAmount(a) == NumberOf(a.s)
  {
    if a.Text? {
      NumberAgreesWithParseFloat(a.s);
    }
  }

  /** Text without any digit counts as 0. */
  lemma NonNumericIsZero(s: string)
    requires forall i :: 0 <= i < |s| ==> !IsDigit(s[i])
    ensures AmountValue(Text(s)) == 0.0
  {
    NoDigitsIsNaN(s);
  }

  /** Sum of `f` over a table (`reduce((sum, x) => sum + f(x), 0)`). */
  function SumOf<T>(s: seq<T>, f: T -> real): real
  {
    if s == [] then 0.0 else SumOf(s[..|s| - 1], f) + f(s[|s| - 1])
  }

  lemma {:induction false} SumOfUpdate<T>(s: seq<T>, i: nat, x: T, f: T -> real)
    requires i < |s|
    ensures SumOf(s[i := x], f) == SumOf(s, f) - f(s[i]) + f(x)
  {
    var t := s[i := x];
    assert t[..|t| - 1] == if i == |s| - 1 then s[..|s| - 1] else s[..|s| - 1][i := x];
    if i < |s| - 1 {
      SumOfUpdate(s[..|s| - 1], i, x, f);
    }
  }

  lemma SumOfAppend<T>(s: seq<T>, x: T, f: T -> real)
    ensures SumOf(s + [x], f) == SumOf(s, f) + f(x)
  {
    assert (s + [x])[..|s|] == s;
  }

  /** An upsert moves a table's sum by the new row's value minus the replaced
      row's (nothing is replaced when the index is past the end). */
  lemma SumOfUpsert<R>(rows: seq<R>, index: nat, blank: R, merge: R -> R, f: R -> real)
    ensures SumOf(Upsert(rows, index, blank, merge), f)
              == if index < |rows| then SumOf(rows, f) - f(rows[index]) + f(merge(rows[index]))
                 else SumOf(rows, f) + f(merge(blank))
  {
    if index < |rows| {
      SumOfUpdate(rows, index, merge(rows[index]), f);
    } else {
      SumOfAppend(rows, merge(blank), f);
    }
  }

  function PlanValue(r: Row): real { AmountValue(r.plan) }
  function ActualValue(r: Row): real { AmountValue(r.actual) }
  function DebtValue(r: DebtRow): real { AmountValue(r.debt) }
  function PaidOutValue(r: DebtRow): real { AmountValue(r.paidOut) }

  datatype FinanceStats = FinanceStats(
    incomePlan: real,
    incomeActual: real,
    expensesPlan: real,
    expensesActual: real,
    balancePlan: real,
    balanceActual: real,
    totalBalancePlan: real,
    totalBalanceActual: real,
    debts: real)

  /** `getStats`: column sums of the current month, balances, and debts less payments. */
  function StatsOf(r: FinanceRecord): (s: FinanceStats)
    ensures s.incomePlan == SumOf(MonthDataOf(r).income, PlanValue)
    ensures s.incomeActual == SumOf(MonthDataOf(r).income, ActualValue)
    ensures s.expensesPlan == SumOf(MonthDataOf(r).expenses, PlanValue)
    ensures s.expensesActual == SumOf(MonthDataOf(r).expenses, ActualValue)
    ensures s.balancePlan == s.incomePlan - s.expensesPlan
    ensures s.balanceActual == s.incomeActual - s.expensesActual
    ensures s.totalBalancePlan == r.startingAmount + s.balancePlan
    ensures s.totalBalanceActual == r.startingAmount + s.balanceActual
    ensures s.debts == SumOf(MonthDataOf(r).debts, DebtValue) - SumOf(MonthDataOf(r).debts, PaidOutValue)
  {
    var m := MonthDataOf(r);
    var incomePlan := SumOf(m.income, PlanValue);
    var incomeActual := SumOf(m.income, ActualValue);
    var expensesPlan := SumOf(m.expenses, PlanValue);
    var expensesActual := SumOf(m.expenses, ActualValue);
    FinanceStats(incomePlan, incomeActual, expensesPlan, expensesActual,
                 incomePlan - expensesPlan, incomeActual - expensesActual,
                 r.startingAmount + (incomePlan - expensesPlan),
                 r.startingAmount + (incomeActual - expensesActual),
                 SumOf(m.debts, DebtValue) - SumOf(m.debts, PaidOutValue))
  }

  /** A month without entries has zero sums, and both totals equal the starting amount. */
  lemma EmptyMonthStats(r: FinanceRecord)
    requires r.currentMonth !in r.monthlyData
    ensures StatsOf(r) == FinanceStats(0.0, 0.0, 0.0, 0.0, 0.0, 0.0, r.startingAmount, r.startingAmount, 0.0)
  {
  }

  /** Statistics read only the current month and the starting amount. */
  lemma StatsReadCurrentMonth(r: FinanceRecord, r': FinanceRecord)
    requires r.startingAmount == r'.startingAmount
    requires MonthDataOf(r) == MonthDataOf(r')
    ensures StatsOf(r) == StatsOf(r')
  {
  }

  /** Text cells count by their decimal reading: an income row planned at the
      text of a natural number `n`, with nothing received yet, makes the planned
      balance `n` above the starting amount. */
  lemma OneIncomeRowStats(start: real, month: MonthKey, n: nat)
    ensures var r := FinanceRecord(month, start, [], [], [], map[month := MonthData([Row("Salary", Text(NatString(n)), Num(0.0))], [], [])]);
            StatsOf(r).incomePlan == n as real && StatsOf(r).totalBalancePlan == start + n as real
  {
    ParseNatString(n);
    var rows := [Row("Salary", Text(NatString(n)), Num(0.0))];
    assert rows[..0] == [];
    assert SumOf(rows, PlanValue) == n as real;
  }

  // ---------------------------------------------------------------- grouping

  /** The row test of `getExpensesByCategory`/`getIncomeByCategory`: a non-empty
      source and an actual above 0. */
  predicate Qualifies(r: Row)
  {
    r.source != "" && IsPositive(r.actual)
  }

  /** What a qualifying row adds to its source: `parseFloat(actual)`, a number
      because the actual compared above 0. */
  function Contribution(r: Row): (v: real)
    requires Qualifies(r)
    ensures v > 0.0
  {
    PositiveParses(r.actual);
    ParseAmount(r.actual).value
  }

  function ContributionOr0(r: Row): real
  {
    if Qualifies(r) then Contribution(r) else 0.0
  }

  /** The sources of the qualifying rows, each once, in order of first appearance
      (the key order of the accumulating object). */
  function Sources(rows: seq<Row>): (ks: seq<string>)
    ensures forall i :: 0 <= i < |ks| ==> ks[i] != ""
  {
    if rows == [] then []
    else
      var ks := Sources(rows[..|rows| - 1]);
      var last := rows[|rows| - 1];
      if Qualifies(last) && last.source !in ks then ks + [last.source] else ks
  }

  /** The accumulated value of one source: the sum of its qualifying actuals. */
  function SourceTotal(rows: seq<Row>, k: string): real
  {
    if rows == [] then 0.0
    else
      var last := rows[|rows| - 1];
      SourceTotal(rows[..|rows| - 1], k) + (if Qualifies(last) && last.source == k then Contribution(last) else 0.0)
  }

  datatype Entry = Entry(name: string, value: real)

  /** `getExpensesByCategory` / `getIncomeByCategory` over the given table: the
      `forEach` accumulating into an object, then `Object.entries`. */
  method GroupBySource(rows: seq<Row>) returns (entries: seq<Entry>)
    ensures |entries| == |Sources(rows)|
    ensures forall i :: 0 <= i < |entries| ==>
              entries[i] == Entry(Sources(rows)[i], SourceTotal(rows, Sources(rows)[i]))
  {
    var totals: map<string, real> := map[];
    var keys: seq<string> := [];
    for i := 0 to |rows|
      invariant keys == Sources(rows[..i])
      invariant forall k :: k in totals <==> k in keys
      invariant forall k :: k in totals ==> totals[k] == SourceTotal(rows[..i], k)
    {
      var row := rows[i];
      GroupStep(rows, i);
      if row.source != "" && IsPositive(row.actual) {
        var prior := if row.source in totals then totals[row.source] else 0.0;
        if row.source !in totals {
          SourceTotalAbsent(rows[..i], row.source);
          keys := keys + [row.source];
        }
        totals := totals[row.source := prior + Contribution(row)];
      }
    }
    assert rows[..|rows|] == rows;
    entries := seq(|keys|, j requires 0 <= j < |keys| => Entry(keys[j], totals[keys[j]]));
  }

  /** Extending the prefix `rows[..i]` by one row. */
  lemma GroupStep(rows: seq<Row>, i: nat)
    requires i < |rows|
    ensures var ks := Sources(rows[..i]);
            Sources(rows[..i + 1]) == if Qualifies(rows[i]) && rows[i].source !in ks then ks + [rows[i].source] else ks
    ensures forall k :: SourceTotal(rows[..i + 1], k) ==
              SourceTotal(rows[..i], k) + (if Qualifies(rows[i]) && rows[i].source == k then Contribution(rows[i]) else 0.0)
  {
    assert rows[..i + 1][..i] == rows[..i];
  }

  /** Each source appears once in the grouped output. */
  lemma {:induction false} SourcesDistinct(rows: seq<Row>)
    ensures forall i, j :: 0 <= i < j < |Sources(rows)| ==> Sources(rows)[i] != Sources(rows)[j]
  {
    if rows != [] {
      SourcesDistinct(rows[..|rows| - 1]);
    }
  }

  /** A name is grouped exactly when some qualifying row has it as its source. */
  lemma {:induction false} SourcesMembership(rows: seq<Row>, k: string)
    ensures k in Sources(rows) <==> exists i :: 0 <= i < |rows| && Qualifies(rows[i]) && rows[i].source == k
  {
    if rows != [] {
      var init := rows[..|rows| - 1];
      SourcesMembership(init, k);
      if k in Sources(init) {
        var i :| 0 <= i < |init| && Qualifies(init[i]) && init[i].source == k;
        assert rows[i] == init[i];
      }
      if exists i :: 0 <= i < |rows| && Qualifies(rows[i]) && rows[i].source == k {
        var i :| 0 <= i < |rows| && Qualifies(rows[i]) && rows[i].source == k;
        if i < |init| {
          assert init[i] == rows[i];
        }
      }
    }
  }

  /** Every grouped value is positive. */
  lemma {:induction false} SourceTotalPositive(rows: seq<Row>, k: string)
    requires k in Sources(rows)
    ensures SourceTotal(rows, k) > 0.0
  {
    var init := rows[..|rows| - 1];
    if k in Sources(init) {
      SourceTotalPositive(init, k);
      SourceTotalNonNegative(init, k);
    } else {
      SourceTotalNonNegative(init, k);
    }
  }

  lemma {:induction false} SourceTotalNonNegative(rows: seq<Row>, k: string)
    ensures SourceTotal(rows, k) >= 0.0
  {
    if rows != [] {
      SourceTotalNonNegative(rows[..|rows| - 1], k);
    }
  }

  /** Sum of the grouped values of the names `ks`. */
  function TotalOf(ks: seq<string>, rows: seq<Row>): real
  {
    if ks == [] then 0.0 else TotalOf(ks[..|ks| - 1], rows) + SourceTotal(rows, ks[|ks| - 1])
  }

  /** Adding a row to the table adds its contribution to the total of a
      duplicate-free list of names exactly when its source is among them. */
  lemma {:induction false} TotalOfStep(ks: seq<string>, init: seq<Row>, last: Row)
    requires forall i, j :: 0 <= i < j < |ks| ==> ks[i] != ks[j]
    ensures TotalOf(ks, init + [last]) ==
              TotalOf(ks, init) + (if Qualifies(last) && last.source in ks then Contribution(last) else 0.0)
  {
    var rows := init + [last];
    assert rows[..|rows| - 1] == init;
    if ks != [] {
      var front := ks[..|ks| - 1];
      TotalOfStep(front, init, last);
      assert ks == front + [ks[|ks| - 1]];
      assert last.source in ks <==> last.source in front || last.source == ks[|ks| - 1];
    }
  }

  /** The grouped values add up to the sum of all qualifying actuals. */
  lemma {:induction false} GroupTotal(rows: seq<Row>)
    ensures TotalOf(Sources(rows), rows) == SumOf(rows, ContributionOr0)
  {
    if rows != [] {
      var init, last := rows[..|rows| - 1], rows[|rows| - 1];
      GroupTotal(init);
      var ks := Sources(init);
      SourcesDistinct(init);
      assert init + [last] == rows;
      TotalOfStep(ks, init, last);
      if Qualifies(last) && last.source !in ks {
        var ks' := ks + [last.source];
        assert ks'[..|ks'| - 1] == ks;
        assert SourceTotal(rows, last.source) == SourceTotal(init, last.source) + Contribution(last);
        SourceTotalAbsent(init, last.source);
      }
    }
  }

  /** A name that no qualifying row carries has grouped value 0. */
  lemma {:induction false} SourceTotalAbsent(rows: seq<Row>, k: string)
    requires k !in Sources(rows)
    ensures SourceTotal(rows, k) == 0.0
  {
    if rows != [] {
      var init := rows[..|rows| - 1];
      assert k !in Sources(init);
      SourceTotalAbsent(init, k);
    }
  }

  // ---------------------------------------------------------------- categories

  function Self(c: string): string { c }

  /** `add*Category`: empty and already listed names are ignored, others go at the end. */
  function AddCategory(cats: seq<string>, c: string): (r: seq<string>)
    ensures c == "" || c in cats ==> r == cats
    ensures c != "" && c !in cats ==> r == cats + [c]
    ensures c != "" ==> c in r
    ensures cats <= r
  {
    if c != "" && c !in cats then cats + [c] else cats
  }

  /** Adding the same name twice is the same as adding it once. */
  lemma AddCategoryIdempotent(cats: seq<string>, c: string)
    ensures AddCategory(AddCategory(cats, c), c) == AddCategory(cats, c)
  {
  }

  /** A duplicate-free list stays duplicate-free. */
  lemma AddCategoryKeepsDistinct(cats: seq<string>, c: string)
    requires DistinctKeys(cats, Self)
    ensures DistinctKeys(AddCategory(cats, c), Self)
  {
    var r := AddCategory(cats, c);
    if r != cats {
      forall i, j | 0 <= i < j < |r| ensures r[i] != r[j] {
        if j == |cats| {
          assert r[i] in cats;
        } else {
          assert r[i] == cats[i] && r[j] == cats[j];
        }
      }
    }
  }

  /** `delete*Category`: drops every copy of the name and keeps the rest in order. */
  function DeleteCategory(cats: seq<string>, c: string): (r: seq<string>)
    ensures c !in r
    ensures forall i :: 0 <= i < |cats| && cats[i] != c ==> cats[i] in r
    ensures forall x :: x in r ==> x in cats
  {
    Filter(cats, (x: string) => x != c)
  }

  lemma DeleteCategoryKeepsOrder(cats: seq<string>, c: string)
    ensures IsSubsequence(DeleteCategory(cats, c), cats)
    ensures DistinctKeys(cats, Self) ==> DistinctKeys(DeleteCategory(cats, c), Self)
  {
    FilterIsSubsequence(cats, (x: string) => x != c);
    if DistinctKeys(cats, Self) {
      FilterKeepsDistinct(cats, (x: string) => x != c, Self);
    }
  }

  /** The category lists hold no name twice. */
  ghost predicate CategoriesDistinct(r: FinanceRecord)
  {
    DistinctKeys(r.incomeCategories, Self) && DistinctKeys(r.expenseCategories, Self)
    && DistinctKeys(r.debtCategories, Self)
  }

  lemma DefaultCategoriesDistinct(month: MonthKey)
    ensures CategoriesDistinct(InitialRecord(month))
  {
    IncomeDefaultsDistinct();
    ExpenseDefaultsDistinct();
    DebtDefaultsDistinct();
  }

  lemma IncomeDefaultsDistinct()
    ensures DistinctKeys(DefaultIncomeCategories, Self)
  {
  }

  lemma ExpenseDefaultsDistinct()
    ensures DistinctKeys(DefaultExpenseCategories, Self)
  {
  }

  lemma DebtDefaultsDistinct()
    ensures DistinctKeys(DefaultDebtCategories, Self)
  {
  }

  // ---------------------------------------------------------------- the store

  /** The `FinanceProvider`: holds the record and replaces it on every operation. */
  class FinanceTracker {
    var state: FinanceRecord

    ghost predicate Valid()
      reads this
    {
      CategoriesDistinct(state)
    }

    /** A store that loaded nothing; `month` is the clock's current month. */
    constructor (month: MonthKey)
      ensures state == InitialRecord(month) && Valid()
    {
      state := InitialRecord(month);
      DefaultCategoriesDistinct(month);
    }

    method SetMonth(month: MonthKey)
      requires Valid()
      modifies this
      ensures Valid()
      ensures state == old(state).(currentMonth := month)
    {
      state := state.(currentMonth := month);
    }

    method NextMonth()
      requires Valid()
      modifies this
      ensures Valid()
      ensures state == old(state).(currentMonth := NextMonthKey(old(state).currentMonth))
    {
      state := state.(currentMonth := NextMonthKey(state.currentMonth));
    }

    method PrevMonth()
      requires Valid()
      modifies this
      ensures Valid()
      ensures state == old(state).(currentMonth := PrevMonthKey(old(state).currentMonth))
    {
      state := state.(currentMonth := PrevMonthKey(state.currentMonth));
    }

    /** `setStartingAmount`: the typed text through `parseFloat(amount) || 0`. */
    method SetStartingAmount(amount: string)
      requires Valid()
      modifies this
      ensures Valid()
      ensures state == old(state).(startingAmount := AmountValue(Text(amount)))
    {
      state := state.(startingAmount := AmountValue(Text(amount)));
    }

    /** `updateIncome`: copies the current month's income table, merges into row
        `index` or pushes a new row, and stores the copy under the current month. */
    method UpdateIncome(index: nat, data: RowPatch)
      requires Valid()
      modifies this
      ensures Valid()
      ensures state == old(state).(monthlyData := old(state).monthlyData[old(state).currentMonth :=
                MonthDataOf(old(state)).(income := Upsert(MonthDataOf(old(state)).income, index, BlankRow, (row: Row) => MergeRow(row, data)))])
    {
      var monthData := MonthDataOf(state);
      var income := monthData.income;
      if index >= |income| {
        income := income + [MergeRow(BlankRow, data)];
      } else {
        income := income[index := MergeRow(income[index], data)];
      }
      state := state.(monthlyData := state.monthlyData[state.currentMonth := monthData.(income := income)]);
    }

    method UpdateExpense(index: nat, data: RowPatch)
      requires Valid()
      modifies this
      ensures Valid()
      ensures state == old(state).(monthlyData := old(state).monthlyData[old(state).currentMonth :=
                MonthDataOf(old(state)).(expenses := Upsert(MonthDataOf(old(state)).expenses, index, BlankRow, (row: Row) => MergeRow(row, data)))])
    {
      var monthData := MonthDataOf(state);
      var expenses := monthData.expenses;
      if index >= |expenses| {
        expenses := expenses + [MergeRow(BlankRow, data)];
      } else {
        expenses := expenses[index := MergeRow(expenses[index], data)];
      }
      state := state.(monthlyData := state.monthlyData[state.currentMonth := monthData.(expenses := expenses)]);
    }

    method UpdateDebt(index: nat, data: DebtPatch)
      requires Valid()
      modifies this
      ensures Valid()
      ensures state == old(state).(monthlyData := old(state).monthlyData[old(state).currentMonth :=
                MonthDataOf(old(state)).(debts := Upsert(MonthDataOf(old(state)).debts, index, BlankDebtRow, (row: DebtRow) => MergeDebtRow(row, data)))])
    {
      var monthData := MonthDataOf(state);
      var debts := monthData.debts;
      if index >= |debts| {
        debts := debts + [MergeDebtRow(BlankDebtRow, data)];
      } else {
        debts := debts[index := MergeDebtRow(debts[index], data)];
      }
      state := state.(monthlyData := state.monthlyData[state.currentMonth := monthData.(debts := debts)]);
    }

    method AddIncomeCategory(category: string)
      requires Valid()
      modifies this
      ensures Valid()
      ensures state == old(state).(incomeCategories := AddCategory(old(state).incomeCategories, category))
    {
      AddCategoryKeepsDistinct(state.incomeCategories, category);
      state := state.(incomeCategories := AddCategory(state.incomeCategories, category));
    }

    method DeleteIncomeCategory(category: string)
      requires Valid()
      modifies this
      ensures Valid()
      ensures state == old(state).(incomeCategories := DeleteCategory(old(state).incomeCategories, category))
    {
      DeleteCategoryKeepsOrder(state.incomeCategories, category);
      state := state.(incomeCategories := DeleteCategory(state.incomeCategories, category));
    }

    method AddExpenseCategory(category: string)
      requires Valid()
      modifies this
      ensures Valid()
      ensures state == old(state).(expenseCategories := AddCategory(old(state).expenseCategories, category))
    {
      AddCategoryKeepsDistinct(state.expenseCategories, category);
      state := state.(expenseCategories := AddCategory(state.expenseCategories, category));
    }

    method DeleteExpenseCategory(category: string)
      requires Valid()
      modifies this
      ensures Valid()
      ensures state == old(state).(expenseCategories := DeleteCategory(old(state).expenseCategories, category))
    {
      DeleteCategoryKeepsOrder(state.expenseCategories, category);
      state := state.(expenseCategories := DeleteCategory(state.expenseCategories, category));
    }

    method AddDebtCategory(category: string)
      requires Valid()
      modifies this
      ensures Valid()
      ensures state == old(state).(debtCategories := AddCategory(old(state).debtCategories, category))
    {
      AddCategoryKeepsDistinct(state.debtCategories, category);
      state := state.(debtCategories := AddCategory(state.debtCategories, category));
    }

    method DeleteDebtCategory(category: string)
      requires Valid()
      modifies this
      ensures Valid()
      ensures state == old(state).(debtCategories := DeleteCategory(old(state).debtCategories, category))
    {
      DeleteCategoryKeepsOrder(state.debtCategories, category);
      state := state.(debtCategories := DeleteCategory(state.debtCategories, category));
    }
  }

  /** An income update moves the planned income by the new row's plan minus the
      replaced row's, and leaves the expense and debt columns alone. */
  lemma IncomePlanAfterUpdate(r: FinanceRecord, index: nat, data: RowPatch)
    ensures var m := MonthDataOf(r);
            var rows := Upsert(m.income, index, BlankRow, (row: Row) => MergeRow(row, data));
            var r' := r.(monthlyData := r.monthlyData[r.currentMonth := m.(income := rows)]);
            && StatsOf(r').incomePlan ==
                 (if index < |m.income| then StatsOf(r).incomePlan - PlanValue(m.income[index]) + PlanValue(MergeRow(m.income[index], data))
                  else StatsOf(r).incomePlan + PlanValue(MergeRow(BlankRow, data)))
            && StatsOf(r').expensesPlan == StatsOf(r).expensesPlan
            && StatsOf(r').expensesActual == StatsOf(r).expensesActual
            && StatsOf(r').debts == StatsOf(r).debts
  {
    var m := MonthDataOf(r);
    SumOfUpsert(m.income, index, BlankRow, (row: Row) => MergeRow(row, data), PlanValue);
  }
}
