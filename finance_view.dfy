/** The derivations of the finance dashboard
    (`src/components/finance/FinanceDashboard.jsx`): the padded row tables, the
    plan-versus-actual chart data and the add-category inputs. */
module FinanceView {
  import opened Common
  import opened FinanceStore

  /** Rows always shown per table. */
  const IncomeRowsShown: nat := 10
  const ExpenseRowsShown: nat := 12
  const DebtRowsShown: nat := 10

  /** The `while (rows.length < n) rows.push(blank)` loop over a copy of the
      stored rows: the stored rows, in order, then blank rows up to `n`. */
  method PadRows<T>(rows: seq<T>, n: nat, blank: T) returns (padded: seq<T>)
    ensures |padded| == if |rows| < n then n else |rows|
    ensures padded[..|rows|] == rows
    ensures forall i :: |rows| <= i < |padded| ==> padded[i] == blank
  {
    padded := rows;
    while |padded| < n
      invariant |rows| <= |padded| <= if |rows| < n then n else |rows|
      invariant padded[..|rows|] == rows
      invariant forall i :: |rows| <= i < |padded| ==> padded[i] == blank
      decreases n - |padded|
    {
      padded := padded + [blank];
    }
  }

  datatype Tables = Tables(income: seq<Row>, expenses: seq<Row>, debts: seq<DebtRow>)

  /** `incomeRows`, `expenseRows` and `debtRows` for the month's tables `m`. */
  method DisplayedTables(m: MonthData) returns (t: Tables)
    ensures |t.income| == if |m.income| < IncomeRowsShown then IncomeRowsShown else |m.income|
    ensures |t.expenses| == if |m.expenses| < ExpenseRowsShown then ExpenseRowsShown else |m.expenses|
    ensures |t.debts| == if |m.debts| < DebtRowsShown then DebtRowsShown else |m.debts|
    ensures t.income[..|m.income|] == m.income && t.expenses[..|m.expenses|] == m.expenses
    ensures t.debts[..|m.debts|] == m.debts
    ensures forall i :: |m.income| <= i < |t.income| ==> t.income[i] == BlankRow
    ensures forall i :: |m.expenses| <= i < |t.expenses| ==> t.expenses[i] == BlankRow
    ensures forall i :: |m.debts| <= i < |t.debts| ==> t.debts[i] == BlankDebtRow
  {
    var income := PadRows(m.income, IncomeRowsShown, BlankRow);
    var expenses := PadRows(m.expenses, ExpenseRowsShown, BlankRow);
    var debts := PadRows(m.debts, DebtRowsShown, BlankDebtRow);
    t := Tables(income, expenses, debts);
  }

  /** Editing a shown blank row (index `i` at or past the stored rows) appends
      the edit as the next stored row, at position `|rows|` and not at `i`: a
      value typed into the fifth blank line of an empty table shows up in the
      first line. */
  lemma EditPaddingRow(rows: seq<Row>, i: nat, data: RowPatch)
    requires |rows| <= i
    ensures Upsert(rows, i, BlankRow, (row: Row) => MergeRow(row, data)) == rows + [MergeRow(BlankRow, data)]
  {
  }

  /** Editing a shown stored row edits that row in place. */
  lemma EditStoredRow(rows: seq<Row>, i: nat, data: RowPatch)
    requires i < |rows|
    ensures Upsert(rows, i, BlankRow, (row: Row) => MergeRow(row, data)) == rows[i := MergeRow(rows[i], data)]
  {
  }

  datatype PlanActual = PlanActual(name: string, plan: real, actual: real)

  /** `planActualData`: one bar pair for income and one for expenses. */
  function PlanActualData(s: FinanceStats): (d: seq<PlanActual>)
    ensures |d| == 2
    ensures d[0] == PlanActual("Income", s.incomePlan, s.incomeActual)
    ensures d[1] == PlanActual("Expenses", s.expensesPlan, s.expensesActual)
  {
    [PlanActual("Income", s.incomePlan, s.incomeActual), PlanActual("Expenses", s.expensesPlan, s.expensesActual)]
  }

  /** `handleAdd*Category`: the categories after the click and the input's new text. */
  datatype CategoryInput = CategoryInput(categories: seq<string>, input: string)

  function SubmitCategory(cats: seq<string>, input: string): (r: CategoryInput)
    ensures Trim(input) == [] ==> r == CategoryInput(cats, input)
    ensures Trim(input) != [] ==> r == CategoryInput(AddCategory(cats, Trim(input)), "")
  {
    if Trim(input) != [] then CategoryInput(AddCategory(cats, Trim(input)), "") else CategoryInput(cats, input)
  }

  /** White-space-only input changes nothing; any other input adds (at most)
      its trimmed text, which neither starts nor ends with white space. */
  lemma SubmitCategoryGuard(cats: seq<string>, input: string)
    ensures (forall i :: 0 <= i < |input| ==> IsSpace(input[i])) ==> SubmitCategory(cats, input) == CategoryInput(cats, input)
    ensures var r := SubmitCategory(cats, input);
            forall i :: |cats| <= i < |r.categories| ==>
              r.categories[i] != [] && !IsSpace(r.categories[i][0]) && !IsSpace(r.categories[i][|r.categories[i]| - 1])
    ensures DistinctKeys(cats, Self) ==> DistinctKeys(SubmitCategory(cats, input).categories, Self)
  {
    TrimEmptyIff(input);
    if Trim(input) != [] && DistinctKeys(cats, Self) {
      AddCategoryKeepsDistinct(cats, Trim(input));
    }
  }
}
