/** The monthly aggregator behind the dashboard: half-open month sums, the
    six-month trend, and one budget-versus-actual row per category. */
module Aggregation {
  import opened Wrappers
  import opened Dates
  import opened Models
  import opened DashboardViewModels

  /** The half-open date filter `d >= start && d < end`. */
  predicate InRange(d: Date, start: Date, end: Date) {
    AtOrBefore(start, d) && Before(d, end)
  }

  /** `Incomes.Where(date in [start, end)).Sum(Amount) ?? 0`. */
  function IncomeTotal(xs: seq<Income>, start: Date, end: Date): int {
    if xs == [] then 0
    else
      var last := xs[|xs| - 1];
      IncomeTotal(xs[..|xs| - 1], start, end) + (if InRange(last.date, start, end) then last.amount else 0)
  }

  /** `Expenses.Where(date in [start, end)).Sum(Amount) ?? 0`. */
  function ExpenseTotal(xs: seq<Expense>, start: Date, end: Date): int {
    if xs == [] then 0
    else
      var last := xs[|xs| - 1];
      ExpenseTotal(xs[..|xs| - 1], start, end) + (if InRange(last.date, start, end) then last.amount else 0)
  }

  /** `Expenses.Where(category == c && date in [start, end)).Sum(Amount) ?? 0`. */
  function CategorySpent(xs: seq<Expense>, categoryId: int, start: Date, end: Date): int {
    if xs == [] then 0
    else
      var last := xs[|xs| - 1];
      CategorySpent(xs[..|xs| - 1], categoryId, start, end)
      + (if last.categoryId == categoryId && InRange(last.date, start, end) then last.amount else 0)
  }

  /** The totals are 0 when no row falls in the range. */
  lemma {:induction false} TotalsWithoutRowsAreZero(incomes: seq<Income>, expenses: seq<Expense>, start: Date, end: Date)
    requires forall i :: 0 <= i < |incomes| ==> !InRange(incomes[i].date, start, end)
    requires forall i :: 0 <= i < |expenses| ==> !InRange(expenses[i].date, start, end)
    ensures IncomeTotal(incomes, start, end) == 0
    ensures ExpenseTotal(expenses, start, end) == 0
    decreases |incomes| + |expenses|
  {
    if incomes != [] {
      TotalsWithoutRowsAreZero(incomes[..|incomes| - 1], [], start, end);
    }
    if expenses != [] {
      TotalsWithoutRowsAreZero([], expenses[..|expenses| - 1], start, end);
    }
  }

  /** Sums over a concatenation add up: rows appended to the table contribute
      exactly their own in-range amounts. */
  lemma {:induction false} ExpenseTotalsConcat(xs: seq<Expense>, ys: seq<Expense>, categoryId: int, start: Date, end: Date)
    ensures ExpenseTotal(xs + ys, start, end) == ExpenseTotal(xs, start, end) + ExpenseTotal(ys, start, end)
    ensures CategorySpent(xs + ys, categoryId, start, end)
         == CategorySpent(xs, categoryId, start, end) + CategorySpent(ys, categoryId, start, end)
    decreases |ys|
  {
    if ys == [] {
      assert xs + ys == xs;
    } else {
      var ys' := ys[..|ys| - 1];
      assert (xs + ys)[..|xs + ys| - 1] == xs + ys';
      ExpenseTotalsConcat(xs, ys', categoryId, start, end);
    }
  }

  /** With non-negative amounts, one category's spending never exceeds the total. */
  lemma {:induction false} CategorySpentAtMostTotal(xs: seq<Expense>, categoryId: int, start: Date, end: Date)
    requires forall i :: 0 <= i < |xs| ==> xs[i].amount >= 0
    ensures 0 <= CategorySpent(xs, categoryId, start, end) <= ExpenseTotal(xs, start, end)
  {
    if xs != [] {
      CategorySpentAtMostTotal(xs[..|xs| - 1], categoryId, start, end);
    }
  }

  // ---------------------------------------------------------------------------
  // The month range

  /** The exclusive end of the month that starts at `monthStart`. */
  function MonthEnd(monthStart: Date): Date {
    AddMonths(monthStart, 1)
  }

  /** An independent reading of a month total: the amounts of the rows whose
      date lies in the given calendar month. */
  function IncomeInCalendarMonth(xs: seq<Income>, year: int, month: int): int {
    if xs == [] then 0
    else
      var last := xs[|xs| - 1];
      IncomeInCalendarMonth(xs[..|xs| - 1], year, month)
      + (if last.date.year == year && last.date.month == month then last.amount else 0)
  }

  function ExpenseInCalendarMonth(xs: seq<Expense>, year: int, month: int): int {
    if xs == [] then 0
    else
      var last := xs[|xs| - 1];
      ExpenseInCalendarMonth(xs[..|xs| - 1], year, month)
      + (if last.date.year == year && last.date.month == month then last.amount else 0)
  }

  /** Summing over [first of month, first of next month) is summing over the calendar month. */
  lemma {:induction false} MonthTotalsAreCalendarMonth(incomes: seq<Income>, expenses: seq<Expense>, monthStart: Date)
    requires 1 <= monthStart.month <= 12 && monthStart.day == 1
    requires forall i :: 0 <= i < |incomes| ==> Valid(incomes[i].date)
    requires forall i :: 0 <= i < |expenses| ==> Valid(expenses[i].date)
    ensures IncomeTotal(incomes, monthStart, MonthEnd(monthStart))
         == IncomeInCalendarMonth(incomes, monthStart.year, monthStart.month)
    ensures ExpenseTotal(expenses, monthStart, MonthEnd(monthStart))
         == ExpenseInCalendarMonth(expenses, monthStart.year, monthStart.month)
    decreases |incomes| + |expenses|
  {
    if incomes != [] {
      MonthRange(monthStart, incomes[|incomes| - 1].date);
      MonthTotalsAreCalendarMonth(incomes[..|incomes| - 1], [], monthStart);
    }
    if expenses != [] {
      MonthRange(monthStart, expenses[|expenses| - 1].date);
      MonthTotalsAreCalendarMonth([], expenses[..|expenses| - 1], monthStart);
    }
  }

  // ---------------------------------------------------------------------------
  // The six-month trend

  const TrendLength := 6

  /** `selectedMonth.AddMonths(-5).AddMonths(k)`. */
  function TrendMonth(selectedMonth: Date, k: int): Date {
    AddMonths(AddMonths(selectedMonth, -5), k)
  }

  function TrendLabels(selectedMonth: Date): seq<MonthLabel> {
    seq(TrendLength, k => var m := TrendMonth(selectedMonth, k); MonthLabel(m.year, m.month))
  }

  function TrendIncome(incomes: seq<Income>, selectedMonth: Date): seq<int> {
    seq(TrendLength, k => var s := FirstOfMonth(TrendMonth(selectedMonth, k)); IncomeTotal(incomes, s, MonthEnd(s)))
  }

  function TrendExpenses(expenses: seq<Expense>, selectedMonth: Date): seq<int> {
    seq(TrendLength, k => var s := FirstOfMonth(TrendMonth(selectedMonth, k)); ExpenseTotal(expenses, s, MonthEnd(s)))
  }

  /** The trend up to entry k, then entry k. */
  lemma TrendPrefixStep(incomes: seq<Income>, expenses: seq<Expense>, selectedMonth: Date, k: int)
    requires 0 <= k < TrendLength
    ensures var m := TrendMonth(selectedMonth, k); var s := FirstOfMonth(m);
      && TrendLabels(selectedMonth)[..k + 1] == TrendLabels(selectedMonth)[..k] + [MonthLabel(m.year, m.month)]
      && TrendIncome(incomes, selectedMonth)[..k + 1]
         == TrendIncome(incomes, selectedMonth)[..k] + [IncomeTotal(incomes, s, MonthEnd(s))]
      && TrendExpenses(expenses, selectedMonth)[..k + 1]
         == TrendExpenses(expenses, selectedMonth)[..k] + [ExpenseTotal(expenses, s, MonthEnd(s))]
  {
    var ls, ins, es := TrendLabels(selectedMonth), TrendIncome(incomes, selectedMonth), TrendExpenses(expenses, selectedMonth);
    assert ls[..k + 1] == ls[..k] + [ls[k]];
    assert ins[..k + 1] == ins[..k] + [ins[k]];
    assert es[..k + 1] == es[..k] + [es[k]];
  }

  /** Trend month k is the first of the month k - 5 months from the selected one. */
  lemma TrendMonthIs(selectedMonth: Date, k: int)
    requires 1 <= selectedMonth.month <= 12 && selectedMonth.day == 1
    ensures var m := TrendMonth(selectedMonth, k);
      && m == AddMonths(selectedMonth, k - 5) && m == FirstOfMonth(m)
      && MonthIndex(m) == MonthIndex(selectedMonth) - 5 + k
  {
    AddMonthsCompose(selectedMonth, -5, k);
    AddMonthsCompose(AddMonths(selectedMonth, -5), k, 0);
  }

  /** The last trend month is the selected month. */
  lemma LastTrendMonthIsSelected(selectedMonth: Date)
    requires 1 <= selectedMonth.month <= 12 && selectedMonth.day == 1
    ensures TrendMonth(selectedMonth, 5) == selectedMonth
  {
    TrendMonthIs(selectedMonth, 5);
    MonthIndexInjective(TrendMonth(selectedMonth, 5), selectedMonth);
  }

  /** The trend has six entries, oldest first: entry k is month (selected - 5 + k),
      its sums use that month's half-open range, and the last entry is the
      selected month itself with the selected month's totals. */
  lemma TrendShape(incomes: seq<Income>, expenses: seq<Expense>, selectedMonth: Date)
    requires 1 <= selectedMonth.month <= 12 && selectedMonth.day == 1
    ensures |TrendLabels(selectedMonth)| == 6 && |TrendIncome(incomes, selectedMonth)| == 6
    ensures |TrendExpenses(expenses, selectedMonth)| == 6
    ensures forall k :: 0 <= k < 6 ==>
      var m := TrendMonth(selectedMonth, k);
      && m == FirstOfMonth(m) && m == AddMonths(selectedMonth, k - 5)
      && MonthIndex(m) == MonthIndex(selectedMonth) - 5 + k
      && TrendLabels(selectedMonth)[k] == MonthLabel(m.year, m.month)
      && TrendIncome(incomes, selectedMonth)[k] == IncomeTotal(incomes, m, MonthEnd(m))
      && TrendExpenses(expenses, selectedMonth)[k] == ExpenseTotal(expenses, m, MonthEnd(m))
    ensures TrendMonth(selectedMonth, 5) == selectedMonth
    ensures TrendLabels(selectedMonth)[5] == MonthLabel(selectedMonth.year, selectedMonth.month)
    ensures TrendIncome(incomes, selectedMonth)[5] == IncomeTotal(incomes, selectedMonth, MonthEnd(selectedMonth))
    ensures TrendExpenses(expenses, selectedMonth)[5] == ExpenseTotal(expenses, selectedMonth, MonthEnd(selectedMonth))
  {
    forall k | 0 <= k < 6
      ensures var m := TrendMonth(selectedMonth, k);
        && m == FirstOfMonth(m) && m == AddMonths(selectedMonth, k - 5)
        && MonthIndex(m) == MonthIndex(selectedMonth) - 5 + k
    {
      TrendMonthIs(selectedMonth, k);
    }
    LastTrendMonthIsSelected(selectedMonth);
  }

  // ---------------------------------------------------------------------------
  // Budget versus actual

  predicate BudgetFor(b: Budget, categoryId: int, month: Date) {
    b.categoryId == categoryId && b.month == month
  }

  /** `Budgets.Where(category and month match).Select(Amount).FirstOrDefault()`:
      the amount of the first matching budget, if any. No uniqueness of
      (category, month) is assumed. */
  function FindBudget(budgets: seq<Budget>, categoryId: int, month: Date): (r: Option<Cents>)
    ensures r.None? <==> forall i :: 0 <= i < |budgets| ==> !BudgetFor(budgets[i], categoryId, month)
    ensures r.Some? ==> exists i :: 0 <= i < |budgets| && BudgetFor(budgets[i], categoryId, month)
                                    && budgets[i].amount == r.value
                                    && forall j :: 0 <= j < i ==> !BudgetFor(budgets[j], categoryId, month)
  {
    if budgets == [] then None
    else if BudgetFor(budgets[0], categoryId, month) then Some(budgets[0].amount)
    else
      var r := FindBudget(budgets[1..], categoryId, month);
      assert r.Some? ==> exists i :: 1 <= i < |budgets| && BudgetFor(budgets[i], categoryId, month)
                                    && budgets[i].amount == r.value
                                    && forall j :: 0 <= j < i ==> !BudgetFor(budgets[j], categoryId, month) by {
        if r.Some? {
          var i :| 0 <= i < |budgets[1..]| && BudgetFor(budgets[1..][i], categoryId, month)
                   && budgets[1..][i].amount == r.value
                   && forall j :: 0 <= j < i ==> !BudgetFor(budgets[1..][j], categoryId, month);
          assert forall j :: 1 <= j < i + 1 ==> budgets[j] == budgets[1..][j - 1];
        }
      }
      r
  }

  /** `budget <= 0 ? 0 : Math.Min(100, spent / budget * 100)`, in exact arithmetic. */
  function PercentUsed(budget: Cents, spent: Cents): (r: real)
    ensures r <= 100.0
    ensures spent >= 0 ==> r >= 0.0
    ensures budget <= 0 ==> r == 0.0
    ensures budget > 0 ==> (r == 100.0 <==> spent >= budget)
    ensures budget > 0 && spent < budget ==> r * (budget as real) == 100.0 * (spent as real)
  {
    if budget <= 0 then 0.0
    else
      var p := (spent as real) / (budget as real) * 100.0;
      if p < 100.0 then p else 100.0
  }

  /** The status rule: over budget once spending reaches the budget, near the
      limit from 85% of it, OK otherwise and whenever there is no positive budget.
      In cents, 0.85 * budget <= spent is decided exactly as 85 * budget <= 100 * spent. */
  function StatusOf(budget: Cents, spent: Cents): (r: BudgetStatus)
    ensures r == OverBudget <==> budget > 0 && spent >= budget
    ensures r == NearLimit <==> budget > 0 && spent < budget && (spent as real) >= (budget as real) * 0.85
    ensures r == OK <==> budget <= 0 || (spent as real) < (budget as real) * 0.85
  {
    if budget > 0 && spent >= budget then OverBudget
    else if budget > 0 && 100 * spent >= 85 * budget then NearLimit
    else OK
  }

  /** The status is the band the percentage falls in: 100 for OverBudget,
      85 up to 100 for NearLimit, below 85 for OK. */
  lemma StatusIsPercentBand(budget: Cents, spent: Cents)
    requires budget > 0
    ensures StatusOf(budget, spent) == OverBudget <==> PercentUsed(budget, spent) == 100.0
    ensures StatusOf(budget, spent) == NearLimit <==> 85.0 <= PercentUsed(budget, spent) < 100.0
    ensures StatusOf(budget, spent) == OK <==> PercentUsed(budget, spent) < 85.0
  {
    if spent < budget {
      BandOfPercent(PercentUsed(budget, spent), budget as real, spent as real);
    }
  }

  lemma BandOfPercent(p: real, b: real, s: real)
    requires b > 0.0 && p * b == 100.0 * s
    ensures 85.0 <= p <==> s >= b * 0.85
  {
    if 85.0 <= p {
      ScaleMonotone(85.0, p, b);
    } else {
      ScaleMonotone(p, 85.0, b);
    }
  }

  lemma ScaleMonotone(x: real, y: real, b: real)
    requires x <= y && b > 0.0
    ensures x * b <= y * b
    ensures x < y ==> x * b < y * b
  {
  }

  /** The row the dashboard emits for category `cat` in the month starting at `monthStart`. */
  function BudgetRow(cat: Category, budgets: seq<Budget>, expenses: seq<Expense>, monthStart: Date): CategoryBudgetRow {
    var budget := FindBudget(budgets, cat.categoryId, monthStart).GetOr(0);
    var spent := CategorySpent(expenses, cat.categoryId, monthStart, MonthEnd(monthStart));
    CategoryBudgetRow(cat.name, budget, spent, PercentUsed(budget, spent), StatusOf(budget, spent))
  }

  /** One row per category, in the order given. */
  function BudgetRows(cats: seq<Category>, budgets: seq<Budget>, expenses: seq<Expense>, monthStart: Date): seq<CategoryBudgetRow> {
    seq(|cats|, i requires 0 <= i < |cats| => BudgetRow(cats[i], budgets, expenses, monthStart))
  }

  /** Row i belongs to category i; its budget is the amount of the first
      budget of that category and month, or 0 when there is none; its spending
      is that category's month sum; its percentage is at most 100, and at least
      0 whenever every expense amount is non-negative. */
  lemma BudgetRowsSpec(cats: seq<Category>, budgets: seq<Budget>, expenses: seq<Expense>, monthStart: Date, i: int)
    requires 0 <= i < |cats|
    ensures |BudgetRows(cats, budgets, expenses, monthStart)| == |cats|
    ensures var row := BudgetRows(cats, budgets, expenses, monthStart)[i];
      && row.categoryName == cats[i].name
      && ((forall j :: 0 <= j < |budgets| ==> !BudgetFor(budgets[j], cats[i].categoryId, monthStart)) ==> row.budgetAmount == 0)
      && ((exists j :: 0 <= j < |budgets| && BudgetFor(budgets[j], cats[i].categoryId, monthStart)) ==>
            exists j :: 0 <= j < |budgets| && BudgetFor(budgets[j], cats[i].categoryId, monthStart)
                        && budgets[j].amount == row.budgetAmount
                        && forall j' :: 0 <= j' < j ==> !BudgetFor(budgets[j'], cats[i].categoryId, monthStart))
      && row.spentAmount == CategorySpent(expenses, cats[i].categoryId, monthStart, MonthEnd(monthStart))
      && row.percentUsed <= 100.0
      && ((forall k :: 0 <= k < |expenses| ==> expenses[k].amount >= 0) ==> 0.0 <= row.percentUsed)
      && row.status == StatusOf(row.budgetAmount, row.spentAmount)
  {
    if forall k :: 0 <= k < |expenses| ==> expenses[k].amount >= 0 {
      CategorySpentAtMostTotal(expenses, cats[i].categoryId, monthStart, MonthEnd(monthStart));
    }
  }

  /** The worked cases: a 500.00 budget fully spent is over budget at 100%;
      430.00 of it (86%) is near the limit. */
  lemma BudgetScenarios()
    ensures StatusOf(50000, 50000) == OverBudget && PercentUsed(50000, 50000) == 100.0
    ensures StatusOf(50000, 43000) == NearLimit && PercentUsed(50000, 43000) == 86.0
  {
  }
}
