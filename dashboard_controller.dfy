/** The dashboard controller: it materializes the due recurring expenses and
    then assembles the month's view model from the ledger. */
module Dashboard {
  import opened Wrappers
  import opened Dates
  import opened Text
  import opened Models
  import opened Store
  import opened Sorting
  import opened DashboardViewModels
  import opened Aggregation
  import opened Health
  import opened Recurrence

  /** The dashboard's budget table takes every category once, in name order. */
  lemma DashboardCategoriesInNameOrder(cats: seq<Category>)
    ensures SortedBy(SortBy(cats, CategoryNameOrder), CategoryNameOrder)
    ensures multiset(SortBy(cats, CategoryNameOrder)) == multiset(cats)
    ensures forall i, j :: 0 <= i < j < |SortBy(cats, CategoryNameOrder)| ==>
              OrdinalAtMost(SortBy(cats, CategoryNameOrder)[i].name, SortBy(cats, CategoryNameOrder)[j].name)
  {
    CategoryNameOrderIsTotalPreorder();
    SortBySorted(cats, CategoryNameOrder);
  }

  class DashboardController {
    const db: Ledger

    constructor (db: Ledger)
      ensures this.db == db
    {
      this.db := db;
    }

    /** `GenerateDueRecurringExpensesAsync`, with `DateTime.Today` as `today`:
        every due template adds one expense to the ledger and moves its next
        occurrence one interval forward; nothing else in the ledger changes. */
    method GenerateDueRecurringExpenses(today: Date)
      modifies db, db.recurringExpenses
      ensures db.recurringExpenses[..] == AdvanceDue(old(db.recurringExpenses[..]), today)
      ensures db.expenses == old(db.expenses) + NewExpenses(old(db.recurringExpenses[..]), today, old(db.nextExpenseId))
      ensures db.nextExpenseId == old(db.nextExpenseId) + CountDue(old(db.recurringExpenses[..]), today)
      ensures db.incomes == old(db.incomes) && db.categories == old(db.categories) && db.budgets == old(db.budgets)
      ensures CountDue(old(db.recurringExpenses[..]), today) == 0 ==>
                db.expenses == old(db.expenses) && db.recurringExpenses[..] == old(db.recurringExpenses[..])
    {
      var ts := db.recurringExpenses;
      ghost var before := ts[..];
      NewExpensesCount(before, today, db.nextExpenseId);
      var due := DueIndices(ts[..], today);
      if |due| == 0 {
        assert forall i :: 0 <= i < |before| ==> !IsDue(before[i], today);
        NothingDueChangesNothing(before, today, db.nextExpenseId);
        return;
      }
      ghost var news := NewExpenses(before, today, db.nextExpenseId);
      ghost var firstId := db.nextExpenseId;
      var j := 0;
      while j < |due|
        invariant 0 <= j <= |due|
        invariant db.expenses == old(db.expenses) + news[..j]
        invariant db.nextExpenseId == firstId + j
        invariant ts[..] == AdvanceAt(before, due[..j])
        invariant db.incomes == old(db.incomes) && db.categories == old(db.categories) && db.budgets == old(db.budgets)
      {
        var i := due[j];
        IncreasingStep(due, j);
        assert ts[i] == before[i];
        ghost var e := news[j];
        assert e == Materialize(ts[i], db.nextExpenseId);
        ghost var pre := db.expenses;
        MaterializeOne(i);
        assert db.expenses == pre + [e];
        AdvanceAtSnoc(before, due[..j], i);
        AppendPrefixSnoc(old(db.expenses), news, j);
        PrefixSnoc(due, j);
        j := j + 1;
      }
      assert due[..j] == due;
      AdvanceAtDue(before, today);
    }

    /** The loop body of the pass for the template at position i: add its
        expense with the next identity and move its next occurrence forward. */
    method MaterializeOne(i: nat)
      requires i < db.recurringExpenses.Length
      modifies db, db.recurringExpenses
      ensures db.expenses == old(db.expenses) + [Materialize(old(db.recurringExpenses[i]), old(db.nextExpenseId))]
      ensures db.nextExpenseId == old(db.nextExpenseId) + 1
      ensures db.recurringExpenses[..] == old(db.recurringExpenses[..])[i := Advance(old(db.recurringExpenses[i]))]
      ensures db.incomes == old(db.incomes) && db.categories == old(db.categories) && db.budgets == old(db.budgets)
    {
      var ts := db.recurringExpenses;
      var r := ts[i];
      AddExpense(Materialize(r, db.nextExpenseId));
      ts[i] := Advance(r);
    }

    /** `_context.Expenses.Add(e)` with the identity the store assigns next. */
    method AddExpense(e: Expense)
      modifies db
      ensures db.expenses == old(db.expenses) + [e]
      ensures db.nextExpenseId == old(db.nextExpenseId) + 1
      ensures db.incomes == old(db.incomes) && db.categories == old(db.categories) && db.budgets == old(db.budgets)
    {
      db.expenses := db.expenses + [e];
      db.nextExpenseId := db.nextExpenseId + 1;
    }

    /** `Index(month)`, with `DateTime.Today` as `today`: materialize what is
        due, then fill a fresh view model for the month of `month` (or of today). */
    method Index(month: Option<Date>, today: Date) returns (vm: DashboardViewModel)
      modifies db, db.recurringExpenses
      ensures db.recurringExpenses[..] == AdvanceDue(old(db.recurringExpenses[..]), today)
      ensures db.expenses == old(db.expenses) + NewExpenses(old(db.recurringExpenses[..]), today, old(db.nextExpenseId))
      ensures db.nextExpenseId == old(db.nextExpenseId) + CountDue(old(db.recurringExpenses[..]), today)
      ensures db.incomes == old(db.incomes) && db.categories == old(db.categories) && db.budgets == old(db.budgets)
      ensures fresh(vm)
      ensures vm.selectedMonth == FirstOfMonth(month.GetOr(today))
      ensures vm.totalIncome == IncomeTotal(db.incomes, vm.selectedMonth, MonthEnd(vm.selectedMonth))
      ensures vm.totalExpenses == ExpenseTotal(db.expenses, vm.selectedMonth, MonthEnd(vm.selectedMonth))
      ensures vm.NetIsBalance()
      ensures vm.monthLabels == TrendLabels(vm.selectedMonth)
      ensures vm.incomeSeries == TrendIncome(db.incomes, vm.selectedMonth)
      ensures vm.expenseSeries == TrendExpenses(db.expenses, vm.selectedMonth)
      ensures vm.categoryBudgets == BudgetRows(SortBy(db.categories, CategoryNameOrder), db.budgets, db.expenses, vm.selectedMonth)
      ensures vm.healthScore == HealthScore(vm.totalIncome, vm.totalExpenses, vm.categoryBudgets)
      ensures vm.healthLabel == HealthLabel(vm.healthScore)
    {
      var selectedMonth := FirstOfMonth(month.GetOr(today));
      GenerateDueRecurringExpenses(today);
      vm := MonthView(selectedMonth);
    }

    /** The part of `Index` after the materialization: the month's totals,
        the trend, the budget rows and the health score, read from the ledger. */
    method MonthView(selectedMonth: Date) returns (vm: DashboardViewModel)
      ensures fresh(vm)
      ensures vm.selectedMonth == selectedMonth
      ensures vm.totalIncome == IncomeTotal(db.incomes, selectedMonth, MonthEnd(selectedMonth))
      ensures vm.totalExpenses == ExpenseTotal(db.expenses, selectedMonth, MonthEnd(selectedMonth))
      ensures vm.NetIsBalance()
      ensures vm.monthLabels == TrendLabels(selectedMonth)
      ensures vm.incomeSeries == TrendIncome(db.incomes, selectedMonth)
      ensures vm.expenseSeries == TrendExpenses(db.expenses, selectedMonth)
      ensures vm.categoryBudgets == BudgetRows(SortBy(db.categories, CategoryNameOrder), db.budgets, db.expenses, selectedMonth)
      ensures vm.healthScore == HealthScore(vm.totalIncome, vm.totalExpenses, vm.categoryBudgets)
      ensures vm.healthLabel == HealthLabel(vm.healthScore)
    {
      var incomes, expenses, budgets := db.incomes, db.expenses, db.budgets;
      var monthStart := selectedMonth;
      var monthEnd := AddMonths(selectedMonth, 1);
      var totalIncome := IncomeTotal(incomes, monthStart, monthEnd);
      var totalExpenses := ExpenseTotal(expenses, monthStart, monthEnd);

      vm := new DashboardViewModel();
      vm.selectedMonth := selectedMonth;
      vm.totalIncome := totalIncome;
      vm.totalExpenses := totalExpenses;
      vm.net := totalIncome - totalExpenses;

      FillTrend(vm, incomes, expenses, selectedMonth);
      var categories := SortBy(db.categories, CategoryNameOrder);
      FillCategoryBudgets(vm, categories, budgets, expenses, selectedMonth);

      SetHealth(vm);
    }

    /** The score and its label, from the totals and rows already in `vm`. */
    method SetHealth(vm: DashboardViewModel)
      modifies vm
      ensures vm.healthScore == HealthScore(vm.totalIncome, vm.totalExpenses, vm.categoryBudgets)
      ensures vm.healthLabel == HealthLabel(vm.healthScore)
      ensures vm.selectedMonth == old(vm.selectedMonth) && vm.categoryBudgets == old(vm.categoryBudgets)
      ensures vm.totalIncome == old(vm.totalIncome) && vm.totalExpenses == old(vm.totalExpenses) && vm.net == old(vm.net)
      ensures vm.monthLabels == old(vm.monthLabels) && vm.incomeSeries == old(vm.incomeSeries) && vm.expenseSeries == old(vm.expenseSeries)
    {
      vm.healthScore := HealthScore(vm.totalIncome, vm.totalExpenses, vm.categoryBudgets);
      vm.healthLabel := HealthLabel(vm.healthScore);
    }

    /** The six-month trend loop of `Index`. */
    method FillTrend(vm: DashboardViewModel, incomes: seq<Income>, expenses: seq<Expense>, selectedMonth: Date)
      requires vm.monthLabels == [] && vm.incomeSeries == [] && vm.expenseSeries == []
      modifies vm
      ensures vm.monthLabels == TrendLabels(selectedMonth)
      ensures vm.incomeSeries == TrendIncome(incomes, selectedMonth)
      ensures vm.expenseSeries == TrendExpenses(expenses, selectedMonth)
      ensures vm.selectedMonth == old(vm.selectedMonth) && vm.categoryBudgets == old(vm.categoryBudgets)
      ensures vm.totalIncome == old(vm.totalIncome) && vm.totalExpenses == old(vm.totalExpenses) && vm.net == old(vm.net)
      ensures vm.healthScore == old(vm.healthScore) && vm.healthLabel == old(vm.healthLabel)
    {
      var start := AddMonths(selectedMonth, -5);
      for k := 0 to 6
        invariant vm.monthLabels == TrendLabels(selectedMonth)[..k]
        invariant vm.incomeSeries == TrendIncome(incomes, selectedMonth)[..k]
        invariant vm.expenseSeries == TrendExpenses(expenses, selectedMonth)[..k]
        invariant vm.selectedMonth == old(vm.selectedMonth) && vm.categoryBudgets == old(vm.categoryBudgets)
        invariant vm.totalIncome == old(vm.totalIncome) && vm.totalExpenses == old(vm.totalExpenses) && vm.net == old(vm.net)
        invariant vm.healthScore == old(vm.healthScore) && vm.healthLabel == old(vm.healthLabel)
      {
        var m := AddMonths(start, k);
        var s := FirstOfMonth(m);
        var e := AddMonths(s, 1);
        vm.monthLabels := vm.monthLabels + [MonthLabel(m.year, m.month)];
        var incomeM := IncomeTotal(incomes, s, e);
        var expenseM := ExpenseTotal(expenses, s, e);
        vm.incomeSeries := vm.incomeSeries + [incomeM];
        vm.expenseSeries := vm.expenseSeries + [expenseM];
        TrendPrefixStep(incomes, expenses, selectedMonth, k);
      }
      assert TrendLabels(selectedMonth)[..6] == TrendLabels(selectedMonth);
      assert TrendIncome(incomes, selectedMonth)[..6] == TrendIncome(incomes, selectedMonth);
      assert TrendExpenses(expenses, selectedMonth)[..6] == TrendExpenses(expenses, selectedMonth);
    }

    /** The budget-versus-actual loop of `Index`, over the name-ordered categories. */
    method FillCategoryBudgets(vm: DashboardViewModel, categories: seq<Category>, budgets: seq<Budget>,
                               expenses: seq<Expense>, selectedMonth: Date)
      requires vm.categoryBudgets == []
      modifies vm
      ensures vm.categoryBudgets == BudgetRows(categories, budgets, expenses, selectedMonth)
      ensures vm.selectedMonth == old(vm.selectedMonth)
      ensures vm.monthLabels == old(vm.monthLabels) && vm.incomeSeries == old(vm.incomeSeries) && vm.expenseSeries == old(vm.expenseSeries)
      ensures vm.totalIncome == old(vm.totalIncome) && vm.totalExpenses == old(vm.totalExpenses) && vm.net == old(vm.net)
      ensures vm.healthScore == old(vm.healthScore) && vm.healthLabel == old(vm.healthLabel)
    {
      var monthStart := selectedMonth;
      var monthEnd := AddMonths(selectedMonth, 1);
      for i := 0 to |categories|
        invariant vm.categoryBudgets == BudgetRows(categories[..i], budgets, expenses, selectedMonth)
        invariant vm.selectedMonth == old(vm.selectedMonth)
        invariant vm.monthLabels == old(vm.monthLabels) && vm.incomeSeries == old(vm.incomeSeries) && vm.expenseSeries == old(vm.expenseSeries)
        invariant vm.totalIncome == old(vm.totalIncome) && vm.totalExpenses == old(vm.totalExpenses) && vm.net == old(vm.net)
        invariant vm.healthScore == old(vm.healthScore) && vm.healthLabel == old(vm.healthLabel)
      {
        var cat := categories[i];
        var budget := FindBudget(budgets, cat.categoryId, selectedMonth).GetOr(0);
        var spent := CategorySpent(expenses, cat.categoryId, monthStart, monthEnd);
        var pct := PercentUsed(budget, spent);
        var status := StatusOf(budget, spent);
        vm.categoryBudgets := vm.categoryBudgets + [CategoryBudgetRow(cat.name, budget, spent, pct, status)];
        assert categories[..i + 1] == categories[..i] + [cat];
      }
      assert categories[..|categories|] == categories;
    }
  }
}
