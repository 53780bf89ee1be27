/** What the dashboard hands to its view. */
module DashboardViewModels {
  import opened Dates

  /** The `Status` string of a budget row: "OK", "NearLimit" or "OverBudget". */
  datatype BudgetStatus = OK | NearLimit | OverBudget

  /** A trend-chart label: the month shown, without its "MMM yyyy" formatting. */
  datatype MonthLabel = MonthLabel(year: int, month: int)

  /** One budget-versus-actual row. `new CategoryBudgetRow()` has an empty
      name, zero amounts and status OK; the dashboard always fills every field. */
  datatype CategoryBudgetRow = CategoryBudgetRow(
    categoryName: string,
    budgetAmount: int,
    spentAmount: int,
    percentUsed: real,
    status: BudgetStatus)

  class DashboardViewModel {
    var selectedMonth: Date
    var totalIncome: int
    var totalExpenses: int
    var net: int
    var monthLabels: seq<MonthLabel>
    var incomeSeries: seq<int>
    var expenseSeries: seq<int>
    var categoryBudgets: seq<CategoryBudgetRow>
    var healthScore: int
    var healthLabel: string

    /** Net is meant to hold income minus expenses. */
    predicate NetIsBalance()
      reads this
    {
      net == totalIncome - totalExpenses
    }

    /** The property initialisers: empty lists, label "OK", and C# defaults
      (DateTime.MinValue, zero) for the rest. */
    constructor ()
      ensures monthLabels == [] && incomeSeries == [] && expenseSeries == [] && categoryBudgets == []
      ensures healthLabel == "OK" && healthScore == 0
      ensures selectedMonth == Date(1, 1, 1)
      ensures totalIncome == 0 && totalExpenses == 0 && net == 0 && NetIsBalance()
    {
      selectedMonth := Date(1, 1, 1);
      totalIncome, totalExpenses, net := 0, 0, 0;
      monthLabels, incomeSeries, expenseSeries, categoryBudgets := [], [], [], [];
      healthScore := 0;
      healthLabel := "OK";
    }
  }
}
