/** The ledger store the controllers query: each table is a sequence of rows,
    except the recurring-expense table, which the dashboard updates row by row
    in place and is therefore an array. */
module Store {
  import opened Models

  class Ledger {
    var expenses: seq<Expense>
    var incomes: seq<Income>
    var categories: seq<Category>
    var budgets: seq<Budget>
    const recurringExpenses: array<RecurringExpense>
    /** The identity value the store gives the next saved expense. */
    var nextExpenseId: int

    constructor (expenses: seq<Expense>, incomes: seq<Income>, categories: seq<Category>,
                 budgets: seq<Budget>, recurring: seq<RecurringExpense>, nextExpenseId: int)
      ensures this.expenses == expenses && this.incomes == incomes
      ensures this.categories == categories && this.budgets == budgets
      ensures fresh(recurringExpenses) && recurringExpenses[..] == recurring
      ensures this.nextExpenseId == nextExpenseId
    {
      this.expenses := expenses;
      this.incomes := incomes;
      this.categories := categories;
      this.budgets := budgets;
      this.recurringExpenses := new RecurringExpense[|recurring|](i requires 0 <= i < |recurring| => recurring[i]);
      this.nextExpenseId := nextExpenseId;
    }
  }
}
