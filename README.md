# Budgeting app core, modelled in Dafny

This project models the logic of an ASP.NET Core budgeting app's two controllers.

- **The dashboard** (`DashboardController`) has three parts:
  - Before it shows a month, it **materializes** the recurring-expense templates that are due. Each due template adds one concrete expense to the ledger. The template's next occurrence then moves forward one interval, in place.
  - It then **aggregates** the selected month:
    - the income and expense totals over the half-open range [first of month, first of next month), and their net;
    - a six-month trend ending at the selected month;
    - one budget-versus-actual row per category, in name order, with a percentage and a status.
  - Finally it **scores** the month: an integer health score in 0..100 and a label for it.
- **The expense list** (`ExpenseController`) also has three parts:
  - It **filters** the expenses by up to six optional criteria: from, to, category, minimum, maximum and a trimmed name search.
  - The list **sorts** newest first, with ties by descending identity. The CSV export sorts newest first only.
  - The export **writes CSV**: a header, then one line per row. The name and category fields are quoted, with inner quotes doubled as section 2, rule 7 of RFC 4180 describes.
- **The records** are the recurring-expense template with its interval enum, its defaults and validation bounds, and the dashboard view model with its defaults.

Modelling choices:

- **Money** is integer cents (`Models.Cents`). **Dates** are civil `Date(year, month, day)` values under the proleptic Gregorian rule. `AddMonths` clamps the day to the target month's length, as .NET's `DateTime.AddMonths` does. `AddDays` rolls over month and year ends.
- **The store** is `Store.Ledger`, a class:
  - the expense, income, category and budget tables are `seq` fields; the dashboard reassigns only the expense table and reads the other three;
  - the recurring-expense table is an `array`, because the materializer updates its rows in place;
  - the store's expense identities are a counter, `nextExpenseId`.
- **Time:** `DateTime.Today` is a parameter, `today`.
- **Controllers:** both are classes over a `Ledger`. `Dashboard.DashboardController.Index` runs the materialization pass and then `MonthView`. The loops of `GenerateDueRecurringExpenses`, `FillTrend` and `FillCategoryBudgets` carry invariants tying the state to specification functions:
  - `AdvanceDue` and `NewExpenses` in `Recurrence`;
  - `TrendLabels`, `TrendIncome`, `TrendExpenses` and `BudgetRows` in `Aggregation`.
- **Filters:** `Expenses.ExpenseController.FilterQuery` applies the `Where` steps one by one. After each step the query equals the selection (`ExpenseQuery.Selected`) of the filters applied so far. The specification of the result is the predicate `ExpenseQuery.Matches`.
- **CSV:** the export is proved against `Csv.CsvDocument`. A reader for the layout (`Csv.ReadCsv`) shows that the document determines every row's fields again:
  - the date and amount text;
  - the name and category name, un-doubled.
- **Sorting:** LINQ's `OrderBy`/`OrderByDescending`/`ThenByDescending` are a stable insertion sort by a total preorder (`Sorting.SortBy`).

Points where the code's behaviour may surprise a reader, and where the model follows the code:

- **Undeclared interval values.** The interval `switch` sends every value other than Weekly to "one month later", including undeclared enum values. This includes 0, the default of a freshly constructed template. The code does not reject such a value anywhere. `Models.RecurrenceInterval` has the declared members, plus an `Undeclared(code)` case whose code is any number other than 1 and 2. `Recurrence.NextOccurrence` advances an undeclared value by one month.
- **No idempotence.** A pass advances each due template by one step only. A template several intervals behind stays due after the pass (`Recurrence.DueAfterPass`, `Recurrence.OverdueTemplateStaysDue`). So a second pass on the same day can materialize again.
- **Percentage bounds.** The percentage is at most 100. It is at least 0 only when the spending is non-negative: a negative spent amount gives a negative percentage.
- **Category order.** Categories are ordered by `OrderBy(c => c.Name)` as the code writes it. The model compares names ordinally, not case-insensitively.

## Model

| member | source | states |
|---|---|---|
| Dashboard.DashboardController.constructor | BudgetingApp/Controllers/DashboardController.cs:23-26 | the controller works on the given ledger |
| Dashboard.DashboardController.Index | BudgetingApp/Controllers/DashboardController.cs:30-146 | the ledger changes exactly as one materialization pass for `today` changes it, the identity counter moving by the number of due templates; the view model is for day 1 of the month of `month` (or of today); its totals, net, trend, budget rows, score and label are those of the ledger after the pass |
| Dashboard.DashboardController.MonthView | BudgetingApp/Controllers/DashboardController.cs:43-143 | a fresh view model whose totals are the half-open month sums, whose net is income minus expenses, unclamped, whose trend and rows are the specification sequences for the month, and whose score and label are the health formula of those totals and rows |
| Dates.FirstOfMonth | BudgetingApp/Controllers/DashboardController.cs:34-38 | the normalised month has day 1 and the input's year and month, is valid, and is on or before a valid input |
| Dates.AddMonths | BudgetingApp/Controllers/DashboardController.cs:45 | the month index moves by exactly n; the day is kept, or clamped to the target month's last day when it is too large; a valid date stays valid |
| Dates.JanuaryThirtyFirstPlusOneMonth | BudgetingApp/Controllers/DashboardController.cs:207 | January 31 plus one month is February 29 in a leap year, February 28 otherwise; December 31 rolls into January of the next year |
| Dates.MonthRange | BudgetingApp/Controllers/DashboardController.cs:44-45 | a valid date lies in [first of month, first of next month) exactly when it has that year and month |
| Aggregation.IncomeTotal | BudgetingApp/Controllers/DashboardController.cs:49-51 | definition of the income sum over the rows dated in [start, end), 0 for none (the `?? 0m`); the month total and each trend income use it; `MonthTotalsAreCalendarMonth` and `TotalsWithoutRowsAreZero` state its properties |
| Aggregation.ExpenseTotal | BudgetingApp/Controllers/DashboardController.cs:54-56 | definition of the expense sum over the rows dated in [start, end), 0 for none; the month total and each trend expense use it; `MonthTotalsAreCalendarMonth`, `TotalsWithoutRowsAreZero` and `ExpenseTotalsConcat` state its properties |
| Aggregation.CategorySpent | BudgetingApp/Controllers/DashboardController.cs:108-110 | definition of one category's expense sum over [start, end), 0 for none; `CategorySpentAtMostTotal` and `ExpenseTotalsConcat` state its properties |
| Aggregation.MonthTotalsAreCalendarMonth | BudgetingApp/Controllers/DashboardController.cs:49-56 | the half-open month sums of income and expenses equal independent sums over the rows dated in that calendar month |
| Aggregation.TotalsWithoutRowsAreZero | BudgetingApp/Controllers/DashboardController.cs:49-56 | with no row in the range each total is 0, the `?? 0m` of an empty sum |
| Aggregation.ExpenseTotalsConcat | BudgetingApp/Controllers/DashboardController.cs:54-56 | the month sum and the category sum over appended rows are the sums of the two parts, so materialized expenses add exactly their own in-range amounts |
| Aggregation.CategorySpentAtMostTotal | BudgetingApp/Controllers/DashboardController.cs:108-110 | with non-negative amounts, a category's month spending lies between 0 and the month's expense total |
| Dashboard.DashboardController.FillTrend | BudgetingApp/Controllers/DashboardController.cs:69-92 | the loop leaves the labels, income series and expense series equal to `TrendLabels`, `TrendIncome` and `TrendExpenses` of the month, and changes no other field |
| Aggregation.TrendPrefixStep | BudgetingApp/Controllers/DashboardController.cs:72-91 | each trend series up to entry k + 1 is the series up to k followed by month k's label, income sum and expense sum |
| Aggregation.TrendLabels | BudgetingApp/Controllers/DashboardController.cs:69-77 | definition of the six trend labels, the (year, month) of `selectedMonth.AddMonths(-5).AddMonths(k)` for k = 0..5; `TrendShape` states which months these are |
| Aggregation.TrendIncome | BudgetingApp/Controllers/DashboardController.cs:69-82 | definition of the six trend income values, each the income sum over its month's half-open range; `TrendShape` states their months and the last entry |
| Aggregation.TrendExpenses | BudgetingApp/Controllers/DashboardController.cs:69-92 | definition of the six trend expense values, each the expense sum over its month's half-open range; `TrendShape` states their months and the last entry |
| Dates.AddMonthsCompose | BudgetingApp/Controllers/DashboardController.cs:69-73 | from a first of month, moving a months then b months is moving a + b months, and lands on a first of month |
| Aggregation.TrendMonthIs | BudgetingApp/Controllers/DashboardController.cs:69-73 | trend month k is the first of the month k - 5 months from the selected month |
| Aggregation.LastTrendMonthIsSelected | BudgetingApp/Controllers/DashboardController.cs:69-72 | the sixth trend month is the selected month itself |
| Aggregation.TrendShape | BudgetingApp/Controllers/DashboardController.cs:69-92 | six labels, six income values, six expense values; entry k is month (selected - 5 + k), oldest first, summed over its own half-open range; the last entry is the selected month with the selected month's totals |
| Models.CategoryNameOrderIsTotalPreorder | BudgetingApp/Controllers/DashboardController.cs:96 | ordering categories by name is total and transitive, so the sort orders every category list |
| Dashboard.DashboardCategoriesInNameOrder | BudgetingApp/Controllers/DashboardController.cs:96 | the dashboard's categories are a permutation of the table, sorted by name |
| Dashboard.DashboardController.FillCategoryBudgets | BudgetingApp/Controllers/DashboardController.cs:98-131 | the loop appends exactly one row per category, in the given order, the rows being `BudgetRows`; no other field changes |
| Aggregation.FindBudget | BudgetingApp/Controllers/DashboardController.cs:102-105 | no value exactly when no budget matches the category and month; otherwise the amount of the first matching budget, without assuming uniqueness |
| Aggregation.BudgetRow | BudgetingApp/Controllers/DashboardController.cs:102-130 | definition of one category's row: its name, `FindBudget` or 0, its month spending, `PercentUsed` and `StatusOf` of those two; `BudgetRowsSpec` states what the row holds |
| Aggregation.BudgetRows | BudgetingApp/Controllers/DashboardController.cs:98-131 | definition of the rows: one `BudgetRow` per category, in the given order; `BudgetRowsSpec` states their number and contents |
| Aggregation.BudgetRowsSpec | BudgetingApp/Controllers/DashboardController.cs:98-131 | one row per category; row i has category i's name; its budget is 0 when no budget matches the category and month, and otherwise the amount of the first matching budget in table order; its spending is the half-open month sum; its percentage is at most 100, and at least 0 when every expense amount is non-negative; its status is that of its budget and spending |
| Aggregation.PercentUsed | BudgetingApp/Controllers/DashboardController.cs:114 | The percentage is 0 without a positive budget and otherwise the exact real spent / budget * 100 capped at 100, so it is 100 exactly when spending reaches the budget and non-negative for non-negative spending. |
| Aggregation.StatusOf | BudgetingApp/Controllers/DashboardController.cs:118-120 | OverBudget iff budget > 0 and spent >= budget; NearLimit iff budget > 0 and 0.85 * budget <= spent < budget; OK iff there is no positive budget or spent < 0.85 * budget |
| Aggregation.StatusIsPercentBand | BudgetingApp/Controllers/DashboardController.cs:114-120 | with a positive budget the status is the percentage's band: 100 is OverBudget, 85 up to 100 is NearLimit, below 85 is OK |
| Aggregation.BudgetScenarios | BudgetingApp/Controllers/DashboardController.cs:114-120 | 500.00 budgeted and 500.00 spent is OverBudget at 100%; 430.00 spent is NearLimit at 86% |
| Dashboard.DashboardController.SetHealth | BudgetingApp/Controllers/DashboardController.cs:134-143 | the score is the health formula of the model's totals and rows, and the label is the score's label; nothing else changes |
| Health.SavingsPoints | BudgetingApp/Controllers/DashboardController.cs:156-159 | the savings term lies in 0..60 |
| Health.HealthScore | BudgetingApp/Controllers/DashboardController.cs:150-172 | the score lies in 0..100; it is 30 without positive income; it is at least 40 with positive income and no flagged rows |
| Health.HealthScoreIsFormula | BudgetingApp/Controllers/DashboardController.cs:150-172 | with positive income the score is clamp(40 + trunc(clamp((income - expenses) / income * 60, 0, 60)) - 12 * over - 6 * near, 0, 100) in exact rational arithmetic |
| Health.HealthScoreExample | BudgetingApp/Controllers/DashboardController.cs:150-172 | income 1000.00 and expenses 400.00 with no flagged rows score 76, labelled "Good" |
| Health.HealthScoreMonotoneInExpenses | BudgetingApp/Controllers/DashboardController.cs:156-169 | spending more never raises the score |
| Health.HealthScoreMonotoneInRows | BudgetingApp/Controllers/DashboardController.cs:162-169 | one more row, flagged or not, never raises the score |
| Health.HealthLabelBands | BudgetingApp/Controllers/DashboardController.cs:137-143 | "Strong" iff score >= 85, "Good" iff 70..84, "Needs Attention" iff 50..69, "High Risk" iff below 50; without income the label is "High Risk" |
| Health.HealthLabel | BudgetingApp/Controllers/DashboardController.cs:137-143 | definition of the label switch: "Strong" from 85, "Good" from 70, "Needs Attention" from 50, "High Risk" below; `HealthLabelBands` states each band in both directions |
| Health.CountStatus | BudgetingApp/Controllers/DashboardController.cs:162-163 | the number of rows with the given status, never more than the number of rows |
| Dashboard.DashboardController.GenerateDueRecurringExpenses | BudgetingApp/Controllers/DashboardController.cs:176-214 | the templates become `AdvanceDue` of the old ones; the expenses become the old ones followed by `NewExpenses`; the identity counter moves by the number of due templates; incomes, categories and budgets are unchanged; with nothing due nothing changes |
| Dashboard.DashboardController.MaterializeOne | BudgetingApp/Controllers/DashboardController.cs:192-209 | for template i: its expense, with the next identity, is appended, and template i alone moves to its next occurrence |
| Dashboard.DashboardController.AddExpense | BudgetingApp/Controllers/DashboardController.cs:195-201 | the expense is appended with the next identity and nothing else in the ledger changes |
| Recurrence.DueIndices | BudgetingApp/Controllers/DashboardController.cs:182-187 | the due query: strictly increasing positions, each of a due template, and every due template's position among them |
| Recurrence.NothingDueChangesNothing | BudgetingApp/Controllers/DashboardController.cs:189-190 | with no template due the pass creates no expense and changes no template |
| Recurrence.Materialize | BudgetingApp/Controllers/DashboardController.cs:195-201 | the new expense is named with the " (Recurring)" suffix and has the template's amount and category and its pre-advance next occurrence as its date |
| Recurrence.NewExpensesCount | BudgetingApp/Controllers/DashboardController.cs:192-201 | the pass creates exactly as many expenses as there are due templates |
| Recurrence.OneExpensePerDueTemplate | BudgetingApp/Controllers/DashboardController.cs:192-209 | a due template yields exactly one new expense with the suffixed name, its amount, category and old next occurrence, and is advanced; a template that is not due yields no expense and is unchanged |
| Recurrence.AdvanceSteps | BudgetingApp/Controllers/DashboardController.cs:204-209 | the advance moves a valid next occurrence strictly forward to a valid date: for Weekly, `AddDays(d, 7)`, exactly 7 days later in the day count; for Monthly and every other value, `AddMonths(d, 1)`, in the next calendar month, with the same day, or with that month's last day when the old day is larger than the month's length; no other template field changes |
| Dates.AddDaysNumber | BudgetingApp/Controllers/DashboardController.cs:206 | adding n days to a valid date gives the valid date n days later in the day count |
| Dates.AddWeek | BudgetingApp/Controllers/DashboardController.cs:206 | seven days on is a valid, strictly later date, seven days later in the day count |
| Dates.AddMonthLater | BudgetingApp/Controllers/DashboardController.cs:207-208 | one month on is a valid, strictly later date in the next calendar month |
| Dates.BeforeIsDayOrder | BudgetingApp/Controllers/DashboardController.cs:185-186 | the field-by-field date comparison agrees with the order of Gregorian day numbers, and equal day numbers mean equal dates |
| Recurrence.IsDue | BudgetingApp/Controllers/DashboardController.cs:183-186 | definition of the due filter: active, next occurrence on or before today, and no end date or an end date on or after today; `DueIndices` and `DueAfterPass` state what follows from it |
| Recurrence.NextOccurrence | BudgetingApp/Controllers/DashboardController.cs:204-209 | definition of the interval switch: `AddDays(d, 7)` for Weekly, `AddMonths(d, 1)` for Monthly and through the default arm for every other value; `AdvanceSteps` states what these steps do to a date |
| Recurrence.Advance | BudgetingApp/Controllers/DashboardController.cs:204-209 | definition of the in-place update: the template with only its next occurrence replaced by `NextOccurrence` of its interval; `AdvanceSteps` proves that no other field changes |
| Dates.AddDays | BudgetingApp/Controllers/DashboardController.cs:206 | definition of `AddDays(n)` for whole non-negative n: n successive next-day steps that roll over month and year ends; `AddDaysNumber` proves it moves n days in the day count |
| Recurrence.DueAfterPass | BudgetingApp/Controllers/DashboardController.cs:204-209 | after the pass an advanced template is still due exactly when its new next occurrence is still on or before today |
| Recurrence.OverdueTemplateStaysDue | BudgetingApp/Controllers/DashboardController.cs:204-209 | a weekly template two weeks behind is still due after one pass, so the pass is not idempotent |
| Expenses.ExpenseController.constructor | BudgetingApp/Controllers/ExpenseController.cs:28-31 | the controller works on the given ledger |
| Expenses.ExpenseController.FilterQuery | BudgetingApp/Controllers/ExpenseController.cs:66-81 | the conditional `Where` steps leave exactly the selection of the filter in table order; an expense is in it iff it is stored and meets every supplied criterion |
| Expenses.ExpenseController.Index | BudgetingApp/Controllers/ExpenseController.cs:37-91 | the filters are echoed; the category options are the categories in name order; the rows are the selection sorted newest first, ties by descending identity, holding exactly the matching expenses with their stored multiplicities |
| Expenses.IndexRowsSpec | BudgetingApp/Controllers/ExpenseController.cs:85-88 | the list's rows run newest first, ties by descending identity; they are a permutation of the selection and contain exactly the matching expenses |
| Expenses.ExpenseController.ExportCsv | BudgetingApp/Controllers/ExpenseController.cs:96-134 | the text is the document of the selection sorted newest first, and it reads back as exactly one record per such row, in order |
| Expenses.ExportRowsSpec | BudgetingApp/Controllers/ExpenseController.cs:105-119 | the export's rows run newest first and are a permutation of the list's rows for the same filters |
| Expenses.ExpenseController.WriteDocument | BudgetingApp/Controllers/ExpenseController.cs:123-131 | the `StringBuilder` loop produces the header line followed by every row's line in order |
| ExpenseQuery.Where | BudgetingApp/Controllers/ExpenseController.cs:69-80 | a `Where` step keeps at most the rows it is given, and an expense is kept iff it was there and meets the predicate |
| ExpenseQuery.Holds | BudgetingApp/Controllers/ExpenseController.cs:69-80 | definition of each `Where` predicate: date on or after the from-date, on or before the to-date, the category, amount at least the minimum, at most the maximum, and the name containing the trimmed search; the `Narrow` lemmas state what each step keeps |
| ExpenseQuery.Matches | BudgetingApp/Controllers/ExpenseController.cs:69-81 | definition of the filter as one predicate: every supplied criterion holds, and a null or blank search imposes nothing; `Selected`, `SelectedCounts` and `SearchIsTrimmedSubstring` state its relation to the selection |
| ExpenseQuery.Selected | BudgetingApp/Controllers/ExpenseController.cs:66-81 | an expense is selected iff it is stored and matches every supplied filter |
| ExpenseQuery.SelectedCounts | BudgetingApp/Controllers/ExpenseController.cs:66-81 | each matching expense is selected as often as it is stored, and a non-matching one never |
| ExpenseQuery.WhereNarrows | BudgetingApp/Controllers/ExpenseController.cs:69-80 | a `Where` on a selection gives the selection of the filter that also demands the step's predicate |
| ExpenseQuery.NarrowFrom | BudgetingApp/Controllers/ExpenseController.cs:69 | the from-step keeps the dates on or after the bound |
| ExpenseQuery.NarrowTo | BudgetingApp/Controllers/ExpenseController.cs:70 | the to-step keeps the dates on or before the bound |
| ExpenseQuery.NarrowCategory | BudgetingApp/Controllers/ExpenseController.cs:71 | the category step keeps the expenses of that category |
| ExpenseQuery.NarrowMin | BudgetingApp/Controllers/ExpenseController.cs:72 | the minimum step keeps the amounts at or above it |
| ExpenseQuery.NarrowMax | BudgetingApp/Controllers/ExpenseController.cs:73 | the maximum step keeps the amounts at or below it |
| ExpenseQuery.NarrowSearch | BudgetingApp/Controllers/ExpenseController.cs:77-81 | a non-blank search keeps the names containing the trimmed search text |
| ExpenseQuery.SkipSearch | BudgetingApp/Controllers/ExpenseController.cs:77 | a null or blank search adds no step and selects nothing less |
| ExpenseQuery.NoFilterExcludesNothing | BudgetingApp/Controllers/ExpenseController.cs:66 | with no filter supplied every expense is selected, in table order |
| ExpenseQuery.BlankSearchExcludesNothing | BudgetingApp/Controllers/ExpenseController.cs:77 | a blank search selects the same as no search |
| ExpenseQuery.SearchIsTrimmedSubstring | BudgetingApp/Controllers/ExpenseController.cs:77-81 | with a non-blank search an expense matches iff it meets the other filters and the trimmed search occurs at some position of its name |
| Text.Trim | BudgetingApp/Controllers/ExpenseController.cs:79 | definition of `Trim` as white space dropped from the start, then from the end; `TrimSpec` states what the result is |
| Text.Contains | BudgetingApp/Controllers/ExpenseController.cs:80 | definition of ordinal `Contains`: the text starts with the search text, or its tail contains it; `ContainsIff` states it in terms of positions |
| Text.TrimSpec | BudgetingApp/Controllers/ExpenseController.cs:79 | `Trim` keeps a contiguous middle of the text, drops only white space around it, leaves no white space at either end, and is empty exactly for blank text |
| Text.ContainsIff | BudgetingApp/Controllers/ExpenseController.cs:80 | ordinal `Contains` holds exactly when the text occurs at some position |
| ExpenseQuery.IndexOrder | BudgetingApp/Controllers/ExpenseController.cs:86-87 | definition of the list's order: a later date first, and among equal dates the larger identity first; `IndexOrderIsTotalPreorder` and `OrdersMean` state its properties |
| ExpenseQuery.ExportOrder | BudgetingApp/Controllers/ExpenseController.cs:119 | definition of the export's order: a later date first, equal dates tied; `ExportOrderIsTotalPreorder` and `OrdersMean` state its properties |
| ExpenseQuery.IndexOrderIsTotalPreorder | BudgetingApp/Controllers/ExpenseController.cs:86-87 | date descending then identity descending is a total preorder on expenses |
| ExpenseQuery.ExportOrderIsTotalPreorder | BudgetingApp/Controllers/ExpenseController.cs:119 | date descending is a total preorder on expenses |
| ExpenseQuery.OrdersMean | BudgetingApp/Controllers/ExpenseController.cs:85-88 | a list sorted by the list's order runs newest first, ties by descending identity, and conversely; sorted by the export's order means newest first, and conversely |
| Sorting.SortBySorted | BudgetingApp/Controllers/ExpenseController.cs:85-88 | sorting by a total preorder gives a sorted permutation of the input |
| Sorting.SortByMembers | BudgetingApp/Controllers/ExpenseController.cs:85-88 | sorting neither adds nor drops any element |
| Csv.Double | BudgetingApp/Controllers/ExpenseController.cs:129 | `Replace("\"", "\"\"")` leaves a text without quotes unchanged and never shortens |
| Csv.Esc | BudgetingApp/Controllers/ExpenseController.cs:129 | the escaped field starts and ends with a quote, and a value without quotes is just wrapped in quotes |
| Csv.UndoubleDouble | BudgetingApp/Controllers/ExpenseController.cs:129 | un-doubling the doubled text recovers it |
| Csv.EscRoundTrip | BudgetingApp/Controllers/ExpenseController.cs:129 | un-doubling the interior of `Esc(v)` gives back v |
| Csv.EscInjective | BudgetingApp/Controllers/ExpenseController.cs:129 | different values escape differently |
| Csv.CategoryNameOf | BudgetingApp/Controllers/ExpenseController.cs:130 | the name of the first category with the expense's category identity, or the empty string when there is none |
| Csv.NatTextValue | BudgetingApp/Controllers/ExpenseController.cs:130 | the decimal digits written for n read back as n |
| Csv.DateText | BudgetingApp/Controllers/ExpenseController.cs:130 | `yyyy-MM-dd` is at least ten characters and holds no comma, quote or line break |
| Csv.DateTextExample | BudgetingApp/Controllers/ExpenseController.cs:130 | 2026-03-07 is written "2026-03-07" |
| Csv.DateTextRoundTrip | BudgetingApp/Controllers/ExpenseController.cs:130 | the date text of a valid date determines it: reading back the signed year and the two-digit month and day gives exactly that date |
| Csv.AmountText | BudgetingApp/Controllers/ExpenseController.cs:130 | `0.00` holds no comma, quote or line break |
| Csv.AmountTextRoundTrip | BudgetingApp/Controllers/ExpenseController.cs:130 | the amount text determines the amount: reading back the sign, the units and the two cent digits gives exactly the amount in cents |
| Csv.AmountTextExamples | BudgetingApp/Controllers/ExpenseController.cs:130 | 1234.56, 0.05, -2.50 and 0.00 are written with two decimals, a leading 0 and a sign where due |
| Csv.RecordOf | BudgetingApp/Controllers/ExpenseController.cs:130 | the date and amount fields of an expense's line hold nothing a reader could take for structure |
| Csv.LineOf | BudgetingApp/Controllers/ExpenseController.cs:130 | definition of one line: the date text, the escaped name, the escaped category name and the amount text, separated by commas and ended by the line terminator; `ReadLine` proves it reads back as exactly those fields |
| Csv.ReadLine | BudgetingApp/Controllers/ExpenseController.cs:130 | one line reads back as exactly its date, name, category name and amount, and the rest of the text is left as it was |
| Csv.ReadLines | BudgetingApp/Controllers/ExpenseController.cs:126-131 | the lines of the records, one after another, read back as exactly those records |
| Csv.CsvDocument | BudgetingApp/Controllers/ExpenseController.cs:123-131 | definition of the export text: the header line, then the line of each row in order; `CsvRoundTrip` proves it reads back as one record per row |
| Csv.CsvRoundTrip | BudgetingApp/Controllers/ExpenseController.cs:123-131 | the export is the header `Date,Name,Category,Amount` followed by exactly one line per row, in order, each reading back as that row's fields |
| Models.IntervalFromCode | BudgetingApp/Models/RecurringExpense.cs:14-18 | `(RecurrenceInterval)c` is Weekly iff c is 1, Monthly iff c is 2, otherwise an undeclared value carrying c |
| Models.IntervalCodeRoundTrip | BudgetingApp/Models/RecurringExpense.cs:14-18 | enum values and numbers correspond one to one, and exactly 1 and 2 name declared members |
| Models.PassesValidation | BudgetingApp/Models/RecurringExpense.cs:27-68 | definition of the validation attributes: the name is not blank and is at most 120 UTF-16 code units long, the amount lies in 1..50,000,000 cents, and the interval and category identity accept every value; `NewRecurringExpense` proves a new template fails it |
| Models.NameLimitCountsCodeUnits | BudgetingApp/Models/RecurringExpense.cs:28 | a name of 120 ASCII letters passes the length limit, while a name of 61 characters above U+FFFF, 122 code units, fails it |
| Text.Utf16Length | BudgetingApp/Models/RecurringExpense.cs:28 | the length `[StringLength]` measures is the number of UTF-16 code units, between the number of characters and twice that number |
| Models.NewRecurringExpense | BudgetingApp/Models/RecurringExpense.cs:24-68 | a new template has an empty name, is active, has no end date, carries the undeclared interval 0, and fails validation because its name is blank |
| DashboardViewModels.DashboardViewModel.constructor | BudgetingApp/Models/ViewModels/DashboardViewModel.cs:11-45 | a new view model has empty label, series and row lists, label "OK", score 0, zero totals and a balanced net |

The status values of a budget row (DashboardViewModel.cs:63-66) are the datatype `DashboardViewModels.BudgetStatus`.

## Left out

- Persistence: EF Core queries, `SumAsync`, `ToListAsync` and `SaveChangesAsync` are read as filters and sums over the ledger's sequences. Transactional atomicity of the save and concurrent dashboard loads are not modelled.
- `Include(e => e.Category)`: the navigation property is a lookup by category identity in the category table (`Csv.CategoryNameOf`). The model does not cover referential integrity.
- The store assigns expense identities with the counter `nextExpenseId`. The database's real identity generation is not modelled.
- Health.HealthScore: .NET `decimal` division rounds the savings rate to 28 significant digits before multiplying by 60 and truncating. The model computes the exact rational value and its floor, so the two can differ when the rate repeats: income 3.00 with expenses 2.00 scores 19 points of savings in .NET and 20 here.
- Aggregation.PercentUsed: `spent / budget * 100` is an exact real, without the 28-digit `decimal` rounding.
- Sums never overflow `decimal`: amounts are unbounded integers of cents.
- Years are unbounded. .NET's range of years 1..9999 and the exceptions `AddMonths`/`AddDays` throw outside it are not modelled.
- `DateTime.Today` is read three times in one dashboard load: twice for the selected month and once in the materialization pass. The model uses a single `today` for all three, so a load that spans midnight is not modelled.
- Time of day: every date is a day at midnight, so `from.Value.Date` and `to.Value.Date` are the dates themselves.
- Sub-cent filter bounds: minimum and maximum amounts are whole cents.
- Category name order: names are compared ordinally, character by character. The database's collation and case rules are not modelled.
- ExpenseQuery.Matches: the name search `e.Name.Contains(s)` is an ordinal substring test. The query runs in the database, whose collation decides case and accent sensitivity (on SQL Server, case-insensitive by default). Those rules are not modelled.
- The budget lookup's `FirstOrDefaultAsync` has no `OrderBy`, so the database does not fix which matching budget comes first. `Aggregation.FindBudget` takes the first in table order, as a modelling choice.
- The order among expenses with equal sort keys is the stable order of the table. A database's `ORDER BY` leaves this order unspecified.
- Display formatting: a trend label is a (year, month) pair, not the culture-formatted "MMM yyyy" text.
- Display formatting: the CSV date and amount fields follow `yyyy-MM-dd` and `0.00` with an invariant-culture decimal point, and no other culture.
- UTF-8 encoding: the export's `Encoding.UTF8.GetBytes` and the file response are not modelled. The document is a string of characters.
- Line terminators: the CSV uses one fixed line terminator, "\n", in place of `Environment.NewLine`.
- The category dropdown's `SelectListItem` value and text are not modelled. The options are the categories themselves, in name order.
- The controllers' other actions are left out as plain persistence: Details, Create, Edit, Delete and QuickAdd in `ExpenseController.cs`.
- The HTTP responses: `View(vm)` and `File(...)` return the view model and the CSV text.
- BudgetingApp/Models/Expense.cs and Category.cs are not part of this model. The `Expense` and `Category` records carry only the fields this core reads.
- `ExpenseIndexViewModel` holds only the filters, the category options and the rows. Its `SelectListItem` types are not modelled.
- The defaults of `CategoryBudgetRow` (an empty name, zero amounts, status OK) are not a member of the model. The dashboard sets every field of each row it emits.
