/** The entities the core reads and writes. Money is held in integer cents
    (the store's `decimal(10,2)` columns), dates as civil dates. */
module Models {
  import opened Wrappers
  import opened Dates
  import opened Text
  import opened Sorting

  /** An amount of money in cents: 1234 is 12.34. */
  type Cents = int

  datatype Category = Category(categoryId: int, name: string)

  /** `Categories.OrderBy(c => c.Name)`, comparing names ordinally. */
  predicate CategoryNameOrder(a: Category, b: Category) {
    OrdinalAtMost(a.name, b.name)
  }

  lemma CategoryNameOrderIsTotalPreorder()
    ensures IsTotalPreorder(CategoryNameOrder)
  {
    forall a: Category, b: Category ensures CategoryNameOrder(a, b) || CategoryNameOrder(b, a) {
      OrdinalAtMostTotal(a.name, b.name);
    }
    forall a: Category, b: Category, c: Category | CategoryNameOrder(a, b) && CategoryNameOrder(b, c)
      ensures CategoryNameOrder(a, c)
    {
      OrdinalAtMostTransitive(a.name, b.name, c.name);
    }
  }

  /** A concrete expense. The `Category` navigation property is not stored
      here: it is the category whose id is `categoryId`, looked up when needed. */
  datatype Expense = Expense(expenseId: int, name: string, amount: Cents, date: Date, categoryId: int)

  datatype Income = Income(incomeId: int, source: string, amount: Cents, date: Date)

  /** A monthly limit for one category; `month` is meant to be the first of the month. */
  datatype Budget = Budget(budgetId: int, month: Date, amount: Cents, categoryId: int)

  /** An underlying number that names no declared member of the enum. */
  type UndeclaredCode = c: int | c != 1 && c != 2

  /** The recurrence enum. C# lets any int be stored in an enum variable (its
      default value 0 among them), so besides the two declared members an
      `Undeclared` value carries any other underlying number, and only such a
      number. */
  datatype RecurrenceInterval = Weekly | Monthly | Undeclared(code: UndeclaredCode)

  /** The enum's underlying number: Weekly = 1, Monthly = 2. */
  function IntervalCode(i: RecurrenceInterval): int {
    match i
    case Weekly => 1
    case Monthly => 2
    case Undeclared(c) => c
  }

  /** The enum value with underlying number c (C#'s `(RecurrenceInterval)c`). */
  function IntervalFromCode(c: int): (i: RecurrenceInterval)
    ensures IntervalCode(i) == c
    ensures i.Weekly? <==> c == 1
    ensures i.Monthly? <==> c == 2
  {
    if c == 1 then Weekly else if c == 2 then Monthly else Undeclared(c)
  }

  /** Numbers and enum values correspond one to one, and exactly two numbers
      name declared members. */
  lemma IntervalCodeRoundTrip(i: RecurrenceInterval, c: int)
    ensures IntervalFromCode(IntervalCode(i)) == i
    ensures IntervalCode(IntervalFromCode(c)) == c
    ensures !IntervalFromCode(c).Undeclared? <==> c in {1, 2}
  {
  }

  /** A recurring-expense template. */
  datatype RecurringExpense = RecurringExpense(
    recurringExpenseId: int,
    name: string,
    amount: Cents,
    interval: RecurrenceInterval,
    nextOccurrenceDate: Date,
    endDate: Option<Date>,
    isActive: bool,
    categoryId: int)

  const MaxRecurringNameLength := 120
  /** [Range(0.01, 500000)] in cents. */
  const MinRecurringAmount: Cents := 1
  const MaxRecurringAmount: Cents := 50_000_000

  /** The validation attributes on RecurringExpense: the name is required (not
      empty or blank) and at most 120 UTF-16 code units long, the amount lies in
      0.01..500000.00. `Interval` and `CategoryId` are non-nullable, so
      [Required] on them admits every value; `EndDate` is optional. */
  predicate PassesValidation(r: RecurringExpense) {
    && !AllWhiteSpace(r.name)
    && Utf16Length(r.name) <= MaxRecurringNameLength
    && MinRecurringAmount <= r.amount <= MaxRecurringAmount
  }

  /** The name limit counts code units: 120 ASCII letters pass it, while 61
      characters above U+FFFF (122 code units) do not. */
  lemma NameLimitCountsCodeUnits()
    ensures PassesValidation(RecurringExpense(0, seq(120, _ => 'a'), 100, Monthly, Date(2026, 1, 1), None, true, 1))
    ensures !PassesValidation(RecurringExpense(0, seq(61, _ => '\U{1F600}'), 100, Monthly, Date(2026, 1, 1), None, true, 1))
  {
    var ascii := seq(120, _ => 'a');
    var astral := seq(61, _ => '\U{1F600}');
    Utf16LengthBmp(ascii);
    Utf16LengthAstral(astral);
    assert !IsWhiteSpace(ascii[0]) && !IsWhiteSpace(astral[0]);
  }

  /** `new RecurringExpense()`: empty name, active, no end date, and every other
      field at its C# default (0, the undeclared interval 0, DateTime.MinValue). */
  function NewRecurringExpense(): (r: RecurringExpense)
    ensures r.name == "" && r.isActive && r.endDate == None
    ensures r.interval.Undeclared? && IntervalCode(r.interval) == 0
    ensures Valid(r.nextOccurrenceDate)
    ensures !PassesValidation(r)
  {
    RecurringExpense(0, "", 0, IntervalFromCode(0), Date(1, 1, 1), None, true, 0)
  }
}
