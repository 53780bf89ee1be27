/** The dashboard's health score: a 0..100 integer from the month's savings rate
    minus penalties for categories over or near their budget, and its label. */
module Health {
  import opened Models
  import opened DashboardViewModels

  function Clamp(x: int, lo: int, hi: int): int
    requires lo <= hi
  {
    if x < lo then lo else if x > hi then hi else x
  }

  /** How many rows carry status `st` (`rows.Count(r => r.Status == st)`). */
  function CountStatus(rows: seq<CategoryBudgetRow>, st: BudgetStatus): (n: nat)
    ensures n <= |rows|
  {
    if rows == [] then 0
    else CountStatus(rows[..|rows| - 1], st) + (if rows[|rows| - 1].status == st then 1 else 0)
  }

  /** `(int)Math.Clamp((income - expenses) / income * 60, 0, 60)` for positive
      income, in exact arithmetic: the clamp keeps the value non-negative, so
      truncation is the floor, which Euclidean division computes. */
  function SavingsPoints(income: Cents, expenses: Cents): (r: int)
    requires income > 0
    ensures 0 <= r <= 60
  {
    if expenses >= income then 0
    else
      var q := 60 * (income - expenses) / income;
      if q > 60 then 60 else q
  }

  /** `ComputeHealthScore`: 30 without positive income, otherwise
      40 + savings points - 12 per OverBudget row - 6 per NearLimit row, clamped to 0..100. */
  function HealthScore(income: Cents, expenses: Cents, rows: seq<CategoryBudgetRow>): (r: int)
    ensures 0 <= r <= 100
    ensures income <= 0 ==> r == 30
    ensures income > 0 && CountStatus(rows, OverBudget) == 0 && CountStatus(rows, NearLimit) == 0 ==> 40 <= r
  {
    if income <= 0 then 30
    else
      var penalty := CountStatus(rows, OverBudget) * 12 + CountStatus(rows, NearLimit) * 6;
      Clamp(40 + SavingsPoints(income, expenses) - penalty, 0, 100)
  }

  /** The label switch on the score. */
  function HealthLabel(score: int): string {
    if score >= 85 then "Strong"
    else if score >= 70 then "Good"
    else if score >= 50 then "Needs Attention"
    else "High Risk"
  }

  // ---------------------------------------------------------------------------
  // The same score stated over the reals, as the source writes it

  function ClampReal(x: real, lo: real, hi: real): real
    requires lo <= hi
  {
    if x < lo then lo else if x > hi then hi else x
  }

  /** The integer quotient is the floor of the real quotient. */
  lemma FloorOfQuotient(n: int, d: int)
    requires n >= 0 && d > 0
    ensures ((n as real) / (d as real)).Floor == n / d
  {
    var q, r := n / d, n % d;
    assert n == q * d + r && 0 <= r < d;
    var x := (n as real) / (d as real);
    assert (n as real) == (q as real) * (d as real) + (r as real);
    assert x == (q as real) + (r as real) / (d as real);
    assert 0.0 <= (r as real) / (d as real) < 1.0;
  }

  /** HealthScore is the source's formula with an exact savings rate:
      clamp(40 + trunc(clamp(60 * (income - expenses) / income, 0, 60)) - 12 * over - 6 * near, 0, 100). */
  lemma HealthScoreIsFormula(income: Cents, expenses: Cents, rows: seq<CategoryBudgetRow>)
    requires income > 0
    ensures var rate := ((income - expenses) as real) / (income as real);
            var points := ClampReal(rate * 60.0, 0.0, 60.0).Floor;
            HealthScore(income, expenses, rows)
            == Clamp(40 + points - 12 * CountStatus(rows, OverBudget) - 6 * CountStatus(rows, NearLimit), 0, 100)
  {
    var rate := ((income - expenses) as real) / (income as real);
    var n := 60 * (income - expenses);
    assert rate * 60.0 == (n as real) / (income as real);
    if expenses < income {
      FloorOfQuotient(n, income);
    } else {
      assert (n as real) / (income as real) <= 0.0;
    }
  }

  /** Spending more never raises the score. */
  lemma HealthScoreMonotoneInExpenses(income: Cents, e1: Cents, e2: Cents, rows: seq<CategoryBudgetRow>)
    requires e1 <= e2
    ensures HealthScore(income, e2, rows) <= HealthScore(income, e1, rows)
  {
    if income > 0 && e2 < income {
      DivMonotone(60 * (income - e2), 60 * (income - e1), income);
    }
  }

  lemma DivMonotone(a: int, b: int, d: int)
    requires 0 <= a <= b && d > 0
    ensures a / d <= b / d
  {
    var qa, qb := a / d, b / d;
    assert (qa - qb) * d == (a - a % d) - (b - b % d);
    assert (qa - qb) * d < d;
    BelowOneFactor(qa - qb, d);
  }

  lemma BelowOneFactor(x: int, d: int)
    requires d > 0 && x * d < d
    ensures x < 1
  {
  }

  /** One more over-budget or near-limit row never raises the score. */
  lemma HealthScoreMonotoneInRows(income: Cents, expenses: Cents, rows: seq<CategoryBudgetRow>, row: CategoryBudgetRow)
    ensures HealthScore(income, expenses, rows + [row]) <= HealthScore(income, expenses, rows)
  {
    assert (rows + [row])[..|rows|] == rows;
  }

  /** The label follows the score's bands, and without income the label is "High Risk". */
  lemma HealthLabelBands(score: int, income: Cents, expenses: Cents, rows: seq<CategoryBudgetRow>)
    ensures HealthLabel(score) == "Strong" <==> score >= 85
    ensures HealthLabel(score) == "Good" <==> 70 <= score < 85
    ensures HealthLabel(score) == "Needs Attention" <==> 50 <= score < 70
    ensures HealthLabel(score) == "High Risk" <==> score < 50
    ensures income <= 0 ==> HealthLabel(HealthScore(income, expenses, rows)) == "High Risk"
  {
  }

  /** Worked case: income 1000.00 and expenses 400.00 with no flagged rows scores 76, "Good". */
  lemma HealthScoreExample()
    ensures HealthScore(100000, 40000, []) == 76
    ensures HealthLabel(HealthScore(100000, 40000, [])) == "Good"
  {
  }
}
