/** What one materialization pass does to the recurring-expense templates:
    which templates are due, the expense each due template produces, and how
    its next occurrence advances. */
module Recurrence {
  import opened Wrappers
  import opened Dates
  import opened Models

  /** The due filter: active, next occurrence on or before today, and either no
      end date or an end date on or after today. */
  predicate IsDue(r: RecurringExpense, today: Date) {
    && r.isActive
    && AtOrBefore(r.nextOccurrenceDate, today)
    && (r.endDate.None? || AtOrBefore(today, r.endDate.value))
  }

  /** The interval switch: 7 days for Weekly, one calendar month for Monthly
      and, through the default arm, for every undeclared value too. */
  function NextOccurrence(interval: RecurrenceInterval, d: Date): Date {
    match interval
    case Weekly => AddDays(d, 7)
    case Monthly => AddMonths(d, 1)
    case Undeclared(_) => AddMonths(d, 1)
  }

  /** The template after its next occurrence has moved forward one step. */
  function Advance(r: RecurringExpense): RecurringExpense {
    r.(nextOccurrenceDate := NextOccurrence(r.interval, r.nextOccurrenceDate))
  }

  const RecurringSuffix := " (Recurring)"

  /** The expense created from template r, with identity `id`. */
  function Materialize(r: RecurringExpense, id: int): (e: Expense)
    ensures e.name == r.name + " (Recurring)" && e.amount == r.amount
    ensures e.date == r.nextOccurrenceDate && e.categoryId == r.categoryId
  {
    Expense(id, r.name + RecurringSuffix, r.amount, r.nextOccurrenceDate, r.categoryId)
  }

  /** The positions of the due templates, in table order (the due query). */
  function DueIndices(ts: seq<RecurringExpense>, today: Date): (r: seq<nat>)
    ensures forall k :: 0 <= k < |r| ==> r[k] < |ts| && IsDue(ts[r[k]], today)
    ensures forall k, l :: 0 <= k < l < |r| ==> r[k] < r[l]
    ensures forall i :: 0 <= i < |ts| && IsDue(ts[i], today) ==> i in r
  {
    if ts == [] then []
    else
      var front := DueIndices(ts[..|ts| - 1], today);
      assert forall k :: 0 <= k < |front| ==> ts[..|ts| - 1][front[k]] == ts[front[k]];
      if IsDue(ts[|ts| - 1], today) then front + [|ts| - 1] else front
  }

  /** The templates after the pass: due ones advanced, the rest unchanged. */
  function AdvanceDue(ts: seq<RecurringExpense>, today: Date): (r: seq<RecurringExpense>)
    ensures |r| == |ts|
  {
    seq(|ts|, i requires 0 <= i < |ts| => if IsDue(ts[i], today) then Advance(ts[i]) else ts[i])
  }

  /** The expenses the pass creates, in the order of the due templates, with
      consecutive identities from `firstId`. */
  function NewExpenses(ts: seq<RecurringExpense>, today: Date, firstId: int): (r: seq<Expense>)
    ensures |r| == |DueIndices(ts, today)|
  {
    var due := DueIndices(ts, today);
    seq(|due|, k requires 0 <= k < |due| => Materialize(ts[due[k]], firstId + k))
  }

  /** The templates with those at the positions `ds` advanced. */
  function AdvanceAt(ts: seq<RecurringExpense>, ds: seq<nat>): (r: seq<RecurringExpense>)
    ensures |r| == |ts|
  {
    seq(|ts|, i requires 0 <= i < |ts| => if i in ds then Advance(ts[i]) else ts[i])
  }

  /** Advancing one more position updates that template alone. */
  lemma AdvanceAtSnoc(ts: seq<RecurringExpense>, ds: seq<nat>, i: nat)
    requires i < |ts| && i !in ds
    ensures AdvanceAt(ts, ds + [i]) == AdvanceAt(ts, ds)[i := Advance(ts[i])]
  {
    forall k | 0 <= k < |ts| ensures AdvanceAt(ts, ds + [i])[k] == AdvanceAt(ts, ds)[i := Advance(ts[i])][k] {
      assert k in ds + [i] <==> k in ds || k == i;
    }
  }

  /** Advancing the positions of the due templates is the pass's advance. */
  lemma AdvanceAtDue(ts: seq<RecurringExpense>, today: Date)
    ensures AdvanceAt(ts, DueIndices(ts, today)) == AdvanceDue(ts, today)
  {
    var due := DueIndices(ts, today);
    forall i | 0 <= i < |ts| ensures i in due <==> IsDue(ts[i], today) {
    }
  }

  /** The prefix of a list up to one entry more. */
  lemma PrefixSnoc<T>(s: seq<T>, j: int)
    requires 0 <= j < |s|
    ensures s[..j + 1] == s[..j] + [s[j]]
  {
  }

  /** A list extended by the prefix of another, then by that prefix's next entry. */
  lemma AppendPrefixSnoc<T>(a: seq<T>, s: seq<T>, j: int)
    requires 0 <= j < |s|
    ensures a + s[..j + 1] == a + s[..j] + [s[j]]
  {
    assert s[..j + 1] == s[..j] + [s[j]];
  }

  /** In a strictly increasing list an entry does not occur before itself. */
  lemma IncreasingStep(due: seq<nat>, j: int)
    requires 0 <= j < |due|
    requires forall k, l :: 0 <= k < l < |due| ==> due[k] < due[l]
    ensures due[j] !in due[..j]
  {
    forall l | 0 <= l < j ensures due[..j][l] != due[j] {
      assert due[l] < due[j];
    }
  }

  /** An independent count of the due templates. */
  function CountDue(ts: seq<RecurringExpense>, today: Date): nat {
    if ts == [] then 0
    else CountDue(ts[..|ts| - 1], today) + (if IsDue(ts[|ts| - 1], today) then 1 else 0)
  }

  /** The pass creates exactly as many expenses as there are due templates. */
  lemma {:induction false} NewExpensesCount(ts: seq<RecurringExpense>, today: Date, firstId: int)
    ensures |NewExpenses(ts, today, firstId)| == CountDue(ts, today)
  {
    if ts != [] {
      NewExpensesCount(ts[..|ts| - 1], today, firstId);
    }
  }

  /** A due template has a position among the due indices, and only one. */
  lemma DuePosition(ts: seq<RecurringExpense>, today: Date, i: int) returns (k: int)
    requires 0 <= i < |ts| && IsDue(ts[i], today)
    ensures 0 <= k < |DueIndices(ts, today)| && DueIndices(ts, today)[k] == i
    ensures forall l :: 0 <= l < |DueIndices(ts, today)| && l != k ==> DueIndices(ts, today)[l] != i
  {
    var due := DueIndices(ts, today);
    assert i in due;
    k :| 0 <= k < |due| && due[k] == i;
    forall l | 0 <= l < |due| && l != k ensures due[l] != i {
      if l < k { assert due[l] < due[k]; } else { assert due[k] < due[l]; }
    }
  }

  /** The new expense at a due template's position is materialized from it. */
  lemma DueTemplateExpense(ts: seq<RecurringExpense>, today: Date, firstId: int, i: int) returns (k: int)
    requires 0 <= i < |ts| && IsDue(ts[i], today)
    ensures 0 <= k < |NewExpenses(ts, today, firstId)| && DueIndices(ts, today)[k] == i
    ensures NewExpenses(ts, today, firstId)[k] == Materialize(ts[i], firstId + k)
    ensures forall l :: 0 <= l < |DueIndices(ts, today)| && l != k ==> DueIndices(ts, today)[l] != i
  {
    k := DuePosition(ts, today, i);
  }

  /** Each due template yields exactly one new expense, named with the
      recurring suffix, with its amount and category, dated at its old next
      occurrence; and the pass advances it while leaving every other template alone. */
  lemma OneExpensePerDueTemplate(ts: seq<RecurringExpense>, today: Date, firstId: int, i: int)
    requires 0 <= i < |ts|
    ensures var due := DueIndices(ts, today); var news := NewExpenses(ts, today, firstId);
      IsDue(ts[i], today) ==>
        exists k :: 0 <= k < |news| && due[k] == i
                    && news[k].name == ts[i].name + " (Recurring)"
                    && news[k].amount == ts[i].amount && news[k].categoryId == ts[i].categoryId
                    && news[k].date == ts[i].nextOccurrenceDate
                    && forall l :: 0 <= l < |due| && l != k ==> due[l] != i
    ensures !IsDue(ts[i], today) ==> i !in DueIndices(ts, today)
    ensures AdvanceDue(ts, today)[i] == if IsDue(ts[i], today) then Advance(ts[i]) else ts[i]
  {
    if IsDue(ts[i], today) {
      var k := DueTemplateExpense(ts, today, firstId, i);
    }
  }

  /** With nothing due the pass creates nothing and changes no template. */
  lemma {:induction false} NothingDueChangesNothing(ts: seq<RecurringExpense>, today: Date, firstId: int)
    requires forall i :: 0 <= i < |ts| ==> !IsDue(ts[i], today)
    ensures DueIndices(ts, today) == [] && NewExpenses(ts, today, firstId) == []
    ensures AdvanceDue(ts, today) == ts
  {
    if ts != [] {
      NothingDueChangesNothing(ts[..|ts| - 1], today, firstId);
    }
  }

  /** The advance moves a valid next occurrence strictly forward by one step:
      exactly 7 days for Weekly; otherwise into the next calendar month, keeping
      the day, or taking that month's last day when the day does not exist there. */
  lemma AdvanceSteps(r: RecurringExpense)
    requires Valid(r.nextOccurrenceDate)
    ensures var d, d' := r.nextOccurrenceDate, Advance(r).nextOccurrenceDate;
      && Valid(d') && Before(d, d')
      && (r.interval == Weekly ==> d' == AddDays(d, 7) && DayNumber(d') == DayNumber(d) + 7)
      && (r.interval != Weekly ==> d' == AddMonths(d, 1) && MonthIndex(d') == MonthIndex(d) + 1
                                   && (d'.day == d.day || (d.day > DaysInMonth(d'.year, d'.month) && d'.day == DaysInMonth(d'.year, d'.month))))
    ensures Advance(r) == r.(nextOccurrenceDate := Advance(r).nextOccurrenceDate)
  {
    AddWeek(r.nextOccurrenceDate);
    AddMonthLater(r.nextOccurrenceDate);
  }

  /** After a pass an advanced template is due again exactly when its new next
      occurrence is still on or before today, so a pass does not catch up a
      template that is several intervals behind. */
  lemma DueAfterPass(r: RecurringExpense, today: Date)
    requires IsDue(r, today)
    ensures IsDue(Advance(r), today) <==> AtOrBefore(Advance(r).nextOccurrenceDate, today)
  {
  }

  /** A weekly template two weeks overdue is still due after one pass. */
  lemma OverdueTemplateStaysDue()
    ensures var r := RecurringExpense(1, "Gym", 2500, Weekly, Date(2026, 1, 1), None, true, 3);
            var today := Date(2026, 1, 15);
            IsDue(r, today) && IsDue(Advance(r), today)
            && Advance(r).nextOccurrenceDate == Date(2026, 1, 8)
  {
  }
}
