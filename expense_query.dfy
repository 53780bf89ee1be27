/** The expense list's query pipeline: the optional filters, the `Where` steps
    they add to the query, what the finished query selects, and the two orders
    the list and the export sort by. */
module ExpenseQuery {
  import opened Wrappers
  import opened Dates
  import opened Text
  import opened Models
  import opened Sorting

  /** The six optional query-string parameters. Amount bounds are in cents. */
  datatype ExpenseFilter = ExpenseFilter(
    from: Option<Date>,
    to: Option<Date>,
    categoryId: Option<int>,
    minAmount: Option<Cents>,
    maxAmount: Option<Cents>,
    search: Option<string>)

  /** No filter supplied: the list as first shown. */
  const NoFilter := ExpenseFilter(None, None, None, None, None, None)

  /** One `q.Where(...)` predicate. */
  datatype Criterion =
    | OnOrAfter(start: Date)
    | OnOrBefore(end: Date)
    | InCategory(id: int)
    | AtLeast(min: Cents)
    | AtMost(max: Cents)
    | NameContains(term: string)

  predicate Holds(c: Criterion, e: Expense) {
    match c
    case OnOrAfter(d) => AtOrBefore(d, e.date)
    case OnOrBefore(d) => AtOrBefore(e.date, d)
    case InCategory(id) => e.categoryId == id
    case AtLeast(m) => e.amount >= m
    case AtMost(m) => e.amount <= m
    case NameContains(s) => Contains(e.name, s)
  }

  /** `q.Where(c)`: the rows satisfying c, in their original order. */
  function Where(q: seq<Expense>, c: Criterion): (r: seq<Expense>)
    ensures |r| <= |q|
    ensures forall e :: e in r <==> e in q && Holds(c, e)
  {
    if q == [] then []
    else
      var front := Where(q[..|q| - 1], c);
      assert q == q[..|q| - 1] + [q[|q| - 1]];
      if Holds(c, q[|q| - 1]) then front + [q[|q| - 1]] else front
  }

  /** What a filter means: every supplied filter holds, and an absent one
      imposes nothing. A blank search counts as absent. */
  predicate Matches(f: ExpenseFilter, e: Expense) {
    && (f.from.Some? ==> AtOrBefore(f.from.value, e.date))
    && (f.to.Some? ==> AtOrBefore(e.date, f.to.value))
    && (f.categoryId.Some? ==> e.categoryId == f.categoryId.value)
    && (f.minAmount.Some? ==> e.amount >= f.minAmount.value)
    && (f.maxAmount.Some? ==> e.amount <= f.maxAmount.value)
    && (f.search.Some? && !AllWhiteSpace(f.search.value) ==> Contains(e.name, Trim(f.search.value)))
  }

  /** The expenses a filter selects, in table order. */
  function Selected(q: seq<Expense>, f: ExpenseFilter): (r: seq<Expense>)
    ensures |r| <= |q|
    ensures forall e :: e in r <==> e in q && Matches(f, e)
  {
    if q == [] then []
    else
      var front := Selected(q[..|q| - 1], f);
      assert q == q[..|q| - 1] + [q[|q| - 1]];
      if Matches(f, q[|q| - 1]) then front + [q[|q| - 1]] else front
  }

  /** The selection keeps every stored copy of a matching expense and no copy of any other. */
  lemma {:induction false} SelectedCounts(q: seq<Expense>, f: ExpenseFilter, e: Expense)
    ensures multiset(Selected(q, f))[e] == if Matches(f, e) then multiset(q)[e] else 0
  {
    if q != [] {
      var front := q[..|q| - 1];
      SelectedCounts(front, f, e);
      assert q == front + [q[|q| - 1]];
    }
  }

  /** One more `Where` on a selection narrows it to the filter that also
      demands the step's predicate. */
  lemma {:induction false} WhereNarrows(q: seq<Expense>, g: ExpenseFilter, c: Criterion, g': ExpenseFilter)
    requires forall e :: Matches(g', e) <==> Matches(g, e) && Holds(c, e)
    ensures Where(Selected(q, g), c) == Selected(q, g')
  {
    if q != [] {
      var front := q[..|q| - 1];
      WhereNarrows(front, g, c, g');
      var s := Selected(front, g);
      if Matches(g, q[|q| - 1]) {
        assert (s + [q[|q| - 1]])[..|s + [q[|q| - 1]]| - 1] == s;
      }
    }
  }

  /** Filters that mean the same select the same. */
  lemma {:induction false} SameSelection(q: seq<Expense>, g: ExpenseFilter, g': ExpenseFilter)
    requires forall e :: Matches(g, e) <==> Matches(g', e)
    ensures Selected(q, g) == Selected(q, g')
  {
    if q != [] {
      SameSelection(q[..|q| - 1], g, g');
    }
  }

  // One lemma per `Where` step of the controller: the step narrows the
  // selection of the filters seen so far to include one more.

  lemma NarrowFrom(q: seq<Expense>, g: ExpenseFilter, d: Date)
    requires g.from.None?
    ensures Where(Selected(q, g), OnOrAfter(d)) == Selected(q, g.(from := Some(d)))
  {
    WhereNarrows(q, g, OnOrAfter(d), g.(from := Some(d)));
  }

  lemma NarrowTo(q: seq<Expense>, g: ExpenseFilter, d: Date)
    requires g.to.None?
    ensures Where(Selected(q, g), OnOrBefore(d)) == Selected(q, g.(to := Some(d)))
  {
    WhereNarrows(q, g, OnOrBefore(d), g.(to := Some(d)));
  }

  lemma NarrowCategory(q: seq<Expense>, g: ExpenseFilter, id: int)
    requires g.categoryId.None?
    ensures Where(Selected(q, g), InCategory(id)) == Selected(q, g.(categoryId := Some(id)))
  {
    WhereNarrows(q, g, InCategory(id), g.(categoryId := Some(id)));
  }

  lemma NarrowMin(q: seq<Expense>, g: ExpenseFilter, m: Cents)
    requires g.minAmount.None?
    ensures Where(Selected(q, g), AtLeast(m)) == Selected(q, g.(minAmount := Some(m)))
  {
    WhereNarrows(q, g, AtLeast(m), g.(minAmount := Some(m)));
  }

  lemma NarrowMax(q: seq<Expense>, g: ExpenseFilter, m: Cents)
    requires g.maxAmount.None?
    ensures Where(Selected(q, g), AtMost(m)) == Selected(q, g.(maxAmount := Some(m)))
  {
    WhereNarrows(q, g, AtMost(m), g.(maxAmount := Some(m)));
  }

  lemma NarrowSearch(q: seq<Expense>, g: ExpenseFilter, search: string)
    requires g.search.None? && !AllWhiteSpace(search)
    ensures Where(Selected(q, g), NameContains(Trim(search))) == Selected(q, g.(search := Some(search)))
  {
    WhereNarrows(q, g, NameContains(Trim(search)), g.(search := Some(search)));
  }

  /** A null or blank search adds no step and selects nothing less. */
  lemma SkipSearch(q: seq<Expense>, g: ExpenseFilter, search: Option<string>)
    requires g.search.None? && (search.None? || AllWhiteSpace(search.value))
    ensures Selected(q, g) == Selected(q, g.(search := search))
  {
    SameSelection(q, g, g.(search := search));
  }

  /** With no filter supplied nothing is excluded. */
  lemma {:induction false} NoFilterExcludesNothing(q: seq<Expense>)
    ensures Selected(q, NoFilter) == q
  {
    if q != [] {
      NoFilterExcludesNothing(q[..|q| - 1]);
      assert q == q[..|q| - 1] + [q[|q| - 1]];
    }
  }

  /** A blank search is the same as no search. */
  lemma BlankSearchExcludesNothing(q: seq<Expense>, f: ExpenseFilter)
    requires f.search.Some? && AllWhiteSpace(f.search.value)
    ensures Selected(q, f) == Selected(q, f.(search := None))
  {
    SameSelection(q, f, f.(search := None));
  }

  /** A non-blank search keeps exactly the names in which the trimmed text occurs somewhere. */
  lemma SearchIsTrimmedSubstring(f: ExpenseFilter, e: Expense)
    requires f.search.Some? && !AllWhiteSpace(f.search.value)
    ensures Matches(f, e) <==> Matches(f.(search := None), e)
                               && exists i :: OccursAt(e.name, Trim(f.search.value), i)
  {
    ContainsIff(e.name, Trim(f.search.value));
  }

  // ---------------------------------------------------------------------------
  // Orders

  /** `OrderByDescending(e => e.Date).ThenByDescending(e => e.ExpenseId)`:
      a goes before (or ties with) b. */
  predicate IndexOrder(a: Expense, b: Expense) {
    Before(b.date, a.date) || (a.date == b.date && a.expenseId >= b.expenseId)
  }

  /** `OrderByDescending(e => e.Date)`. */
  predicate ExportOrder(a: Expense, b: Expense) {
    AtOrBefore(b.date, a.date)
  }

  lemma BeforeTotal(a: Date, b: Date)
    ensures Before(a, b) || Before(b, a) || a == b
  {
  }

  lemma IndexOrderIsTotalPreorder()
    ensures IsTotalPreorder(IndexOrder)
  {
    forall a: Expense, b: Expense ensures IndexOrder(a, b) || IndexOrder(b, a) {
      BeforeTotal(a.date, b.date);
    }
  }

  lemma ExportOrderIsTotalPreorder()
    ensures IsTotalPreorder(ExportOrder)
  {
    forall a: Expense, b: Expense ensures ExportOrder(a, b) || ExportOrder(b, a) {
      BeforeTotal(a.date, b.date);
    }
  }

  /** A list in IndexOrder runs newest first, and rows of one date run by
      descending identity; ExportOrder only is newest first. */
  lemma OrdersMean(s: seq<Expense>)
    ensures SortedBy(s, IndexOrder) <==>
              forall i, j :: 0 <= i < j < |s| ==>
                AtOrBefore(s[j].date, s[i].date) && (s[i].date == s[j].date ==> s[i].expenseId >= s[j].expenseId)
    ensures SortedBy(s, ExportOrder) <==> forall i, j :: 0 <= i < j < |s| ==> AtOrBefore(s[j].date, s[i].date)
  {
    forall i, j | 0 <= i < j < |s| {
      BeforeTotal(s[i].date, s[j].date);
    }
  }
}
