/** The expense controller's list and export actions: both run the same
    filter pipeline over the ledger's expenses; the list sorts newest first
    with identities breaking ties, the export sorts newest first only and
    writes the rows as CSV. */
module Expenses {
  import opened Wrappers
  import opened Text
  import opened Dates
  import opened Models
  import opened Store
  import opened Sorting
  import opened ExpenseQuery
  import opened Csv

  /** What the list page receives: the filters echoed back, the category
      dropdown in name order, and the filtered, sorted expenses. */
  datatype ExpenseIndexViewModel = ExpenseIndexViewModel(
    filter: ExpenseFilter,
    categoryOptions: seq<Category>,
    expenses: seq<Expense>)

  /** The list's rows: newest first, and of one date the highest identity first;
      exactly the matching expenses, each as often as it is stored. */
  lemma IndexRowsSpec(expenses: seq<Expense>, f: ExpenseFilter)
    ensures var r := SortBy(Selected(expenses, f), IndexOrder);
      && (forall i, j :: 0 <= i < j < |r| ==>
            AtOrBefore(r[j].date, r[i].date) && (r[i].date == r[j].date ==> r[i].expenseId >= r[j].expenseId))
      && multiset(r) == multiset(Selected(expenses, f))
      && (forall e :: e in r <==> e in expenses && Matches(f, e))
  {
    var r := SortBy(Selected(expenses, f), IndexOrder);
    IndexOrderIsTotalPreorder();
    SortBySorted(Selected(expenses, f), IndexOrder);
    OrdersMean(r);
    forall e ensures e in r <==> e in Selected(expenses, f) {
      SortByMembers(Selected(expenses, f), IndexOrder, e);
    }
  }

  /** The export's rows: newest first, and the same expenses as the list shows. */
  lemma ExportRowsSpec(expenses: seq<Expense>, f: ExpenseFilter)
    ensures var r := SortBy(Selected(expenses, f), ExportOrder);
      && (forall i, j :: 0 <= i < j < |r| ==> AtOrBefore(r[j].date, r[i].date))
      && multiset(r) == multiset(SortBy(Selected(expenses, f), IndexOrder))
  {
    var r := SortBy(Selected(expenses, f), ExportOrder);
    ExportOrderIsTotalPreorder();
    SortBySorted(Selected(expenses, f), ExportOrder);
    OrdersMean(r);
  }

  class ExpenseController {
    const db: Ledger

    constructor (db: Ledger)
      ensures this.db == db
    {
      this.db := db;
    }

    /** The filter steps `Index` and `ExportCsv` share: a `Where` for each
        supplied filter, and one for the search, trimmed, unless it is null or
        blank. After each step the query holds the selection of the filters
        seen so far. */
    method FilterQuery(f: ExpenseFilter) returns (q: seq<Expense>)
      ensures q == Selected(db.expenses, f)
      ensures forall e :: e in q <==> e in db.expenses && Matches(f, e)
    {
      var base := db.expenses;
      ghost var g := NoFilter;
      NoFilterExcludesNothing(base);
      q := base;
      if f.from.Some? {
        NarrowFrom(base, g, f.from.value);
        q := Where(q, OnOrAfter(f.from.value));
      }
      g := g.(from := f.from);
      if f.to.Some? {
        NarrowTo(base, g, f.to.value);
        q := Where(q, OnOrBefore(f.to.value));
      }
      g := g.(to := f.to);
      if f.categoryId.Some? {
        NarrowCategory(base, g, f.categoryId.value);
        q := Where(q, InCategory(f.categoryId.value));
      }
      g := g.(categoryId := f.categoryId);
      if f.minAmount.Some? {
        NarrowMin(base, g, f.minAmount.value);
        q := Where(q, AtLeast(f.minAmount.value));
      }
      g := g.(minAmount := f.minAmount);
      if f.maxAmount.Some? {
        NarrowMax(base, g, f.maxAmount.value);
        q := Where(q, AtMost(f.maxAmount.value));
      }
      g := g.(maxAmount := f.maxAmount);
      if f.search.Some? && !AllWhiteSpace(f.search.value) {
        var s := Trim(f.search.value);
        NarrowSearch(base, g, f.search.value);
        q := Where(q, NameContains(s));
      } else {
        SkipSearch(base, g, f.search);
      }
      g := g.(search := f.search);
      assert g == f;
    }

    /** `Index`: the filtered expenses newest first, ties by descending identity. */
    method Index(f: ExpenseFilter) returns (vm: ExpenseIndexViewModel)
      ensures vm.filter == f
      ensures vm.categoryOptions == SortBy(db.categories, CategoryNameOrder)
      ensures vm.expenses == SortBy(Selected(db.expenses, f), IndexOrder)
      ensures forall e :: e in vm.expenses <==> e in db.expenses && Matches(f, e)
      ensures multiset(vm.expenses) == multiset(Selected(db.expenses, f))
      ensures forall i, j :: 0 <= i < j < |vm.expenses| ==>
                && AtOrBefore(vm.expenses[j].date, vm.expenses[i].date)
                && (vm.expenses[i].date == vm.expenses[j].date ==> vm.expenses[i].expenseId >= vm.expenses[j].expenseId)
    {
      var options := SortBy(db.categories, CategoryNameOrder);
      var q := FilterQuery(f);
      var rows := SortBy(q, IndexOrder);
      IndexRowsSpec(db.expenses, f);
      vm := ExpenseIndexViewModel(f, options, rows);
    }

    /** `ExportCsv`: the header, then one line per filtered expense, newest first. */
    method ExportCsv(f: ExpenseFilter) returns (csv: string)
      ensures csv == CsvDocument(SortBy(Selected(db.expenses, f), ExportOrder), db.categories)
      ensures ReadCsv(csv) == Some(RecordsOf(SortBy(Selected(db.expenses, f), ExportOrder), db.categories))
    {
      var q := FilterQuery(f);
      var rows := SortBy(q, ExportOrder);
      csv := WriteDocument(rows);
      CsvRoundTrip(rows, db.categories);
    }

    /** The `StringBuilder` loop of `ExportCsv`: the header line, then an
        appended line for each row. */
    method WriteDocument(rows: seq<Expense>) returns (csv: string)
      ensures csv == CsvDocument(rows, db.categories)
    {
      var head := Header + NewLine;
      ghost var lines := Lines(RecordsOf(rows, db.categories));
      var sb := head;
      for i := 0 to |rows|
        invariant sb == head + Concat(lines[..i])
      {
        var line := LineOf(RecordOf(rows[i], db.categories));
        assert line == lines[i];
        ConcatPrefixStep(head, lines, i);
        sb := sb + line;
      }
      assert lines[..|rows|] == lines;
      csv := sb;
    }
  }
}
