/**
  * The statistics page: the month's expense table (loaded, searched and
  * paged ten rows at a time), the category breakdown with its percentages
  * and colours, and the PDF export's rows and total.
  */
module ExpenseStats {
  import opened Wrappers
  import opened Js
  import opened Seqs
  import opened Text
  import opened Calendar
  import opened Ledger
  import Session
  import Dashboard

  /** `itemsPerPage` */
  const PageSize: nat := 10

  /** `Math.ceil(n / itemsPerPage)`: the fewest pages of ten that hold `n` items. */
  function TotalPages(n: nat): (p: nat)
    ensures p * PageSize >= n
    ensures p * PageSize < n + PageSize
    ensures p == 0 <==> n == 0
  {
    (n + PageSize - 1) / PageSize
  }

  function Min(a: int, b: int): int {
    if a < b then a else b
  }

  /**
    * `items.slice((page - 1) * 10, page * 10)`: the items at positions
    * (page - 1) * 10 up to page * 10, cut short at the end of the list.
    */
  function PageSlice<T>(items: seq<T>, page: int): (r: seq<T>)
    requires page >= 1
    ensures |r| == if (page - 1) * PageSize >= |items| then 0 else Min(PageSize, |items| - (page - 1) * PageSize)
    ensures r != [] ==> (page - 1) * PageSize + |r| <= |items|
    ensures forall i :: 0 <= i < |r| ==> r[i] == items[(page - 1) * PageSize + i]
  {
    var start := (page - 1) * PageSize;
    if start >= |items| then [] else items[start..Min(start + PageSize, |items|)]
  }

  /** All the pages, first to last. */
  function AllPages<T>(items: seq<T>): (pages: seq<seq<T>>)
    ensures |pages| == TotalPages(|items|)
  {
    seq(TotalPages(|items|), i requires 0 <= i < TotalPages(|items|) => PageSlice(items, i + 1))
  }

  function Flatten<T>(pages: seq<seq<T>>): seq<T> {
    if pages == [] then [] else pages[0] + Flatten(pages[1..])
  }

  /** The pages from the `k`th on hold the items from position `10 k` on. */
  lemma {:induction false} PagesFrom<T>(items: seq<T>, k: nat)
    requires k <= TotalPages(|items|)
    ensures Flatten(AllPages(items)[k..]) == items[Min(k * PageSize, |items|)..]
    decreases TotalPages(|items|) - k
  {
    var pages := AllPages(items);
    if k < TotalPages(|items|) {
      var n := |items|;
      var lo, hi := k * PageSize, Min((k + 1) * PageSize, n);
      assert PageSize == 10;
      assert (k + 1) * PageSize <= TotalPages(n) * PageSize;
      assert lo < n && Min(lo, n) == lo;
      PagesFrom(items, k + 1);
      assert pages[k..] == [pages[k]] + pages[k + 1..];
      assert pages[k] == items[lo..hi];
      assert items[lo..] == items[lo..hi] + items[hi..];
    }
  }

  /** Pages 1 to `TotalPages(n)` laid end to end give back the list: no item is skipped or shown twice. */
  lemma PagesConcatenate<T>(items: seq<T>)
    ensures Flatten(AllPages(items)) == items
  {
    PagesFrom(items, 0);
  }

  /** `renderPagination`'s output: the page-info numbers and the two buttons' disabled flags. */
  datatype Pager = Pager(page: int, pages: nat, prevDisabled: bool, nextDisabled: bool)

  /** "Page 0 of 0" with both buttons off for an empty list, else "Page p of n". */
  function PageInfo(totalItems: nat, page: int): (info: Pager)
    ensures totalItems == 0 ==> info == Pager(0, 0, true, true)
    ensures totalItems > 0 ==> info.page == page && info.pages == TotalPages(totalItems)
    ensures totalItems > 0 ==> (info.prevDisabled <==> page == 1) && (info.nextDisabled <==> page == info.pages)
  {
    if totalItems == 0 then Pager(0, 0, true, true)
    else
      var totalPages := TotalPages(totalItems);
      Pager(page, totalPages, page == 1, page == totalPages)
  }

  /** The highest page the table can be on: an empty table stays on page 1. */
  function LastPage(n: nat): (p: nat)
    ensures p >= 1
  {
    if n == 0 then 1 else TotalPages(n)
  }

  // ---------------------------------------------------------------------
  // Rows
  // ---------------------------------------------------------------------

  /** `txn.category || txn.category_name || 'Uncategorized'`: never empty. */
  function ExpenseCategory(t: Transaction): (name: string)
    ensures name != ""
    ensures t.category != "" ==> name == t.category
    ensures t.category == "" && t.categoryName != "" ==> name == t.categoryName
    ensures t.category == "" && t.categoryName == "" ==> name == "Uncategorized"
  {
    Dashboard.Or2(Dashboard.Or2(t.category, t.categoryName), "Uncategorized")
  }

  /** A row of the table and of the report: date, description, category and the amount without sign. */
  datatype ExpenseRow = ExpenseRow(date: Date, description: string, category: string, amount: int)

  /** The description is the note, or the category when there is no note. */
  function ExpenseRowOf(t: Transaction): (row: ExpenseRow)
    ensures row.amount == Abs(t.amount) && row.date == t.date
    ensures row.category == ExpenseCategory(t) && row.description != ""
    ensures t.note != "" ==> row.description == t.note
    ensures t.note == "" ==> row.description == row.category
  {
    var categoryName := ExpenseCategory(t);
    ExpenseRow(t.date, Dashboard.Or2(t.note, categoryName), categoryName, Abs(t.amount))
  }

  function RowsOf(s: seq<Transaction>): (rows: seq<ExpenseRow>)
    ensures |rows| == |s|
    ensures forall i :: 0 <= i < |s| ==> rows[i] == ExpenseRowOf(s[i])
  {
    seq(|s|, i requires 0 <= i < |s| => ExpenseRowOf(s[i]))
  }

  // ---------------------------------------------------------------------
  // Loading and searching
  // ---------------------------------------------------------------------

  /** `parseFloat(t.amount) < 0` */
  predicate IsExpense(t: Transaction) {
    t.amount < 0
  }

  /**
    * `fetchMonthlyExpenses`' list: the expenses among the month's
    * transactions, newest first, each as often as it was received.
    */
  function MonthlyExpenses(all: seq<Transaction>): (e: seq<Transaction>)
    ensures SortedBy(e, NewestFirst)
    ensures forall t :: multiset(e)[t] == if t.amount < 0 then multiset(all)[t] else 0
    ensures forall i :: 0 <= i < |e| ==> e[i].amount < 0
  {
    var expenses := Filter(all, IsExpense);
    var e := SortBy(expenses, NewestFirst);
    assert forall i :: 0 <= i < |e| ==> e[i] in multiset(expenses);
    e
  }

  /** Whether the record has a category of its own, rather than the "Uncategorized" the table shows. */
  predicate ShownCategory(t: Transaction) {
    t.category != "" || t.categoryName != ""
  }

  /**
    * The search handler's test: the lower-cased note, or the lower-cased
    * category (`category || category_name || ''`), includes the lower-cased term.
    */
  function Matches(t: Transaction, term: string): (found: bool)
    ensures term == "" ==> found
    ensures found <==> (Contains(Lower(t.note), Lower(term))
                        || (ShownCategory(t) && Contains(Lower(ExpenseCategory(t)), Lower(term))))
  {
    ContainsEmpty(Lower(t.note));
    var needle := Lower(term);
    Contains(Lower(t.note), needle) || Contains(Lower(Dashboard.Or2(t.category, t.categoryName)), needle)
  }

  function Matching(term: string): Transaction -> bool {
    t => Matches(t, term)
  }

  /** The case of the term does not matter: typing it in capitals finds the same. */
  lemma SearchIgnoresCase(t: Transaction, term: string)
    ensures Matches(t, Upper(term)) == Matches(t, term)
  {
    assert Lower(Upper(term)) == Lower(term) by {
      forall i | 0 <= i < |term|
        ensures Lower(Upper(term))[i] == Lower(term)[i]
      {
        var c := term[i];
        assert Upper(term)[i] == UpperChar(c);
        assert LowerChar(UpperChar(c)) == LowerChar(c);
      }
    }
  }

  /** The search result: the matching expenses, in table order, each as often as in the table. */
  function SearchResults(expenses: seq<Transaction>, term: string): (r: seq<Transaction>)
    ensures IsSubsequence(r, expenses)
    ensures forall t :: t in r <==> t in expenses && Matches(t, term)
    ensures forall t :: multiset(r)[t] == if Matches(t, term) then multiset(expenses)[t] else 0
  {
    Filter(expenses, Matching(term))
  }

  /** Clearing the search box brings back every expense. */
  lemma EmptySearchKeepsAll(expenses: seq<Transaction>)
    ensures SearchResults(expenses, "") == expenses
  {
    forall i | 0 <= i < |expenses|
      ensures Matching("")(expenses[i])
    {
      ContainsEmpty(Lower(expenses[i].note));
    }
    FilterAll(expenses, Matching(""));
  }

  /** Typing more narrows the result: a term inside another term finds at least what the longer one finds. */
  lemma SearchNarrows(expenses: seq<Transaction>, shorter: string, longer: string)
    requires Contains(Lower(longer), Lower(shorter))
    ensures forall t :: t in SearchResults(expenses, longer) ==> t in SearchResults(expenses, shorter)
  {
    forall t | t in SearchResults(expenses, longer)
      ensures Matches(t, shorter)
    {
      if Contains(Lower(t.note), Lower(longer)) {
        ContainsTransitive(Lower(t.note), Lower(longer), Lower(shorter));
      } else {
        ContainsTransitive(Lower(Dashboard.Or2(t.category, t.categoryName)), Lower(longer), Lower(shorter));
      }
    }
  }

  // ---------------------------------------------------------------------
  // The table's state
  // ---------------------------------------------------------------------

  /** The PDF report: numbered rows and the total of their amounts. */
  datatype ReportRow = ReportRow(number: nat, row: ExpenseRow)
  datatype Report = Report(rows: seq<ReportRow>, total: int)

  function RowAmount(r: ReportRow): int {
    r.row.amount
  }

  /** The rows numbered from `first` on, in table order. */
  function NumberedFrom(s: seq<Transaction>, first: nat): (rows: seq<ReportRow>)
    ensures |rows| == |s|
    ensures forall i :: 0 <= i < |s| ==> rows[i] == ReportRow(first + i, ExpenseRowOf(s[i]))
  {
    seq(|s|, i requires 0 <= i < |s| => ReportRow(first + i, ExpenseRowOf(s[i])))
  }

  /** The Amount column of the report adds up to the total of the absolute amounts. */
  lemma {:induction false} ColumnSum(s: seq<Transaction>, first: nat)
    ensures SumOf(NumberedFrom(s, first), RowAmount) == SumAbs(s)
  {
    if s != [] {
      ColumnSum(s[1..], first + 1);
      assert NumberedFrom(s, first)[1..] == NumberedFrom(s[1..], first + 1);
    }
  }

  class ExpenseTable {
    /** `currentExpenses`: the month's expenses, newest first */
    var currentExpenses: seq<Transaction>
    /** `filteredExpenses`: the ones the search keeps */
    var filteredExpenses: seq<Transaction>
    /** `currentPage` */
    var currentPage: int

    /**
      * The page is within range, the expenses are expenses sorted newest
      * first, and the filtered list is a sublist of them in the same order.
      */
    ghost predicate Valid()
      reads this
    {
      1 <= currentPage <= LastPage(|filteredExpenses|)
      && (forall i :: 0 <= i < |currentExpenses| ==> currentExpenses[i].amount < 0)
      && SortedBy(currentExpenses, NewestFirst)
      && IsSubsequence(filteredExpenses, currentExpenses)
    }

    /** The page's initial state: nothing loaded, page 1. */
    constructor ()
      ensures Valid()
      ensures currentExpenses == [] && filteredExpenses == [] && currentPage == 1
    {
      currentExpenses := [];
      filteredExpenses := [];
      currentPage := 1;
    }

    /** Lines 118-122: keep the expenses, newest first, show them all from page 1. */
    method Load(all: seq<Transaction>)
      modifies this
      ensures Valid()
      ensures currentExpenses == MonthlyExpenses(all)
      ensures filteredExpenses == currentExpenses && currentPage == 1
    {
      currentExpenses := MonthlyExpenses(all);
      filteredExpenses := currentExpenses;
      SubsequenceOfItself(currentExpenses);
      currentPage := 1;
    }

    /**
      * `fetchMonthlyExpenses` after the request: nothing changes when
      * `authFetch` gave null or the request failed, nor when the body is JSON
      * null (reading `.data` of null throws into the catch); otherwise `received`, the
      * transactions the answer lists, is loaded.
      */
    method Fetch(session: Session.AuthSession, outcome: Session.FetchOutcome, received: seq<Transaction>)
      requires Valid() && session.Valid()
      modifies this, session
      ensures Valid() && session.Valid()
      ensures (!old(session.redirecting) && outcome.Received? && outcome.response.status != 401
               && !Nullish(outcome.response.body)) ==>
        currentExpenses == MonthlyExpenses(received) && filteredExpenses == currentExpenses && currentPage == 1
      ensures (old(session.redirecting) || outcome.NetworkFailure? || outcome.response.status == 401
               || Nullish(outcome.response.body)) ==>
        currentExpenses == old(currentExpenses) && filteredExpenses == old(filteredExpenses)
        && currentPage == old(currentPage)
    {
      var res := session.AuthFetch(outcome);
      if res.Returned? && !Nullish(res.response.body) {
        Load(received);
      }
    }

    /** The search box: filter the loaded expenses and go back to page 1. */
    method Search(term: string)
      requires Valid()
      modifies this
      ensures Valid()
      ensures filteredExpenses == SearchResults(currentExpenses, term)
      ensures currentExpenses == old(currentExpenses) && currentPage == 1
    {
      filteredExpenses := SearchResults(currentExpenses, term);
      currentPage := 1;
    }

    /** The previous-page button: back one page unless on the first. */
    method Prev()
      requires Valid()
      modifies this
      ensures Valid()
      ensures currentExpenses == old(currentExpenses) && filteredExpenses == old(filteredExpenses)
      ensures old(currentPage) > 1 ==> currentPage == old(currentPage) - 1
      ensures old(currentPage) <= 1 ==> currentPage == old(currentPage)
    {
      if currentPage > 1 {
        currentPage := currentPage - 1;
      }
    }

    /** The next-page button: on one page unless on the last. */
    method Next()
      requires Valid()
      modifies this
      ensures Valid()
      ensures currentExpenses == old(currentExpenses) && filteredExpenses == old(filteredExpenses)
      ensures old(currentPage) < TotalPages(|filteredExpenses|) ==> currentPage == old(currentPage) + 1
      ensures old(currentPage) >= TotalPages(|filteredExpenses|) ==> currentPage == old(currentPage)
    {
      if currentPage < TotalPages(|filteredExpenses|) {
        currentPage := currentPage + 1;
      }
    }

    /**
      * What `renderPagination` shows. Each button is disabled exactly when
      * clicking it would change nothing.
      */
    function Pagination(): (p: Pager)
      reads this
      requires Valid()
      ensures p.prevDisabled <==> !(currentPage > 1)
      ensures p.nextDisabled <==> !(currentPage < TotalPages(|filteredExpenses|))
    {
      PageInfo(|filteredExpenses|, currentPage)
    }

    /**
      * The rows `renderExpenseTable` shows: those of the current page. On a
      * valid page they are never empty while there is anything to show.
      */
    function PageRows(): (rows: seq<ExpenseRow>)
      reads this
      requires Valid()
      ensures |rows| <= PageSize
      ensures |filteredExpenses| == 0 <==> rows == []
      ensures rows != [] ==> (currentPage - 1) * PageSize + |rows| <= |filteredExpenses|
      ensures forall i :: 0 <= i < |rows| ==>
        rows[i] == ExpenseRowOf(filteredExpenses[(currentPage - 1) * PageSize + i])
    {
      RowsOf(PageSlice(filteredExpenses, currentPage))
    }

    /**
      * `exportToPDF`: refused when the filtered list is empty; otherwise one
      * numbered row per filtered expense and the total of their amounts.
      */
    function Export(): (r: Option<Report>)
      reads this
      ensures r.None? <==> filteredExpenses == []
      ensures r.Some? ==> r.value.rows == NumberedFrom(filteredExpenses, 1)
      ensures r.Some? ==> r.value.total == SumAbs(filteredExpenses) >= 0
      ensures r.Some? ==> r.value.total == SumOf(r.value.rows, RowAmount)
    {
      if filteredExpenses == [] then None
      else
        ColumnSum(filteredExpenses, 1);
        SumOfNonNegative(filteredExpenses, AbsAmount);
        Some(Report(NumberedFrom(filteredExpenses, 1), SumAbs(filteredExpenses)))
    }
  }

  /** Load, then search, then page forward: the table stays consistent throughout. */
  method Browse(all: seq<Transaction>, term: string)
  {
    var table := new ExpenseTable();
    table.Load(all);
    table.Search(term);
    table.Next();
    var p := table.Pagination();
    assert p.prevDisabled <==> table.currentPage == 1;
  }

  // ---------------------------------------------------------------------
  // The category breakdown
  // ---------------------------------------------------------------------

  /** One entry of the category statistics. */
  datatype CategoryStat = CategoryStat(category: string, amount: int)

  function StatAmount(s: CategoryStat): int {
    s.amount
  }

  /**
    * `((amount / total) * 100).toFixed(1)` in tenths of a percent, the half
    * rounded away from zero; 0 when the total is not positive.
    */
  function Tenths(amount: int, total: int): (r: int)
    ensures total <= 0 ==> r == 0
    ensures total > 0 && amount >= 0 ==> 2 * total * r <= 2000 * amount + total < 2 * total * (r + 1)
    ensures total > 0 && amount < 0 ==> 2 * total * -r <= 2000 * -amount + total < 2 * total * (-r + 1)
  {
    if total <= 0 then 0
    else if amount >= 0 then (2000 * amount + total) / (2 * total)
    else -((2000 * -amount + total) / (2 * total))
  }

  function TenthsOf(total: int): CategoryStat -> int {
    (s: CategoryStat) => Tenths(s.amount, total)
  }

  /**
    * With non-negative amounts the rounded shares of `total` add up, over `n`
    * categories, to their exact sum within half a tenth each.
    */
  lemma {:induction false} TenthsAddUp(stats: seq<CategoryStat>, total: int)
    requires total > 0
    requires forall i :: 0 <= i < |stats| ==> stats[i].amount >= 0
    ensures var r, s, n := SumOf(stats, TenthsOf(total)), SumOf(stats, StatAmount), |stats|;
      2 * total * r <= 2000 * s + n * total && 2000 * s + n * total + n <= 2 * total * (r + n)
  {
    if stats != [] {
      TenthsAddUp(stats[1..], total);
      var a := stats[0].amount;
      StepBound(total, Tenths(a, total), a, SumOf(stats[1..], TenthsOf(total)), SumOf(stats[1..], StatAmount), |stats| - 1);
    }
  }

  /** One more category keeps the bounds of `TenthsAddUp`. */
  lemma StepBound(total: int, t: int, a: int, r: int, s: int, n: int)
    requires total > 0 && n >= 0
    requires 2 * total * t <= 2000 * a + total < 2 * total * (t + 1)
    requires 2 * total * r <= 2000 * s + n * total && 2000 * s + n * total + n <= 2 * total * (r + n)
    ensures 2 * total * (t + r) <= 2000 * (a + s) + (n + 1) * total
    ensures 2000 * (a + s) + (n + 1) * total + (n + 1) <= 2 * total * (t + r + n + 1)
  {
    assert 2 * total * (t + r) == 2 * total * t + 2 * total * r;
    assert (n + 1) * total == n * total + total;
    assert 2 * total * (t + r + n + 1) == 2 * total * (t + 1) + 2 * total * (r + n);
  }

  /** When the total is the sum, the shown percentages add up to 100 % within n / 20 %. */
  lemma PercentagesAddUp(stats: seq<CategoryStat>)
    requires forall i :: 0 <= i < |stats| ==> stats[i].amount >= 0
    requires SumOf(stats, StatAmount) > 0
    ensures var r, n := SumOf(stats, TenthsOf(SumOf(stats, StatAmount))), |stats|;
      2000 - n < 2 * r <= 2000 + n
  {
    var total := SumOf(stats, StatAmount);
    TenthsAddUp(stats, total);
    assert stats != [];
    PercentBounds(total, SumOf(stats, TenthsOf(total)), |stats|);
  }

  /** `TenthsAddUp` with the total as the sum, divided through by the total. */
  lemma PercentBounds(total: int, r: int, n: int)
    requires total > 0 && n >= 1
    requires 2 * total * r <= 2000 * total + n * total
    requires 2000 * total + n * total + n <= 2 * total * (r + n)
    ensures 2000 - n < 2 * r <= 2000 + n
  {
    assert total * (2 * r) == 2 * total * r;
    assert total * (2000 + n) == 2000 * total + n * total;
    assert 2 * total * (r + n) == total * (2 * r) + 2 * n * total;
    assert total * (2000 - n) == 2000 * total - n * total;
    DivideBy(total, 2 * r, 2000 + n);
    DivideByStrict(total, 2000 - n, 2 * r);
  }

  lemma DivideBy(k: int, x: int, y: int)
    requires k > 0 && k * x <= k * y
    ensures x <= y
  {
  }

  lemma DivideByStrict(k: int, x: int, y: int)
    requires k > 0 && k * x < k * y
    ensures x < y
  {
  }

  /** `colorPalette` */
  const Palette: seq<string> := ["#2EC4B6", "#FF9F1C", "#FFBF69", "#CBF3F0", "#0f172a", "#EF4444", "#3B82F6"]

  /** `colorPalette[index % colorPalette.length]` */
  function Color(index: nat): (c: string)
    ensures c in Palette
    ensures index < |Palette| ==> c == Palette[index]
  {
    Palette[index % |Palette|]
  }

  /** Colours repeat every seven entries, and seven neighbouring entries all differ. */
  lemma ColorsCycle(i: nat, j: nat)
    ensures Color(i + |Palette|) == Color(i)
    ensures i < j < i + |Palette| ==> Color(i) != Color(j)
  {
    assert (i + |Palette|) % |Palette| == i % |Palette|;
    assert forall a, b :: 0 <= a < b < |Palette| ==> Palette[a] != Palette[b];
  }

  /** One row of the breakdown list and slice of the doughnut. */
  datatype Slice = Slice(category: string, amount: int, tenths: int, color: string)

  /** `renderPage`: every entry with its share of the total and the colour of its position. */
  function Breakdown(stats: seq<CategoryStat>): (slices: seq<Slice>)
    ensures |slices| == |stats|
    ensures forall i :: 0 <= i < |stats| ==>
      slices[i] == Slice(stats[i].category, stats[i].amount, Tenths(stats[i].amount, SumOf(stats, StatAmount)), Color(i))
  {
    var total := SumOf(stats, StatAmount);
    seq(|stats|, i requires 0 <= i < |stats| => Slice(stats[i].category, stats[i].amount, Tenths(stats[i].amount, total), Color(i)))
  }

  /** What the category panel shows. */
  datatype Panel = Slices(slices: seq<Slice>) | NoExpenses | LoadError

  /**
    * `fetchCategoryStats`: a null or non-ok answer, a JSON null body (its
    * `.data` throws) and a network failure show the error; an empty list
    * shows "No expenses this month."; otherwise the breakdown of `received`,
    * the entries the answer lists.
    */
  function CategoryPanel(r: Session.FetchResult, received: seq<CategoryStat>): (p: Panel)
    ensures p.LoadError? <==> !(r.Returned? && Dashboard.Ok(r.response.status) && !Nullish(r.response.body))
    ensures p.NoExpenses? <==>
      r.Returned? && Dashboard.Ok(r.response.status) && !Nullish(r.response.body) && received == []
    ensures p.Slices? ==> p.slices == Breakdown(received) && p.slices != []
  {
    if !r.Returned? || !Dashboard.Ok(r.response.status) || Nullish(r.response.body) then LoadError
    else if received == [] then NoExpenses
    else Slices(Breakdown(received))
  }
}
