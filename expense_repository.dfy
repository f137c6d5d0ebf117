/**
 * `ExpenseRepository`: the totals with `?: 0.0` applied to the SQL sums,
 * and the date-window helpers that filter the newest-first list in memory
 * instead of asking the database.
 */
module ExpenseRepository {
  import opened Rows
  import opened Entities
  import opened ExpenseDao

  /** `totalExpense`: the SQL sum, 0 when there is no row of that type. */
  function TotalExpenseOrZero(t: seq<Expense>, u: int): (r: real)
    ensures r == SumOfKind(t, u, ExpenseKind)
  {
    TotalOrZero(t, u, ExpenseKind)
  }

  /** `totalIncome`: the SQL sum, 0 when there is no row of that type. */
  function TotalIncomeOrZero(t: seq<Expense>, u: int): (r: real)
    ensures r == SumOfKind(t, u, IncomeKind)
  {
    TotalOrZero(t, u, IncomeKind)
  }

  /** `SUM(amount) ?: 0.0`: a NULL sum over no rows reads as the empty sum. */
  function TotalOrZero(t: seq<Expense>, u: int, kind: string): (r: real)
    ensures r == SumOfKind(t, u, kind)
  {
    CountIsFilterLength(t, OfKind(u, kind));
    CountPositive(t, OfKind(u, kind));
    TotalOfKind(t, u, kind).GetOr(0.0)
  }

  /** `e.date in start..end`, both ends included. */
  function Within(start: int, end: int): Expense -> bool
  {
    (e: Expense) => start <= e.date <= end
  }

  /** `it.type == kind`. */
  function IsKind(kind: string): Expense -> bool
  {
    (e: Expense) => e.kind == kind
  }

  /** `expensesBetween`: the newest-first list of all the user's rows, narrowed to the window. */
  function ExpensesBetween(t: seq<Expense>, u: int, start: int, end: int): (r: seq<Expense>)
    ensures forall e :: e in r <==> e in t && e.userId == u && start <= e.date <= end
  {
    Filter(AllExpenses(t, u), Within(start, end))
  }

  /**
   * Filtering the sorted list in memory gives exactly what the range query
   * `getExpensesByDateRange` returns: the same rows, each as often, both
   * newest first; and, with ties on the date kept in storage order, the
   * same list.
   */
  lemma ExpensesBetweenIsRangeQuery(t: seq<Expense>, u: int, start: int, end: int)
    ensures multiset(ExpensesBetween(t, u, start, end)) == multiset(Filter(t, InDateRange(u, start, end)))
    ensures multiset(ExpensesBetween(t, u, start, end)) == multiset(ExpensesByDateRange(t, u, start, end))
    ensures SortedDesc(ExpensesBetween(t, u, start, end), DateRank)
    ensures SortedDesc(ExpensesByDateRange(t, u, start, end), DateRank)
    ensures ExpensesBetween(t, u, start, end) == ExpensesByDateRange(t, u, start, end)
  {
    var between, range := ExpensesBetween(t, u, start, end), ExpensesByDateRange(t, u, start, end);
    FilterSortDesc(Filter(t, OfUser(u)), DateRank, Within(start, end));
    FilterFilter(t, OfUser(u), Within(start, end), InDateRange(u, start, end));
    assert between == range;
    assert multiset(range) == multiset(Filter(t, InDateRange(u, start, end)));
  }

  /** The sum of one type inside the window, as `totalExpenseBetween` and `totalIncomeBetween` compute it. */
  function TotalBetween(t: seq<Expense>, u: int, start: int, end: int, kind: string): real
  {
    Sum(Filter(ExpensesBetween(t, u, start, end), IsKind(kind)), Amount)
  }

  /** `totalExpenseBetween`. */
  function TotalExpenseBetween(t: seq<Expense>, u: int, start: int, end: int): real
  {
    TotalBetween(t, u, start, end, ExpenseKind)
  }

  /** `totalIncomeBetween`. */
  function TotalIncomeBetween(t: seq<Expense>, u: int, start: int, end: int): real
  {
    TotalBetween(t, u, start, end, IncomeKind)
  }

  /** The rows a windowed total adds up: the user's, inside the window, of the type. */
  function InWindowOfKind(u: int, start: int, end: int, kind: string): Expense -> bool
  {
    (e: Expense) => e.userId == u && start <= e.date <= end && e.kind == kind
  }

  /**
   * A windowed total is the sum of the amounts of exactly the user's rows of
   * that type dated inside the window, taken in storage order: the sort on
   * the date does not change it.
   */
  lemma TotalBetweenSpec(t: seq<Expense>, u: int, start: int, end: int, kind: string)
    ensures TotalBetween(t, u, start, end, kind) == Sum(Filter(t, InWindowOfKind(u, start, end, kind)), Amount)
  {
    var w := Filter(t, InDateRange(u, start, end));
    ExpensesBetweenIsRangeQuery(t, u, start, end);
    FilterSortDesc(w, DateRank, IsKind(kind));
    SumSortDesc(Filter(w, IsKind(kind)), DateRank, Amount);
    FilterFilter(t, InDateRange(u, start, end), IsKind(kind), InWindowOfKind(u, start, end, kind));
  }

  /** A window whose start is after its end holds no row, so both totals are 0. */
  lemma EmptyWindow(t: seq<Expense>, u: int, start: int, end: int)
    requires start > end
    ensures ExpensesBetween(t, u, start, end) == []
    ensures TotalExpenseBetween(t, u, start, end) == 0.0 && TotalIncomeBetween(t, u, start, end) == 0.0
  {
    CountIsFilterLength(AllExpenses(t, u), Within(start, end));
    CountPositive(AllExpenses(t, u), Within(start, end));
  }

  /** The rows of type "expense" or "income". */
  function IsExpenseOrIncome(): Expense -> bool
  {
    (e: Expense) => e.kind == ExpenseKind || e.kind == IncomeKind
  }

  /**
   * The two windowed totals together add up every row of the window whose
   * type is "expense" or "income"; a row of any other type is in neither.
   */
  lemma WindowTotalsSplit(t: seq<Expense>, u: int, start: int, end: int)
    ensures TotalExpenseBetween(t, u, start, end) + TotalIncomeBetween(t, u, start, end)
         == Sum(Filter(ExpensesBetween(t, u, start, end), IsExpenseOrIncome()), Amount)
  {
    SumFilterUnion(ExpensesBetween(t, u, start, end), IsKind(ExpenseKind), IsKind(IncomeKind), IsExpenseOrIncome(), Amount);
  }
}
