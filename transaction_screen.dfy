/**
 * `TransactionScreen`: the month's rows under the selected tab, newest
 * first, the month's totals per type, the sign shown before an amount, and
 * the delete button. The rows are those `getExpensesByDateRange` returns
 * for the month; the month bounds come from the calendar and are
 * parameters. The month arrows are `MonthCursor.Cursor`.
 */
module TransactionScreen {
  import opened Rows
  import opened Entities
  import opened ExpenseDao
  import opened TransactionRepository
  import Store

  /** The three chips. */
  datatype TxTab = AllTab | ExpenseTab | IncomeTab

  function IsKind(kind: string): Expense -> bool
  {
    (e: Expense) => e.kind == kind
  }

  /** A row is listed under a tab: every row under ALL, rows of the tab's type otherwise. */
  predicate UnderTab(e: Expense, tab: TxTab)
  {
    match tab
    case AllTab => true
    case ExpenseTab => e.kind == ExpenseKind
    case IncomeTab => e.kind == IncomeKind
  }

  /** `src`: the month's rows the tab keeps, in their order. */
  function TabRows(month: seq<Expense>, tab: TxTab): (r: seq<Expense>)
    ensures forall e :: e in r <==> e in month && UnderTab(e, tab)
  {
    match tab
    case AllTab => month
    case ExpenseTab => Filter(month, IsKind(ExpenseKind))
    case IncomeTab => Filter(month, IsKind(IncomeKind))
  }

  /** `filtered`: the tab's rows, `sortedByDescending { it.date }`. */
  function Listed(month: seq<Expense>, tab: TxTab): (r: seq<Expense>)
    ensures SortedDesc(r, DateRank)
  {
    SortDesc(TabRows(month, tab), DateRank)
  }

  /**
   * The list is a rearrangement of the tab's rows, each kept as often as it
   * occurs, so it holds exactly the month's rows the tab selects.
   */
  lemma ListedSpec(month: seq<Expense>, tab: TxTab)
    ensures multiset(Listed(month, tab)) == multiset(TabRows(month, tab))
    ensures forall e :: e in Listed(month, tab) <==> e in month && UnderTab(e, tab)
  {
    SortDescPermutation(TabRows(month, tab), DateRank);
    SortDescMembers(TabRows(month, tab), DateRank);
  }

  /**
   * On the rows of the month query, which come newest first already, the
   * ALL tab shows them in the query's order: the screen's sort moves nothing.
   */
  lemma AllTabKeepsQueryOrder(t: seq<Expense>, u: int, start: int, end: int)
    ensures Listed(ExpensesByDateRange(t, u, start, end), AllTab) == ExpensesByDateRange(t, u, start, end)
  {
    SortDescOfSorted(ExpensesByDateRange(t, u, start, end), DateRank);
  }

  /** The month's total of one type, whatever tab is selected. */
  function MonthTotal(month: seq<Expense>, kind: string): real
  {
    Sum(Filter(month, IsKind(kind)), Amount)
  }

  /**
   * Under the EXPENSE tab the listed amounts add up to the month's expense
   * total, and under the INCOME tab to the income total.
   */
  lemma TabListsAddUp(month: seq<Expense>)
    ensures Sum(Listed(month, ExpenseTab), Amount) == MonthTotal(month, ExpenseKind)
    ensures Sum(Listed(month, IncomeTab), Amount) == MonthTotal(month, IncomeKind)
  {
    SumSortDesc(TabRows(month, ExpenseTab), DateRank, Amount);
    SumSortDesc(TabRows(month, IncomeTab), DateRank, Amount);
  }

  /** `prefix`: "-" before an expense's amount, "+" before any other. */
  function SignPrefix(e: Expense): (p: string)
    ensures p == "-" <==> e.kind == ExpenseKind
    ensures p == "-" || p == "+"
  {
    if e.kind == ExpenseKind then "-" else "+"
  }

  /** For a positive amount the sign shown is the sign of the balance change the row made when it was added. */
  lemma SignPrefixMatchesDelta(e: Expense)
    requires e.amount > 0.0
    ensures SignPrefix(e) == "-" <==> SignedDelta(e) < 0.0
    ensures SignPrefix(e) == "+" <==> SignedDelta(e) > 0.0
  {
  }

  /** The screen's write: the delete button on a row. */
  class Handlers {
    const db: Store.Store

    constructor (db: Store.Store)
      ensures this.db == db
    {
      this.db := db;
    }

    /** `deleteExpense(e)`: the row goes; no wallet balance moves. */
    method Delete(e: Expense)
      requires db.Valid()
      modifies db
      ensures db.Valid()
      ensures db.State() == old(db.State()).(expenses := Remove(old(db.expenses), ExpenseKey, e.id))
      ensures db.wallets == old(db.wallets)
    {
      db.DeleteExpense(e);
    }
  }
}
