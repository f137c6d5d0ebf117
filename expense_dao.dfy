/**
 * The queries of `ExpenseDao` over the expense table. Every query is scoped
 * to one user; `ORDER BY date DESC` is the stable sort `SortDesc` on the
 * date, so rows with the same date keep their storage order.
 * The writes (`insertExpense`, `updateExpense`, `deleteExpense`) are methods
 * of `Store.Store`.
 */
module ExpenseDao {
  import opened Wrappers
  import opened Rows
  import opened Entities

  /* The WHERE clauses. */

  function OfUser(u: int): Expense -> bool
  {
    (e: Expense) => e.userId == u
  }

  function WithId(u: int, id: int): Expense -> bool
  {
    (e: Expense) => e.userId == u && e.id == id
  }

  function InCategory(u: int, c: int): Expense -> bool
  {
    (e: Expense) => e.userId == u && e.categoryId == c
  }

  /** `date BETWEEN start AND end`: both ends included. */
  function InDateRange(u: int, start: int, end: int): Expense -> bool
  {
    (e: Expense) => e.userId == u && start <= e.date <= end
  }

  function OfKind(u: int, kind: string): Expense -> bool
  {
    (e: Expense) => e.userId == u && e.kind == kind
  }

  /** `getAllExpenses`: the user's rows, newest first. */
  function AllExpenses(t: seq<Expense>, u: int): (r: seq<Expense>)
    ensures forall e :: e in r <==> e in t && e.userId == u
    ensures multiset(r) == multiset(Filter(t, OfUser(u)))
    ensures SortedDesc(r, DateRank)
  {
    SortDescMembers(Filter(t, OfUser(u)), DateRank);
    SortDescPermutation(Filter(t, OfUser(u)), DateRank);
    SortDesc(Filter(t, OfUser(u)), DateRank)
  }

  /** `getAllExpensesOnce`: the user's rows in storage order. */
  function AllExpensesOnce(t: seq<Expense>, u: int): (r: seq<Expense>)
    ensures forall e :: e in r <==> e in t && e.userId == u
  {
    Filter(t, OfUser(u))
  }

  /** `getExpenseById`: the row with this id, but only when the user owns it. */
  function ExpenseById(t: seq<Expense>, u: int, id: int): (r: Option<Expense>)
    ensures r.Some? ==> r.value in t && r.value.userId == u && r.value.id == id
    ensures r.None? <==> forall e :: e in t ==> !(e.userId == u && e.id == id)
  {
    FirstWhere(t, WithId(u, id))
  }

  /** `getExpensesByCategory`: the user's rows of one category, newest first. */
  function ExpensesByCategory(t: seq<Expense>, u: int, c: int): (r: seq<Expense>)
    ensures forall e :: e in r <==> e in t && e.userId == u && e.categoryId == c
    ensures multiset(r) == multiset(Filter(t, InCategory(u, c)))
    ensures SortedDesc(r, DateRank)
  {
    SortDescMembers(Filter(t, InCategory(u, c)), DateRank);
    SortDescPermutation(Filter(t, InCategory(u, c)), DateRank);
    SortDesc(Filter(t, InCategory(u, c)), DateRank)
  }

  /** `getExpensesByDateRange`: the user's rows dated from `start` to `end` inclusive, newest first. */
  function ExpensesByDateRange(t: seq<Expense>, u: int, start: int, end: int): (r: seq<Expense>)
    ensures forall e :: e in r <==> e in t && e.userId == u && start <= e.date <= end
    ensures multiset(r) == multiset(Filter(t, InDateRange(u, start, end)))
    ensures SortedDesc(r, DateRank)
  {
    SortDescMembers(Filter(t, InDateRange(u, start, end)), DateRank);
    SortDescPermutation(Filter(t, InDateRange(u, start, end)), DateRank);
    SortDesc(Filter(t, InDateRange(u, start, end)), DateRank)
  }

  /** The sum of the amounts of the user's rows of one type (0 when there are none). */
  function SumOfKind(t: seq<Expense>, u: int, kind: string): real
  {
    Sum(Filter(t, OfKind(u, kind)), Amount)
  }

  /** SQL `SUM(amount)`: NULL when no row matches, the sum otherwise. */
  function TotalOfKind(t: seq<Expense>, u: int, kind: string): (r: Option<real>)
    ensures r.None? <==> forall e :: e in t ==> !(e.userId == u && e.kind == kind)
    ensures r.Some? ==> r.value == SumOfKind(t, u, kind)
  {
    var rows := Filter(t, OfKind(u, kind));
    assert rows != [] ==> rows[0] in rows;
    if rows == [] then None else Some(Sum(rows, Amount))
  }

  /** `getTotalExpense`. */
  function TotalExpense(t: seq<Expense>, u: int): Option<real>
  {
    TotalOfKind(t, u, ExpenseKind)
  }

  /** `getTotalIncome`. */
  function TotalIncome(t: seq<Expense>, u: int): Option<real>
  {
    TotalOfKind(t, u, IncomeKind)
  }

  /** `countByCategory`: how many of the user's rows use the category. */
  function CountByCategory(t: seq<Expense>, u: int, c: int): (n: nat)
    ensures n == |Filter(t, InCategory(u, c))|
    ensures n > 0 <==> exists e :: e in t && e.userId == u && e.categoryId == c
  {
    CountIsFilterLength(t, InCategory(u, c));
    CountPositive(t, InCategory(u, c));
    Count(t, InCategory(u, c))
  }

  /** The SUM queries see every matching row: adding a row of that user and type adds its amount. */
  lemma SumOfKindAppend(t: seq<Expense>, u: int, kind: string, e: Expense)
    ensures SumOfKind(t + [e], u, kind)
         == SumOfKind(t, u, kind) + (if e.userId == u && e.kind == kind then e.amount else 0.0)
  {
    FilterAppend(t, [e], OfKind(u, kind));
    SumAppend(Filter(t, OfKind(u, kind)), Filter([e], OfKind(u, kind)), Amount);
    assert [e][1..] == [];
  }

  /** A row owned by another user is invisible to `getExpenseById`. */
  lemma ExpenseByIdOtherUser(t: seq<Expense>, u: int, x: Expense)
    requires UniqueKeys(t, ExpenseKey)
    requires x in t && x.userId != u
    ensures ExpenseById(t, u, x.id) == None
  {
    forall e | e in t ensures !(e.userId == u && e.id == x.id) {
      var i :| 0 <= i < |t| && t[i] == e;
      var j :| 0 <= j < |t| && t[j] == x;
      assert ExpenseKey(t[i]) == e.id && ExpenseKey(t[j]) == x.id;
    }
  }

  /** The owner finds the row by its id. */
  lemma ExpenseByIdOwner(t: seq<Expense>, x: Expense)
    requires UniqueKeys(t, ExpenseKey)
    requires x in t
    ensures ExpenseById(t, x.userId, x.id) == Some(x)
  {
    var r := ExpenseById(t, x.userId, x.id);
    var i :| 0 <= i < |t| && t[i] == r.value;
    var j :| 0 <= j < |t| && t[j] == x;
    assert ExpenseKey(t[i]) == ExpenseKey(t[j]);
  }

  /** Ties on the date keep their storage order in every date-sorted query. */
  lemma SameDateKeepsStorageOrder(t: seq<Expense>, u: int, day: int)
    ensures Filter(AllExpenses(t, u), RankIs(DateRank, day as real))
         == Filter(Filter(t, OfUser(u)), RankIs(DateRank, day as real))
  {
    SortDescStable(Filter(t, OfUser(u)), DateRank, day as real);
  }
}
