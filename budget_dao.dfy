/**
 * The queries of `BudgetDao`. `ORDER BY startDate DESC` and
 * `ORDER BY endDate ASC` are the stable sort `SortDesc` on the start date
 * and on the negated end date. The writes are methods of `Store.Store`.
 */
module BudgetDao {
  import opened Rows
  import opened Entities

  function StartRank(b: Budget): real { b.startDate as real }
  function EndRankAscending(b: Budget): real { -(b.endDate as real) }

  function OfUser(u: int): Budget -> bool
  {
    (b: Budget) => b.userId == u
  }

  function InCategory(u: int, c: int): Budget -> bool
  {
    (b: Budget) => b.userId == u && b.categoryId == c
  }

  /** A budget is in force at `now` when its inclusive date range covers it. */
  predicate IsActive(b: Budget, now: int)
  {
    b.startDate <= now && b.endDate >= now
  }

  function ActiveFor(u: int, now: int): Budget -> bool
  {
    (b: Budget) => b.userId == u && IsActive(b, now)
  }

  /** `getAllBudgets`: the user's budgets, latest start first. */
  function AllBudgets(t: seq<Budget>, u: int): (r: seq<Budget>)
    ensures forall b :: b in r <==> b in t && b.userId == u
    ensures multiset(r) == multiset(Filter(t, OfUser(u)))
    ensures SortedDesc(r, StartRank)
  {
    SortDescMembers(Filter(t, OfUser(u)), StartRank);
    SortDescPermutation(Filter(t, OfUser(u)), StartRank);
    SortDesc(Filter(t, OfUser(u)), StartRank)
  }

  /** `getAllBudgetsOnce`: the user's budgets in storage order. */
  function AllBudgetsOnce(t: seq<Budget>, u: int): (r: seq<Budget>)
    ensures forall b :: b in r <==> b in t && b.userId == u
  {
    Filter(t, OfUser(u))
  }

  /** `getBudgetsByCategory`: the user's budgets of one category, latest start first. */
  function BudgetsByCategory(t: seq<Budget>, u: int, c: int): (r: seq<Budget>)
    ensures forall b :: b in r <==> b in t && b.userId == u && b.categoryId == c
    ensures multiset(r) == multiset(Filter(t, InCategory(u, c)))
    ensures SortedDesc(r, StartRank)
  {
    SortDescMembers(Filter(t, InCategory(u, c)), StartRank);
    SortDescPermutation(Filter(t, InCategory(u, c)), StartRank);
    SortDesc(Filter(t, InCategory(u, c)), StartRank)
  }

  /** `getActiveBudgets`: the user's budgets in force at `now`, earliest end first. */
  function ActiveBudgets(t: seq<Budget>, u: int, now: int): (r: seq<Budget>)
    ensures forall b :: b in r <==> b in t && b.userId == u && b.startDate <= now <= b.endDate
    ensures multiset(r) == multiset(Filter(t, ActiveFor(u, now)))
    ensures forall i, j :: 0 <= i < j < |r| ==> r[i].endDate <= r[j].endDate
  {
    var r := SortDesc(Filter(t, ActiveFor(u, now)), EndRankAscending);
    SortDescMembers(Filter(t, ActiveFor(u, now)), EndRankAscending);
    SortDescPermutation(Filter(t, ActiveFor(u, now)), EndRankAscending);
    SortedDescPairs(r, EndRankAscending);
    r
  }

  /** A budget whose start is after its end is in force at no time. */
  lemma InvertedNeverActive(t: seq<Budget>, u: int, b: Budget, now: int)
    requires b.startDate > b.endDate
    ensures b !in ActiveBudgets(t, u, now)
  {
  }

  /** The budgets listed by start date, read pairwise: a later row never starts after an earlier one. */
  lemma AllBudgetsLatestFirst(t: seq<Budget>, u: int)
    ensures forall i, j :: 0 <= i < j < |AllBudgets(t, u)| ==>
              AllBudgets(t, u)[i].startDate >= AllBudgets(t, u)[j].startDate
  {
    SortedDescPairs(AllBudgets(t, u), StartRank);
  }
}
