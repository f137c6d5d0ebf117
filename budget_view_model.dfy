/**
 * `BudgetViewModel`: the session user guard in front of the budget
 * queries. The session user id is an input (`None` when nobody is signed
 * in); the clock reading of `activeNow` is the parameter `now`.
 */
module BudgetViewModel {
  import opened Wrappers
  import opened Entities
  import opened BudgetDao

  /** `_userId.value ?: -1`, the id `byCategory` and `activeNow` test. */
  function SessionId(session: Option<int>): int
  {
    session.GetOr(-1)
  }

  /** The guard: a signed-in user with a positive id. */
  predicate SignedIn(session: Option<int>)
  {
    session.Some? && session.value > 0
  }

  /** `allBudgets`: the user's budgets, latest start first, or nothing without a valid session user. */
  function AllBudgetsFor(t: seq<Budget>, session: Option<int>): (r: seq<Budget>)
    ensures forall b :: b in r <==> SignedIn(session) && b in t && b.userId == session.value
    ensures SignedIn(session) ==> r == AllBudgets(t, session.value)
  {
    if session.Some? && session.value > 0 then AllBudgets(t, session.value) else []
  }

  /** `byCategory`: the user's budgets of one category, or nothing when the id is missing or not positive. */
  function ByCategoryFor(t: seq<Budget>, session: Option<int>, c: int): (r: seq<Budget>)
    ensures forall b :: b in r <==> SignedIn(session) && b in t && b.userId == session.value && b.categoryId == c
    ensures SignedIn(session) ==> r == BudgetsByCategory(t, session.value, c)
  {
    var uid := SessionId(session);
    if uid > 0 then BudgetsByCategory(t, uid, c) else []
  }

  /** `activeNow`: the user's budgets in force at `now`, or nothing when the id is missing or not positive. */
  function ActiveNowFor(t: seq<Budget>, session: Option<int>, now: int): (r: seq<Budget>)
    ensures forall b :: b in r <==> SignedIn(session) && b in t && b.userId == session.value && IsActive(b, now)
    ensures SignedIn(session) ==> r == ActiveBudgets(t, session.value, now)
  {
    var uid := SessionId(session);
    if uid > 0 then ActiveBudgets(t, uid, now) else []
  }

  /**
   * Whatever is stored, the screens never see a budget whose owner id is
   * not positive: rows stored under user 0 or a negative id stay hidden.
   */
  lemma NoBudgetOfNonPositiveOwner(t: seq<Budget>, session: Option<int>, c: int, now: int, b: Budget)
    requires b in AllBudgetsFor(t, session) || b in ByCategoryFor(t, session, c) || b in ActiveNowFor(t, session, now)
    ensures b.userId > 0 && b in t
  {
  }
}
