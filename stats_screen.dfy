/**
 * `StatsScreen`: the month's rows of one type grouped by category, one
 * bar per known category sorted by total, the headline total, the first
 * 12 bars with a "+N" label for the rest, and each bar's height. The rows
 * are those `getExpensesByDateRange` returns for the month; the month
 * bounds come from the calendar and are parameters.
 */
module StatsScreen {
  import opened Wrappers
  import opened Rows
  import opened Numbers
  import opened Entities

  /** The two chips. */
  datatype StatMode = ExpenseMode | IncomeMode

  /** `if (mode == StatMode.EXPENSE) "expense" else "income"`. */
  function ModeKind(mode: StatMode): string
  {
    if mode == ExpenseMode then ExpenseKind else IncomeKind
  }

  function IsKind(kind: string): Expense -> bool
  {
    (e: Expense) => e.kind == kind
  }

  /** `filtered`: the loaded rows of the selected type, in their order. */
  function Filtered(expenses: seq<Expense>, mode: StatMode): (r: seq<Expense>)
    ensures forall e :: e in r <==> e in expenses && e.kind == ModeKind(mode)
  {
    Filter(expenses, IsKind(ModeKind(mode)))
  }

  /* ---------------- groupBy { it.categoryId } ---------------- */

  /** No value twice. */
  predicate Distinct(ks: seq<int>)
  {
    forall i, j :: 0 <= i < j < |ks| ==> ks[i] != ks[j]
  }

  /** The keys of `groupBy`: each category id of the rows once, in the order of first appearance. */
  function GroupKeys(s: seq<Expense>): (ks: seq<int>)
    ensures Distinct(ks)
    ensures forall c :: c in ks <==> exists e :: e in s && e.categoryId == c
  {
    if s == [] then []
    else
      var ks := GroupKeys(s[..|s| - 1]);
      var last := s[|s| - 1];
      assert forall e :: e in s <==> e in s[..|s| - 1] || e == last by {
        assert s == s[..|s| - 1] + [last];
      }
      if last.categoryId in ks then ks else ks + [last.categoryId]
  }

  function OfCategory(c: int): Expense -> bool
  {
    (e: Expense) => e.categoryId == c
  }

  /** `mapValues { sumOf { it.amount } }`: the total of one group. */
  function GroupTotal(s: seq<Expense>, c: int): real
  {
    Sum(Filter(s, OfCategory(c)), Amount)
  }

  /** `categories.find { it.id == cid }`. */
  function FindCategory(cats: seq<Category>, id: int): (r: Option<Category>)
    ensures r.Some? ==> r.value in cats && r.value.id == id
    ensures r.None? <==> forall c :: c in cats ==> c.id != id
  {
    FirstWhere(cats, (c: Category) => c.id == id)
  }

  /** One bar: a category and the total of its rows. */
  datatype Bar = Bar(category: Category, total: real)

  function BarTotal(b: Bar): real
  {
    b.total
  }

  /** The bar for group `k`, or none when no category has that id. */
  function BarFor(cats: seq<Category>, k: int, s: seq<Expense>): seq<Bar>
  {
    match FindCategory(cats, k)
    case Some(c) => [Bar(c, GroupTotal(s, k))]
    case None => []
  }

  /** `mapNotNull`: the groups, in key order, whose id names a category. */
  function Pairs(cats: seq<Category>, ks: seq<int>, s: seq<Expense>): (r: seq<Bar>)
    ensures forall b :: b in r ==>
              b.category in cats && b.category.id in ks && b.total == GroupTotal(s, b.category.id)
  {
    if ks == [] then []
    else Pairs(cats, ks[..|ks| - 1], s) + BarFor(cats, ks[|ks| - 1], s)
  }

  /** `byCategory`: the bars sorted by total, largest first, ties in key order. */
  function ByCategory(expenses: seq<Expense>, mode: StatMode, cats: seq<Category>): (r: seq<Bar>)
    ensures SortedDesc(r, BarTotal)
  {
    var f := Filtered(expenses, mode);
    SortDesc(Pairs(cats, GroupKeys(f), f), BarTotal)
  }

  /** `total = byCategory.sumOf { it.second }`. */
  function Total(bc: seq<Bar>): real
  {
    Sum(bc, BarTotal)
  }

  /* ---------------- what the bars hold ---------------- */

  /**
   * Every bar names a known category, stands for rows of the selected type
   * with that category, and carries the sum of their amounts.
   */
  lemma ByCategoryBars(expenses: seq<Expense>, mode: StatMode, cats: seq<Category>, b: Bar)
    requires b in ByCategory(expenses, mode, cats)
    ensures b.category in cats
    ensures exists e :: e in expenses && e.kind == ModeKind(mode) && e.categoryId == b.category.id
    ensures b.total == Sum(Filter(Filtered(expenses, mode), OfCategory(b.category.id)), Amount)
  {
    var f := Filtered(expenses, mode);
    SortDescMembers(Pairs(cats, GroupKeys(f), f), BarTotal);
  }

  function BarOf(c: int): Bar -> bool
  {
    (b: Bar) => b.category.id == c
  }

  /** Over distinct keys, a category gets one bar when it is a key and known, and none otherwise. */
  lemma {:induction false} PairsCount(cats: seq<Category>, ks: seq<int>, s: seq<Expense>, c: int)
    requires Distinct(ks)
    ensures Count(Pairs(cats, ks, s), BarOf(c)) == if c in ks && FindCategory(cats, c).Some? then 1 else 0
  {
    if ks != [] {
      var front, k := ks[..|ks| - 1], ks[|ks| - 1];
      assert ks == front + [k];
      assert Distinct(front);
      PairsCount(cats, front, s, c);
      CountAppend(Pairs(cats, front, s), BarFor(cats, k, s), BarOf(c));
      assert k !in front;
      assert c in ks <==> c in front || c == k;
      match FindCategory(cats, k)
      case Some(x) => {
        assert Count(BarFor(cats, k, s), BarOf(c)) == if k == c then 1 else 0 by {
          assert BarFor(cats, k, s)[1..] == [];
        }
      }
      case None => {}
    }
  }

  /**
   * Each category appears at most once: exactly once when it is known and
   * some row of the selected type uses it, and not at all otherwise.
   */
  lemma ByCategoryOnce(expenses: seq<Expense>, mode: StatMode, cats: seq<Category>, c: int)
    ensures Count(ByCategory(expenses, mode, cats), BarOf(c))
         == if FindCategory(cats, c).Some? && exists e :: e in expenses && e.kind == ModeKind(mode) && e.categoryId == c
            then 1 else 0
  {
    var f := Filtered(expenses, mode);
    CountSortDesc(Pairs(cats, GroupKeys(f), f), BarTotal, BarOf(c));
    PairsCount(cats, GroupKeys(f), f, c);
  }

  /* ---------------- the headline total ---------------- */

  /** The rows whose category id names a known category. */
  function Known(cats: seq<Category>): Expense -> bool
  {
    (e: Expense) => FindCategory(cats, e.categoryId).Some?
  }

  function KnownIn(cats: seq<Category>, ks: seq<int>): Expense -> bool
  {
    (e: Expense) => e.categoryId in ks && FindCategory(cats, e.categoryId).Some?
  }

  /** The bars of the keys `ks` add up the rows whose category is one of those keys and known. */
  lemma {:induction false} PairsSum(cats: seq<Category>, ks: seq<int>, s: seq<Expense>)
    requires Distinct(ks)
    ensures Sum(Pairs(cats, ks, s), BarTotal) == Sum(Filter(s, KnownIn(cats, ks)), Amount)
  {
    if ks == [] {
      CountIsFilterLength(s, KnownIn(cats, ks));
      CountPositive(s, KnownIn(cats, ks));
    } else {
      var front, k := ks[..|ks| - 1], ks[|ks| - 1];
      assert ks == front + [k];
      assert Distinct(front);
      assert k !in front;
      PairsSum(cats, front, s);
      SumAppend(Pairs(cats, front, s), BarFor(cats, k, s), BarTotal);
      var newGroup := (e: Expense) => e.categoryId == k && FindCategory(cats, e.categoryId).Some?;
      SumFilterUnion(s, KnownIn(cats, front), newGroup, KnownIn(cats, ks), Amount);
      match FindCategory(cats, k)
      case Some(x) => {
        FilterExt(s, newGroup, OfCategory(k));
        SumCons(Bar(x, GroupTotal(s, k)), [], BarTotal);
      }
      case None => {
        CountIsFilterLength(s, newGroup);
        CountPositive(s, newGroup);
      }
    }
  }

  /**
   * The headline total is the sum of the loaded rows of the selected type
   * whose category is known: a row whose category id matches no category
   * is left out of the total as well as out of the bars.
   */
  lemma TotalIsKnownRows(expenses: seq<Expense>, mode: StatMode, cats: seq<Category>)
    ensures Total(ByCategory(expenses, mode, cats)) == Sum(Filter(Filtered(expenses, mode), Known(cats)), Amount)
  {
    var f := Filtered(expenses, mode);
    var ks := GroupKeys(f);
    SumSortDesc(Pairs(cats, ks, f), BarTotal, BarTotal);
    PairsSum(cats, ks, f);
    forall e | e in f ensures KnownIn(cats, ks)(e) == Known(cats)(e) {
      assert e.categoryId in ks;
    }
    FilterExt(f, KnownIn(cats, ks), Known(cats));
  }

  /* ---------------- the chart ---------------- */

  /** `total <= 0.0 || byCategory.isEmpty()` shows the empty message instead of the chart. */
  predicate ChartShown(bc: seq<Bar>)
  {
    !(Total(bc) <= 0.0 || bc == [])
  }

  /** `byCategory.take(12)`. */
  function Shown(bc: seq<Bar>): (r: seq<Bar>)
    ensures |r| <= 12 && |r| <= |bc| && r == bc[..|r|]
    ensures |bc| <= 12 ==> r == bc
    ensures |bc| > 12 ==> |r| == 12
  {
    if |bc| <= 12 then bc else bc[..12]
  }

  /** The "+N danh mục khác" label: the number of bars left out, shown only when some are. */
  function MoreLabel(bc: seq<Bar>): (r: Option<nat>)
    ensures r.Some? <==> |bc| > 12
    ensures r.Some? ==> r.value == |bc| - 12 && |Shown(bc)| + r.value == |bc|
  {
    if |bc| > |Shown(bc)| then Some(|bc| - |Shown(bc)|) else None
  }

  /** `byCategory.maxOf { it.second }`. */
  function MaxTotal(bc: seq<Bar>): (m: real)
    requires bc != []
    ensures forall b :: b in bc ==> b.total <= m
    ensures exists b :: b in bc && b.total == m
  {
    if |bc| == 1 then bc[0].total
    else
      var rest := MaxTotal(bc[1..]);
      assert forall b :: b in bc ==> b == bc[0] || b in bc[1..];
      if bc[0].total >= rest then bc[0].total else rest
  }

  /** A bar's height: `(value / maxVal).coerceIn(0f, 1f)`. */
  function Frac(value: real, maxVal: real): (r: real)
    requires maxVal != 0.0
    ensures 0.0 <= r <= 1.0
  {
    Clamp(value / maxVal)
  }

  /** In a sorted list the largest total is the first one. */
  lemma {:induction false} MaxOfSorted(bc: seq<Bar>)
    requires bc != [] && SortedDesc(bc, BarTotal)
    ensures MaxTotal(bc) == bc[0].total
    decreases |bc|
  {
    if |bc| > 1 {
      MaxOfSorted(bc[1..]);
    }
  }

  /** The height of a bar that does not exceed a positive maximum: its share, or 0 below 0. */
  lemma FracBelowMax(v: real, m: real)
    requires m > 0.0 && v <= m
    ensures Frac(v, m) == if v <= 0.0 then 0.0 else v / m
  {
  }

  /**
   * When the chart is shown the largest total is positive and belongs to
   * the first bar, which is drawn full height; every shown bar is drawn at
   * its share of that total, or at 0 for a total that is not positive.
   */
  lemma ChartHeights(bc: seq<Bar>)
    requires SortedDesc(bc, BarTotal) && ChartShown(bc)
    ensures MaxTotal(bc) == bc[0].total && MaxTotal(bc) > 0.0
    ensures Frac(bc[0].total, MaxTotal(bc)) == 1.0
    ensures forall b :: b in Shown(bc) ==>
              Frac(b.total, MaxTotal(bc)) == if b.total <= 0.0 then 0.0 else b.total / MaxTotal(bc)
  {
    var m := MaxTotal(bc);
    MaxOfSorted(bc);
    assert m == bc[0].total;
    assert m > 0.0 by {
      if forall b :: b in bc ==> BarTotal(b) <= 0.0 {
        SumNonPositive(bc, BarTotal);
      }
    }
    FracBelowMax(m, m);
    forall b | b in Shown(bc) ensures Frac(b.total, m) == if b.total <= 0.0 then 0.0 else b.total / m {
      assert b in bc;
      FracBelowMax(b.total, m);
    }
  }
}
