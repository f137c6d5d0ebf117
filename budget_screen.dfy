/**
 * `BudgetScreen`: what a budget card shows (money spent, progress ratio,
 * colour band, remaining or overspent amount), the edit dialog with its
 * checks, and the add, edit and delete handlers that write the budget
 * table. The clock reading and the calendar dates (`startOfToday`,
 * `endOfThisMonth`) are parameters.
 */
module BudgetScreen {
  import opened Wrappers
  import opened Rows
  import opened Text
  import opened Entities
  import opened Numbers
  import opened ExpenseDao
  import Store

  /* ---------------- money spent ---------------- */

  /** `366L * 24 * 60 * 60 * 1000`: the half-width of the date window the screen loads. */
  const YearMillis: int := 366 * 24 * 60 * 60 * 1000

  /** The rows the screen loads: the user's rows dated within a year and a day of `now`, newest first. */
  function Window(t: seq<Expense>, u: int, now: int): seq<Expense>
  {
    ExpensesByDateRange(t, u, now - YearMillis, now + YearMillis)
  }

  function OfExpenseKind(): Expense -> bool
  {
    (e: Expense) => e.kind == ExpenseKind
  }

  function OfCategory(c: int): Expense -> bool
  {
    (e: Expense) => e.categoryId == c
  }

  function InBudgetDates(b: Budget): Expense -> bool
  {
    (e: Expense) => b.startDate <= e.date <= b.endDate
  }

  /** `spent`: three filters in a row, then `sumOf { it.amount }`. */
  function Spent(expenses: seq<Expense>, b: Budget): real
  {
    Sum(Filter(Filter(Filter(expenses, OfExpenseKind()), OfCategory(b.categoryId)), InBudgetDates(b)), Amount)
  }

  /** A row counts toward a budget: type "expense", the budget's category, dated inside its range. */
  function CountsToward(b: Budget): Expense -> bool
  {
    (e: Expense) => e.kind == ExpenseKind && e.categoryId == b.categoryId && b.startDate <= e.date <= b.endDate
  }

  /** The chained filters keep exactly the rows that count toward the budget, in their order. */
  lemma SpentSpec(expenses: seq<Expense>, b: Budget)
    ensures Spent(expenses, b) == Sum(Filter(expenses, CountsToward(b)), Amount)
  {
    var kindAndCategory := (e: Expense) => e.kind == ExpenseKind && e.categoryId == b.categoryId;
    FilterFilter(expenses, OfExpenseKind(), OfCategory(b.categoryId), kindAndCategory);
    FilterFilter(expenses, kindAndCategory, InBudgetDates(b), CountsToward(b));
  }

  /** The rows behind a card: the user's, inside the loaded window, counting toward the budget. */
  function CountsOnScreen(u: int, now: int, b: Budget): Expense -> bool
  {
    (e: Expense) => e.userId == u && now - YearMillis <= e.date <= now + YearMillis && CountsToward(b)(e)
  }

  /**
   * A card's `spent` is the sum of the amounts of exactly the user's
   * expense rows of the budget's category dated both inside the budget's
   * range and inside the loaded window.
   */
  lemma SpentOnScreen(t: seq<Expense>, u: int, now: int, b: Budget)
    ensures Spent(Window(t, u, now), b) == Sum(Filter(t, CountsOnScreen(u, now, b)), Amount)
  {
    var inWindow := Filter(t, InDateRange(u, now - YearMillis, now + YearMillis));
    SpentSpec(Window(t, u, now), b);
    FilterSortDesc(inWindow, DateRank, CountsToward(b));
    SumSortDesc(Filter(inWindow, CountsToward(b)), DateRank, Amount);
    FilterFilter(t, InDateRange(u, now - YearMillis, now + YearMillis), CountsToward(b), CountsOnScreen(u, now, b));
  }

  /** The user's rows that count toward the budget, wherever they are dated. */
  function CountsForUser(u: int, b: Budget): Expense -> bool
  {
    (e: Expense) => e.userId == u && CountsToward(b)(e)
  }

  /** A budget whose range lies inside the loaded window sees every row that counts toward it. */
  lemma SpentInsideWindow(t: seq<Expense>, u: int, now: int, b: Budget)
    requires now - YearMillis <= b.startDate && b.endDate <= now + YearMillis
    ensures Spent(Window(t, u, now), b) == Sum(Filter(t, CountsForUser(u, b)), Amount)
  {
    SpentOnScreen(t, u, now, b);
    forall x | x in t ensures CountsOnScreen(u, now, b)(x) == CountsForUser(u, b)(x) {
      assert CountsToward(b)(x) ==> b.startDate <= x.date <= b.endDate;
    }
    FilterExt(t, CountsOnScreen(u, now, b), CountsForUser(u, b));
  }

  /** A budget whose range lies wholly outside the loaded window shows nothing spent, whatever is stored. */
  lemma SpentOutsideWindow(t: seq<Expense>, u: int, now: int, b: Budget)
    requires b.endDate < now - YearMillis || b.startDate > now + YearMillis
    ensures Spent(Window(t, u, now), b) == 0.0
  {
    SpentOnScreen(t, u, now, b);
    CountIsFilterLength(t, CountsOnScreen(u, now, b));
    CountPositive(t, CountsOnScreen(u, now, b));
  }

  /* ---------------- the card ---------------- */

  /** `amountLimit.coerceAtLeast(1.0)`. */
  function Divisor(b: Budget): (d: real)
    ensures d >= 1.0 && d >= b.amountLimit
    ensures d == b.amountLimit || d == 1.0
  {
    if b.amountLimit < 1.0 then 1.0 else b.amountLimit
  }

  /** The progress bar value: the share of the (floored) limit spent, clamped to [0, 1]. */
  function Ratio(spent: real, b: Budget): (r: real)
    ensures 0.0 <= r <= 1.0
  {
    Clamp(spent / Divisor(b))
  }

  /** The bar colour. */
  datatype Band = Exceeded | Warning | Normal

  /** `when { ratio >= 1 -> red; ratio >= 0.8 -> amber; else -> green }`. */
  function BandOf(ratio: real): Band
  {
    if ratio >= 1.0 then Exceeded else if ratio >= 0.8 then Warning else Normal
  }

  /** `spent / d` compared with a fraction, for a positive `d`. */
  lemma QuotientAtLeast(spent: real, d: real, k: real)
    requires d > 0.0
    ensures spent / d >= k <==> spent >= k * d
  {
    var q := spent / d;
    assert spent == q * d;
    if q >= k {
      assert (q - k) * d >= 0.0;
    } else {
      assert (k - q) * d > 0.0;
    }
  }

  /**
   * The band in terms of money: red exactly when the spent amount reaches
   * the floored limit, amber exactly when it reaches 80% of it without
   * reaching it, green below 80%.
   */
  lemma BandSpec(spent: real, b: Budget)
    ensures BandOf(Ratio(spent, b)) == Exceeded <==> spent >= Divisor(b)
    ensures BandOf(Ratio(spent, b)) == Warning <==> 0.8 * Divisor(b) <= spent < Divisor(b)
    ensures BandOf(Ratio(spent, b)) == Normal <==> spent < 0.8 * Divisor(b)
  {
    QuotientAtLeast(spent, Divisor(b), 1.0);
    QuotientAtLeast(spent, Divisor(b), 0.8);
  }

  /** The text under the bar: what is left, or by how much the limit is overrun. */
  datatype RemainText = Remaining(left: real) | Over(excess: real)

  /** `remain = amountLimit - spent`, shown as "remaining" when not negative, else "over", with its absolute value. */
  function Remain(spent: real, b: Budget): (r: RemainText)
    ensures r.Over? <==> spent > b.amountLimit
    ensures r.Remaining? ==> r.left >= 0.0 && spent + r.left == b.amountLimit
    ensures r.Over? ==> r.excess > 0.0 && b.amountLimit + r.excess == spent
  {
    var remain := b.amountLimit - spent;
    if remain >= 0.0 then Remaining(remain) else Over(-remain)
  }

  /**
   * For a limit of at least 1 the text and the colour agree, except at the
   * limit itself: spending exactly the limit paints the bar red while the
   * text still says "remaining 0".
   */
  lemma RemainAndBand(spent: real, b: Budget)
    requires b.amountLimit >= 1.0
    ensures Remain(spent, b).Over? ==> BandOf(Ratio(spent, b)) == Exceeded
    ensures BandOf(Ratio(spent, b)) == Exceeded && Remain(spent, b).Remaining? <==> spent == b.amountLimit
  {
    BandSpec(spent, b);
  }

  /**
   * Below a limit of 1 they can disagree the other way: a limit of 0 with
   * 0.9 spent is "over" on a bar that is still amber.
   */
  lemma RemainAndBandBelowOne()
    ensures var b := Budget(1, 1, 1, 0.0, 0, 0);
            Remain(0.9, b) == Over(0.9) && BandOf(Ratio(0.9, b)) == Warning
  {
    var b := Budget(1, 1, 1, 0.0, 0, 0);
    assert Divisor(b) == 1.0;
    assert 0.9 / 1.0 == 0.9;
  }

  /* ---------------- the edit dialog ---------------- */

  /** `Long.MAX_VALUE`: `Double.toLong()` saturates there. */
  const LongMax: nat := 9223372036854775807

  /**
   * The amount field's first text: `amountLimit.toLong().toString()` for a
   * positive limit, else empty. `toLong()` drops the fraction and caps the
   * value at `LongMax`.
   */
  function InitText(limit: real): (s: string)
    ensures AllDigits(s)
    ensures s == [] <==> limit <= 0.0
    ensures limit > 0.0 && limit.Floor <= LongMax ==> DigitsValue(s) == limit.Floor
    ensures limit > 0.0 && limit.Floor > LongMax ==> DigitsValue(s) == LongMax
  {
    if limit <= 0.0 then []
    else
      var n: nat := if limit.Floor > LongMax then LongMax else limit.Floor;
      DigitsOfRoundTrip(n);
      DigitsOf(n)
  }

  /**
   * `onConfirm`: the limit is the field read as a number (0 for an empty
   * field); nothing is confirmed for a limit of 0, no category (id 0), or
   * a start after the end; otherwise the first budget with the chosen
   * category, limit and dates and its own id and owner.
   */
  function Confirm(init: Budget, catId: int, amountText: string, start: int, end: int): (r: Option<Budget>)
    requires AllDigits(amountText)
    ensures r.Some? <==> DigitsValue(amountText) > 0 && catId != 0 && start <= end
    ensures r.Some? ==> r.value.id == init.id && r.value.userId == init.userId
    ensures r.Some? ==> r.value.categoryId == catId && r.value.startDate == start && r.value.endDate == end
    ensures r.Some? ==> r.value.amountLimit == DigitsValue(amountText) as real && r.value.amountLimit >= 1.0
  {
    var limit := ParseDigits(amountText).GetOr(0.0);
    if limit <= 0.0 || catId == 0 then None
    else if start > end then None
    else Some(init.(userId := init.userId, categoryId := catId, amountLimit := limit, startDate := start, endDate := end))
  }

  /**
   * A whole limit up to `LongMax` survives the dialog unchanged when the
   * user only presses Save.
   */
  lemma InitTextRoundTrip(init: Budget)
    requires init.amountLimit >= 1.0 && init.amountLimit == init.amountLimit.Floor as real
    requires init.amountLimit <= LongMax as real
    requires init.categoryId != 0 && init.startDate <= init.endDate
    ensures Confirm(init, init.categoryId, InitText(init.amountLimit), init.startDate, init.endDate) == Some(init)
  {
  }

  /**
   * A limit past `LongMax` does not survive: an untouched Save stores the
   * capped value `LongMax` instead.
   */
  lemma InitTextSaturates(init: Budget)
    requires init.amountLimit >= LongMax as real + 1.0
    requires init.categoryId != 0 && init.startDate <= init.endDate
    ensures Confirm(init, init.categoryId, InitText(init.amountLimit), init.startDate, init.endDate)
            == Some(init.(amountLimit := LongMax as real))
    ensures init.(amountLimit := LongMax as real) != init
  {
  }

  /** The add dialog's first draft: the first category of any type (or 0), no limit, today to month end. */
  function AddDraft(u: int, categories: seq<Category>, startOfToday: int, endOfThisMonth: int): (b: Budget)
    ensures b.id == 0 && b.userId == u && b.amountLimit == 0.0
    ensures categories != [] ==> b.categoryId == categories[0].id
    ensures categories == [] ==> b.categoryId == 0
    ensures b.startDate == startOfToday && b.endDate == endOfThisMonth
  {
    Budget(0, u, if categories == [] then 0 else categories[0].id, 0.0, startOfToday, endOfThisMonth)
  }

  /**
   * Saving the add draft untouched is always refused: its amount field
   * starts empty.
   */
  lemma DraftNeedsAmount(u: int, categories: seq<Category>, startOfToday: int, endOfThisMonth: int)
    ensures var d := AddDraft(u, categories, startOfToday, endOfThisMonth);
            Confirm(d, d.categoryId, InitText(d.amountLimit), d.startDate, d.endDate) == None
  {
  }

  /**
   * The dialog's state. The amount field only ever holds digits: it starts
   * from `InitText` and every edit keeps the digits of what was typed.
   */
  class EditDialog {
    const init: Budget
    var catId: int
    var amountText: string
    var start: int
    var end: int

    predicate Valid()
      reads this
    {
      AllDigits(amountText)
    }

    constructor (init: Budget)
      ensures Valid()
      ensures this.init == init && catId == init.categoryId && amountText == InitText(init.amountLimit)
      ensures start == init.startDate && end == init.endDate
    {
      this.init := init;
      catId := init.categoryId;
      amountText := InitText(init.amountLimit);
      start := init.startDate;
      end := init.endDate;
    }

    /** `amountText = it.filter { ch -> ch.isDigit() }`. */
    method TypeAmount(typed: string)
      modifies this
      ensures Valid()
      ensures amountText == KeepDigits(typed)
      ensures catId == old(catId) && start == old(start) && end == old(end)
    {
      amountText := KeepDigits(typed);
    }

    /** A category picked from the menu, which offers the dialog's categories of type "expense". */
    method PickCategory(categories: seq<Category>, c: Category)
      requires Valid()
      requires c in categories && c.kind == "expense"
      modifies this
      ensures Valid()
      ensures catId == c.id
      ensures amountText == old(amountText) && start == old(start) && end == old(end)
    {
      catId := c.id;
    }

    /** A date picked for the start of the range. */
    method PickStart(d: int)
      requires Valid()
      modifies this
      ensures Valid()
      ensures start == d
      ensures catId == old(catId) && amountText == old(amountText) && end == old(end)
    {
      start := d;
    }

    /** A date picked for the end of the range. */
    method PickEnd(d: int)
      requires Valid()
      modifies this
      ensures Valid()
      ensures end == d
      ensures catId == old(catId) && amountText == old(amountText) && start == old(start)
    {
      end := d;
    }

    /** The Save button: the budget handed to `onConfirm`, if any. */
    method Save() returns (r: Option<Budget>)
      requires Valid()
      ensures r == Confirm(init, catId, amountText, start, end)
    {
      var limit := ParseDigits(amountText).GetOr(0.0);
      if limit <= 0.0 || catId == 0 {
        return None;
      }
      if start > end {
        return None;
      }
      r := Some(init.(userId := init.userId, categoryId := catId, amountLimit := limit, startDate := start, endDate := end));
    }
  }

  /* ---------------- the handlers ---------------- */

  /** The screen's writes to the budget table. */
  class Handlers {
    const db: Store.Store

    constructor (db: Store.Store)
      ensures this.db == db
    {
      this.db := db;
    }

    /** The add dialog's `onConfirm`: `insertBudget(newB)`. */
    method Add(newB: Budget)
      requires db.Valid()
      modifies db
      ensures db.Valid()
      ensures db.State() == old(db.State()).(
        budgets := Upsert(old(db.budgets), BudgetKey, newB.(id := AutoKey(newB.id, old(db.budgetSeq)))),
        budgetSeq := NextCounter(old(db.budgetSeq), AutoKey(newB.id, old(db.budgetSeq))))
    {
      db.InsertBudget(newB);
    }

    /** The edit dialog's `onConfirm`: `updateBudget(up.copy(id = tgt.id))`, so the target's row is the one rewritten. */
    method Edit(tgt: Budget, up: Budget)
      requires db.Valid()
      modifies db
      ensures db.Valid()
      ensures db.State() == old(db.State()).(budgets := Overwrite(old(db.budgets), BudgetKey, up.(id := tgt.id)))
    {
      db.UpdateBudget(up.(id := tgt.id));
    }

    /** The delete confirmation: `deleteBudget(tgt)`. */
    method Delete(tgt: Budget)
      requires db.Valid()
      modifies db
      ensures db.Valid()
      ensures db.State() == old(db.State()).(budgets := Remove(old(db.budgets), BudgetKey, tgt.id))
    {
      db.DeleteBudget(tgt);
    }
  }

  /**
   * An edit rewrites the target's row and no other: afterwards the table
   * holds the edited budget under the target's id and every budget with
   * another id as it was.
   */
  lemma EditRewritesTarget(t: seq<Budget>, tgt: Budget, up: Budget)
    requires UniqueKeys(t, BudgetKey) && tgt in t
    ensures up.(id := tgt.id) in Overwrite(t, BudgetKey, up.(id := tgt.id))
    ensures forall x :: x in Overwrite(t, BudgetKey, up.(id := tgt.id)) <==>
              x == up.(id := tgt.id) || (x in t && x.id != tgt.id)
  {
    var i :| 0 <= i < |t| && t[i] == tgt;
    OverwriteSpec(t, BudgetKey, up.(id := tgt.id));
    assert HasKey(t, BudgetKey, tgt.id) by {
      assert BudgetKey(t[i]) == tgt.id;
    }
  }
}
