/**
 * The month shown by the statistics and transaction screens, as a year
 * and a zero-based month (0 = January, as `Calendar.MONTH`), with the
 * previous and next arrows.
 */
module MonthCursor {
  /** Months counted from year 0: the order the arrows walk in. */
  function MonthIndex(year: int, month: int): int
  {
    year * 12 + month
  }

  /** The left arrow: `if (month == 0) { month = 11; year -= 1 } else month -= 1`. */
  function PrevMonth(year: int, month: int): (r: (int, int))
    requires 0 <= month <= 11
    ensures 0 <= r.1 <= 11
    ensures MonthIndex(r.0, r.1) == MonthIndex(year, month) - 1
  {
    if month == 0 then (year - 1, 11) else (year, month - 1)
  }

  /** The right arrow: `if (month == 11) { month = 0; year += 1 } else month += 1`. */
  function NextMonth(year: int, month: int): (r: (int, int))
    requires 0 <= month <= 11
    ensures 0 <= r.1 <= 11
    ensures MonthIndex(r.0, r.1) == MonthIndex(year, month) + 1
  {
    if month == 11 then (year + 1, 0) else (year, month + 1)
  }

  /** A month is fixed by its index when the month number is in 0..11. */
  lemma MonthIndexInjective(y1: int, m1: int, y2: int, m2: int)
    requires 0 <= m1 <= 11 && 0 <= m2 <= 11
    requires MonthIndex(y1, m1) == MonthIndex(y2, m2)
    ensures y1 == y2 && m1 == m2
  {
    assert m1 - m2 == 12 * (y2 - y1);
  }

  /** The two arrows undo each other. */
  lemma PrevNextInverse(year: int, month: int)
    requires 0 <= month <= 11
    ensures NextMonth(PrevMonth(year, month).0, PrevMonth(year, month).1) == (year, month)
    ensures PrevMonth(NextMonth(year, month).0, NextMonth(year, month).1) == (year, month)
  {
    var p := PrevMonth(year, month);
    var n := NextMonth(year, month);
    var pn := NextMonth(p.0, p.1);
    var np := PrevMonth(n.0, n.1);
    MonthIndexInjective(pn.0, pn.1, year, month);
    MonthIndexInjective(np.0, np.1, year, month);
  }

  /** The screen state `year` and `month`, updated in place by the arrows. */
  class Cursor {
    var year: int
    var month: int

    predicate Valid()
      reads this
    {
      0 <= month <= 11
    }

    constructor (year: int, month: int)
      requires 0 <= month <= 11
      ensures Valid() && this.year == year && this.month == month
    {
      this.year := year;
      this.month := month;
    }

    method Previous()
      requires Valid()
      modifies this
      ensures Valid()
      ensures (year, month) == PrevMonth(old(year), old(month))
    {
      if month == 0 {
        month := 11;
        year := year - 1;
      } else {
        month := month - 1;
      }
    }

    method Next()
      requires Valid()
      modifies this
      ensures Valid()
      ensures (year, month) == NextMonth(old(year), old(month))
    {
      if month == 11 {
        month := 0;
        year := year + 1;
      } else {
        month := month + 1;
      }
    }
  }
}
