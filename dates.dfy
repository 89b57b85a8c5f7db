/** Calendar dates (Odoo `fields.Date`) as proleptic Gregorian year/month/day triples, with the
    two date shifts the source uses: `relativedelta(months=k)` and `timedelta(days=n)`.
    Datetimes (`fields.Datetime`) are whole seconds on a single time line; see `DAY`. */
module Dates {

  /** A year/month/day triple, not necessarily a calendar date. */
  datatype Ymd = Ymd(year: int, month: int, day: int)

  /** Seconds in a day: `timedelta(days=n)` added to a datetime adds `n * DAY`. */
  const DAY: int := 86400

  predicate IsLeap(y: int) { y % 4 == 0 && (y % 100 != 0 || y % 400 == 0) }

  function DaysInMonth(y: int, m: int): (n: int)
    requires 1 <= m <= 12
    ensures 28 <= n <= 31
  {
    if m == 2 then (if IsLeap(y) then 29 else 28)
    else if m == 4 || m == 6 || m == 9 || m == 11 then 30
    else 31
  }

  predicate Valid(d: Ymd) {
    1 <= d.month <= 12 && 1 <= d.day <= DaysInMonth(d.year, d.month)
  }

  /** A calendar date: a triple naming a day that exists. */
  type Date = d: Ymd | Valid(d) witness Ymd(1970, 1, 1)

  /** A key that orders valid dates chronologically (lexicographic on year, month, day). */
  function Key(d: Date): int {
    d.year * 372 + (d.month - 1) * 31 + (d.day - 1)
  }

  /** `a <= b` on Python dates. */
  predicate Le(a: Date, b: Date) { Key(a) <= Key(b) }

  /** `a < b` on Python dates. */
  predicate Lt(a: Date, b: Date) { Key(a) < Key(b) }

  /** On valid dates the key order is the calendar order and no two dates share a key. */
  lemma KeyInjective(a: Date, b: Date)
    requires Key(a) == Key(b)
    ensures a == b
  {
    var da := (a.month - 1) * 31 + (a.day - 1);
    var db := (b.month - 1) * 31 + (b.day - 1);
    assert 0 <= da < 372 && 0 <= db < 372;
    assert a.year == b.year;
    assert a.month == b.month;
  }

  /** `d.replace(day=1)`. */
  function FirstOfMonth(d: Date): (r: Date)
    ensures r.day == 1 && r.year == d.year && r.month == d.month
    ensures Le(r, d)
  {
    d.(day := 1)
  }

  /** `d + relativedelta(months=k)`: the same day in the month `k` months later, clamped to the
      length of that month. */
  function AddMonths(d: Date, k: int): (r: Date)
    ensures r.day <= d.day
  {
    var total := d.year * 12 + (d.month - 1) + k;
    var y := total / 12;
    var m := total % 12 + 1;
    Ymd(y, m, if d.day <= DaysInMonth(y, m) then d.day else DaysInMonth(y, m))
  }

  /** Months since year 0 of a date, the quantity `AddMonths` shifts. */
  function MonthIndex(d: Date): int { d.year * 12 + (d.month - 1) }

  lemma MonthIndexShift(d: Date, k: int)
    ensures MonthIndex(AddMonths(d, k)) == MonthIndex(d) + k
  {
  }

  /** A later month index means a later date. */
  lemma LaterMonthIsLater(a: Date, b: Date)
    requires MonthIndex(a) < MonthIndex(b)
    ensures Lt(a, b)
  {
  }

  /** A positive month shift always lands on a strictly later date. */
  lemma AddMonthsIsLater(d: Date, k: int)
    requires k >= 1
    ensures Lt(d, AddMonths(d, k))
  {
    MonthIndexShift(d, k);
    LaterMonthIsLater(d, AddMonths(d, k));
  }

  /** Shifting by months keeps the order of dates (`a <= b` implies `a + k months <= b + k months`). */
  lemma AddMonthsMonotone(a: Date, b: Date, k: int)
    requires Le(a, b)
    ensures Le(AddMonths(a, k), AddMonths(b, k))
  {
    MonthIndexShift(a, k);
    MonthIndexShift(b, k);
    if MonthIndex(a) < MonthIndex(b) {
      LaterMonthIsLater(AddMonths(a, k), AddMonths(b, k));
    } else {
      assert a.year == b.year && a.month == b.month;
    }
  }

  /** `d + timedelta(days=1)`. */
  function NextDay(d: Date): (r: Date)
    ensures Lt(d, r)
  {
    if d.day < DaysInMonth(d.year, d.month) then d.(day := d.day + 1)
    else if d.month < 12 then Ymd(d.year, d.month + 1, 1)
    else Ymd(d.year + 1, 1, 1)
  }

  /** `d - timedelta(days=1)`. */
  function PrevDay(d: Date): (r: Date)
    ensures Lt(r, d)
  {
    if d.day > 1 then d.(day := d.day - 1)
    else if d.month > 1 then Ymd(d.year, d.month - 1, DaysInMonth(d.year, d.month - 1))
    else Ymd(d.year - 1, 12, 31)
  }

  /** `d + timedelta(days=n)` for n >= 0. */
  function AddDays(d: Date, n: nat): (r: Date)
    ensures n == 0 ==> r == d
    decreases n
  {
    if n == 0 then d else AddDays(NextDay(d), n - 1)
  }

  /** Adding a positive number of days moves strictly forward. */
  lemma {:induction false} AddDaysIsLater(d: Date, n: nat)
    requires n >= 1
    ensures Lt(d, AddDays(d, n))
    decreases n
  {
    if n > 1 {
      AddDaysIsLater(NextDay(d), n - 1);
    }
  }

  /** The day before the first of the next month is the last day of this month. */
  lemma LastDayOfMonth(d: Date)
    ensures var e := PrevDay(AddMonths(FirstOfMonth(d), 1));
      e.year == d.year && e.month == d.month && e.day == DaysInMonth(d.year, d.month)
  {
  }
}
