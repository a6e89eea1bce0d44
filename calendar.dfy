/** The proleptic Gregorian calendar of Python's `datetime`: years 1 to 9999,
    the ordinal numbering of days (0001-01-01 is day 1), and the "one day
    earlier" step that `today - timedelta(days=1)` takes in `get_ai_news`. */
module Calendar {
  import opened Wrappers

  datatype Date = Date(year: int, month: int, day: int)

  /** A wall-clock reading; microseconds are not modelled. */
  datatype DateTime = DateTime(date: Date, hour: int, minute: int, second: int)

  const MaxYear: int := 9999

  predicate IsLeapYear(y: int) { y % 4 == 0 && (y % 100 != 0 || y % 400 == 0) }

  function DaysInMonth(y: int, m: int): (n: int)
    requires 1 <= m <= 12
    ensures 28 <= n <= 31
    ensures n == 29 <==> m == 2 && IsLeapYear(y)
  {
    if m == 2 then (if IsLeapYear(y) then 29 else 28)
    else if m == 4 || m == 6 || m == 9 || m == 11 then 30
    else 31
  }

  function DaysInYear(y: int): int { if IsLeapYear(y) then 366 else 365 }

  predicate ValidDate(d: Date) {
    1 <= d.year <= MaxYear && 1 <= d.month <= 12 && 1 <= d.day <= DaysInMonth(d.year, d.month)
  }

  predicate ValidDateTime(t: DateTime) {
    ValidDate(t.date) && 0 <= t.hour < 24 && 0 <= t.minute < 60 && 0 <= t.second < 60
  }

  /** The number of days in the years before `y`. */
  function DaysBeforeYear(y: int): nat
    requires y >= 1
  {
    if y == 1 then 0 else DaysBeforeYear(y - 1) + DaysInYear(y - 1)
  }

  /** The number of days in year `y` before the first of month `m`. */
  function DaysBeforeMonth(y: int, m: int): nat
    requires 1 <= m <= 12
  {
    [0, 31, 59, 90, 120, 151, 181, 212, 243, 273, 304, 334][m - 1] + (if m > 2 && IsLeapYear(y) then 1 else 0)
  }

  /** Python's `date.toordinal`: day 1 is 0001-01-01. */
  function Ordinal(d: Date): int
    requires ValidDate(d)
  {
    DaysBeforeYear(d.year) + DaysBeforeMonth(d.year, d.month) + d.day
  }

  /** Calendar order: `a` is a strictly earlier day than `b`. */
  predicate Before(a: Date, b: Date) {
    a.year < b.year
    || (a.year == b.year && a.month < b.month)
    || (a.year == b.year && a.month == b.month && a.day < b.day)
  }

  /** The day before `d`, or None when `d` is the first representable day
      (where Python raises OverflowError). */
  function PrevDay(d: Date): (r: Option<Date>)
    requires ValidDate(d)
    ensures r.None? <==> d == Date(1, 1, 1)
    ensures r.Some? ==> ValidDate(r.value)
  {
    if d.day > 1 then Some(Date(d.year, d.month, d.day - 1))
    else if d.month > 1 then Some(Date(d.year, d.month - 1, DaysInMonth(d.year, d.month - 1)))
    else if d.year > 1 then Some(Date(d.year - 1, 12, 31))
    else None
  }

  /** The day before `d` is numbered one less than `d`. */
  lemma PrevDayOrdinal(d: Date)
    requires ValidDate(d) && d != Date(1, 1, 1)
    ensures PrevDay(d).Some? && Ordinal(PrevDay(d).value) == Ordinal(d) - 1
  {
    if d.day == 1 && d.month > 1 {
      MonthStep(d.year, d.month - 1);
    } else if d.day == 1 {
      assert DaysBeforeYear(d.year) == DaysBeforeYear(d.year - 1) + DaysInYear(d.year - 1);
    }
  }

  lemma MonthStep(y: int, m: int)
    requires 1 <= m < 12
    ensures DaysBeforeMonth(y, m + 1) == DaysBeforeMonth(y, m) + DaysInMonth(y, m)
  {
  }

  lemma {:induction false} MonthsOrdered(y: int, m1: int, m2: int)
    requires 1 <= m1 < m2 <= 12
    ensures DaysBeforeMonth(y, m1) + DaysInMonth(y, m1) <= DaysBeforeMonth(y, m2)
    decreases m2
  {
    MonthStep(y, m2 - 1);
    if m1 < m2 - 1 {
      MonthsOrdered(y, m1, m2 - 1);
    }
  }

  lemma DayOfYearBound(d: Date)
    requires ValidDate(d)
    ensures DaysBeforeMonth(d.year, d.month) + d.day <= DaysInYear(d.year)
  {
  }

  lemma {:induction false} YearsOrdered(y1: int, y2: int)
    requires 1 <= y1 < y2
    ensures DaysBeforeYear(y1) + DaysInYear(y1) <= DaysBeforeYear(y2)
    decreases y2
  {
    if y1 < y2 - 1 {
      YearsOrdered(y1, y2 - 1);
    }
  }

  /** The ordinal numbering is exactly calendar order: distinct valid dates get
      distinct ordinals, and earlier dates smaller ones. */
  lemma OrdinalOrder(a: Date, b: Date)
    requires ValidDate(a) && ValidDate(b)
    ensures Before(a, b) <==> Ordinal(a) < Ordinal(b)
    ensures a == b <==> Ordinal(a) == Ordinal(b)
  {
    forall x: Date, z: Date | ValidDate(x) && ValidDate(z) && Before(x, z)
      ensures Ordinal(x) < Ordinal(z)
    {
      if x.year < z.year {
        DayOfYearBound(x);
        YearsOrdered(x.year, z.year);
      } else if x.month < z.month {
        MonthsOrdered(x.year, x.month, z.month);
      }
    }
  }

  /** `PrevDay` is the latest valid date strictly before `d`. */
  lemma PrevDayIsLatestEarlier(d: Date, e: Date)
    requires ValidDate(d) && ValidDate(e) && Before(e, d)
    ensures PrevDay(d).Some?
    ensures Before(PrevDay(d).value, d)
    ensures e == PrevDay(d).value || Before(e, PrevDay(d).value)
  {
    OrdinalOrder(e, d);
    OrdinalOrder(Date(1, 1, 1), e);
    PrevDayOrdinal(d);
    var r := PrevDay(d).value;
    OrdinalOrder(r, d);
    OrdinalOrder(e, r);
  }
}
