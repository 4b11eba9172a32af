/**
 * The proleptic Gregorian calendar as Python's `datetime.date` and
 * `calendar.monthrange` see it: years 1..9999, the 4/100/400 leap-year
 * rule, ordinals counted from 0001-01-01 (ordinal 1, a Monday) and
 * `weekday()` with Monday = 0 and Sunday = 6.
 */
module Calendar {

  datatype Date = Date(year: int, month: int, day: int)

  const MinYear: int := 1
  const MaxYear: int := 9999
  /** The last date `datetime.date` can represent. */
  const LastDate: Date := Date(MaxYear, 12, 31)

  function Min(a: int, b: int): int { if a <= b then a else b }

  predicate IsLeap(y: int) {
    y % 4 == 0 && (y % 100 != 0 || y % 400 == 0)
  }

  /** `calendar.monthrange(y, m)[1]`: the number of days in month m of year y. */
  function DaysInMonth(y: int, m: int): (n: int)
    requires 1 <= m <= 12
    ensures 28 <= n <= 31
    ensures n == 29 <==> m == 2 && IsLeap(y)
  {
    if m == 2 then (if IsLeap(y) then 29 else 28)
    else if m == 4 || m == 6 || m == 9 || m == 11 then 30
    else 31
  }

  /** The dates `datetime.date(year, month, day)` accepts without raising. */
  predicate Valid(d: Date) {
    MinYear <= d.year <= MaxYear && 1 <= d.month <= 12 && 1 <= d.day <= DaysInMonth(d.year, d.month)
  }

  /** Months counted from year 0, so that consecutive months differ by one. */
  function MonthIndex(year: int, month: int): int { 12 * year + month }

  /** Python's `a < b` on dates: comparison of the (year, month, day) triples. */
  predicate Less(a: Date, b: Date) {
    a.year < b.year
    || (a.year == b.year && a.month < b.month)
    || (a.year == b.year && a.month == b.month && a.day < b.day)
  }

  predicate LessEq(a: Date, b: Date) { a == b || Less(a, b) }

  function DaysBeforeYear(y: int): int {
    var p := y - 1;
    p * 365 + p / 4 - p / 100 + p / 400
  }

  function DaysBeforeMonth(y: int, m: int): int
    requires 1 <= m <= 12
  {
    (match m
     case 1 => 0 case 2 => 31 case 3 => 59 case 4 => 90 case 5 => 120 case 6 => 151
     case 7 => 181 case 8 => 212 case 9 => 243 case 10 => 273 case 11 => 304 case _ => 334)
    + (if m > 2 && IsLeap(y) then 1 else 0)
  }

  /** `date.toordinal()`. */
  function ToOrdinal(d: Date): int
    requires Valid(d)
  {
    DaysBeforeYear(d.year) + DaysBeforeMonth(d.year, d.month) + d.day
  }

  /** `date.weekday()`: Monday is 0, Saturday 5, Sunday 6. */
  function Weekday(d: Date): (w: int)
    requires Valid(d)
    ensures 0 <= w < 7
  {
    (ToOrdinal(d) + 6) % 7
  }

  predicate IsWeekend(d: Date)
    requires Valid(d)
  {
    Weekday(d) >= 5
  }

  /** A year adds 366 days to the ordinal when it is a leap year and 365 otherwise. */
  lemma YearLength(y: int)
    requires y >= 1
    ensures DaysBeforeYear(y + 1) == DaysBeforeYear(y) + (if IsLeap(y) then 366 else 365)
  {
    DivStep4(y);
    DivStep100(y);
    DivStep400(y);
  }

  lemma DivStep4(y: int)
    ensures y / 4 - (y - 1) / 4 == if y % 4 == 0 then 1 else 0
  {
  }

  lemma DivStep100(y: int)
    ensures y / 100 - (y - 1) / 100 == if y % 100 == 0 then 1 else 0
  {
  }

  lemma DivStep400(y: int)
    ensures y / 400 - (y - 1) / 400 == if y % 400 == 0 then 1 else 0
  {
  }

  /** `d + timedelta(days=1)`: the next calendar day, one ordinal later. */
  function NextDay(d: Date): (r: Date)
    requires Valid(d) && d != LastDate
    ensures Valid(r) && Less(d, r)
    ensures ToOrdinal(r) == ToOrdinal(d) + 1
    ensures Weekday(r) == (Weekday(d) + 1) % 7
  {
    var r := if d.day < DaysInMonth(d.year, d.month) then Date(d.year, d.month, d.day + 1)
             else if d.month < 12 then Date(d.year, d.month + 1, 1)
             else Date(d.year + 1, 1, 1);
    NextDayOrdinal(d, r);
    WeekdayStep(d, r);
    r
  }

  lemma NextDayOrdinal(d: Date, r: Date)
    requires Valid(d) && d != LastDate
    requires r == if d.day < DaysInMonth(d.year, d.month) then Date(d.year, d.month, d.day + 1)
                  else if d.month < 12 then Date(d.year, d.month + 1, 1)
                  else Date(d.year + 1, 1, 1)
    ensures Valid(r) && Less(d, r) && ToOrdinal(r) == ToOrdinal(d) + 1
  {
    if d.day == DaysInMonth(d.year, d.month) && d.month == 12 {
      YearLength(d.year);
    }
  }

  /** One ordinal later is one weekday later. */
  lemma WeekdayStep(d: Date, r: Date)
    requires Valid(d) && Valid(r) && ToOrdinal(r) == ToOrdinal(d) + 1
    ensures Weekday(r) == (Weekday(d) + 1) % 7
  {
    ModStep(ToOrdinal(d));
  }

  lemma ModStep(o: int)
    ensures (o + 1 + 6) % 7 == ((o + 6) % 7 + 1) % 7
  {
  }

  /**
   * Month arithmetic with year carry, as the resolver writes it:
   * `m := month + offset; (year + (m - 1) // 12, (m - 1) % 12 + 1)`.
   * Python's floor `//` and `%` agree with Dafny's for the positive divisor 12.
   */
  function AddMonths(year: int, month: int, offset: int): (r: (int, int))
    ensures 1 <= r.1 <= 12
    ensures MonthIndex(r.0, r.1) == MonthIndex(year, month) + offset
  {
    var m := month + offset;
    (year + (m - 1) / 12, (m - 1) % 12 + 1)
  }

  /** The ordinal distance from the first of a month to the first of the next is that month's length. */
  lemma {:induction false} MonthLengthIsOrdinalGap(y: int, m: int)
    requires MinYear <= y <= MaxYear && (y < MaxYear || m < 12) && 1 <= m <= 12
    ensures var (ny, nm) := AddMonths(y, m, 1);
            Valid(Date(ny, nm, 1)) && Valid(Date(y, m, 1))
            && ToOrdinal(Date(ny, nm, 1)) - ToOrdinal(Date(y, m, 1)) == DaysInMonth(y, m)
  {
    AddOneMonth(y, m);
    if m == 12 {
      YearLength(y);
    } else {
      MonthTable(y, m);
    }
  }

  lemma AddOneMonth(y: int, m: int)
    requires 1 <= m <= 12
    ensures AddMonths(y, m, 1) == if m == 12 then (y + 1, 1) else (y, m + 1)
  {
  }

  lemma MonthTable(y: int, m: int)
    requires 1 <= m < 12
    ensures DaysBeforeMonth(y, m + 1) == DaysBeforeMonth(y, m) + DaysInMonth(y, m)
  {
  }

  /** The leap-year rule on the years the resolver's end-of-month sentinel meets most often. */
  lemma FebruaryLengths()
    ensures DaysInMonth(2024, 2) == 29 && DaysInMonth(2023, 2) == 28
    ensures DaysInMonth(2000, 2) == 29 && DaysInMonth(1900, 2) == 28
    ensures DaysInMonth(2024, 1) == 31 && DaysInMonth(2024, 4) == 30
  {
  }

  /** 9999-12-31 is a Friday, so stepping off a Saturday or Sunday never runs past the last date. */
  lemma LastDateIsFriday()
    ensures Weekday(LastDate) == 4
  {
  }

  /** 0001-01-01 is a Monday and 2000-01-01 a Saturday, as in Python. */
  lemma WeekdayAnchors()
    ensures Weekday(Date(1, 1, 1)) == 0
    ensures Weekday(Date(2000, 1, 1)) == 5
  {
  }
}
