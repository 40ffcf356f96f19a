/** Year, month and day of a GMT instant on the Gregorian calendar, as
    SimpleDateFormat reads them for the "yyyyMMdd" part of an order label. */
module CivilDate {
  import opened GmtCalendar

  datatype Date = Date(year: int, month: int, day: int)

  const EpochYear: int := 1970

  predicate IsLeapYear(y: int) {
    y % 4 == 0 && (y % 100 != 0 || y % 400 == 0)
  }

  function DaysInYear(y: int): int {
    if IsLeapYear(y) then 366 else 365
  }

  /** Days of the year before the first of month m (m = 13: the whole year). */
  function MonthStart(y: int, m: int): (r: int)
    requires 1 <= m <= 13
  {
    var common := [0, 31, 59, 90, 120, 151, 181, 212, 243, 273, 304, 334, 365][m - 1];
    if IsLeapYear(y) && m > 2 then common + 1 else common
  }

  function DaysInMonth(y: int, m: int): (r: int)
    requires 1 <= m <= 12
    ensures 28 <= r <= 31
  {
    MonthStart(y, m + 1) - MonthStart(y, m)
  }

  /** Day number (days since 1970-01-01) of January 1st of year y. */
  function YearStart(y: int): int
    decreases if y < EpochYear then EpochYear - y else y - EpochYear
  {
    if y == EpochYear then 0
    else if y > EpochYear then YearStart(y - 1) + DaysInYear(y - 1)
    else YearStart(y + 1) - DaysInYear(y)
  }

  lemma YearStartStep(y: int)
    ensures YearStart(y + 1) == YearStart(y) + DaysInYear(y)
  {
  }

  /** The year containing the day that is d days after January 1st of y,
      and that day's index in its year. */
  function YearOf(d: int, y: int): (r: (int, int))
    ensures 0 <= r.1 < DaysInYear(r.0)
    ensures YearStart(r.0) + r.1 == YearStart(y) + d
    decreases if d < 0 then 1000 - d else d
  {
    if d < 0 then
      YearStartStep(y - 1);
      YearOf(d + DaysInYear(y - 1), y - 1)
    else if d >= DaysInYear(y) then
      YearStartStep(y);
      YearOf(d - DaysInYear(y), y + 1)
    else (y, d)
  }

  /** The month containing day-of-year doy counted from the first of month
      m, and the day's index in that month. */
  function MonthOf(doy: int, y: int, m: int): (r: (int, int))
    requires 1 <= m <= 12 && 0 <= doy && MonthStart(y, m) + doy < DaysInYear(y)
    ensures 1 <= r.0 <= 12 && 0 <= r.1 < DaysInMonth(y, r.0)
    ensures MonthStart(y, r.0) + r.1 == MonthStart(y, m) + doy
    decreases 12 - m
  {
    if doy < DaysInMonth(y, m) then (m, doy)
    else MonthOf(doy - DaysInMonth(y, m), y, m + 1)
  }

  /** The date of day number dn. */
  function DateOfDay(dn: int): (date: Date)
    ensures 1 <= date.month <= 12 && 1 <= date.day <= DaysInMonth(date.year, date.month)
  {
    var (y, doy) := YearOf(dn, EpochYear);
    var (m, dom) := MonthOf(doy, y, 1);
    Date(y, m, dom + 1)
  }

  /** The day number of a date: the inverse direction of DateOfDay. */
  function DayOfDate(date: Date): int
    requires 1 <= date.month <= 12
  {
    YearStart(date.year) + MonthStart(date.year, date.month) + date.day - 1
  }

  /** Reading the date of a day number and counting its days back gives
      the day number again. */
  lemma DateOfDayRoundTrip(dn: int)
    ensures DayOfDate(DateOfDay(dn)) == dn
  {
    var (y, doy) := YearOf(dn, EpochYear);
    var (m, dom) := MonthOf(doy, y, 1);
    assert MonthStart(y, 1) == 0;
  }

  /** The calendar date of a GMT instant. */
  function DateOf(t: int): Date {
    DateOfDay(DayNumber(t))
  }
}
