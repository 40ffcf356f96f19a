/** Calendar fields of a millisecond timestamp read in the GMT time zone,
    the way java.util.Calendar exposes them. GMT has no daylight saving,
    so a day is always 86 400 000 ms and day/hour arithmetic is plain
    integer arithmetic on the timestamp. Dafny's `/` and `%` are
    Euclidean, which for these positive divisors is floor division: the
    same answer Calendar gives for instants before the epoch. */
module GmtCalendar {

  const MinuteMillis: int := 60000
  const HourMillis: int := 3600000
  const DayMillis: int := 86400000

  /** Calendar.DAY_OF_WEEK values. */
  const Sunday: int := 1
  const Monday: int := 2
  const Tuesday: int := 3
  const Wednesday: int := 4
  const Thursday: int := 5
  const Friday: int := 6
  const Saturday: int := 7

  /** Days since 1970-01-01 (negative before it). */
  function DayNumber(t: int): int {
    t / DayMillis
  }

  /** Calendar.HOUR_OF_DAY. */
  function HourOfDay(t: int): (h: int)
    ensures 0 <= h < 24
  {
    (t / HourMillis) % 24
  }

  /** Calendar.MINUTE. */
  function MinuteOfHour(t: int): (m: int)
    ensures 0 <= m < 60
  {
    (t / MinuteMillis) % 60
  }

  /** Calendar.DAY_OF_WEEK of day number d; 1970-01-01 was a Thursday. */
  function WeekdayOfDay(d: int): (w: int)
    ensures Sunday <= w <= Saturday
    ensures w == Thursday <==> d % 7 == 0
  {
    (d + 4) % 7 + 1
  }

  function DayOfWeek(t: int): (w: int)
    ensures Sunday <= w <= Saturday
    ensures w == Thursday <==> DayNumber(t) % 7 == 0
  {
    WeekdayOfDay(DayNumber(t))
  }

  /** Calendar.set(HOUR_OF_DAY, h): same day, new hour; minutes, seconds
      and milliseconds are kept. */
  function SetHourOfDay(t: int, h: int): (r: int)
    requires 0 <= h < 24
    ensures DayNumber(r) == DayNumber(t) && HourOfDay(r) == h
    ensures r % HourMillis == t % HourMillis
  {
    var d := DayNumber(t);
    var m := t % HourMillis;
    var r := d * DayMillis + h * HourMillis + m;
    assert 0 <= h * HourMillis + m < DayMillis;
    assert r / DayMillis == d;
    assert r == (d * 24 + h) * HourMillis + m;
    assert r / HourMillis == d * 24 + h;
    r
  }

  /** Calendar.add(DAY_OF_MONTH, n): n days later (earlier when n < 0), at
      the same time of day. */
  function AddDays(t: int, n: int): (r: int)
    ensures DayNumber(r) == DayNumber(t) + n && HourOfDay(r) == HourOfDay(t)
    ensures r % HourMillis == t % HourMillis
  {
    var r := t + n * DayMillis;
    assert r / DayMillis == t / DayMillis + n;
    assert r / HourMillis == t / HourMillis + n * 24;
    assert (t / HourMillis + n * 24) % 24 == (t / HourMillis) % 24;
    r
  }

  /** The hour of day is the hour count within the day. */
  lemma HourWithinDay(t: int)
    ensures t == DayNumber(t) * DayMillis + HourOfDay(t) * HourMillis + t % HourMillis
  {
    var q := t / HourMillis;
    assert t == q * HourMillis + t % HourMillis;
    assert q == (q / 24) * 24 + q % 24;
    var d := q / 24;
    var rest := q % 24 * HourMillis + t % HourMillis;
    assert 0 <= rest < DayMillis;
    assert t == d * DayMillis + rest;
    assert t / DayMillis == d;
  }

  /** The minute is the minute count within the hour. */
  lemma MinuteWithinHour(t: int)
    ensures t % HourMillis == MinuteOfHour(t) * MinuteMillis + t % MinuteMillis
  {
    var q := t / MinuteMillis;
    assert t == q * MinuteMillis + t % MinuteMillis;
    assert q == (q / 60) * 60 + q % 60;
    var rest := q % 60 * MinuteMillis + t % MinuteMillis;
    assert 0 <= rest < HourMillis;
    assert t == (q / 60) * HourMillis + rest;
    assert t % HourMillis == rest;
  }

  /** Setting the hour to the one the instant already has changes nothing. */
  lemma SetHourOfDayOwnHour(t: int)
    ensures SetHourOfDay(t, HourOfDay(t)) == t
  {
    HourWithinDay(t);
  }

  /** Weekdays repeat every seven days and advance by one each day. */
  lemma WeekdayShift(d: int, n: int)
    ensures WeekdayOfDay(d + n) == (WeekdayOfDay(d) - 1 + n) % 7 + 1
  {
    assert (d + n + 4) % 7 == ((d + 4) % 7 + n) % 7;
  }
}
