/** Which trading session a bar belongs to and which earlier interval
    supplies its reference price range (SessionBreakoutStrategy.onBar). */
module Session {
  import opened GmtCalendar
  import opened Market

  datatype SessionKind = LondonUS | Asian

  /** An interval of instants, [from, to] as handed to the history provider. */
  datatype Window = Window(from: int, to: int)

  /** Bars of Saturday, and of Sunday before 23:00 GMT, are ignored. */
  function MarketClosed(t: int): (closed: bool)
    ensures closed ==> DayOfWeek(t) == Saturday || DayOfWeek(t) == Sunday
    ensures DayOfWeek(t) == Saturday ==> closed
    ensures DayOfWeek(t) == Sunday && HourOfDay(t) < 23 ==> closed
    ensures DayOfWeek(t) == Sunday && HourOfDay(t) == 23 ==> !closed
  {
    (DayOfWeek(t) == Sunday && HourOfDay(t) < 23) || DayOfWeek(t) == Saturday
  }

  /** The session branch taken for a bar of `instrument` at `hour`. The
      Asian test is `23 <= hour || (hour <= 8 && instrument == asian)`:
      Java's && binds tighter than ||, so at 23:00 it holds for any
      instrument that reaches this point. */
  function SelectSession(instrument: Instrument, londonUS: Instrument, asian: Instrument, hour: int): (r: Option<SessionKind>)
    ensures r == Some(LondonUS) ==> instrument == londonUS && 9 <= hour <= 22
    ensures 9 <= hour <= 22 ==> r != Some(Asian)
    ensures hour == 23 ==> r == Some(Asian)
  {
    if 9 <= hour && hour <= 22 && instrument == londonUS then Some(LondonUS)
    else if 23 <= hour || (hour <= 8 && instrument == asian) then Some(Asian)
    else None
  }

  /** Days the Asian window start is moved back, by weekday. */
  function AsianStartShift(week: int): int {
    if week == Sunday then -2 else if week == Monday then -3 else -1
  }

  /** Days the Asian window end is moved forward from its start. */
  function AsianEndShift(week: int): int {
    if week == Sunday then 1 else if week == Monday then 2 else 0
  }

  /** London/US: hour 00 to hour 08 of the bar's own day (before
      snapping), following the calendar's set/set sequence. Only the hour
      is set, so both ends keep the bar's minutes, seconds and
      milliseconds (00:00 to 08:00 for a bar on the hour). For a bar of
      09:00 or later the window ends before the bar. */
  function LondonCalendarWindow(t: int): (w: Window)
    ensures DayNumber(w.from) == DayNumber(t) && HourOfDay(w.from) == 0
    ensures DayNumber(w.to) == DayNumber(t) && HourOfDay(w.to) == 8
    ensures w.from % HourMillis == t % HourMillis && w.to % HourMillis == t % HourMillis
    ensures w.to - w.from == 8 * HourMillis
    ensures 9 <= HourOfDay(t) ==> w.to < t
  {
    var start := SetHourOfDay(t, 0);
    var end := SetHourOfDay(start, 8);
    HourWithinDay(start);
    HourWithinDay(end);
    HourWithinDay(t);
    Window(start, end)
  }

  /** Asian: hour 13 of the shifted start day to hour 22 of the shifted
      end day, following the calendar's add/set/add/set sequence. As for
      London/US, both ends keep the bar's minutes, seconds and
      milliseconds. The start is 2
      (Sunday), 3 (Monday) or 1 (other days) days before the bar, always on
      Monday to Friday; the end is 22:00 of the calendar day before the bar,
      so the window lies entirely before the bar. */
  function AsianCalendarWindow(t: int): (w: Window)
    ensures DayNumber(w.from) == DayNumber(t) + AsianStartShift(DayOfWeek(t)) && HourOfDay(w.from) == 13
    ensures DayNumber(w.to) == DayNumber(t) - 1 && HourOfDay(w.to) == 22
    ensures w.from % HourMillis == t % HourMillis && w.to % HourMillis == t % HourMillis
    ensures Monday <= DayOfWeek(w.from) <= Friday
    ensures (DayOfWeek(t) == Sunday || DayOfWeek(t) == Monday) ==> DayOfWeek(w.from) == Friday
    ensures w.from < w.to < t
  {
    var week := DayOfWeek(t);
    var start := SetHourOfDay(AddDays(t, AsianStartShift(week)), 13);
    var end := SetHourOfDay(AddDays(start, AsianEndShift(week)), 22);
    assert AsianStartShift(week) + AsianEndShift(week) == -1;
    HourWithinDay(start);
    HourWithinDay(end);
    HourWithinDay(t);
    WeekdayShift(DayNumber(t), AsianStartShift(week));
    Window(start, end)
  }

  function CalendarWindow(session: SessionKind, t: int): (w: Window)
    ensures w.from < w.to
  {
    match session
    case LondonUS => LondonCalendarWindow(t)
    case Asian => AsianCalendarWindow(t)
  }

  /** Both window ends snapped by the history provider's getBarStart; with
      a getBarStart that keeps instants in order, the window stays ordered. */
  function ReferenceWindow(session: SessionKind, t: int, period: Period, barStart: (Period, int) -> int): (w: Window)
    ensures MonotoneBarStart(barStart, period) ==> w.from <= w.to
  {
    var cw := CalendarWindow(session, t);
    Window(barStart(period, cw.from), barStart(period, cw.to))
  }

  /** getBarStart never moves a later instant before an earlier one. */
  ghost predicate MonotoneBarStart(barStart: (Period, int) -> int, period: Period) {
    forall a: int, b: int :: a <= b ==> barStart(period, a) <= barStart(period, b)
  }

  /** The London/US branch is taken exactly for the London/US instrument
      between 09:00 and 22:59. */
  lemma LondonBranchIff(instrument: Instrument, londonUS: Instrument, asian: Instrument, hour: int)
    ensures SelectSession(instrument, londonUS, asian, hour) == Some(LondonUS)
        <==> 9 <= hour <= 22 && instrument == londonUS
  {
  }

  /** The Asian branch is taken exactly when the London/US one is not and
      the hour is 23, or the hour is at most 8 for the Asian instrument. */
  lemma AsianBranchIff(instrument: Instrument, londonUS: Instrument, asian: Instrument, hour: int)
    ensures SelectSession(instrument, londonUS, asian, hour) == Some(Asian)
        <==> !(9 <= hour <= 22 && instrument == londonUS) && (23 <= hour || (hour <= 8 && instrument == asian))
  {
  }

  /** An Asian bar in hour 00 of a Tuesday takes its range from hour 13
      to hour 22 of Monday. */
  lemma AsianTuesdayMidnight(t: int)
    requires DayOfWeek(t) == Tuesday && HourOfDay(t) == 0
    ensures var w := AsianCalendarWindow(t);
      && DayOfWeek(w.from) == Monday && HourOfDay(w.from) == 13
      && DayOfWeek(w.to) == Monday && HourOfDay(w.to) == 22
      && DayNumber(w.from) == DayNumber(w.to) == DayNumber(t) - 1
  {
    WeekdayShift(DayNumber(t), -1);
  }
}
