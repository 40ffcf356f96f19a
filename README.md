# Session breakout strategy — a Dafny model

This project models the decision core of `SessionBreakoutStrategy`, a
JForex strategy that trades breakouts of a session's reference range:

- on every bar it drops bars of other instruments and periods, and bars
  of Saturday or of Sunday before 23:00 GMT;
- it picks the London/US or the Asian session from the hour;
- it derives the session's reference window from the bar time and folds
  the window's bid bars into a high and a low;
- it asks for a BUY when the live bid bar crosses the high plus a
  breakout margin upwards, and a SELL when it crosses the low minus the
  margin downwards, with a stop at the opposite side of the range and a
  take-profit limit cut to the instrument's decimals;
- it vetoes the order when one of its own orders is already open on the
  instrument;
- it sizes the order from the account's credit line, converted to yen;
- it submits it under the label `<prefix>_yyyyMMdd_HHmm`.

On order messages it adds the pips and profit/loss of its own closed
orders to two running totals.

Files and modules:

- `gmt_calendar.dfy` (`GmtCalendar`): day number, hour, minute and
  weekday of a millisecond timestamp in GMT. It also has the two
  calendar moves the strategy makes: set the hour of day, add days.
- `civil_date.dfy` (`CivilDate`): year, month and day of a day number on
  the Gregorian calendar, with the inverse count.
- `decimal.dfy` (`Decimal`): truncation toward zero to a number of
  decimals (`BigDecimal.setScale(n, ROUND_DOWN)`).
- `market.dfy` (`Market`): instruments, periods, bars, open orders, the
  account; `Option` and `Result`.
- `session.dfy` (`Session`): market hours, session choice, reference
  windows.
- `breakout.dfy` (`Breakout`): the range fold and the breakout
  classifier (`getBreakoutOrder`).
- `sizing.dfy` (`Sizing`): lot sizing (`getLots`).
- `order_label.dfy` (`OrderLabel`): the label (`getLabel`).
- `exposure.dfy` (`Exposure`): the open-order guard.
- `performance.dfy` (`Performance`): the pips and profit/loss totals.
- `strategy.dfy` (`Strategy`): the configuration and the per-bar
  decision `Decide`. It also holds the class `SessionBreakoutStrategy`,
  whose `OnBar` and `OnMessage` methods are proved to follow `Decide`
  and `Record`. `OnBar` hands the calendar steps of the chosen session
  to `SessionBreakout`, which does them one by one on a local variable,
  as the source does.

Prices, pips, lots and money are `real`. Timestamps are `int`
milliseconds. Dafny's Euclidean `/` and `%` agree with `Calendar` for
instants before 1970 too. Day number 0 (1970-01-01) is a Thursday.

The platform is an input. `Platform` holds `getBarStart` and `getBars`
(bid side) as functions, the last bid per pair name as a map, the
account, and the open orders. The decision and the handlers assume
nothing about these values. A few lemmas assume something about them,
each in its `requires`:

- `Session.ReferenceWindow` orders the snapped window only for a
  monotone `getBarStart`.
- `Sizing.LotsNonNegative`, `Sizing.LotsAntitoneInBid` and
  `Sizing.LotsTruncation` assume a positive bid and non-negative credit
  and ratio.
- `Sizing.LotsMonotoneInCredit` assumes a positive bid and a
  non-negative ratio.
- `Sizing.LotsBelowRaw` assumes a non-negative raw size
  credit * ratio / bid / 10^6.
- `Sizing.GetLotsMonotoneInCredit` assumes non-negative quotes.

Submitted orders are kept in a ghost sequence of the strategy object.
Its invariant `Valid()` says that every submitted order:

- is for a configured instrument;
- carries the label prefix;
- stays within the lot cap;
- has price 0 and slippage 0.5.

`Valid()` also says that the totals are the fold of all the messages
received.

Behaviour of the code worth knowing:

- The Asian condition is written `23 <= hour || hour <= 8 && instrument
  == _instrumentAsian`. Java's `&&` binds tighter than `||`, so at 23:00
  the Asian branch runs for either instrument, and the London/US
  instrument then gets the Asian take-profit (`Session.SelectSession`).
- The reference windows set only the hour of the bar's time, so both
  ends keep the bar's minutes, seconds and milliseconds. A London/US bar
  at 10:30 reads from 00:30 to 08:30 of its day; only bars on the hour
  read 00:00 to 08:00 (`Session.LondonCalendarWindow`,
  `Session.AsianCalendarWindow`).
- A Tuesday hour-00 Asian bar reads the range from hour 13 to hour 22
  of Monday (`Session.AsianTuesdayMidnight`). In general the Asian
  window always ends in hour 22 of the calendar day before the bar.
- The lot divisor is `100*10000`, which is 10^6.
- A disabled take-profit (tp = 0) is passed to `submitOrder` as the
  limit 0.
- A missing conversion quote, or a zero bid, makes `getLots` throw, and
  the bar then submits nothing. The model returns `Failed(error)`; no
  order of any size is sent.
- An empty reference window is not guarded. The range then stays at the
  two start values (`Breakout.EmptyRange`).
- The equity is converted to yen like the credit line, but it is only
  printed.

## Model

| member | source | states |
|---|---|---|
| GmtCalendar.HourOfDay | src/jforex/SessionBreakoutStrategy.java:138 | the GMT hour of a timestamp is in 0..23 |
| GmtCalendar.MinuteOfHour | src/jforex/SessionBreakoutStrategy.java:218 | the GMT minute of a timestamp (the `mm` of the label) is in 0..59 |
| GmtCalendar.WeekdayOfDay | src/jforex/SessionBreakoutStrategy.java:137 | the weekday of a day number is one of Calendar's SUNDAY (1) .. SATURDAY (7), and it is THURSDAY exactly on the day numbers divisible by 7 (1970-01-01 was a Thursday) |
| GmtCalendar.DayOfWeek | src/jforex/SessionBreakoutStrategy.java:137 | the weekday of a timestamp is in SUNDAY (1) .. SATURDAY (7), and THURSDAY exactly when its day number is divisible by 7 |
| GmtCalendar.HourWithinDay | src/jforex/SessionBreakoutStrategy.java:136-138 | a timestamp is its day start plus its hour of day plus its offset within the hour |
| GmtCalendar.MinuteWithinHour | src/jforex/SessionBreakoutStrategy.java:218 | the offset within the hour is the minute of the hour plus the offset within the minute |
| GmtCalendar.SetHourOfDay | src/jforex/SessionBreakoutStrategy.java:142 | setting the hour keeps the day and the minutes/seconds/ms, and the new instant has exactly that hour |
| GmtCalendar.SetHourOfDayOwnHour | src/jforex/SessionBreakoutStrategy.java:142 | setting the hour an instant already has changes nothing |
| GmtCalendar.AddDays | src/jforex/SessionBreakoutStrategy.java:148 | adding n days moves the day number by n and keeps the hour and the offset within the hour |
| GmtCalendar.WeekdayShift | src/jforex/SessionBreakoutStrategy.java:148 | moving n days moves the weekday by n modulo 7 |
| Session.MarketClosed | src/jforex/SessionBreakoutStrategy.java:139 | a bar is dropped only on Saturday or Sunday; every Saturday bar and every Sunday bar before 23:00 is dropped; a Sunday 23:00 bar is kept |
| Session.SelectSession | src/jforex/SessionBreakoutStrategy.java:141-147 | London/US is chosen only for the London/US instrument from 09:00 to 22:59; from 09:00 to 22:59 Asian is never chosen; at 23:00 Asian is chosen for any instrument |
| Session.LondonBranchIff | src/jforex/SessionBreakoutStrategy.java:141 | the London/US branch runs iff 9 <= hour <= 22 and the instrument is the London/US one |
| Session.AsianBranchIff | src/jforex/SessionBreakoutStrategy.java:147 | the Asian branch runs iff the London/US one does not and (hour >= 23 or (hour <= 8 and Asian instrument)) |
| Session.LondonCalendarWindow | src/jforex/SessionBreakoutStrategy.java:141-145 | the London/US window runs from hour 00 to hour 08 of the bar's day, keeping the bar's minutes, seconds and ms at both ends (00:00-08:00 for a bar on the hour); it is 8 hours long and ends before any bar of 09:00 or later |
| Session.AsianCalendarWindow | src/jforex/SessionBreakoutStrategy.java:147-153 | the Asian window starts in hour 13 two (Sunday), three (Monday) or one day before the bar, always on Monday..Friday (a Friday for Sunday or Monday bars); it ends in hour 22 of the previous calendar day; both ends keep the bar's minutes, seconds and ms (13:00 and 22:00 for a bar on the hour); from < to < bar time |
| Session.CalendarWindow | src/jforex/SessionBreakoutStrategy.java:141-153 | each session's calendar window starts strictly before it ends |
| Session.ReferenceWindow | src/jforex/SessionBreakoutStrategy.java:143-153 | with a monotone getBarStart the snapped start is not after the snapped end |
| Session.AsianTuesdayMidnight | src/jforex/SessionBreakoutStrategy.java:147-153 | a Tuesday hour-00 Asian bar uses hour 13 to hour 22 of Monday |
| Breakout.RangeHigh | src/jforex/SessionBreakoutStrategy.java:173-178 | the folded high is at least the start value and every bar's high |
| Breakout.RangeLow | src/jforex/SessionBreakoutStrategy.java:173-178 | the folded low is at most the start value and every bar's low |
| Breakout.RangeHighIsMaximum | src/jforex/SessionBreakoutStrategy.java:173-178 | the folded high is at least the start value and every bar's high, and equals one of them |
| Breakout.RangeLowIsMinimum | src/jforex/SessionBreakoutStrategy.java:173-178 | the folded low is at most the start value and every bar's low, and equals one of them |
| Breakout.GetBreakoutOrder | src/jforex/SessionBreakoutStrategy.java:171-190 | the loop computes the fold of the bars from the two start values and classifies the bid bar against it |
| Breakout.Classify | src/jforex/SessionBreakoutStrategy.java:179-189 | a BUY implies close > open with the stop at the range low; a SELL implies close < open with the stop at the range high |
| Breakout.ClassifyDirections | src/jforex/SessionBreakoutStrategy.java:181-189 | BUY iff open < high + margin < close; SELL iff not BUY and open > low - margin > close; nothing otherwise (never both) |
| Breakout.BuyAgainstBars | src/jforex/SessionBreakoutStrategy.java:183-184 | a BUY closes above every reference high plus the margin and has its stop at or below every reference low |
| Breakout.SellAgainstBars | src/jforex/SessionBreakoutStrategy.java:185-186 | a SELL closes below every reference low minus the margin and has its stop at or above every reference high |
| Breakout.EmptyRange | src/jforex/SessionBreakoutStrategy.java:173-189 | with no bars the range is the two start values; a SELL then needs an open above the low start value minus the margin, a BUY must cross the high start value plus the margin, and a bar opening between high start + margin and low start - margin gives no order |
| Breakout.ClassifyLimit | src/jforex/SessionBreakoutStrategy.java:184-186 | a BUY's limit comes from close + tp pips, a SELL's from close - tp pips |
| Breakout.TakeProfitLimit | src/jforex/SessionBreakoutStrategy.java:184-186 | tp = 0 gives limit 0; otherwise the limit has at most pipScale decimals, and a target that already has is kept as is |
| Breakout.TakeProfitLimitBounds | src/jforex/SessionBreakoutStrategy.java:184-186 | an enabled limit for a non-negative target is at most the target and less than one 10^-pipScale step below it |
| Decimal.TruncateToScale | src/jforex/SessionBreakoutStrategy.java:207 | ROUND_DOWN (also used at lines 184 and 186) keeps the sign, never grows the magnitude, moves the value by less than one 10^-scale step, leaves at most `scale` decimals, and leaves a value that already has at most `scale` decimals unchanged |
| Decimal.TruncateIdempotent | src/jforex/SessionBreakoutStrategy.java:207 | truncating twice equals truncating once |
| Decimal.TruncateMonotone | src/jforex/SessionBreakoutStrategy.java:207 | truncation is monotone |
| Sizing.LotsFormula | src/jforex/SessionBreakoutStrategy.java:206-208 | lots never exceed the lot cap |
| Sizing.CappedLots | src/jforex/SessionBreakoutStrategy.java:207-208 | the truncated, capped size never exceeds the cap |
| Sizing.CappedLotsMonotone | src/jforex/SessionBreakoutStrategy.java:207-208 | a larger raw size never gives fewer lots |
| Sizing.GetLots | src/jforex/SessionBreakoutStrategy.java:198-208 | a returned lot size never exceeds the cap; a missing conversion quote for a non-yen account is an error naming that pair |
| Sizing.GetLotsCases | src/jforex/SessionBreakoutStrategy.java:198-208 | getLots fails iff a needed quote is missing or the instrument's bid is 0; otherwise it applies the formula to the credit converted to yen only when the account currency is not yen |
| Sizing.LotsBelowRaw | src/jforex/SessionBreakoutStrategy.java:206-208 | when raw = credit * ratio / bid / 10^6 is not negative, lots never exceed raw |
| Sizing.LotsUncapped | src/jforex/SessionBreakoutStrategy.java:206-208 | when raw truncated to four decimals is within the cap, lots are exactly that truncation: the cap plays no part |
| Sizing.LotsCapped | src/jforex/SessionBreakoutStrategy.java:206-208 | when raw truncated to four decimals reaches the cap, lots are exactly the cap (the clamp follows the truncation) |
| Sizing.LotsNonNegative | src/jforex/SessionBreakoutStrategy.java:206-208 | with non-negative credit, ratio and cap and a positive bid, lots are >= 0 |
| Sizing.LotsMonotoneInCredit | src/jforex/SessionBreakoutStrategy.java:206-208 | more credit never gives fewer lots |
| Sizing.LotsAntitoneInBid | src/jforex/SessionBreakoutStrategy.java:205-208 | a higher bid of the primary currency never gives more lots |
| Sizing.LotsTruncation | src/jforex/SessionBreakoutStrategy.java:207 | when the raw size is within the cap, lots have at most 4 decimals and are the raw size cut down by less than 0.0001 |
| Sizing.GetLotsMonotoneInCredit | src/jforex/SessionBreakoutStrategy.java:198-208 | with non-negative quotes, raising the account's credit line never lowers getLots and does not change whether it fails |
| CivilDate.YearOf | src/jforex/SessionBreakoutStrategy.java:218-220 | the year walk ends on a year containing the day, with the day's index inside it |
| CivilDate.MonthOf | src/jforex/SessionBreakoutStrategy.java:218-220 | the month walk ends on a month 1..12 containing the day, with the day's index inside it |
| CivilDate.DateOfDay | src/jforex/SessionBreakoutStrategy.java:218-220 | the date has a month in 1..12 and a day within that month's length |
| CivilDate.DateOfDayRoundTrip | src/jforex/SessionBreakoutStrategy.java:218-220 | counting the days of the computed date gives back the day number |
| OrderLabel.Digits | src/jforex/SessionBreakoutStrategy.java:218 | a zero-padded field is all digits and at least `width` long |
| OrderLabel.DigitsRoundTrip | src/jforex/SessionBreakoutStrategy.java:218 | reading the digits of a field back gives the number |
| OrderLabel.DigitsWidth | src/jforex/SessionBreakoutStrategy.java:218 | a number below 10^width is written in exactly `width` digits |
| OrderLabel.Stamp | src/jforex/SessionBreakoutStrategy.java:218-220 | the stamp is at least 13 characters, all digits except the "_" just before the four time digits |
| OrderLabel.Label | src/jforex/SessionBreakoutStrategy.java:217-221 | every label starts with the configured prefix |
| OrderLabel.StampFields | src/jforex/SessionBreakoutStrategy.java:218-220 | for years 1..9999 the stamp is 13 characters yyyyMMdd_HHmm whose fields read back as the instant's year, month, day, hour and minute |
| OrderLabel.LabelSuffix | src/jforex/SessionBreakoutStrategy.java:220 | after the prefix the label is "_" followed by the stamp |
| Exposure.HasExposure | src/jforex/SessionBreakoutStrategy.java:157-158 | some open order carries the prefix and is on the instrument (the condition the guard tests) |
| Exposure.CheckExposure | src/jforex/SessionBreakoutStrategy.java:157-159 | the scan reports exposure iff some open order has the prefix and the same instrument |
| Exposure.OwnOrderBlocks | src/jforex/SessionBreakoutStrategy.java:157-161 | an open order with the strategy's own label on the instrument always blocks |
| Exposure.ExposureAppend | src/jforex/SessionBreakoutStrategy.java:157-159 | exposure of a concatenation is exposure of either part |
| Exposure.ForeignOrdersNeverBlock | src/jforex/SessionBreakoutStrategy.java:158 | orders on other instruments or without the prefix never block |
| Performance.Record | src/jforex/SessionBreakoutStrategy.java:113-118 | a credited close adds exactly its pips and P&L; any other message, or a close without the prefix, leaves the totals unchanged |
| Performance.RecordAll | src/jforex/SessionBreakoutStrategy.java:105-123 | a run of messages none of which is a credited close leaves the totals unchanged |
| Performance.CreditedSnoc | src/jforex/SessionBreakoutStrategy.java:113-118 | appending a message adds its pips and P&L to the sums exactly when it is a credited close |
| Performance.RecordAllIsSum | src/jforex/SessionBreakoutStrategy.java:105-123 | after any run of messages the totals are the start values plus the pips and P&L of exactly the credited closes |
| Performance.TwoClosesExample | src/jforex/SessionBreakoutStrategy.java:113-118 | closes of +12.3/-4.1 pips and +50/-10 with a fill between total 8.2 pips and 40 |
| Strategy.Decide | src/jforex/SessionBreakoutStrategy.java:132-169 | a submitted order is well formed (configured instrument, prefixed label, at most the cap, price 0, slippage 0.5), is for the bar's instrument, and is only sent when no prefixed order is open on it |
| Strategy.SubmittedOnlyWhenOpen | src/jforex/SessionBreakoutStrategy.java:133-147 | an order is submitted only for a configured instrument and period, never on Saturday or Sunday before 23:00, and only in an hour one of the two branches accepts |
| Strategy.SubmittedOrderShape | src/jforex/SessionBreakoutStrategy.java:156-168 | a submitted order has the label for the bar time, the getLots amount (at most the cap), price 0, slippage 0.5, and the session's classifier direction/stop/limit; the instrument had no exposure |
| Strategy.ExposureVetoes | src/jforex/SessionBreakoutStrategy.java:157-164 | an open prefixed order on the instrument means the bar is vetoed or skipped, never failed or submitted; the guard returns before getLots, so the outcome does not depend on the quotes or the account; the bar is vetoed exactly when it passed the gates and the classifier gave an order |
| Strategy.SizedOnlyAfterGuard | src/jforex/SessionBreakoutStrategy.java:156-164 | a bar fails in getLots only when it is in a session, the classifier gave an order, and no prefixed order is open on the instrument |
| Strategy.SubmittedOrderBlocksNext | src/jforex/SessionBreakoutStrategy.java:157-161 | once a submitted order is open, no further bar on that instrument submits |
| Strategy.SubmittedWhenAllPass | src/jforex/SessionBreakoutStrategy.java:133-168 | a breakout on an open bar with no exposure and a lot size available is always submitted |
| Strategy.SessionWindows | src/jforex/SessionBreakoutStrategy.java:141-154 | the London/US branch reads hour 00 to hour 08 of the bar's day with the London/US tp; the Asian branch reads hour 13 of a weekday to hour 22 of the previous day with the Asian tp; both keep the bar's minutes, seconds and ms |
| Strategy.SessionBreakoutStrategy.constructor | src/jforex/SessionBreakoutStrategy.java:74-75 | totals start at 0, nothing received or submitted |
| Strategy.SessionBreakoutStrategy.OnMessage | src/jforex/SessionBreakoutStrategy.java:105-123 | a credited close adds exactly its pips and P&L; any other message leaves both totals unchanged; the totals stay the fold of all messages |
| Strategy.SessionBreakoutStrategy.SessionBreakout | src/jforex/SessionBreakoutStrategy.java:140-155 | the calendar steps, getBarStart snapping, bar fetch and classification of one session give exactly `BreakoutFor`, the classifier answer Decide uses |
| Strategy.SessionBreakoutStrategy.OnBar | src/jforex/SessionBreakoutStrategy.java:132-169 | the handler's outcome is Decide's; at most one order is appended to the submitted orders, and only when Decide says Submitted; the totals are untouched |

## Left out

- `onStart`, `onAccount`, `onTick`, `onStop` and `getSubscribedInstruments`
  (lines 89-103, 125-130, 223-235) are subscription and start/stop wiring.
  `onStop` only prints the totals.
- Console output: the `print` calls in `onMessage`, `onStop` and `getLots`.
  This includes the `NumberFormat` currency formatting (lines 195-196,
  209-213). So the equity conversion in `getLots` is left out too: the
  converted equity is only printed.
- `history.getBars`, `history.getBarStart`, `history.getLastTick`,
  `engine.getOrders` and `engine.submitOrder` are external. They are
  inputs, and their behaviour is not modelled. Exceptions they throw,
  and a broker rejecting a submitted order, are not modelled either.
- Floating point: prices and amounts are exact reals. Not modelled:
  - the binary expansion `new BigDecimal(double)` truncates, which can
    cut a value like 1.1092 to 1.1091;
  - rounding in `+`, `*` and `/`;
  - NaN and infinities, apart from the zero-bid error.
  The values `Double.MIN_VALUE` and `Double.MAX_VALUE` are the
  configuration fields `highSentinel` and `lowSentinel`.
- Breakout.GetBreakoutOrder: takes the bars `getBars` returned rather
  than calling it, so its `period` parameter, which only that call
  (line 172) uses, is dropped. The unused `askBar` parameter (and
  `onBar`'s `askBar`) is dropped too.
- OrderLabel.Stamp: uses the proleptic Gregorian calendar, so dates before
  1582-10-15, where `SimpleDateFormat` switches to the Julian calendar,
  are not modelled. `Calendar.add` across that switch is left out too.
- Instruments and periods are platform enums compared with `==`. Here
  they are values compared structurally.
- Performance and Strategy.SessionBreakoutStrategy.OnMessage: every
  message is given an order record. The source calls `getOrder()` for
  every message (line 106) but dereferences the order only in the fill
  and close branches, so a null order on other messages changes
  nothing.
