/** The per-bar decision and the per-message bookkeeping of
    SessionBreakoutStrategy: the configuration, the platform snapshot a
    bar is judged against, the decision as a function, and the strategy
    object whose handlers are proved to follow it. */
module Strategy {
  import opened GmtCalendar
  import opened Market
  import opened Session
  import opened Breakout
  import opened Sizing
  import opened Exposure
  import opened OrderLabel
  import opened Performance

  /** The @Configurable fields, and the two start values of the range fold
      (Double.MIN_VALUE and Double.MAX_VALUE in the source). */
  datatype Config = Config(
    londonUS: Instrument, tpLondonUS: real,
    asian: Instrument, tpAsian: real,
    period: Period,
    breakoutPips: real,
    marginRatio: real,
    limitLots: real,
    labelPrefix: string,
    highSentinel: real, lowSentinel: real)

  /** What the platform answers during one onBar call: getBarStart,
      getBars on the bid side, the last bid per pair name, the account,
      and the open orders. */
  datatype Platform = Platform(
    barStart: (Period, int) -> int,
    bidBars: (Instrument, Period, int, int) -> seq<Bar>,
    quotes: map<string, real>,
    account: Account,
    openOrders: seq<OpenOrder>)

  /** The arguments of engine.submitOrder. */
  datatype OrderIntent = OrderIntent(
    orderLabel: string, instrument: Instrument, command: OrderCommand,
    amount: real, price: real, slippage: real, stop: real, limit: real)

  datatype SkipReason = OtherInstrument | OtherPeriod | ClosedHours | NoSession | NoBreakout

  /** How one onBar call ends: it returns early, the exposure guard vetoes,
      getLots throws, or exactly one order is submitted. */
  datatype BarOutcome =
    | Skipped(reason: SkipReason)
    | Vetoed
    | Failed(error: SizingError)
    | Submitted(order: OrderIntent)

  /** submitOrder's slippage argument. */
  const Slippage: real := 0.5

  function TakeProfitOf(cfg: Config, session: SessionKind): real {
    match session
    case LondonUS => cfg.tpLondonUS
    case Asian => cfg.tpAsian
  }

  /** The classifier's answer for the bar in the given session. */
  function BreakoutFor(cfg: Config, platform: Platform, instrument: Instrument, period: Period,
                       bidBar: Bar, session: SessionKind): Option<BreakoutOrder> {
    var w := ReferenceWindow(session, bidBar.time, period, platform.barStart);
    var bars := platform.bidBars(instrument, period, w.from, w.to);
    Classify(bidBar.open, bidBar.close, RangeHigh(bars, cfg.highSentinel), RangeLow(bars, cfg.lowSentinel),
             instrument.pipValue, instrument.pipScale, cfg.breakoutPips, TakeProfitOf(cfg, session))
  }

  /** The whole onBar decision for one bar. A submitted order is always
      well formed, on the bar's instrument, and only sent when none of the
      strategy's orders is open on that instrument. */
  function Decide(cfg: Config, platform: Platform, instrument: Instrument, period: Period, bidBar: Bar): (r: BarOutcome)
    ensures r.Submitted? ==> WellFormedOrder(cfg, r.order) && r.order.instrument == instrument
    ensures r.Submitted? ==> !HasExposure(platform.openOrders, cfg.labelPrefix, instrument)
  {
    var t := bidBar.time;
    if instrument != cfg.londonUS && instrument != cfg.asian then Skipped(OtherInstrument)
    else if period != cfg.period then Skipped(OtherPeriod)
    else if MarketClosed(t) then Skipped(ClosedHours)
    else
      match SelectSession(instrument, cfg.londonUS, cfg.asian, HourOfDay(t))
      case None => Skipped(NoSession)
      case Some(session) =>
        match BreakoutFor(cfg, platform, instrument, period, bidBar, session)
        case None => Skipped(NoBreakout)
        case Some(b) =>
          if HasExposure(platform.openOrders, cfg.labelPrefix, instrument) then Vetoed
          else
            match GetLots(platform.account, platform.quotes, instrument, cfg.marginRatio, cfg.limitLots)
            case Err(e) => Failed(e)
            case Ok(lots) =>
              Submitted(OrderIntent(Label(cfg.labelPrefix, t), instrument, b.command, lots, 0.0, Slippage, b.stop, b.limit))
  }

  /** What every order the strategy submits satisfies. */
  predicate WellFormedOrder(cfg: Config, o: OrderIntent) {
    && (o.instrument == cfg.londonUS || o.instrument == cfg.asian)
    && cfg.labelPrefix <= o.orderLabel
    && o.amount <= cfg.limitLots
    && o.price == 0.0 && o.slippage == Slippage
  }

  /** Gating: an order is only ever submitted for one of the two configured
      instruments, on the configured period, outside Saturday and Sunday
      before 23:00; the session is London/US only for the London/US
      instrument from 09:00 to 22:59, and Asian otherwise. */
  lemma SubmittedOnlyWhenOpen(cfg: Config, platform: Platform, instrument: Instrument, period: Period, bidBar: Bar)
    ensures var o := Decide(cfg, platform, instrument, period, bidBar);
      var hour := HourOfDay(bidBar.time);
      var week := DayOfWeek(bidBar.time);
      o.Submitted? ==>
        && (instrument == cfg.londonUS || instrument == cfg.asian)
        && period == cfg.period
        && week != Saturday && !(week == Sunday && hour < 23)
        && ((9 <= hour <= 22 && instrument == cfg.londonUS) || 23 <= hour || (hour <= 8 && instrument == cfg.asian))
  {
  }

  /** The submitted order carries the strategy's label for the bar time,
      the amount getLots computed (never above the cap), price 0, slippage
      0.5, and the classifier's direction, stop and limit for the session
      the bar fell in; it is sent only when no open order of the strategy
      is on the instrument. */
  lemma {:induction false} SubmittedOrderShape(cfg: Config, platform: Platform, instrument: Instrument, period: Period, bidBar: Bar)
    requires Decide(cfg, platform, instrument, period, bidBar).Submitted?
    ensures var o := Decide(cfg, platform, instrument, period, bidBar).order;
      var session := SelectSession(instrument, cfg.londonUS, cfg.asian, HourOfDay(bidBar.time));
      && WellFormedOrder(cfg, o)
      && o.orderLabel == Label(cfg.labelPrefix, bidBar.time)
      && o.instrument == instrument
      && !HasExposure(platform.openOrders, cfg.labelPrefix, instrument)
      && GetLots(platform.account, platform.quotes, instrument, cfg.marginRatio, cfg.limitLots) == Ok(o.amount)
      && session.Some?
      && BreakoutFor(cfg, platform, instrument, period, bidBar, session.value)
         == Some(BreakoutOrder(o.command, o.limit, o.stop))
  {
    var session := SelectSession(instrument, cfg.londonUS, cfg.asian, HourOfDay(bidBar.time));
    var lots := GetLots(platform.account, platform.quotes, instrument, cfg.marginRatio, cfg.limitLots);
    assert session.Some?;
    assert lots.Ok?;
    assert lots.value <= cfg.limitLots;
  }

  /** Exposure guard: with one of the strategy's orders open on the
      instrument nothing is submitted, whatever the signal, and getLots is
      never reached, so a missing quote or a zero bid cannot make the bar
      fail: the outcome does not depend on the quotes or the account. The
      bar is vetoed exactly when it got as far as a breakout. */
  lemma ExposureVetoes(cfg: Config, platform: Platform, instrument: Instrument, period: Period, bidBar: Bar,
                       quotes: map<string, real>, account: Account)
    requires HasExposure(platform.openOrders, cfg.labelPrefix, instrument)
    ensures var o := Decide(cfg, platform, instrument, period, bidBar);
      var session := SelectSession(instrument, cfg.londonUS, cfg.asian, HourOfDay(bidBar.time));
      && (o.Vetoed? || o.Skipped?)
      && o == Decide(cfg, platform.(quotes := quotes, account := account), instrument, period, bidBar)
      && (o.Vetoed? <==> (instrument == cfg.londonUS || instrument == cfg.asian) && period == cfg.period
                         && !MarketClosed(bidBar.time) && session.Some?
                         && BreakoutFor(cfg, platform, instrument, period, bidBar, session.value).Some?)
  {
  }

  /** getLots runs only after the guard: a bar fails in sizing only when it
      is in a session, the classifier gave an order, and no order of the
      strategy is open on the instrument. */
  lemma SizedOnlyAfterGuard(cfg: Config, platform: Platform, instrument: Instrument, period: Period, bidBar: Bar)
    ensures var o := Decide(cfg, platform, instrument, period, bidBar);
      var session := SelectSession(instrument, cfg.londonUS, cfg.asian, HourOfDay(bidBar.time));
      o.Failed? ==>
        && session.Some?
        && BreakoutFor(cfg, platform, instrument, period, bidBar, session.value).Some?
        && !HasExposure(platform.openOrders, cfg.labelPrefix, instrument)
  {
  }

  /** Once an order the strategy submitted is open, the same bar (or any
      other) on that instrument is vetoed: the label carries the prefix
      the guard tests. */
  lemma {:induction false} SubmittedOrderBlocksNext(cfg: Config, platform: Platform, instrument: Instrument, period: Period,
                                                    bidBar: Bar, later: Bar)
    requires Decide(cfg, platform, instrument, period, bidBar).Submitted?
    ensures var o := Decide(cfg, platform, instrument, period, bidBar).order;
      var after := platform.(openOrders := platform.openOrders + [OpenOrder(o.orderLabel, o.instrument)]);
      !Decide(cfg, after, instrument, period, later).Submitted?
  {
    SubmittedOrderShape(cfg, platform, instrument, period, bidBar);
    OwnOrderBlocks(platform.openOrders, cfg.labelPrefix, instrument, bidBar.time);
  }

  /** Conversely, a breakout on an open bar with no exposure and a lot size
      available is always submitted. */
  lemma SubmittedWhenAllPass(cfg: Config, platform: Platform, instrument: Instrument, period: Period, bidBar: Bar)
    requires instrument == cfg.londonUS || instrument == cfg.asian
    requires period == cfg.period && !MarketClosed(bidBar.time)
    requires var session := SelectSession(instrument, cfg.londonUS, cfg.asian, HourOfDay(bidBar.time));
      session.Some? && BreakoutFor(cfg, platform, instrument, period, bidBar, session.value).Some?
    requires !HasExposure(platform.openOrders, cfg.labelPrefix, instrument)
    requires GetLots(platform.account, platform.quotes, instrument, cfg.marginRatio, cfg.limitLots).Ok?
    ensures Decide(cfg, platform, instrument, period, bidBar).Submitted?
  {
  }

  /** The London/US session reads its range from hour 00 to hour 08 of the
      bar's day with the London/US take-profit; the Asian session from hour
      13 of some weekday before to hour 22 of the previous calendar day with
      the Asian take-profit. Both ends keep the bar's minutes, seconds and
      milliseconds. */
  lemma {:induction false} SessionWindows(cfg: Config, instrument: Instrument, t: int)
    requires !MarketClosed(t)
    ensures var session := SelectSession(instrument, cfg.londonUS, cfg.asian, HourOfDay(t));
      && (session == Some(LondonUS) ==>
            var w := CalendarWindow(LondonUS, t);
            && instrument == cfg.londonUS && 9 <= HourOfDay(t) <= 22
            && TakeProfitOf(cfg, LondonUS) == cfg.tpLondonUS
            && DayNumber(w.from) == DayNumber(w.to) == DayNumber(t)
            && HourOfDay(w.from) == 0 && HourOfDay(w.to) == 8
            && w.from % HourMillis == t % HourMillis && w.to % HourMillis == t % HourMillis)
      && (session == Some(Asian) ==>
            var w := CalendarWindow(Asian, t);
            && TakeProfitOf(cfg, Asian) == cfg.tpAsian
            && Monday <= DayOfWeek(w.from) <= Friday && HourOfDay(w.from) == 13
            && DayNumber(w.to) == DayNumber(t) - 1 && HourOfDay(w.to) == 22
            && w.from % HourMillis == t % HourMillis && w.to % HourMillis == t % HourMillis
            && w.from < w.to)
  {
  }

  /** The strategy object: its configuration, the two totals onMessage
      updates, and, as ghost state, the messages received and the orders
      submitted so far. */
  class SessionBreakoutStrategy {
    const cfg: Config
    var totalPips: real
    var totalProfitLoss: real
    ghost var received: seq<Message>
    ghost var submitted: seq<OrderIntent>

    ghost predicate Valid()
      reads this
    {
      && Totals(totalPips, totalProfitLoss) == RecordAll(Totals(0.0, 0.0), cfg.labelPrefix, received)
      && forall i :: 0 <= i < |submitted| ==> WellFormedOrder(cfg, submitted[i])
    }

    constructor (config: Config)
      ensures Valid() && cfg == config
      ensures totalPips == 0.0 && totalProfitLoss == 0.0
      ensures received == [] && submitted == []
    {
      cfg := config;
      totalPips := 0.0;
      totalProfitLoss := 0.0;
      received := [];
      submitted := [];
    }

    /** onMessage: a close of one of the strategy's orders adds its pips and
        P&L to the totals; everything else leaves them unchanged. */
    method OnMessage(message: Message)
      requires Valid()
      modifies this
      ensures Valid()
      ensures received == old(received) + [message] && submitted == old(submitted)
      ensures Totals(totalPips, totalProfitLoss) == Record(old(Totals(totalPips, totalProfitLoss)), cfg.labelPrefix, message)
      ensures Credited(cfg.labelPrefix, message) ==>
        totalPips == old(totalPips) + message.order.profitLossInPips
        && totalProfitLoss == old(totalProfitLoss) + message.order.profitLossInAccountCurrency
      ensures !Credited(cfg.labelPrefix, message) ==>
        totalPips == old(totalPips) && totalProfitLoss == old(totalProfitLoss)
    {
      ghost var start := Totals(totalPips, totalProfitLoss);
      var order := message.order;
      match message.kind {
        case OrderFillOk =>
        case OrderCloseOk =>
          if cfg.labelPrefix <= order.orderLabel {
            totalPips := totalPips + order.profitLossInPips;
            totalProfitLoss := totalProfitLoss + order.profitLossInAccountCurrency;
          }
        case OtherMessage =>
      }
      assert Totals(totalPips, totalProfitLoss) == Record(start, cfg.labelPrefix, message);
      ghost var before := received;
      received := received + [message];
      assert received[..|received| - 1] == before;
      assert RecordAll(Totals(0.0, 0.0), cfg.labelPrefix, received)
          == Record(RecordAll(Totals(0.0, 0.0), cfg.labelPrefix, before), cfg.labelPrefix, message);
    }

    /** The range test of one session as onBar runs it: step the calendar
        to the two ends of the reference window, snap each with getBarStart,
        fetch the bid bars between them and classify the live bar. */
    method SessionBreakout(platform: Platform, instrument: Instrument, period: Period, bidBar: Bar,
                           session: SessionKind) returns (breakout: Option<BreakoutOrder>)
      ensures breakout == BreakoutFor(cfg, platform, instrument, period, bidBar, session)
    {
      var time := bidBar.time;
      var week := DayOfWeek(time);
      match session {
        case LondonUS =>
          var cal := SetHourOfDay(time, 0);
          var from := platform.barStart(period, cal);
          cal := SetHourOfDay(cal, 8);
          var to := platform.barStart(period, cal);
          breakout := GetBreakoutOrder(platform.bidBars(instrument, period, from, to), bidBar, instrument,
                                       cfg.breakoutPips, cfg.tpLondonUS, cfg.highSentinel, cfg.lowSentinel);
        case Asian =>
          var cal := AddDays(time, if week == Sunday then -2 else if week == Monday then -3 else -1);
          cal := SetHourOfDay(cal, 13);
          var from := platform.barStart(period, cal);
          cal := AddDays(cal, if week == Sunday then 1 else if week == Monday then 2 else 0);
          cal := SetHourOfDay(cal, 22);
          var to := platform.barStart(period, cal);
          breakout := GetBreakoutOrder(platform.bidBars(instrument, period, from, to), bidBar, instrument,
                                       cfg.breakoutPips, cfg.tpAsian, cfg.highSentinel, cfg.lowSentinel);
      }
    }

    /** onBar: gate the bar, compute the session's reference window step by
        step on the calendar, classify, check exposure, size and submit. */
    method OnBar(platform: Platform, instrument: Instrument, period: Period, bidBar: Bar) returns (outcome: BarOutcome)
      requires Valid()
      modifies this
      ensures Valid()
      ensures outcome == Decide(cfg, platform, instrument, period, bidBar)
      ensures submitted == old(submitted) + (if outcome.Submitted? then [outcome.order] else [])
      ensures totalPips == old(totalPips) && totalProfitLoss == old(totalProfitLoss) && received == old(received)
    {
      if instrument != cfg.londonUS && instrument != cfg.asian {
        return Skipped(OtherInstrument);
      }
      if period != cfg.period {
        return Skipped(OtherPeriod);
      }
      var time := bidBar.time;
      var week := DayOfWeek(time);
      var hour := HourOfDay(time);
      if (week == Sunday && hour < 23) || week == Saturday {
        return Skipped(ClosedHours);
      }
      var breakout: Option<BreakoutOrder>;
      if 9 <= hour && hour <= 22 && instrument == cfg.londonUS {
        breakout := SessionBreakout(platform, instrument, period, bidBar, LondonUS);
      } else if 23 <= hour || (hour <= 8 && instrument == cfg.asian) {
        breakout := SessionBreakout(platform, instrument, period, bidBar, Asian);
      } else {
        return Skipped(NoSession);
      }
      if breakout.None? {
        return Skipped(NoBreakout);
      }
      var exposed := CheckExposure(platform.openOrders, cfg.labelPrefix, instrument);
      if exposed {
        return Vetoed;
      }
      var orderLabel := Label(cfg.labelPrefix, time);
      var lots := GetLots(platform.account, platform.quotes, instrument, cfg.marginRatio, cfg.limitLots);
      if lots.Err? {
        return Failed(lots.error);
      }
      var order := OrderIntent(orderLabel, instrument, breakout.value.command, lots.value, 0.0, Slippage,
                               breakout.value.stop, breakout.value.limit);
      submitted := submitted + [order];
      outcome := Submitted(order);
    }
  }
}
