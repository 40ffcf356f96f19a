/** The range of the reference bars and the breakout decision on the live
    bid bar (SessionBreakoutStrategy.getBreakoutOrder). */
module Breakout {
  import opened Market
  import opened Decimal

  /** The order the classifier asks for: direction, take-profit limit
      (0 when take-profit is disabled) and stop-loss. */
  datatype BreakoutOrder = BreakoutOrder(command: OrderCommand, limit: real, stop: real)

  function Max(a: real, b: real): real { if a >= b then a else b }
  function Min(a: real, b: real): real { if a <= b then a else b }

  /** high = Math.max(high, bar.getHigh()) over the bars, left to right,
      starting from `init`. */
  function RangeHigh(bars: seq<Bar>, init: real): (r: real)
    decreases |bars|
    ensures init <= r
    ensures forall i :: 0 <= i < |bars| ==> bars[i].high <= r
  {
    if bars == [] then init
    else
      var front := bars[..|bars| - 1];
      assert forall i :: 0 <= i < |front| ==> front[i] == bars[i];
      Max(RangeHigh(front, init), bars[|bars| - 1].high)
  }

  /** low = Math.min(low, bar.getLow()) over the bars, starting from `init`. */
  function RangeLow(bars: seq<Bar>, init: real): (r: real)
    decreases |bars|
    ensures r <= init
    ensures forall i :: 0 <= i < |bars| ==> r <= bars[i].low
  {
    if bars == [] then init
    else
      var front := bars[..|bars| - 1];
      assert forall i :: 0 <= i < |front| ==> front[i] == bars[i];
      Min(RangeLow(front, init), bars[|bars| - 1].low)
  }

  /** The folded high is the largest of the start value and every bar's high. */
  lemma {:induction false} RangeHighIsMaximum(bars: seq<Bar>, init: real)
    ensures init <= RangeHigh(bars, init)
    ensures forall i :: 0 <= i < |bars| ==> bars[i].high <= RangeHigh(bars, init)
    ensures RangeHigh(bars, init) == init
         || exists i :: 0 <= i < |bars| && bars[i].high == RangeHigh(bars, init)
  {
    if bars != [] {
      var front := bars[..|bars| - 1];
      RangeHighIsMaximum(front, init);
      assert forall i :: 0 <= i < |front| ==> front[i] == bars[i];
    }
  }

  /** The folded low is the smallest of the start value and every bar's low. */
  lemma {:induction false} RangeLowIsMinimum(bars: seq<Bar>, init: real)
    ensures RangeLow(bars, init) <= init
    ensures forall i :: 0 <= i < |bars| ==> RangeLow(bars, init) <= bars[i].low
    ensures RangeLow(bars, init) == init
         || exists i :: 0 <= i < |bars| && bars[i].low == RangeLow(bars, init)
  {
    if bars != [] {
      var front := bars[..|bars| - 1];
      RangeLowIsMinimum(front, init);
      assert forall i :: 0 <= i < |front| ==> front[i] == bars[i];
    }
  }

  /** tp == 0 ? 0 : the target price cut to the instrument's decimals.
      The limit is 0 when take-profit is disabled; otherwise it has at most
      pipScale decimals and is the target itself when the target already
      has. */
  function TakeProfitLimit(target: real, tp: real, pipScale: nat): (l: real)
    ensures tp == 0.0 ==> l == 0.0
    ensures tp != 0.0 ==> OnGrid(l, pipScale)
    ensures tp != 0.0 && OnGrid(target, pipScale) ==> l == target
  {
    if tp == 0.0 then 0.0 else TruncateToScale(target, pipScale)
  }

  /** An enabled take-profit limit for a non-negative target is at most the
      target and less than one 10^-pipScale step below it. */
  lemma TakeProfitLimitBounds(target: real, tp: real, pipScale: nat)
    requires tp != 0.0 && 0.0 <= target
    ensures var l := TakeProfitLimit(target, tp, pipScale);
      0.0 <= l <= target && target - l < 1.0 / Pow10(pipScale) as real
  {
    assert TakeProfitLimit(target, tp, pipScale) == TruncateToScale(target, pipScale);
  }

  /** The breakout test on the live bar against the reference range. BUY is
      tested first; SELL only when BUY fails. */
  function Classify(open: real, close: real, high: real, low: real,
                    pipValue: real, pipScale: nat, bp: real, tp: real): (r: Option<BreakoutOrder>)
    ensures r.Some? && r.value.command == Buy ==> open < close && r.value.stop == low
    ensures r.Some? && r.value.command == Sell ==> close < open && r.value.stop == high
  {
    var breakHigh := high + pipValue * bp;
    var breakLow := low - pipValue * bp;
    if open < breakHigh && breakHigh < close then
      Some(BreakoutOrder(Buy, TakeProfitLimit(close + tp * pipValue, tp, pipScale), low))
    else if open > breakLow && breakLow > close then
      Some(BreakoutOrder(Sell, TakeProfitLimit(close - tp * pipValue, tp, pipScale), high))
    else
      None
  }

  /** The loop of getBreakoutOrder: fold the bars into (high, low) from the
      two sentinels, then classify the live bid bar. */
  method GetBreakoutOrder(bars: seq<Bar>, bidBar: Bar, instrument: Instrument, bp: real, tp: real,
                          highSentinel: real, lowSentinel: real) returns (r: Option<BreakoutOrder>)
    ensures r == Classify(bidBar.open, bidBar.close, RangeHigh(bars, highSentinel), RangeLow(bars, lowSentinel),
                          instrument.pipValue, instrument.pipScale, bp, tp)
  {
    var high := highSentinel;
    var low := lowSentinel;
    for i := 0 to |bars|
      invariant high == RangeHigh(bars[..i], highSentinel)
      invariant low == RangeLow(bars[..i], lowSentinel)
    {
      assert bars[..i + 1][..i] == bars[..i];
      high := Max(high, bars[i].high);
      low := Min(low, bars[i].low);
    }
    assert bars[..|bars|] == bars;
    r := Classify(bidBar.open, bidBar.close, high, low, instrument.pipValue, instrument.pipScale, bp, tp);
  }

  /** BUY exactly when the bar opens below the breakout level above the
      range and closes above it; SELL exactly when BUY fails and the bar
      opens above the level below the range and closes under it. */
  lemma ClassifyDirections(open: real, close: real, high: real, low: real,
                           pipValue: real, pipScale: nat, bp: real, tp: real)
    ensures var r := Classify(open, close, high, low, pipValue, pipScale, bp, tp);
      && ((r.Some? && r.value.command == Buy) <==> open < high + pipValue * bp < close)
      && ((r.Some? && r.value.command == Sell) <==>
            !(open < high + pipValue * bp < close) && open > low - pipValue * bp > close)
      && (r.None? <==> !(open < high + pipValue * bp < close) && !(open > low - pipValue * bp > close))
  {
  }

  /** A BUY over a set of bars means the live bar crossed a level above
      every reference high (and the start value), and its stop is at or
      below every reference low and the start value. */
  lemma {:induction false} BuyAgainstBars(bars: seq<Bar>, bidBar: Bar, instrument: Instrument, bp: real, tp: real,
                                          highSentinel: real, lowSentinel: real)
    requires var r := Classify(bidBar.open, bidBar.close, RangeHigh(bars, highSentinel), RangeLow(bars, lowSentinel),
                               instrument.pipValue, instrument.pipScale, bp, tp);
      r.Some? && r.value.command == Buy
    ensures var r := Classify(bidBar.open, bidBar.close, RangeHigh(bars, highSentinel), RangeLow(bars, lowSentinel),
                              instrument.pipValue, instrument.pipScale, bp, tp);
      && bidBar.open < bidBar.close
      && highSentinel + instrument.pipValue * bp < bidBar.close
      && (forall i :: 0 <= i < |bars| ==> bars[i].high + instrument.pipValue * bp < bidBar.close)
      && r.value.stop <= lowSentinel
      && (forall i :: 0 <= i < |bars| ==> r.value.stop <= bars[i].low)
  {
    var margin := instrument.pipValue * bp;
    var high, low := RangeHigh(bars, highSentinel), RangeLow(bars, lowSentinel);
    var r := Classify(bidBar.open, bidBar.close, high, low, instrument.pipValue, instrument.pipScale, bp, tp);
    ClassifyDirections(bidBar.open, bidBar.close, high, low, instrument.pipValue, instrument.pipScale, bp, tp);
    assert high + margin < bidBar.close;
    assert r.value.stop == low;
    RangeHighIsMaximum(bars, highSentinel);
    RangeLowIsMinimum(bars, lowSentinel);
  }

  /** A SELL over a set of bars means the live bar crossed a level below
      every reference low (and the start value), and its stop is at or
      above every reference high and the start value. */
  lemma {:induction false} SellAgainstBars(bars: seq<Bar>, bidBar: Bar, instrument: Instrument, bp: real, tp: real,
                                           highSentinel: real, lowSentinel: real)
    requires var r := Classify(bidBar.open, bidBar.close, RangeHigh(bars, highSentinel), RangeLow(bars, lowSentinel),
                               instrument.pipValue, instrument.pipScale, bp, tp);
      r.Some? && r.value.command == Sell
    ensures var r := Classify(bidBar.open, bidBar.close, RangeHigh(bars, highSentinel), RangeLow(bars, lowSentinel),
                              instrument.pipValue, instrument.pipScale, bp, tp);
      && bidBar.close < bidBar.open
      && bidBar.close < lowSentinel - instrument.pipValue * bp
      && (forall i :: 0 <= i < |bars| ==> bidBar.close < bars[i].low - instrument.pipValue * bp)
      && highSentinel <= r.value.stop
      && (forall i :: 0 <= i < |bars| ==> bars[i].high <= r.value.stop)
  {
    var margin := instrument.pipValue * bp;
    var high, low := RangeHigh(bars, highSentinel), RangeLow(bars, lowSentinel);
    var r := Classify(bidBar.open, bidBar.close, high, low, instrument.pipValue, instrument.pipScale, bp, tp);
    ClassifyDirections(bidBar.open, bidBar.close, high, low, instrument.pipValue, instrument.pipScale, bp, tp);
    assert low - margin > bidBar.close;
    assert r.value.stop == high;
    RangeHighIsMaximum(bars, highSentinel);
    RangeLowIsMinimum(bars, lowSentinel);
  }

  /** With no reference bars the range is the two sentinels: no SELL can
      fire for a bar opening below lowSentinel minus the margin, a BUY
      needs the bar to cross highSentinel plus the margin, and a bar that
      opens between the two margins gives no order at all. */
  lemma EmptyRange(bidBar: Bar, instrument: Instrument, bp: real, tp: real, highSentinel: real, lowSentinel: real)
    ensures RangeHigh([], highSentinel) == highSentinel && RangeLow([], lowSentinel) == lowSentinel
    ensures var r := Classify(bidBar.open, bidBar.close, highSentinel, lowSentinel,
                              instrument.pipValue, instrument.pipScale, bp, tp);
      && (bidBar.open <= lowSentinel - instrument.pipValue * bp ==> !(r.Some? && r.value.command == Sell))
      && (r.Some? && r.value.command == Buy ==> bidBar.open < highSentinel + instrument.pipValue * bp < bidBar.close)
      && ((highSentinel + instrument.pipValue * bp <= bidBar.open <= lowSentinel - instrument.pipValue * bp)
            ==> r.None?)
  {
    ClassifyDirections(bidBar.open, bidBar.close, highSentinel, lowSentinel, instrument.pipValue, instrument.pipScale, bp, tp);
  }

  /** The limit of a BUY is close + tp pips cut down, that of a SELL is
      close - tp pips cut down (both toward zero). */
  lemma ClassifyLimit(open: real, close: real, high: real, low: real,
                      pipValue: real, pipScale: nat, bp: real, tp: real)
    ensures var r := Classify(open, close, high, low, pipValue, pipScale, bp, tp);
      && (r.Some? && r.value.command == Buy ==> r.value.limit == TakeProfitLimit(close + tp * pipValue, tp, pipScale))
      && (r.Some? && r.value.command == Sell ==> r.value.limit == TakeProfitLimit(close - tp * pipValue, tp, pipScale))
  {
  }
}
