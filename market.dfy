/** The values the strategy receives from the trading platform. */
module Market {

  datatype Option<T> = None | Some(value: T)

  datatype Result<T, E> = Ok(value: T) | Err(error: E)

  /** A currency pair: its name ("EUR/USD"), its primary (base) currency,
      the size of one pip and the number of decimals prices are quoted in
      (Instrument.getPipValue and Instrument.getPipScale). */
  datatype Instrument = Instrument(name: string, primaryCurrency: string, pipValue: real, pipScale: nat)

  /** A bar period such as ONE_HOUR; only compared for equality. */
  datatype Period = Period(name: string)

  /** IBar: start time in ms (GMT) and the four prices. */
  datatype Bar = Bar(time: int, open: real, high: real, low: real, close: real)

  /** IEngine.OrderCommand, restricted to the two commands the strategy uses. */
  datatype OrderCommand = Buy | Sell

  /** The part of an open order (IOrder) the exposure guard looks at. */
  datatype OpenOrder = OpenOrder(orderLabel: string, instrument: Instrument)

  /** IAccount: equity, credit line, and the account currency code. */
  datatype Account = Account(equity: real, creditLine: real, currency: string)
}
