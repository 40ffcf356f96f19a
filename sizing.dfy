/** Position sizing from the account's credit line
    (SessionBreakoutStrategy.getLots). */
module Sizing {
  import opened Market
  import opened Decimal

  /** Currency.getInstance(Locale.JAPAN). */
  const BaseCurrency: string := "JPY"

  /** The divisor 100 * 10000 that turns a notional amount into lots. */
  const LotUnits: real := 1000000.0

  /** Lots are cut to four decimals. */
  const LotsScale: nat := 4

  /** Why getLots throws instead of returning: the last tick of a pair the
      platform does not know is missing (a null dereference), or a zero
      bid makes limit/latestBid infinite or NaN, which BigDecimal rejects. */
  datatype SizingError = MissingQuote(pair: string) | ZeroBid

  /** The pair name Instrument.fromString is given: "USD/JPY". */
  function PairName(primary: string, secondary: string): string {
    primary + "/" + secondary
  }

  /** lots = limit / latestBid / 10^6 truncated to four decimals toward
      zero, then capped at limitLots, where limit = credit * ratio. */
  function LotsFormula(credit: real, ratio: real, latestBid: real, limitLots: real): (lots: real)
    requires latestBid != 0.0
    ensures lots <= limitLots
  {
    var limit := credit * ratio;
    CappedLots(limit / latestBid / LotUnits, limitLots)
  }

  /** The raw lot size cut to four decimals, then capped at limitLots. */
  function CappedLots(raw: real, limitLots: real): (lots: real)
    ensures lots <= limitLots
  {
    var lots := TruncateToScale(raw, LotsScale);
    if lots > limitLots then limitLots else lots
  }

  /** A larger raw size never gives fewer lots. */
  lemma CappedLotsMonotone(raw1: real, raw2: real, limitLots: real)
    requires raw1 <= raw2
    ensures CappedLots(raw1, limitLots) <= CappedLots(raw2, limitLots)
  {
    TruncateMonotone(raw1, raw2, LotsScale);
    Clamped(TruncateToScale(raw1, LotsScale), TruncateToScale(raw2, LotsScale), limitLots);
  }

  /** getLots: convert the credit line into the base currency when the
      account is kept in another one, then apply the formula with the bid
      of the instrument's primary currency against the base currency. The
      quotes map gives the last bid per pair name; the equity is converted
      too in the source but is only printed. */
  function GetLots(account: Account, quotes: map<string, real>, instrument: Instrument,
                   ratio: real, limitLots: real): (r: Result<real, SizingError>)
    ensures r.Ok? ==> r.value <= limitLots
    ensures account.currency != BaseCurrency && PairName(account.currency, BaseCurrency) !in quotes
            ==> r == Err(MissingQuote(PairName(account.currency, BaseCurrency)))
  {
    var converted :=
      if account.currency == BaseCurrency then Ok(account.creditLine)
      else
        var pair := PairName(account.currency, BaseCurrency);
        if pair !in quotes then Err(MissingQuote(pair)) else Ok(account.creditLine * quotes[pair]);
    if converted.Err? then Err(converted.error)
    else
      var pair := PairName(instrument.primaryCurrency, BaseCurrency);
      if pair !in quotes then Err(MissingQuote(pair))
      else if quotes[pair] == 0.0 then Err(ZeroBid)
      else Ok(LotsFormula(converted.value, ratio, quotes[pair], limitLots))
  }

  /** The credit line in the base currency: multiplied by the conversion
      bid only when the account currency differs from it. */
  function CreditInBase(account: Account, quotes: map<string, real>): real
    requires account.currency != BaseCurrency ==> PairName(account.currency, BaseCurrency) in quotes
  {
    if account.currency == BaseCurrency then account.creditLine
    else account.creditLine * quotes[PairName(account.currency, BaseCurrency)]
  }

  /** getLots fails exactly when a quote it reads is missing or the
      instrument's bid is zero, and otherwise returns the formula applied
      to the credit line in the base currency. */
  lemma GetLotsCases(account: Account, quotes: map<string, real>, instrument: Instrument, ratio: real, limitLots: real)
    ensures var r := GetLots(account, quotes, instrument, ratio, limitLots);
      var conversion := PairName(account.currency, BaseCurrency);
      var pair := PairName(instrument.primaryCurrency, BaseCurrency);
      && (r.Err? <==> (account.currency != BaseCurrency && conversion !in quotes)
                      || pair !in quotes || quotes[pair] == 0.0)
      && (r.Ok? ==> r.value == LotsFormula(CreditInBase(account, quotes), ratio, quotes[pair], limitLots))
      && (account.currency == BaseCurrency && r.Ok? ==>
            r.value == LotsFormula(account.creditLine, ratio, quotes[pair], limitLots))
  {
  }

  lemma DivAntitone(a: real, p: real, q: real)
    requires 0.0 <= a && 0.0 < p <= q
    ensures a / q <= a / p
  {
    assert a / q * q == a;
    assert a / p * p == a;
    MulMonotone(p, q, a / q);
    assert a / q * p <= a;
    if a / q > a / p {
      MulMonotone(a / p, a / q, p);
    }
  }

  /** Lots are never negative when credit, ratio, bid and cap are not. */
  lemma {:induction false} LotsNonNegative(credit: real, ratio: real, latestBid: real, limitLots: real)
    requires 0.0 <= credit && 0.0 <= ratio && 0.0 < latestBid && 0.0 <= limitLots
    ensures 0.0 <= LotsFormula(credit, ratio, latestBid, limitLots)
  {
    MulMonotone(0.0, credit, ratio);
    DivMonotone(0.0, credit * ratio, latestBid);
    DivMonotone(0.0, credit * ratio / latestBid, LotUnits);
  }

  lemma Clamped(x: real, y: real, cap: real)
    requires x <= y
    ensures (if x > cap then cap else x) <= (if y > cap then cap else y)
  {
  }

  /** More credit never means fewer lots. */
  lemma {:induction false} LotsMonotoneInCredit(c1: real, c2: real, ratio: real, latestBid: real, limitLots: real)
    requires c1 <= c2 && 0.0 <= ratio && 0.0 < latestBid
    ensures LotsFormula(c1, ratio, latestBid, limitLots) <= LotsFormula(c2, ratio, latestBid, limitLots)
  {
    var raw1, raw2 := c1 * ratio / latestBid / LotUnits, c2 * ratio / latestBid / LotUnits;
    assert raw1 <= raw2 by {
      MulMonotone(c1, c2, ratio);
      DivMonotone(c1 * ratio, c2 * ratio, latestBid);
      DivMonotone(c1 * ratio / latestBid, c2 * ratio / latestBid, LotUnits);
    }
    CappedLotsMonotone(raw1, raw2, limitLots);
    assert LotsFormula(c1, ratio, latestBid, limitLots) == CappedLots(raw1, limitLots);
    assert LotsFormula(c2, ratio, latestBid, limitLots) == CappedLots(raw2, limitLots);
  }

  /** A dearer primary currency never means more lots. */
  lemma {:induction false} LotsAntitoneInBid(credit: real, ratio: real, b1: real, b2: real, limitLots: real)
    requires 0.0 <= credit && 0.0 <= ratio && 0.0 < b1 <= b2
    ensures LotsFormula(credit, ratio, b2, limitLots) <= LotsFormula(credit, ratio, b1, limitLots)
  {
    MulMonotone(0.0, credit, ratio);
    DivAntitone(credit * ratio, b1, b2);
    DivMonotone(credit * ratio / b2, credit * ratio / b1, LotUnits);
    CappedLotsMonotone(credit * ratio / b2 / LotUnits, credit * ratio / b1 / LotUnits, limitLots);
  }

  /** The lot size always has at most four decimals, and it never exceeds
      the raw size credit * ratio / latestBid / 10^6 when that is not
      negative. */
  lemma LotsBelowRaw(credit: real, ratio: real, latestBid: real, limitLots: real)
    requires latestBid != 0.0
    requires 0.0 <= credit * ratio / latestBid / LotUnits
    ensures var lots := LotsFormula(credit, ratio, latestBid, limitLots);
      lots <= credit * ratio / latestBid / LotUnits
  {
  }

  /** When the raw size cut to four decimals is within the cap, the cap
      plays no part: the lot size is that truncated raw size. */
  lemma LotsUncapped(credit: real, ratio: real, latestBid: real, limitLots: real)
    requires latestBid != 0.0
    requires TruncateToScale(credit * ratio / latestBid / LotUnits, LotsScale) <= limitLots
    ensures LotsFormula(credit, ratio, latestBid, limitLots)
         == TruncateToScale(credit * ratio / latestBid / LotUnits, LotsScale)
  {
  }

  /** When the raw size cut to four decimals reaches the cap, the lot size
      is the cap itself: the clamp comes after the truncation. */
  lemma LotsCapped(credit: real, ratio: real, latestBid: real, limitLots: real)
    requires latestBid != 0.0
    requires limitLots <= TruncateToScale(credit * ratio / latestBid / LotUnits, LotsScale)
    ensures LotsFormula(credit, ratio, latestBid, limitLots) == limitLots
  {
  }

  /** Below the cap, the lot size has at most four decimals and is the raw
      size cut down by less than 0.0001. */
  lemma {:induction false} LotsTruncation(credit: real, ratio: real, latestBid: real, limitLots: real)
    requires 0.0 <= credit && 0.0 <= ratio && 0.0 < latestBid
    requires credit * ratio / latestBid / LotUnits <= limitLots
    ensures var lots := LotsFormula(credit, ratio, latestBid, limitLots);
      var raw := credit * ratio / latestBid / LotUnits;
      && OnGrid(lots, LotsScale)
      && lots <= raw && raw - lots < 0.0001
  {
    MulMonotone(0.0, credit, ratio);
    DivMonotone(0.0, credit * ratio, latestBid);
    DivMonotone(0.0, credit * ratio / latestBid, LotUnits);
    LotsUncapped(credit, ratio, latestBid, limitLots);
    assert Pow10(LotsScale) == 10000;
  }

  /** At the level of getLots: with a non-negative conversion bid, more
      credit on the account never means fewer lots. */
  lemma {:induction false} GetLotsMonotoneInCredit(account: Account, credit2: real, quotes: map<string, real>,
                                                   instrument: Instrument, ratio: real, limitLots: real)
    requires account.creditLine <= credit2 && 0.0 <= ratio
    requires account.currency != BaseCurrency && PairName(account.currency, BaseCurrency) in quotes
             ==> 0.0 <= quotes[PairName(account.currency, BaseCurrency)]
    requires PairName(instrument.primaryCurrency, BaseCurrency) in quotes
             ==> 0.0 <= quotes[PairName(instrument.primaryCurrency, BaseCurrency)]
    ensures var r1 := GetLots(account, quotes, instrument, ratio, limitLots);
      var r2 := GetLots(account.(creditLine := credit2), quotes, instrument, ratio, limitLots);
      && r1.Err? == r2.Err?
      && (r1.Ok? ==> r1.value <= r2.value)
  {
    var richer := account.(creditLine := credit2);
    GetLotsCases(account, quotes, instrument, ratio, limitLots);
    GetLotsCases(richer, quotes, instrument, ratio, limitLots);
    var r1 := GetLots(account, quotes, instrument, ratio, limitLots);
    if r1.Ok? {
      var pair := PairName(instrument.primaryCurrency, BaseCurrency);
      if account.currency != BaseCurrency {
        MulMonotone(account.creditLine, credit2, quotes[PairName(account.currency, BaseCurrency)]);
      }
      LotsMonotoneInCredit(CreditInBase(account, quotes), CreditInBase(richer, quotes), ratio, quotes[pair], limitLots);
    }
  }
}
