/** The decision body of `execute_strategy` in main.py: a chain of early
    returns (too little data, missing indicators, no balance, buy cooldown)
    followed by mutually exclusive buy and sell rules, together with the
    position sizing and the short-term-gains advisory of a sell. */
module Strategy {
  import opened Wrappers
  import opened Indicators

  const MIN_ROWS: nat := 200
  const RISK_PERCENTAGE: real := 0.02
  const LONG_TERM_HOLD_PERIOD: int := 365
  const COOLDOWN_PERIOD_HOURS: int := 720
  const SECONDS_PER_HOUR: int := 3600
  const SECONDS_PER_DAY: int := 86400
  const OVERSOLD: real := 30.0
  const OVERBOUGHT: real := 70.0

  /** The last row of the indicator frame. */
  datatype Row = Row(close: real, rsi: Option<real>, shortMa: Option<real>, longMa: Option<real>)

  /** What the brokerage reports for one ticker at decision time: the account
      balance, the fill time of the latest filled buy (seconds since the
      epoch, UTC), and the held quantity (0 when there is no position). */
  datatype Broker = Broker(balance: real, lastBuy: Option<int>, positionQty: real)

  datatype HoldReason = NotEnoughData | IndicatorsMissing | Cooldown | InsufficientFunds | NoSignal

  /** The outcome for one ticker: no order (with the reason the source logs),
      the zero-balance text alert, a buy order, or a sell order carrying the
      short-term-gains advisory flag. */
  datatype Decision =
    | Hold(reason: HoldReason)
    | Alert
    | Buy(shares: int)
    | Sell(quantity: real, shortTerm: bool)

  /** `calculate_shares_to_buy`: the whole number of shares that 2% of the
      balance pays for, `floor(balance * 0.02 / price)`. */
  function SharesToBuy(price: real, balance: real): (n: int)
    requires price > 0.0
    ensures n as real * price <= balance * RISK_PERCENTAGE < (n + 1) as real * price
    ensures balance >= 0.0 ==> n >= 0
  {
    var x := balance * RISK_PERCENTAGE / price;
    assert x * price == balance * RISK_PERCENTAGE;
    var n := x.Floor;
    ScaleLe(n as real, x, price);
    assert x < n as real + 1.0 == (n + 1) as real;
    ScaleLt(x, (n + 1) as real, price);
    assert balance * RISK_PERCENTAGE < (n + 1) as real * price;
    n
  }

  /** Multiplying by a positive price keeps a non-strict order. */
  lemma ScaleLe(a: real, b: real, p: real)
    requires p > 0.0 && a <= b
    ensures a * p <= b * p
  {
    assert (b - a) * p >= 0.0;
  }

  /** Multiplying by a positive price keeps a strict order. */
  lemma ScaleLt(a: real, b: real, p: real)
    requires p > 0.0 && a < b
    ensures a * p < b * p
  {
    assert (b - a) * p > 0.0;
  }

  /** Sizing example: 2% of 10000 buys 4 shares at 45. */
  lemma SharesToBuyExample()
    ensures SharesToBuy(45.0, 10000.0) == 4
  {
  }

  /** A point in time as a Python datetime holds it: naive (no UTC offset,
      what `datetime.now()` returns) or aware (what `datetime.now(tz=UTC)`
      returns, and what parsing a fill time that ends in Z yields). */
  datatype Instant = Naive(seconds: int) | Aware(seconds: int)

  /** `later - earlier` in seconds; None where Python raises TypeError
      because one operand is naive and the other aware. */
  function Elapsed(later: Instant, earlier: Instant): Option<int>
  {
    if later.Naive? != earlier.Naive? then None else Some(later.seconds - earlier.seconds)
  }

  /** The holding period as main.py:188 computes it: the naive local clock
      minus the aware fill time of the last buy, in whole days, or 0 without
      a purchase date. None is the TypeError that subtraction raises. */
  function HoldingDaysAsWritten(now: int, purchase: Option<int>): (r: Option<int>)
    ensures purchase.None? ==> r == Some(0)
  {
    if purchase.None? then Some(0)
    else
      match Elapsed(Naive(now), Aware(purchase.value))
      case None => None
      case Some(s) => Some(s / SECONDS_PER_DAY)
  }

  /** As written, every sell of a position with a known purchase date raises
      before the order is sent. */
  lemma HoldingDaysAsWrittenRaises(now: int, purchase: int)
    ensures HoldingDaysAsWritten(now, Some(purchase)).None?
  {
  }

  /** Whole days elapsed since the purchase with both times aware, as the
      cooldown check at main.py:244 takes them (timedelta.days rounds down);
      0 when there is no purchase date. */
  function HoldingDays(now: int, purchase: Option<int>): (days: int)
    ensures purchase.None? ==> days == 0
    ensures purchase.Some? ==>
              days * SECONDS_PER_DAY <= now - purchase.value < (days + 1) * SECONDS_PER_DAY
  {
    if purchase.None? then 0
    else
      var elapsed := Elapsed(Aware(now), Aware(purchase.value));
      elapsed.value / SECONDS_PER_DAY
  }

  /** The advisory `place_sell_order` prints: raised exactly when the position
      was bought less than 365 full days ago, or when there is no purchase date. */
  function ShortTermWarning(now: int, purchase: Option<int>): (w: bool)
    ensures w <==> purchase.None? || now - purchase.value < LONG_TERM_HOLD_PERIOD * SECONDS_PER_DAY
  {
    var days := HoldingDays(now, purchase);
    assert purchase.Some? && days >= LONG_TERM_HOLD_PERIOD ==>
             now - purchase.value >= LONG_TERM_HOLD_PERIOD * SECONDS_PER_DAY;
    days < LONG_TERM_HOLD_PERIOD
  }

  predicate IndicatorsReady(row: Row)
  {
    row.shortMa.Some? && row.longMa.Some? && row.rsi.Some?
  }

  /** Less than 720 hours have passed since the latest filled buy. */
  predicate CooldownActive(now: int, lastBuy: Option<int>)
  {
    lastBuy.Some? && now - lastBuy.value < COOLDOWN_PERIOD_HOURS * SECONDS_PER_HOUR
  }

  /** Every early-return gate lets the ticker through. */
  predicate GatesPass(rows: nat, row: Row, broker: Broker, now: int)
  {
    rows >= MIN_ROWS && IndicatorsReady(row) && broker.balance > 0.0 && !CooldownActive(now, broker.lastBuy)
  }

  /** Golden cross, oversold, and no position held. */
  predicate BuySignal(row: Row, broker: Broker)
    requires IndicatorsReady(row)
  {
    row.shortMa.value > row.longMa.value && row.rsi.value < OVERSOLD && broker.positionQty == 0.0
  }

  /** Death cross, overbought, and a long position held. */
  predicate SellSignal(row: Row, broker: Broker)
    requires IndicatorsReady(row)
  {
    row.shortMa.value < row.longMa.value && row.rsi.value > OVERBOUGHT && broker.positionQty > 0.0
  }

  /** The decision `execute_strategy` takes on the last row of a frame with
      `rows` rows. */
  function Decide(rows: nat, row: Row, broker: Broker, now: int): (d: Decision)
    requires row.close > 0.0
    ensures rows < MIN_ROWS ==> d == Hold(NotEnoughData)
    ensures rows >= MIN_ROWS && !IndicatorsReady(row) ==> d == Hold(IndicatorsMissing)
    ensures rows >= MIN_ROWS && IndicatorsReady(row) && broker.balance <= 0.0 ==> d == Alert
    ensures (rows >= MIN_ROWS && IndicatorsReady(row) && broker.balance > 0.0
             && CooldownActive(now, broker.lastBuy)) ==> d == Hold(Cooldown)
    ensures d.Buy? <==> GatesPass(rows, row, broker, now) && BuySignal(row, broker)
                        && SharesToBuy(row.close, broker.balance) > 0
    ensures d.Buy? ==> d.shares == SharesToBuy(row.close, broker.balance)
    ensures d.Sell? <==> GatesPass(rows, row, broker, now) && SellSignal(row, broker)
    ensures d.Sell? ==> d.quantity == broker.positionQty
                        && d.shortTerm == ShortTermWarning(now, broker.lastBuy)
    ensures d == Hold(InsufficientFunds) <==>
              GatesPass(rows, row, broker, now) && BuySignal(row, broker)
              && SharesToBuy(row.close, broker.balance) <= 0
    ensures d == Hold(NoSignal) <==>
              GatesPass(rows, row, broker, now) && !BuySignal(row, broker) && !SellSignal(row, broker)
  {
    if rows < MIN_ROWS then Hold(NotEnoughData)
    else if !IndicatorsReady(row) then Hold(IndicatorsMissing)
    else if broker.balance <= 0.0 then Alert
    else if CooldownActive(now, broker.lastBuy) then Hold(Cooldown)
    else if BuySignal(row, broker) then
      var shares := SharesToBuy(row.close, broker.balance);
      if shares > 0 then Buy(shares) else Hold(InsufficientFunds)
    else if SellSignal(row, broker) then
      Sell(broker.positionQty, ShortTermWarning(now, broker.lastBuy))
    else Hold(NoSignal)
  }

  /** The buy and sell rules never both apply. */
  lemma SignalsExclusive(row: Row, broker: Broker)
    requires IndicatorsReady(row)
    ensures !(BuySignal(row, broker) && SellSignal(row, broker))
  {
  }

  /** An order is placed only past every gate; a buy spends at most 2% of a
      positive balance and a sell closes the whole long position. */
  lemma OrdersRespectGates(rows: nat, row: Row, broker: Broker, now: int)
    requires row.close > 0.0
    ensures var d := Decide(rows, row, broker, now);
            (d.Buy? || d.Sell?) ==> GatesPass(rows, row, broker, now)
    ensures var d := Decide(rows, row, broker, now);
            d.Buy? ==> d.shares > 0 && d.shares as real * row.close <= broker.balance * RISK_PERCENTAGE
    ensures var d := Decide(rows, row, broker, now);
            d.Sell? ==> d.quantity > 0.0
  {
  }

  /** The cooldown blocks a sell as well as a buy: within 720 hours of the
      latest buy no order is placed whatever the indicators say. */
  lemma CooldownBlocksOrders(rows: nat, row: Row, broker: Broker, now: int)
    requires row.close > 0.0
    requires CooldownActive(now, broker.lastBuy)
    ensures !Decide(rows, row, broker, now).Buy? && !Decide(rows, row, broker, now).Sell?
  {
  }

  /** A buy 100 hours ago blocks an otherwise valid buy; one 800 hours ago
      does not, and the buy is sized from the balance. */
  lemma CooldownExamples(now: int)
    ensures var row := Row(50.0, Some(25.0), Some(120.0), Some(100.0));
            Decide(250, row, Broker(10000.0, Some(now - 100 * SECONDS_PER_HOUR), 0.0), now) == Hold(Cooldown)
    ensures var row := Row(50.0, Some(25.0), Some(120.0), Some(100.0));
            Decide(250, row, Broker(10000.0, Some(now - 800 * SECONDS_PER_HOUR), 0.0), now) == Buy(4)
  {
  }

  /** A sell with no purchase date, or a purchase under a year ago, carries
      the advisory; one bought two years ago does not. */
  lemma SellExamples(now: int)
    ensures var row := Row(80.0, Some(75.0), Some(90.0), Some(110.0));
            Decide(250, row, Broker(10000.0, None, 50.0), now) == Sell(50.0, true)
    ensures var row := Row(80.0, Some(75.0), Some(90.0), Some(110.0));
            Decide(250, row, Broker(10000.0, Some(now - 100 * SECONDS_PER_DAY), 50.0), now) == Sell(50.0, true)
    ensures var row := Row(80.0, Some(75.0), Some(90.0), Some(110.0));
            Decide(250, row, Broker(10000.0, Some(now - 730 * SECONDS_PER_DAY), 50.0), now) == Sell(50.0, false)
  {
  }

  /** A sell the strategy does decide on (past the cooldown, a position
      bought 100 days ago) is one the code as written raises on. */
  lemma SellAfterBuyRaisesAsWritten(now: int)
    ensures var row := Row(80.0, Some(75.0), Some(90.0), Some(110.0));
            var broker := Broker(10000.0, Some(now - 100 * SECONDS_PER_DAY), 50.0);
            Decide(250, row, broker, now).Sell? && HoldingDaysAsWritten(now, broker.lastBuy).None?
  {
  }

  /** The latest close is a market price, so positive (position sizing
      divides by it). */
  predicate PricedSeries(close: seq<real>)
  {
    |close| > 0 ==> close[|close| - 1] > 0.0
  }

  /** The last row of the indicator frame of `close`. */
  function LatestRow(close: seq<real>): (row: Row)
    requires |close| > 0
    ensures row.close == close[|close| - 1]
    ensures row.shortMa.Some? <==> |close| >= SHORT_WINDOW
    ensures row.longMa.Some? <==> |close| >= LONG_WINDOW
    ensures row.rsi.Some? ==> |close| >= RSI_WINDOW && 0.0 <= row.rsi.value <= 100.0
  {
    var f := Enrich(close);
    var i := |close| - 1;
    RsiDefinedness(close, i);
    Row(close[i], f.rsi[i], f.shortMa[i], f.longMa[i])
  }

  /** `execute_strategy` on a freshly downloaded or cached series: enrich it,
      then decide on its last row. An empty frame fails the length gate before
      any row is read. */
  function Evaluate(close: seq<real>, broker: Broker, now: int): (d: Decision)
    requires PricedSeries(close)
    ensures |close| < MIN_ROWS ==> d == Hold(NotEnoughData)
  {
    if |close| == 0 then Hold(NotEnoughData)
    else Decide(|close|, LatestRow(close), broker, now)
  }

  /** With 200 rows both moving averages exist on the last row, so the
      indicators are missing exactly when the RSI is NaN: when the last 14
      closes did not move at all. */
  lemma MissingIndicatorsMeansFlat(close: seq<real>, broker: Broker, now: int)
    requires PricedSeries(close)
    ensures Evaluate(close, broker, now) == Hold(IndicatorsMissing) <==>
              |close| >= MIN_ROWS
              && forall k :: |close| - RSI_WINDOW <= k < |close| ==> close[k] == close[k - 1]
  {
    var n := |close|;
    if n >= MIN_ROWS {
      var i := n - 1;
      RsiDefinedness(close, i);
      forall k | n - RSI_WINDOW <= k < n
        ensures (Gains(close)[k] == 0.0 && Losses(close)[k] == 0.0) <==> close[k] == close[k - 1]
      {
        GainLossSplit(Delta(close, k));
      }
    }
  }
}
