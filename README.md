# AlgoTrader strategy core in Dafny

A model of the decision-and-cache core of `main.py`, a daily trading bot for
S&P 500 stocks. Each run stamps a local price cache with today's date and
resets it when the stamp is stale. It then goes through the ticker universe,
skipping the BRK and BF share classes. For each remaining ticker it gets the
closing-price series from the cache, or downloads it on a miss. It adds a
14-row RSI and 50- and 200-row moving averages, and decides:

- nothing, when there is too little data or an indicator is NaN;
- a text alert, when the balance is not positive;
- nothing, while a 720-hour cooldown after the last buy runs;
- a buy sized at 2% of the balance, on a golden cross with RSI below 30 and no position;
- a sell of the whole position, on a death cross with RSI above 70, with a
  short-term-gains advisory when the position is under 365 days old;
- otherwise nothing.

Modules (one file each):

- `Wrappers` (`wrappers.dfy`): `Option`, which also stands for a NaN cell.
- `Cache` (`cache.dfy`): the cache as a value (`CacheState`: an optional date
  stamp, separate from a `map` from ticker to `Entry`). It has the pure rules
  `ClearIfNeeded`, `Filled`, `Served` and `AfterLookup`. The `Store` class is the mutable
  cache that the loop threads through every lookup. Its ghost `downloads` log
  and `Valid()` invariant state the rule "at most one download per ticker per
  day".
- `Indicators` (`indicators.dfy`): the indicator columns as `seq<Option<real>>`
  over exact reals: gain/loss split, rolling means with `min_periods = window`,
  RSI, moving averages.
- `Strategy` (`strategy.dfy`): position sizing, holding period, the
  short-term advisory, and the gate-then-signal decision `Decide`.
  `Evaluate` applies `Decide` to the last row of an enriched series.
- `Orchestrator` (`orchestrator.dfy`): the main loop as a method over a
  `Store`, specified by the pure `Plan` of a run (its outcomes),
  `FillAll` (the cache it leaves behind) and `NewDownloads` (what it downloads).

External inputs are parameters:

- the day's data source is a function `download: string -> Series`;
- the brokerage reads (balance, last filled buy, position) are
  `gateway: string -> Broker`;
- the clock is an integer `now` in seconds since the epoch (UTC).

Behaviour of the code that the model keeps as written:

- The zero-balance alert is raised for every ticker that reaches that gate,
  not once per run.
- The 720-hour cooldown blocks sells as well as buys, because its early
  return comes before both rules.
- Positions always come from the brokerage; there is no cache-held trade
  metadata and no configurable cooldown.
- A zero average loss follows float arithmetic. The RSI is 100 when the
  average gain is positive. It is NaN (`None`) when both averages are zero,
  and that NaN is what the indicator gate then catches.

## Model

| member | source | states |
|---|---|---|
| `Cache.ClearIfNeeded` | main.py:56-61 | The result is always stamped with today's date. A cache already stamped today comes back unchanged. Any other cache, including one without a stamp, loses every ticker entry. No ticker that was not a hit becomes one. |
| `Cache.ClearIdempotent` | main.py:56-61 | Clearing twice for the same day equals clearing once. |
| `Cache.Filled` | main.py:75-77 | After a miss, the ticker is a hit whose `data` slot holds the downloaded series; the ticker's key is added if it had none. The date and every other ticker's entry are unchanged. |
| `Cache.Served` | main.py:64-81 | A lookup returns the stored series on a hit, and the download of that ticker on a miss. |
| `Cache.FilledKeepsServed` | main.py:64-81 | Filling a missed ticker with its download changes no lookup result for any ticker, and every earlier hit stays a hit. |
| `Cache.AfterLookup` | main.py:64-81 | The cache after one lookup keeps its date, holds the ticker as a hit, and serves the ticker what the lookup returned. |
| `Cache.AfterLookupKeeps` | main.py:64-81 | After one lookup the date is the same, the ticker is a hit, and the only possible new key is that ticker. Every earlier hit and every other ticker keeps its entry. No lookup result for any ticker has changed. |
| `Cache.SecondLookupHits` | main.py:66-77 | After a lookup and its update, a second lookup of the same ticker is a hit and returns what the first returned. |
| `Cache.Store.Valid` | main.py:64-81 | The store's invariant: the day's download log lists no ticker twice, and every ticker in it is served from the cache. With `Fetch` this gives at most one download per ticker per day. |
| `Cache.Store.constructor` | main.py:276 | The store starts as the loaded cache, with no downloads yet. |
| `Cache.Store.ResetIfStale` | main.py:282 | The store becomes `ClearIfNeeded` of itself. The download log is kept only when the date matched. |
| `Cache.Store.Fetch` | main.py:64-81 | Returns what `Served` says, and leaves the store equal to `AfterLookup` of its old state. A hit changes nothing and downloads nothing. A miss downloads once, logs that download and leaves the store equal to `Filled`. Both keep `Valid()`: no ticker is downloaded twice in a day. |
| `Indicators.Delta` | main.py:85 | The first delta is NaN and every later one is defined. A defined delta added to the previous close gives the current close. |
| `Indicators.Gain` | main.py:86 | The gain is never negative. It is positive exactly when the delta is defined and positive. |
| `Indicators.Loss` | main.py:87 | The loss is never negative. It is positive exactly when the delta is defined and negative. |
| `Indicators.GainLossSplit` | main.py:85-87 | Gain and loss are never both positive, and gain minus loss equals the delta. The NaN first delta counts as zero gain and zero loss. Both are zero exactly when the delta is NaN or zero. |
| `Indicators.RollingMean` | main.py:88-89 | A rolling mean with `min_periods = window` has one cell per row. The cell is defined exactly from row window-1 on. |
| `Indicators.RollingMeanBounds` | main.py:97-98 | A defined rolling mean lies between any lower and upper bound of the values in its window. |
| `Indicators.RollingMeanNonNegative` | main.py:88-89 | The rolling mean of non-negative values is non-negative. |
| `Indicators.RollingMeanZero` | main.py:88-89 | A rolling mean of non-negative values is zero exactly when every value in its window is zero. |
| `Indicators.MeansNonNegative` | main.py:88-89 | The average gain and the average loss are non-negative wherever they are defined. |
| `Indicators.RsiOf` | main.py:90-91 | With non-negative averages, a defined RSI is the value R with R (G + L) = 100 G for average gain G and average loss L: 100 G / (G + L), and 100 when only the loss is zero. It lies in [0, 100]. It is NaN exactly when an average is NaN or both are zero. |
| `Indicators.Rsi` | main.py:84-93 | The RSI column has one cell per row of the closes. |
| `Indicators.RsiDefinedness` | main.py:84-93 | Every defined RSI value lies in [0, 100], and none is defined before row 13. From row 13 on, the RSI is NaN exactly when the 14 gains and 14 losses ending at that row are all zero. |
| `Indicators.Enrich` | main.py:96-98 | The enriched frame keeps the closes and has three columns aligned with them. `50_MA` is defined exactly from row 49 and `200_MA` exactly from row 199. |
| `Strategy.SharesToBuy` | main.py:123-127 | For a positive price, n shares cost at most 2% of the balance and n+1 shares cost more. n is non-negative when the balance is. |
| `Strategy.SharesToBuyExample` | main.py:123-127 | A balance of 10000 at price 45 buys 4 shares. |
| `Strategy.HoldingDaysAsWritten` | main.py:188 | Without a purchase date the holding period is 0 days. |
| `Strategy.HoldingDaysAsWrittenRaises` | main.py:188 | As written, the holding period raises TypeError whenever a purchase date exists, because a naive clock is subtracted from an aware fill time. |
| `Strategy.HoldingDays` | main.py:188 | Corrected holding period: 0 without a purchase date. Otherwise it is the number of whole days elapsed, rounded down. |
| `Strategy.ShortTermWarning` | main.py:188-190 | The advisory is raised exactly when there is no purchase date or the purchase is less than 365 full days old. |
| `Strategy.Decide` | main.py:219-267 | The gates apply in order: under 200 rows, then a NaN indicator (hold), then a non-positive balance (alert), then an active cooldown (hold). A buy happens exactly when every gate passes, 50_MA > 200_MA, RSI < 30, the position is 0 and the sized amount is positive; it buys exactly that amount. A sell happens exactly when every gate passes, 50_MA < 200_MA, RSI > 70 and the position is positive; it sells the whole position with the advisory flag. Insufficient funds and "no signal" are holds with their exact conditions. |
| `Strategy.SignalsExclusive` | main.py:250-260 | The buy and sell rules never both apply. |
| `Strategy.OrdersRespectGates` | main.py:232-265 | An order is placed only when all gates pass. A buy is for a positive number of shares costing at most 2% of the balance. A sell is for a positive quantity. |
| `Strategy.CooldownBlocksOrders` | main.py:243-247 | Within 720 hours of the last buy, neither a buy nor a sell is placed. |
| `Strategy.CooldownExamples` | main.py:243-254 | A buy 100 hours ago blocks an otherwise valid buy. A buy 800 hours ago does not, and 4 shares at 50 are bought from a balance of 10000. |
| `Strategy.SellExamples` | main.py:259-263 | Selling a position of 50 carries the advisory when there is no purchase date or the buy was 100 days ago. It does not when the buy was 730 days ago. |
| `Strategy.SellAfterBuyRaisesAsWritten` | main.py:186-190 | A sell that the strategy does decide on (a position bought 100 days ago) is one on which the code as written raises. |
| `Strategy.LatestRow` | main.py:225-228 | The decision row carries the last close of the series. Its 50_MA is defined exactly when the series has at least 50 rows, and its 200_MA exactly when it has at least 200. A defined RSI implies at least 14 rows and lies in [0, 100]. |
| `Strategy.Evaluate` | main.py:214-222 | A series with fewer than 200 rows is never traded. |
| `Strategy.MissingIndicatorsMeansFlat` | main.py:220-230 | The indicator gate stops a series exactly when it has at least 200 rows and its last 15 closes are all equal, so that the RSI is 0/0. Both moving averages always exist on row 200 and later. |
| `Orchestrator.TradableTickers` | main.py:285-288 | The tickers the loop processes, in universe order; never more than the universe holds. Their membership is given by `TradableTickersMembers`. |
| `Orchestrator.TradableTickersMembers` | main.py:285-288 | The processed tickers are exactly the universe's tickers that start with neither BRK nor BF. |
| `Orchestrator.TradableTickersStep` | main.py:285-288 | One more universe ticker extends the processed tickers by that ticker exactly when it is tradable, keeping their order. |
| `Orchestrator.DenylistExample` | main.py:287-288 | BRK.B and BF.B are dropped; AAPL, MSFT and BR are kept in order. |
| `Orchestrator.FillAll` | main.py:285-290 | The cache left by the loop keeps the date, and no lookup of any ticker returns anything different from the starting cache. |
| `Orchestrator.FillAllContents` | main.py:285-290 | After the loop, the keys are the old keys plus the tradable tickers, and every tradable ticker is a hit. Entries that were hits or are not tradable are unchanged. Every tradable ticker that was not a hit holds its download. |
| `Orchestrator.NewDownloads` | main.py:285-290 | The tickers a loop downloads, in order: only tradable tickers of the universe, each listed once. A ticker is listed exactly when the starting cache does not serve it and the cache after the loop does. |
| `Orchestrator.NewDownloadsStep` | main.py:285-290 | Each loop iteration appends the current ticker to the downloads exactly when it is tradable and not yet a hit, and appends nothing otherwise. |
| `Orchestrator.Plan` | main.py:285-290 | A run has one outcome per processed ticker. |
| `Orchestrator.PlanAt` | main.py:285-290 | Outcome k is for the k-th processed ticker. It is the strategy's decision on the series the day's cache serves for that ticker. |
| `Orchestrator.ProcessTicker` | main.py:289-290 | The loop body decides on the cached or downloaded series, and leaves the store equal to `AfterLookup` of its old state. The download log is kept and gains the ticker exactly when it was a miss. |
| `Orchestrator.ProcessStep` | main.py:285-290 | One iteration, including the `continue` for BRK and BF symbols, moves the store from `FillAll` and the outcomes from `Plan` of the tickers so far to those of one more ticker. The log is kept and gains the ticker exactly when it is tradable and was a miss. |
| `Orchestrator.ProcessUniverse` | main.py:285-290 | The loop's outcomes equal `Plan` of the cache it started from, and the store ends equal to `FillAll` of that cache. The download log is the old log followed by exactly `NewDownloads`: only tradable tickers of the universe, each at most once. |
| `Orchestrator.Run` | main.py:276-293 | After a run the store is stamped today and valid. The outcomes equal `Plan` of the cleared cache, and the saved cache equals `FillAll` of it. Every tradable ticker is cached. The download log is the day's earlier log (empty after a reset) followed by exactly `NewDownloads` of the cleared cache. |

## Left out

- Network I/O (Yahoo download, Alpaca account, orders, positions, fill history, the Wikipedia universe) is left out. These become the `download` and `gateway` parameters and the `tickers` argument. Their HTTP error handling (`get_position` returning 0 on an error, `get_account_balance` raising) is not modelled.
- Order submission and SMS sending are left out; a `Buy` or `Sell` decision stands for the order request.
- The pickle `load_cache`/`save_cache`, including the save inside every miss and the save at the end of the run, are left out. `Store.constructor` takes the loaded cache as a value.
- Float arithmetic is not modelled. Prices, means and the 2% risk fraction are exact reals, so rounding in the rolling means and in `balance * 0.02` is not captured.
- The source reads the clock again for every ticker it evaluates (the cooldown check) and again for each sell (the holding period). `Run` and `Plan` use one `now` for the whole run, so a run whose clock crosses a cooldown or 365-day boundary partway through can decide differently from the model for the later tickers.
- Times are whole seconds; sub-second parts of fill times are dropped. Reading the clock and parsing fill times are left out; `now` and the last buy time are inputs.
- Only the close column of the downloaded frame is modelled. `fetch_stock_data`'s `period` argument and unused `date_str` are not modelled, and the 250-day period is implicit in `download`.
- `calculate_rsi` and `calculate_moving_averages` write their columns into the cached frame in place. The model returns a new `Frame` value, so that aliasing with the cached object is not captured. It does not change any decision.
- Exceptions are not modelled. An exception raised for one ticker is not caught by the loop and ends the whole run; the model does not capture that abort. Division by a zero price is excluded by `PricedSeries`: the data source is assumed to return a positive latest close.
- The source keeps the date under the key 'date' among the ticker keys, so a ticker literally named "date" would collide with it. The model separates the two and does not capture that collision.
- `Strategy.HoldingDays` models the corrected computation (see Findings). The run uses it, so the as-written TypeError on a sell is captured only by the as-written members.

## Findings

| source | as written | input that shows it | evidently intended | confidence | as-written member | corrected member |
|---|---|---|---|---|---|---|
| main.py:188 | `datetime.datetime.now() - purchase_date` subtracts the aware fill time (parsed from a UTC timestamp) from a naive local clock, which raises TypeError. | A sell signal on a position of 50 whose last filled buy was 100 days ago. The cooldown has passed and `Decide` returns `Sell`, but computing the holding period raises, so no sell order is sent and the uncaught error ends the run. | Take `now` in UTC as the cooldown check at main.py:244 does, giving the holding period in whole days. | medium (depends on the broker's fill times carrying a UTC offset); not executed | `Strategy.SellAfterBuyRaisesAsWritten` | `Strategy.HoldingDays` |
