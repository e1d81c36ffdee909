# hodlol core, modelled in Dafny

hodlol is a cryptocurrency trading simulator. A **trader** holds a fund in one
symbol (for example 1000 USDT). It splits the fund between its **strategies** in
proportion to their weights. Each funded strategy gets its own **portfolio**.
In every pass of the main loop, if the exchange has been marked dirty, the
trader ticks every strategy. A strategy may send an **order request** back to
the trader. The trader `consider`s the request: an affordable limit buy or
limit sell moves the amounts between the portfolio's balances at once.

**Tickers** poll the exchange and append what they get to a time series:
- a quote ticker appends the current quote;
- a candle ticker asks for the candles since the timestamp of the last one it holds, and appends all
  of them without filtering;
- an order ticker appends an order snapshot only when the order's status or
  filled amount has changed.

A quote or candle ticker marks the exchange dirty after every step, even
when no candle came back. An order ticker marks it dirty only when it has
appended a snapshot. A ticker's file
name is derived from the market symbol with its first `/` replaced by `-`. In
backtests, a **mock API** stands in for the exchange. It reads recorded ticker
and candle series, fixes the scenario window to the span of the ticker
records, and answers `fetchTicker`/`fetchOHLCV` with the record nearest to
the requested time.

Files:
- `wrappers.dfy` holds `Option` and `Result`.
- `time_series.dfy` holds ticks and series.
- `market.dfy` holds pairs, order requests and the exchange's dirty flag and clock.
- `portfolio.dfy` holds the ledger and its valuation.
- `trader.dfy` holds fund division, admission of requests and the main loop.
- `ticker.dfy` holds the tickers.
- `mock_api.dfy` holds the backtest API.

Behaviour that the code pins down and that the model follows:
- A balance that is missing reads as 0. So does a balance that holds 0, because the code tests entries for truthiness.
- `remove` is `add` of the negated amount.
- `buy` and `sell` debit and credit at once. There is no reservation of funds for pending orders.
- Request types other than limit buy and limit sell are ignored. They are not treated as an error.
- An affordable request on a market that the exchange does not know fails inside `buy`/`sell`. Only a request with cost ≤ 0 can reach that point. The model reports it as `UnknownMarketFault`.
- The main loop ticks every strategy, funded or not.
- The first timestamp and the last timestamp of every ticker series set the scenario window. This happens only when the scenario has no start yet.

## Model

| member | source | states |
|---|---|---|
| Portfolios.BalanceOf | app/model/base/portfolio.js:23-26 | a symbol's balance is its entry, and 0 when it has none |
| Portfolios.Credit | app/model/base/portfolio.js:12-17 | adding `amount` makes the symbol's balance grow by exactly `amount`; a missing symbol ends up holding `amount`; the symbol joins the keys; every other balance is unchanged |
| Portfolios.ZeroEntryIsMissing | app/model/base/portfolio.js:12-26 | a balance entry holding 0 reads, and is added to, exactly like a missing entry |
| Portfolios.Portfolio.constructor | app/model/base/portfolio.js:6-10 | a new portfolio is bound to its exchange and has no balances |
| Portfolios.Portfolio.Add | app/model/base/portfolio.js:12-17 | the new balances are the old ones credited with `amount` on `symbol` |
| Portfolios.Portfolio.Remove | app/model/base/portfolio.js:19-21 | the new balances are the old ones credited with `-amount`, i.e. `remove` is `add` of the negation |
| Portfolios.BalanceByMarket | app/model/base/portfolio.js:28-32 | 0 for a market the exchange does not know; otherwise the balance of the market's quote or base currency, as asked |
| Portfolios.CanAffordBuy | app/model/base/portfolio.js:34-37 | a buy is affordable exactly when its cost is at most the quote balance; exactly when the cost is ≤ 0 for an unknown market |
| Portfolios.CanAffordSell | app/model/base/portfolio.js:39-42 | a sell is affordable exactly when its cost is at most the base balance (the code compares cost, not amount); exactly when the cost is ≤ 0 for an unknown market |
| Portfolios.Bought | app/model/base/portfolio.js:44-47 | a buy adds `amount` to the base balance and takes `cost` from the quote balance; both currencies become keys; when base and quote are the same symbol, it nets amount − cost; nothing else changes |
| Portfolios.Sold | app/model/base/portfolio.js:49-52 | a sell adds `cost` to the quote balance and takes `amount` from the base balance; when base and quote are the same symbol, it nets cost − amount; nothing else changes |
| Portfolios.Portfolio.Buy | app/model/base/portfolio.js:44-47 | the new balances are `Bought` of the old ones |
| Portfolios.Portfolio.Sell | app/model/base/portfolio.js:49-52 | the new balances are `Sold` of the old ones |
| Portfolios.BuyThenSellRestores | app/model/base/portfolio.js:44-52 | selling what was just bought, at the same amount and cost, gives every symbol its old balance back |
| Portfolios.Portfolio.Value | app/model/base/portfolio.js:54-67 | succeeds exactly when every held symbol other than the quote has a price; the total is the sum over all balances of quote balance or rate × balance; each entry is that symbol's contribution; on failure, names a held symbol without a price |
| Portfolios.SumRemove | app/model/base/portfolio.js:56-65 | the valuation sum can take out any one symbol first, so it does not depend on the order `for…in` visits the balances |
| Portfolios.SumAgree | app/model/base/portfolio.js:56-65 | two ledgers whose symbols contribute equally have the same valuation total |
| Portfolios.CreditWorth | app/model/base/portfolio.js:12-17 | crediting `amount` to a symbol changes the portfolio's worth by `amount` times that symbol's rate (1 for the quote) |
| Portfolios.BuyAtRateKeepsWorth | app/model/base/portfolio.js:44-47 | a buy whose cost is amount × the market price leaves the worth in the quote currency unchanged |
| Portfolios.SellAtRateKeepsWorth | app/model/base/portfolio.js:49-52 | a sell whose cost is amount × the market price leaves the worth in the quote currency unchanged |
| Portfolios.FundedBuyValuation | app/model/base/portfolio.js:44-67 | 1000 USDT, buying 50 ETH for 500, holds 500 USDT and 50 ETH, worth 1100 USDT at 12 USDT per ETH |
| Engine.SumWeight | app/model/trader/index.js:123-125 | the weight sum of no strategies is 0 |
| Engine.SumWeightSplit | app/model/trader/index.js:123-125 | the left fold of weights is additive over concatenation |
| Engine.Share | app/model/trader/index.js:53 | for a non-zero weight sum, a strategy's share times the sum is fund × weight; a zero sum gives 0 (see Left out) |
| Engine.Allocation | app/model/trader/index.js:48-53 | one share per strategy, in order: fund × weight / (sum of all weights) |
| Engine.FundedIsSum | app/model/trader/index.js:54 | when no share is negative, the shares that pass the `amount > 0` test add up to the sum of all shares |
| Engine.SumScaled | app/model/trader/index.js:50-53 | scaling every weight by one factor scales the weight sum by that factor |
| Engine.ScaledFunded | app/model/trader/index.js:50-54 | with non-negative weights and factor, the funded shares of the scaled weights add up to the factor times the weight sum |
| Engine.DivvyUpConserves | app/model/trader/index.js:48-61 | with a non-negative fund, non-negative weights and a positive weight sum, the amounts handed to funded strategies add up to exactly the trader's fund |
| Engine.Strategy.constructor | app/model/trader/index.js:33-36 | a strategy starts with its weight, no registration and no portfolio |
| Engine.Trader.constructor | app/model/trader/index.js:33-44 | the trader holds its exchange, strategies, fund symbol and amount and scenario end, and has ticked nothing |
| Engine.Trader.Register | app/model/trader/index.js:55-57 | the strategy records its allotment and gets a fresh portfolio on the trader's exchange holding exactly that amount of the fund symbol |
| Engine.Trader.InitStrategies | app/model/trader/index.js:48-61 | every strategy with a positive share is registered with exactly that share and a fresh portfolio; the others are untouched; no two funded strategies share a portfolio |
| Engine.Admit | app/model/trader/index.js:86-99 | non-limit requests are ignored; a limit buy (sell) changes the balances exactly when it is affordable and its market is known, and then by `Bought` (`Sold`) at amount and amount × price; an affordable request on an unknown market faults; nothing else changes the balances |
| Engine.Trader.Consider | app/model/trader/index.js:86-99 | the strategy's portfolio ends with the balances `Admit` gives, and the outcome is `Admit`'s |
| Engine.SecondBuyRefused | app/model/trader/index.js:88-92 | funds are debited at once: after an admitted buy, a second buy on the same market that the original quote balance could not cover together with the first is refused and leaves the balances alone |
| Engine.EveryOnce | app/model/trader/index.js:68 | the ticking order visits every strategy position once, in list order |
| Engine.Trader.Iterate | app/model/trader/index.js:67-80 | a dirty exchange ticks every strategy once and is left clean; a backtest clock moves on 1000 ms; the pass reports the end exactly when a backtest clock has passed the scenario end |
| Engine.Trader.RunBacktest | app/model/trader/index.js:64-80 | the backtest loop stops at the first second past the scenario end, after at least one pass; only the first pass can find the exchange dirty |
| Market.Exchange.constructor | app/model/trader/index.js:38-44 | an exchange starts clean, at its start time, with its markets and mode |
| Market.Exchange.Invalidate | src/models/ticker.ts:32 | invalidating marks the exchange dirty and changes nothing else |
| Tickers.Extension | src/models/ticker.ts:83-85 | each ticker kind's extension (`ticker`, `ohlcv`, `order`) is a non-empty word without a dot |
| Tickers.ReplaceFirstAt | src/models/ticker.ts:72 | `replace` with a string pattern changes only the first occurrence of the character and keeps every other position |
| Tickers.ReplaceFirstAbsent | src/models/ticker.ts:72 | a symbol without `/` is left as it is |
| Tickers.ReplaceFirst | src/models/ticker.ts:72 | replacing keeps the length; `ReplaceFirstAt` states which position changes |
| Tickers.Filename | src/models/ticker.ts:71-73 | the file name is the symbol's length long before a dot, and ends in the kind's extension |
| Tickers.PairFilename | src/models/ticker.ts:71-73 | for a pair `BASE/QUOTE` whose base has no slash, the file name is `BASE-QUOTE.<extension>` |
| Tickers.SlashReplaced | src/models/ticker.ts:72 | the slash after a slash-free base is the one that becomes `-` |
| Tickers.FilenameDeterminesKind | src/models/ticker.ts:71-73 | two tickers with the same file name are of the same kind |
| Tickers.PollTimeout | src/models/ticker.ts:13 | the poll interval is 1 ms in playback; otherwise 35000 ms for candle tickers (line 99) and 5000 ms for the others |
| Tickers.Cursor | src/models/ticker.ts:106-107 | the candle ticker's `since` is the last record's timestamp, or the scenario time for an empty series |
| Tickers.CursorBoundsSeries | src/models/ticker.ts:106-107 | the `since` cursor of a candle ticker is at or after every timestamp in its ascending series |
| Tickers.AppendAfterCursor | src/models/ticker.ts:105-111 | appending ascending candles that are all strictly newer than the cursor keeps the series ascending (a premise on the exchange, see Left out) |
| Tickers.InclusiveFetchRepeatsLast | src/models/ticker.ts:105-111 | the ticker filters nothing: an answer holding a candle stamped at the cursor records that candle twice, and the series stops ascending |
| Tickers.HasChanged | src/models/ticker.ts:140-146 | an order snapshot counts as changed exactly when the series is empty or the last snapshot differs in status or filled amount |
| Tickers.ChangedKeepsLog | src/models/ticker.ts:132-146 | an order series stays a series of snapshots; an unchanged snapshot is one equal in state to the last one |
| Tickers.After | src/models/ticker.ts:29-33 | one step of any kind (quote append, candle batch read at the poll's own clock as at lines 105-111, or changed order snapshot as at lines 132-138) only appends to the series, and keeps an order series a series of snapshots |
| Tickers.Replay | src/models/ticker.ts:19-24 | replaying polls only extends the series and keeps an order series a series of snapshots |
| Tickers.ReplaySnoc | src/models/ticker.ts:19-24 | replaying one more poll is one more step after the replay of the earlier ones |
| Tickers.IdenticalPollsRecordOnce | src/models/ticker.ts:132-138 | polling the same order state twice records it at most once |
| Tickers.Ticker.constructor | src/models/ticker.ts:10-14 | a new ticker has an empty series, a running thread and the timeout for its mode and kind |
| Tickers.Ticker.StepQuote | src/models/ticker.ts:29-33 | the fetched quote is appended and the exchange is marked dirty |
| Tickers.Ticker.StepCandles | src/models/ticker.ts:105-114 | candles are fetched since the last record's timestamp, or since the scenario time for an empty series, and all of them are appended in order; the exchange is marked dirty |
| Tickers.Ticker.StepOrder | src/models/ticker.ts:132-138 | the snapshot is appended, and the exchange marked dirty, exactly when it has changed |
| Tickers.Ticker.Step | src/models/ticker.ts:29-33 | one step of any kind leaves the series as `After` says; quote and candle steps always mark the exchange dirty; an order step marks it exactly when the series grew, or leaves it as it was |
| Tickers.Ticker.Kill | src/models/ticker.ts:67-69 | killing stops the ticker's thread |
| Tickers.Ticker.Advance | src/models/ticker.ts:20-21 | one pass of the run loop carries the series from the replay of the first n polls to that of the first n + 1, keeping the dirty-flag bookkeeping |
| Tickers.Ticker.Run | src/models/ticker.ts:19-24 | a running ticker steps once per poll until it is killed and then stops; its series is the replay of the polls it took; a stopped ticker takes none; quote and candle tickers that stepped leave the exchange dirty; an order ticker leaves it dirty exactly when its series grew or it was dirty before |
| MockApi.Scenario.constructor | app/model/base/mock-api.js:30-33 | a scenario holds the start and end it was configured with, either possibly undefined |
| MockApi.Scenario.Fill | app/model/base/mock-api.js:30-33 | a scenario without a start gets the window [min, max]; one with a start keeps its window |
| MockApi.Hydrate | app/model/base/mock-api.js:22 | reading a series replaces its records with what its source holds |
| MockApi.SeriesFor | app/model/base/mock-api.js:10-15 | there is one empty series per feed symbol, reading from that symbol's source |
| MockApi.Scan | app/model/base/mock-api.js:19-29 | on success every ticker series is read and the bounds are the least first timestamp and the greatest last timestamp; reading an empty series fails and names it |
| MockApi.ScanStep | app/model/base/mock-api.js:23-28 | one series' first and last records move the running minimum and maximum just as the two comparisons do |
| MockApi.ReadAll | app/model/base/mock-api.js:34 | every candle series is read |
| MockApi.BoundsUnique | app/model/base/mock-api.js:19-29 | the scenario window read from a set of ticker series is unique |
| MockApi.NoSeriesBounds | app/model/base/mock-api.js:19-20 | with no ticker series, the window is [Number.MAX_VALUE, 0] |
| MockApi.WindowCoversRecords | app/model/base/mock-api.js:19-33 | when every ticker series is ascending, the window holds every ticker record's timestamp |
| MockApi.MockAPI.constructor | app/model/base/mock-api.js:7-16 | the mock API has one unread series per ticker symbol and one per candle symbol of the feed |
| MockApi.MockAPI.Read | app/model/base/mock-api.js:18-35 | on success all ticker and candle series are read, and an unset scenario gets the window of the ticker records; on failure, no candle series and no scenario field has changed |
| MockApi.MockAPI.FetchTicker | app/model/base/mock-api.js:37-41 | the answer is the nearest record of that pair's ticker series; there is none for an unknown pair (see Left out) |
| MockApi.MockAPI.FetchOHLCV | app/model/base/mock-api.js:43-48 | the answer is the nearest candle of that pair's series, in CCXT format; there is none for an unknown pair (see Left out) |

## Left out

- Numbers are exact reals and unbounded integers. IEEE double rounding, `NaN` and `Infinity` are not modelled.
- Engine.Share: a weight sum of 0 gives every strategy a share of 0, so nobody is funded. In the code the division yields `NaN` when fund × weight is 0, `-Infinity` when it is negative, and `Infinity` when it is positive. `Infinity > 0` holds, so lines 54-57 of the trader register that strategy with an infinite allotment.
- Engine.DivvyUpConserves: proved only for a non-negative fund and non-negative weights with a positive sum. With mixed signs, the positive shares add up to more than the fund. With a negative fund, nothing is handed out.
- Portfolios.Portfolio.Value: the exchange's `price` is a parameter that may have no answer, and a missing price is a `Failure`. In the code, a missing price gives `NaN`. The quote total and the per-symbol entries are kept apart, whereas the code keeps them in one object, where a symbol named `total` would collide.
- Portfolio ids (`uuid`) are randomness and are left out.
- Trader `init`, `serialize`, `deserialize` and `printPerformance` are not modelled. They are configuration file I/O and console output.
- Directory creation, `process.exit` and the sleeps of the run loop are left out.
- Strategies are external code. `register`, `initSignals` and `tick` are recorded only as the strategy's allotment and the trader's tick log.
- The trader's live loop runs forever. `Iterate` models one pass of it.
- Engine.Trader.RunBacktest: the backtest loop is modelled without tickers running alongside it. So the exchange can only be dirty on the first pass.
- Tickers run concurrently with the trader. The thread, its sleeps and interleaving with other tasks are not modelled. `Run` receives as parameters the polls it will see and the number of steps before `kill` arrives. Each poll carries the scenario clock at that moment, which the candle step reads afresh.
- Exchange calls are parameters, modelled as values or functions: `fetchTicker`, `fetchOrder`, `fetchOHLCV`, `price`, the market table behind `sym` and the exchange's name.
- File paths (`filepath`, `subdir`, `dataDir`) are not modelled. Neither is series recording (`series.write`), serializers, or `seriesFromTicker`.
- Series internals (`nearest`, `outCCXT`, reading a file) are parameters. A series read is modelled as replacing its records with what its source holds.
- MockApi.MockAPI.Read: the order in which the ticker series are read is left unspecified. On failure, the model states only that each ticker series is either unread or read.
- Tickers.AppendAfterCursor: the candle ticker does not remove duplicates. Its series stays ascending only if `fetchOHLCV` returns candles strictly after `since`. `InclusiveFetchRepeatsLast` shows that an exchange which includes the candle at `since` gets it recorded twice. The exchange wrapper that decides this is not part of this model.
- MockApi.MockAPI.FetchTicker and MockApi.MockAPI.FetchOHLCV: a pair without a series gives `None`. In the code, `series` is `undefined` there, and calling `nearest` on it throws a `TypeError`.
- A failed read is a `Failure` result. In the code, it is a `TypeError` raised when an empty series is indexed.
