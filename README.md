# Portfolio valuation, modelled in Dafny

The repository is a set of prototype scripts for a stock-portfolio
dashboard. Their one piece of real logic is the valuation pipeline, which
appears in three drifting copies (`portfolio.py`, `app.py`, `graph.py`):

- **Aggregation** (`combine_individual_stock_totals`). The rows of the
  holdings table, `(symbol, quantity)`, are folded into a dict from symbol
  to total. The dict's items become the aggregated list, one entry per
  symbol, in first-seen order.
- **Current value** (`calculate_portfolio_value`). The sum of
  `price(symbol) * total` over the aggregated list. A symbol without a
  quote raises and ends the valuation.
- **Value history** (`get_portfolio_value_history`). Each symbol's
  one-minute closes are scaled by its quantity and merged into one
  accumulator list. portfolio.py adds elementwise when the symbol has as
  many bars as the accumulator has entries, and appends otherwise. app.py
  adds when the symbol has one bar more than that, and then appends one
  trailing point. graph.py always appends.
- **app.py's route** (`get_portfolio_value`). It shifts the timestamps
  back four hours and drops the last point of both lists.
- **graph.py's charts**. `update_graph` appends the latest bar to the
  shared `timestamps`/`prices` lists only when its timestamp is new, and
  shows the last 390 points. `update_portfolio_graph` appends the current
  value to the history and shows the last 1440.

Modules, one file each:

- `Wrappers`: `Option` and `Result`.
- `Holdings`: the aggregation and the current value. The three copies of
  the aggregation are the same code (portfolio.py:108-118, app.py:27-37,
  graph.py:129-139), and so are the two copies of
  calculate_portfolio_value (portfolio.py:121-136, graph.py:141-156), apart
  from a docstring and a commented-out print; their first half repeats the
  aggregation loop. Each is modelled once, and the
  rows below cite the copies in turn.
- `Series`: price bars, scaling and the reference minute value.
- `Portfolio`, `App`, `Graph`: each script's own history merge, plus the
  route (App) and the charts (Graph).
- `Drift`: lemmas comparing the three merge heuristics.

Inputs that stand in for collaborators:

- The holdings table is the input `stockList: seq<Holding>`.
- The market-data library is two inputs. `quote: string -> Option<real>`
  is get_stock_value; `None` is the empty frame on which
  `['Close'][0]` raises. `fetch: string -> seq<Bar>` is the one-day,
  one-minute history of a symbol. A `Bar` is a timestamp in seconds and
  a closing price, so the index and the `Close` column have equal length
  by construction.
- In update_graph, the latest bar's timestamp is a parameter. The nested
  copy (graph.py:25-42) records the bar's own close, also a parameter.
  The module-level copy (graph.py:201-218) records
  `get_stock_value(stockName)`, which is `quote(stockName)` and can fail.

Prices are `real`, quantities `int`. The scripts' `price * quantity` is
`Holdings.Worth`.

The code raises in the following cases, and each is a `Failure` in the
model:

- A history with no holdings: the loop variable `timestamps` (or app.py's
  `portfolio_value_per_minute`) is read unbound. This gives `NoHoldings`.
- app.py's last symbol has an empty series and `[-1]` raises. This gives
  `EmptySeries`.
- A symbol has no quote. This gives `NoQuote`, naming the first such
  symbol in aggregated order.

What the code does not do, and so the model does not do either:

- It does not report partial totals: a missing quote aborts the
  valuation.
- It does not return an empty series when there are no holdings: the
  history call raises.
- It does not align series by timestamp: it merges them by list length.
- It does not drop a still-forming last bar: app.py appends a duplicate
  of the last value, and the route then drops the last point of each list.

The lemmas say when the length heuristics give the right answer and when
they do not: `Portfolio.AlignedHistory`, `Portfolio.MisalignedAppends`,
`App.EqualLengthsAppend` and `Drift.EqualLengthsDisagree`.

## Model

| member | source | states |
|---|---|---|
| `Holdings.CombineIndividualStockTotals` | portfolio.py:108-118 | the dict loop followed by the items comprehension returns exactly `Aggregate(stockList)`, the symbols in first-seen order, each with its summed quantity |
| `Holdings.FirstSeenMembership` | app.py:33-36 | a symbol is a key of the aggregated dict exactly when some row holds it |
| `Holdings.AggregateEmpty` | portfolio.py:111-118 | the aggregated list is empty exactly when there are no rows |
| `Holdings.AggregateDistinct` | portfolio.py:114-117 | no symbol appears twice in the aggregated list |
| `Holdings.AggregateLookup` | graph.py:135-138 | a held symbol has an entry whose quantity is the sum of the quantities of its rows; a symbol no row holds has no entry |
| `Holdings.AggregateFirstSeenOrder` | app.py:33-36 | entries are ordered by the index of each symbol's first row (dict insertion order) |
| `Holdings.AggregateExamples` | portfolio.py:111-112 | `[('AAPL',5),('AAPL',5)]` gives `[('AAPL',10)]`, the empty list gives the empty list, and adding `('MSFT',2)` gives a second entry |
| `Holdings.CalculatePortfolioValue` | portfolio.py:121-136 | the running sum over the aggregated list equals `Valuation`: the sum of price * quantity, or the failure of the first symbol without a quote |
| `Holdings.ValuationQuoted` | graph.py:152-156 | when every position's symbol is quoted, the valuation succeeds with the sum of price * quantity over the positions (0 for none) |
| `Holdings.ValuationFailure` | portfolio.py:133-135 | the valuation fails exactly when some position has no quote, and then it names the first such position, all positions before it being quoted |
| `Holdings.ValuationStopsAtFailure` | graph.py:153-155 | once a prefix of the positions fails to value, the whole list fails with the same error |
| `Holdings.AggregatePreservesValue` | portfolio.py:124-125 | valuing the aggregated list gives the same sum as valuing the raw rows one by one |
| `Series.ScaledAt` | portfolio.py:155 | the scaled series has one entry per bar, the bar's close times the quantity |
| `Series.AddInPlace` | portfolio.py:162-163 | the indexed `+=` loop leaves the accumulator's length unchanged and adds to each entry the scaled value of the same index (app.py:63-64 runs the same loop) |
| `Portfolio.GetPortfolioValueHistory` | portfolio.py:139-168 | with no holdings the call fails (unbound `timestamps`); otherwise it returns the last aggregated symbol's timestamps and the merged accumulator `Accumulate` |
| `Portfolio.MergeStep` | portfolio.py:161-165 | with as many bars as accumulated entries the length is kept and entry `i` gains `scaled[i]`; otherwise the scaled series is appended |
| `Portfolio.AlignedHistory` | portfolio.py:161-163 | when all histories have the same length `n`, the result has `n` entries and entry `i` is the portfolio's value at minute `i` |
| `Portfolio.AccumulateLength` | portfolio.py:145-165 | the accumulator has at most as many entries as all histories have bars |
| `Portfolio.MisalignedAppends` | portfolio.py:164-165 | two histories of different lengths are concatenated, never summed, giving the sum of their lengths |
| `App.GetPortfolioValueHistory` | app.py:40-72 | the loop gives `History`: failure with no holdings or an empty last series; otherwise the last symbol's timestamps and the accumulator plus the last symbol's last scaled value |
| `App.MergeStep` | app.py:62-66 | with one more bar than accumulated entries the length is kept and each entry gains the matching scaled value, the last one left out; otherwise the whole scaled series is appended and the length grows by its length |
| `App.SingleSymbol` | app.py:62-67 | a single symbol with `n >= 2` bars gives `n + 1` values: its scaled series, then its last value again |
| `App.EqualLengthsAppend` | app.py:62-66 | histories of one common length `n >= 2` are all appended: the accumulator has `|ps| * n` entries |
| `App.DropLast` | app.py:103 | `s[:-1]` is a prefix of `s` one shorter, or empty for an empty `s` |
| `App.ToEasternShifts` | app.py:100 | the shift keeps length and order and moves every timestamp back 14400 seconds |
| `App.GetPortfolioValue` | app.py:90-103 | the route fails when the history fails; otherwise it returns the shifted timestamps and the values, each without its last point |
| `App.PayloadOfHistory` | app.py:101-103 | the route's `y` is exactly the merged accumulator (the trailing duplicate dropped) and its `x` has one entry fewer than the last symbol's timestamps |
| `App.SingleSymbolPayload` | app.py:100-103 | for one symbol with `n >= 2` bars the route sends `n - 1` timestamps and `n` values |
| `Graph.GetPortfolioValueHistory` | graph.py:288-305 | with no holdings the call fails; otherwise it returns the last symbol's timestamps and the concatenation of the scaled series in aggregated order |
| `Graph.ConcatenateLength` | graph.py:293-302 | the history's length is the sum of the histories' lengths |
| `Graph.ConcatenateSegment` | graph.py:301-302 | bar `i` of position `k`, scaled, sits at offset (bars of positions before `k`) + `i` |
| `Graph.LastN` | graph.py:40-42 | `s[-n:]` is the suffix of length min(`|s|`, `n`), all of `s` for `n = 0` |
| `Graph.PriceChart.constructor` | graph.py:21-22 | the chart's lists are the history's timestamps and closes |
| `Graph.PriceChart.UpdateGraph` | graph.py:25-42 | the lists become `AppendIfNew` of the old lists and the latest bar (timestamp and close); the displayed lists are the last 390 of each |
| `Graph.PriceChart.UpdateStockGraph` | graph.py:201-218 | with no quote for `stockName` the update fails and the lists are unchanged; otherwise the lists become `AppendIfNew` of the old lists, the latest timestamp and the quote, and the displayed lists are the last 390 of each |
| `Graph.UpdateIdempotent` | graph.py:34-37 | a second update with the same timestamp changes nothing, whatever its price |
| `Graph.UpdateKeepsLists` | graph.py:210-213 | both lists grow by the same amount, at most one; equal lengths stay equal; no timestamp gets repeated; the latest timestamp is present afterwards |
| `Graph.WindowShowsLatest` | graph.py:216-218 | after a new bar the window ends with it; after a known timestamp the window is unchanged |
| `Graph.UpdatePortfolioGraph` | graph.py:268-278 | fails when the valuation fails; otherwise shows the last 1440 points of the history with the current value appended |
| `Graph.PortfolioWindow` | graph.py:273-278 | the portfolio window has min(`|history| + 1`, 1440) points, ends with the current value, and before it holds the last 1439 points of the history |
| `Drift.PortfolioAppendsLikeGraph` | portfolio.py:161-165 | while no history matches the accumulated length, portfolio.py's result is graph.py's concatenation |
| `Drift.AppEqualLengthsLikeGraph` | app.py:62-66 | with one common length `n >= 2`, app.py's accumulator is graph.py's concatenation |
| `Drift.EqualLengthsDisagree` | graph.py:301-302 | two symbols of `n >= 2` bars give `n` values in portfolio.py, `2n` in graph.py and `2n + 1` in app.py |

## Left out

- The SQLite functions (`setup_portfolio`, `update_holdings`, `get_user_holdings`, `view_holdings_table`) are database I/O. The model takes the rows they return as the input `stockList`, and leaves out the user id filter and a NULL quantity.
- The market-data calls (`get_stock_value`, `ticker.history`) are network calls. They are the inputs `quote` and `fetch`. get_stock_value returns the day's first close (`['Close'][0]`), which the model treats as the quote without asking which bar it is. Each input is one snapshot, whereas the scripts call the library once per symbol, at different moments.
- Floating-point rounding is not modelled: prices are exact `real`s.
- Timestamps are whole seconds, and `pd.to_datetime` and time zones are not modelled; the four-hour shift is a subtraction of 14400 seconds.
- The latest timestamp in `update_graph` is a parameter. Left out: how it is fetched (`ticker.history(...).tail(1)`), the raise of `index[0]` on an empty frame, and that the module-level copy takes it from the fixed AAPL `ticker` (graph.py:203, graph.py:249) whatever `stockName` is.
- All plotting and animation, including the wall-clock branch `date() != today` and `graph_portfolio_value_history`, is rendering.
- The module-level statements that fetch and plot at import time are not modelled, and neither are the debugging prints.
- The Flask application, its login route with a fixed `admin`/`admin` password, JSON encoding and the Plotly front end are web plumbing.
- `update_portfolio_graph` calls `.append` on the tuple that `get_portfolio_value_history` returns, which raises. The model takes the history as a list (`history`) and keeps the append-then-window step.
- A timestamp-union valuation that reports degraded symbols is not what the code does, so it is not modelled.
