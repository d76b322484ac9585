/**
 * graph.py: its copy of get_portfolio_value_history, which always appends
 * each symbol's scaled series; the live price chart, whose `timestamps` and
 * `prices` lists grow by one bar per update when the bar is new and are
 * shown through a window of the last 390 points; and the portfolio chart,
 * which appends the current value to the history and shows the last 1440.
 */
module Graph {
  import opened Wrappers
  import opened Holdings
  import opened Series

  /** `max_data_points` of update_graph. */
  const MaxDataPoints: nat := 390

  /** `max_data_points` of update_portfolio_graph. */
  const MaxPortfolioPoints: nat := 1440

  // ---------------------------------------------------------------------
  // get_portfolio_value_history

  /** The accumulator after appending the positions' scaled series in order. */
  function Concatenate(ps: seq<Position>, fetch: string -> seq<Bar>): seq<real>
  {
    if ps == [] then [] else Concatenate(ps[..|ps| - 1], fetch) + Scaled(ps[|ps| - 1], fetch)
  }

  /**
   * get_portfolio_value_history.  With no holdings `timestamps` is never
   * bound and the print after the loop raises.
   */
  method GetPortfolioValueHistory(stockList: seq<Holding>, fetch: string -> seq<Bar>)
    returns (r: Result<(seq<int>, seq<real>), Error>)
    ensures stockList == [] ==> r == Failure(NoHoldings)
    ensures stockList != [] ==>
      var ps := Aggregate(stockList);
      |ps| > 0 && r == Success((Times(fetch(ps[|ps| - 1].symbol)), Concatenate(ps, fetch)))
  {
    var stocks := CombineIndividualStockTotals(stockList);
    AggregateEmpty(stockList);
    var acc: seq<real> := [];
    var timestamps: Option<seq<int>> := None;
    for k := 0 to |stocks|
      invariant acc == Concatenate(stocks[..k], fetch)
      invariant k == 0 <==> timestamps.None?
      invariant k > 0 ==> timestamps == Some(Times(fetch(stocks[k - 1].symbol)))
    {
      assert stocks[..k + 1][..k] == stocks[..k];
      var stock, quantity := stocks[k].symbol, stocks[k].quantity;
      var bars := fetch(stock);
      var ts, prices := Times(bars), Closes(bars);
      acc := acc + Scale(quantity, prices);
      timestamps := Some(ts);
    }
    assert stocks[..|stocks|] == stocks;
    if timestamps.None? {
      return Failure(NoHoldings);
    }
    r := Success((timestamps.value, acc));
  }

  /** The history has as many entries as all fetched series have bars together. */
  lemma {:induction false} ConcatenateLength(ps: seq<Position>, fetch: string -> seq<Bar>)
    ensures |Concatenate(ps, fetch)| == SumLengths(ps, fetch)
  {
    if ps != [] {
      ConcatenateLength(ps[..|ps| - 1], fetch);
    }
  }

  /**
   * The history is the positions' scaled series laid end to end: bar `i` of
   * position `k` sits after all bars of the positions before it.
   */
  lemma {:induction false} ConcatenateSegment(ps: seq<Position>, fetch: string -> seq<Bar>, k: nat, i: nat)
    requires k < |ps| && i < |fetch(ps[k].symbol)|
    ensures SumLengths(ps[..k], fetch) + i < |Concatenate(ps, fetch)|
    ensures Concatenate(ps, fetch)[SumLengths(ps[..k], fetch) + i] == Worth(fetch(ps[k].symbol)[i].close, ps[k].quantity)
  {
    var init := ps[..|ps| - 1];
    ConcatenateLength(init, fetch);
    if k < |ps| - 1 {
      assert init[..k] == ps[..k] && init[k] == ps[k];
      ConcatenateSegment(init, fetch, k, i);
    } else {
      assert ps[..k] == init;
    }
  }

  // ---------------------------------------------------------------------
  // The live price chart

  /** A price list updated by update_graph: append the latest bar unless its timestamp is already there. */
  function AppendIfNew(timestamps: seq<int>, prices: seq<real>, latestTimestamp: int, latestPrice: real)
    : (seq<int>, seq<real>)
  {
    if latestTimestamp !in timestamps then (timestamps + [latestTimestamp], prices + [latestPrice])
    else (timestamps, prices)
  }

  /** `s[-n:]`: the last `n` elements, or all of `s` when it is shorter (or when `n` is 0). */
  function LastN<T>(s: seq<T>, n: nat): (r: seq<T>)
    ensures n > 0 ==> |r| == if |s| < n then |s| else n
    ensures n == 0 ==> r == s
    ensures r == s[|s| - |r|..]
  {
    if n == 0 || |s| <= n then s else s[|s| - n..]
  }

  /** No timestamp occurs twice. */
  ghost predicate NoRepeats(timestamps: seq<int>)
  {
    forall i, j :: 0 <= i < j < |timestamps| ==> timestamps[i] != timestamps[j]
  }

  /**
   * The chart of one symbol: the lists `timestamps` and `prices` that the
   * script fills from the day's history and then extends on every update.
   */
  class PriceChart {
    var timestamps: seq<int>
    var prices: seq<real>

    /** The lists as read from the day's history. */
    constructor (history: seq<Bar>)
      ensures timestamps == Times(history) && prices == Closes(history)
    {
      timestamps := Times(history);
      prices := Closes(history);
    }

    /**
     * The update_graph nested in graph_individual_stock_info: record the
     * latest bar (its timestamp and its own close) if its timestamp is new,
     * then return the points to display, the last 390 of each list.
     */
    method UpdateGraph(latestTimestamp: int, latestPrice: real)
      returns (timestampsDisplay: seq<int>, pricesDisplay: seq<real>)
      modifies this
      ensures (timestamps, prices) == AppendIfNew(old(timestamps), old(prices), latestTimestamp, latestPrice)
      ensures timestampsDisplay == LastN(timestamps, MaxDataPoints)
      ensures pricesDisplay == LastN(prices, MaxDataPoints)
    {
      if latestTimestamp !in timestamps {
        timestamps := timestamps + [latestTimestamp];
        prices := prices + [latestPrice];
      }
      timestampsDisplay := LastN(timestamps, MaxDataPoints);
      pricesDisplay := LastN(prices, MaxDataPoints);
    }

    /**
     * The module-level update_graph(stockName): the timestamp is the latest
     * bar's, but the price recorded is get_stock_value(stockName), which
     * raises, before anything is recorded, when there is no quote.
     */
    method UpdateStockGraph(stockName: string, latestTimestamp: int, quote: string -> Option<real>)
      returns (r: Result<(seq<int>, seq<real>), Error>)
      modifies this
      ensures quote(stockName).None? ==>
        r == Failure(NoQuote(stockName)) && timestamps == old(timestamps) && prices == old(prices)
      ensures quote(stockName).Some? ==>
        (timestamps, prices) == AppendIfNew(old(timestamps), old(prices), latestTimestamp, quote(stockName).value) &&
        r == Success((LastN(timestamps, MaxDataPoints), LastN(prices, MaxDataPoints)))
    {
      var latestPrice := quote(stockName);
      if latestPrice.None? {
        return Failure(NoQuote(stockName));
      }
      var timestampsDisplay, pricesDisplay := UpdateGraph(latestTimestamp, latestPrice.value);
      r := Success((timestampsDisplay, pricesDisplay));
    }
  }

  /** A second update with the same timestamp changes nothing, whatever its price. */
  lemma UpdateIdempotent(timestamps: seq<int>, prices: seq<real>, t: int, p: real, p': real)
    ensures var (ts, ps) := AppendIfNew(timestamps, prices, t, p);
      AppendIfNew(ts, ps, t, p') == (ts, ps)
  {
  }

  /**
   * The two lists grow together, so lists of equal length stay equal in
   * length, and a list without repeated timestamps stays so.
   */
  lemma UpdateKeepsLists(timestamps: seq<int>, prices: seq<real>, t: int, p: real)
    ensures var (ts, ps) := AppendIfNew(timestamps, prices, t, p);
      |ts| - |timestamps| == |ps| - |prices| <= 1 &&
      (|timestamps| == |prices| ==> |ts| == |ps|) &&
      (NoRepeats(timestamps) ==> NoRepeats(ts)) &&
      t in ts
  {
  }

  /**
   * After an update with a new timestamp the window ends with that bar; an
   * update with a known timestamp leaves the lists, and so the window, as
   * they were.
   */
  lemma WindowShowsLatest(timestamps: seq<int>, prices: seq<real>, t: int, p: real)
    ensures var (ts, ps) := AppendIfNew(timestamps, prices, t, p);
      var tw, pw := LastN(ts, MaxDataPoints), LastN(ps, MaxDataPoints);
      (t !in timestamps ==> |tw| > 0 && tw[|tw| - 1] == t && |pw| > 0 && pw[|pw| - 1] == p) &&
      (t in timestamps ==> tw == LastN(timestamps, MaxDataPoints) && pw == LastN(prices, MaxDataPoints))
  {
  }

  // ---------------------------------------------------------------------
  // The portfolio chart

  /**
   * update_portfolio_graph: value the holdings, append the value to the
   * history and show the last 1440 points.
   */
  method UpdatePortfolioGraph(stockList: seq<Holding>, quote: string -> Option<real>, history: seq<real>)
    returns (r: Result<seq<real>, Error>)
    ensures Valuation(Aggregate(stockList), quote).Failure? ==>
      r == Failure(Valuation(Aggregate(stockList), quote).error)
    ensures Valuation(Aggregate(stockList), quote).Success? ==>
      r == Success(LastN(history + [Valuation(Aggregate(stockList), quote).value], MaxPortfolioPoints))
  {
    var portfolioValue := CalculatePortfolioValue(stockList, quote);
    if portfolioValue.Failure? {
      return Failure(portfolioValue.error);
    }
    var values := history + [portfolioValue.value];
    r := Success(LastN(values, MaxPortfolioPoints));
  }

  /** The portfolio window keeps at most 1440 points and ends with the current value. */
  lemma PortfolioWindow(history: seq<real>, current: real)
    ensures var w := LastN(history + [current], MaxPortfolioPoints);
      |w| == (if |history| + 1 < MaxPortfolioPoints then |history| + 1 else MaxPortfolioPoints) &&
      w[|w| - 1] == current &&
      w[..|w| - 1] == LastN(history, MaxPortfolioPoints - 1)
  {
  }
}
