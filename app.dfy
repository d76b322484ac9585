/**
 * app.py: its copy of get_portfolio_value_history, which merges a symbol
 * elementwise only when it has one more timestamp than the accumulator has
 * entries and then appends one trailing point, and the
 * /get_portfolio_value route, which shifts the timestamps to Eastern time
 * and drops the last point of both lists.
 */
module App {
  import opened Wrappers
  import opened Holdings
  import opened Series

  /** `timedelta(hours=4)`, in seconds. */
  const FourHours: int := 4 * 60 * 60

  /**
   * One merge step: `n` is the symbol's number of timestamps.  The merge
   * adds the first `n - 1` scaled values in place; the last is not added.
   */
  function Merge(acc: seq<real>, n: nat, scaled: seq<real>): seq<real>
    requires |scaled| == n
  {
    if n - 1 == |acc| then AddPrefix(acc, scaled) else acc + scaled
  }

  /** The accumulator after merging the positions in order. */
  function Accumulate(ps: seq<Position>, fetch: string -> seq<Bar>): seq<real>
  {
    if ps == [] then []
    else
      var p := ps[|ps| - 1];
      Merge(Accumulate(ps[..|ps| - 1], fetch), |fetch(p.symbol)|, Scaled(p, fetch))
  }

  /**
   * What get_portfolio_value_history returns or raises: after the loop the
   * last symbol's last scaled value is appended once more, which raises when
   * there was no symbol or its series is empty.
   */
  function History(ps: seq<Position>, fetch: string -> seq<Bar>): Result<(seq<int>, seq<real>), Error>
  {
    if ps == [] then Failure(NoHoldings)
    else
      var p := ps[|ps| - 1];
      var scaled := Scaled(p, fetch);
      if scaled == [] then Failure(EmptySeries(p.symbol))
      else Success((Times(fetch(p.symbol)), Accumulate(ps, fetch) + [scaled[|scaled| - 1]]))
  }

  method GetPortfolioValueHistory(stockList: seq<Holding>, fetch: string -> seq<Bar>)
    returns (r: Result<(seq<int>, seq<real>), Error>)
    ensures r == History(Aggregate(stockList), fetch)
  {
    var stocks := CombineIndividualStockTotals(stockList);
    var acc: seq<real> := [];
    var timestamps: seq<int> := [];
    var last: Option<(string, seq<real>)> := None;
    for k := 0 to |stocks|
      invariant acc == Accumulate(stocks[..k], fetch)
      invariant k == 0 <==> last.None?
      invariant k > 0 ==> last == Some((stocks[k - 1].symbol, Scaled(stocks[k - 1], fetch)))
      invariant k > 0 ==> timestamps == Times(fetch(stocks[k - 1].symbol))
    {
      assert stocks[..k + 1][..k] == stocks[..k];
      var stock, quantity := stocks[k].symbol, stocks[k].quantity;
      var bars := fetch(stock);
      var ts, prices := Times(bars), Closes(bars);
      var scaled := Scale(quantity, prices);
      if |ts| - 1 == |acc| {
        acc := AddInPlace(acc, scaled);
      } else {
        acc := acc + scaled;
      }
      timestamps := ts;
      last := Some((stock, scaled));
    }
    assert stocks[..|stocks|] == stocks;
    if last.None? {
      return Failure(NoHoldings);
    }
    var scaled := last.value.1;
    if |scaled| == 0 {
      return Failure(EmptySeries(last.value.0));
    }
    acc := acc + [scaled[|scaled| - 1]];
    r := Success((timestamps, acc));
  }

  /**
   * The merge step: with one more bar than accumulated entries the length is
   * kept and each entry gains the matching scaled value, the symbol's last
   * one being left out; otherwise the whole scaled series is appended.
   */
  lemma MergeStep(acc: seq<real>, n: nat, scaled: seq<real>)
    requires |scaled| == n
    ensures n - 1 == |acc| ==>
      |Merge(acc, n, scaled)| == |acc| == n - 1 &&
      forall i :: 0 <= i < |acc| ==> Merge(acc, n, scaled)[i] == acc[i] + scaled[i]
    ensures n - 1 != |acc| ==>
      Merge(acc, n, scaled) == acc + scaled && |Merge(acc, n, scaled)| == |acc| + n
  {
  }

  /**
   * A single symbol with `n >= 2` bars: its scaled series is appended and
   * then its last value once more, so the result has `n + 1` entries whose
   * last two are equal.
   */
  lemma SingleSymbol(p: Position, fetch: string -> seq<Bar>)
    requires |fetch(p.symbol)| >= 2
    ensures History([p], fetch).Success?
    ensures var values := History([p], fetch).value.1;
      var n := |fetch(p.symbol)|;
      |values| == n + 1 && values[n] == values[n - 1] && values[..n] == Scaled(p, fetch)
  {
    assert [p][..0] == [] && [p][0] == p;
    assert Accumulate([p], fetch) == Scaled(p, fetch);
  }

  /**
   * Histories of one common length `n >= 2` are never added: each merge
   * finds the new count `n - 1` different from the accumulated length, so
   * every series is appended.
   */
  lemma {:induction false} EqualLengthsAppend(ps: seq<Position>, fetch: string -> seq<Bar>, n: nat)
    requires n >= 2 && AllOfLength(ps, fetch, n)
    ensures |Accumulate(ps, fetch)| == |ps| * n
  {
    if ps != [] {
      var init := ps[..|ps| - 1];
      assert AllOfLength(init, fetch, n) by {
        forall k | 0 <= k < |init| ensures |fetch(init[k].symbol)| == n {
          assert init[k] == ps[k];
        }
      }
      EqualLengthsAppend(init, fetch, n);
      var m := |init|;
      assert |Accumulate(init, fetch)| == m * n;
      assert m * n != n - 1 by {
        if m > 0 {
          assert m * n >= n by {
            assert m * n == (m - 1) * n + n;
          }
        }
      }
      assert |ps| * n == m * n + n;
    }
  }

  // ---------------------------------------------------------------------
  // The /get_portfolio_value route

  /** `[ts - timedelta(hours=4) for ts in timestamps]` */
  function ToEastern(timestamps: seq<int>): seq<int>
  {
    seq(|timestamps|, i requires 0 <= i < |timestamps| => timestamps[i] - FourHours)
  }

  /** `s[:-1]`, which is empty for an empty list. */
  function DropLast<T>(s: seq<T>): (r: seq<T>)
    ensures |r| == if |s| == 0 then 0 else |s| - 1
    ensures r <= s
  {
    if s == [] then [] else s[..|s| - 1]
  }

  /** The JSON payload built from a history: shifted `x` and `y`, each without its last point. */
  function Payload(timestamps: seq<int>, values: seq<real>): (seq<int>, seq<real>)
  {
    (DropLast(ToEastern(timestamps)), DropLast(values))
  }

  /** get_portfolio_value: the history, shifted and without its last point. */
  method GetPortfolioValue(stockList: seq<Holding>, fetch: string -> seq<Bar>)
    returns (r: Result<(seq<int>, seq<real>), Error>)
    ensures History(Aggregate(stockList), fetch).Failure? ==> r == History(Aggregate(stockList), fetch)
    ensures History(Aggregate(stockList), fetch).Success? ==>
      var (timestamps, values) := History(Aggregate(stockList), fetch).value;
      r == Success(Payload(timestamps, values))
  {
    var history := GetPortfolioValueHistory(stockList, fetch);
    if history.Failure? {
      return history;
    }
    var (timestamps, values) := history.value;
    var xAxisValues := ToEastern(timestamps);
    r := Success((DropLast(xAxisValues), DropLast(values)));
  }

  /** The shift keeps the length and the order of the timestamps and moves each back four hours. */
  lemma ToEasternShifts(timestamps: seq<int>)
    ensures |ToEastern(timestamps)| == |timestamps|
    ensures forall i :: 0 <= i < |timestamps| ==> ToEastern(timestamps)[i] == timestamps[i] - 14400
    ensures forall i, j :: 0 <= i < j < |timestamps| && timestamps[i] < timestamps[j] ==>
      ToEastern(timestamps)[i] < ToEastern(timestamps)[j]
  {
  }

  /**
   * Dropping the last point undoes the trailing append: the route's `y` is
   * exactly the merged accumulator, and its `x` has one entry fewer than the
   * last symbol's timestamps.
   */
  lemma PayloadOfHistory(ps: seq<Position>, fetch: string -> seq<Bar>)
    requires History(ps, fetch).Success?
    ensures var (timestamps, values) := History(ps, fetch).value;
      Payload(timestamps, values).1 == Accumulate(ps, fetch) &&
      |Payload(timestamps, values).0| == |fetch(ps[|ps| - 1].symbol)| - 1
  {
  }

  /**
   * For a single symbol with `n >= 2` bars the payload's `x` has `n - 1`
   * points and its `y` has `n`: the two lists the chart receives differ in
   * length.
   */
  lemma SingleSymbolPayload(p: Position, fetch: string -> seq<Bar>)
    requires |fetch(p.symbol)| >= 2
    ensures History([p], fetch).Success?
    ensures var (timestamps, values) := History([p], fetch).value;
      |Payload(timestamps, values).0| == |fetch(p.symbol)| - 1 &&
      |Payload(timestamps, values).1| == |fetch(p.symbol)|
  {
    SingleSymbol(p, fetch);
  }
}
