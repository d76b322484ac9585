/**
 * portfolio.py's get_portfolio_value_history: fetch each aggregated
 * symbol's one-day, one-minute history, scale it by the quantity held and
 * merge it into one accumulator list: elementwise when the symbol has as
 * many bars as the accumulator has entries, appended otherwise.
 */
module Portfolio {
  import opened Wrappers
  import opened Holdings
  import opened Series

  /** One merge step: `n` is the symbol's number of timestamps. */
  function Merge(acc: seq<real>, n: nat, scaled: seq<real>): seq<real>
    requires |scaled| == n
  {
    if n == |acc| then AddPrefix(acc, scaled) else acc + scaled
  }

  /** The accumulator after merging the positions in order. */
  function Accumulate(ps: seq<Position>, fetch: string -> seq<Bar>): seq<real>
  {
    if ps == [] then []
    else
      var p := ps[|ps| - 1];
      Merge(Accumulate(ps[..|ps| - 1], fetch), |fetch(p.symbol)|, Scaled(p, fetch))
  }

  /**
   * get_portfolio_value_history.  With no holdings the loop never binds
   * `timestamps` and the return raises; otherwise the result is the last
   * symbol's timestamps and the accumulator.
   */
  method GetPortfolioValueHistory(stockList: seq<Holding>, fetch: string -> seq<Bar>)
    returns (r: Result<(seq<int>, seq<real>), Error>)
    ensures stockList == [] ==> r == Failure(NoHoldings)
    ensures stockList != [] ==>
      var ps := Aggregate(stockList);
      |ps| > 0 && r == Success((Times(fetch(ps[|ps| - 1].symbol)), Accumulate(ps, fetch)))
  {
    var stocks := CombineIndividualStockTotals(stockList);
    AggregateEmpty(stockList);
    var acc: seq<real> := [];
    var timestamps: Option<seq<int>> := None;
    for k := 0 to |stocks|
      invariant acc == Accumulate(stocks[..k], fetch)
      invariant k == 0 <==> timestamps.None?
      invariant k > 0 ==> timestamps == Some(Times(fetch(stocks[k - 1].symbol)))
    {
      assert stocks[..k + 1][..k] == stocks[..k];
      var stock, quantity := stocks[k].symbol, stocks[k].quantity;
      var bars := fetch(stock);
      var ts, prices := Times(bars), Closes(bars);
      var scaled := Scale(quantity, prices);
      if |ts| == |acc| {
        acc := AddInPlace(acc, scaled);
      } else {
        acc := acc + scaled;
      }
      timestamps := Some(ts);
    }
    assert stocks[..|stocks|] == stocks;
    if timestamps.None? {
      return Failure(NoHoldings);
    }
    r := Success((timestamps.value, acc));
  }

  /**
   * The merge step: with as many bars as accumulated entries the length is
   * kept and each entry gains the scaled value; otherwise the scaled series
   * is appended.
   */
  lemma MergeStep(acc: seq<real>, n: nat, scaled: seq<real>)
    requires |scaled| == n
    ensures n == |acc| ==>
      |Merge(acc, n, scaled)| == |acc| &&
      forall i :: 0 <= i < |acc| ==> Merge(acc, n, scaled)[i] == acc[i] + scaled[i]
    ensures n != |acc| ==> Merge(acc, n, scaled) == acc + scaled
  {
  }

  /**
   * When every symbol's history has the same number of bars, the heuristic
   * is right: entry `i` is the portfolio's value at minute `i`.
   */
  lemma {:induction false} AlignedHistory(ps: seq<Position>, fetch: string -> seq<Bar>, n: nat)
    requires AllOfLength(ps, fetch, n)
    ensures |Accumulate(ps, fetch)| == if ps == [] then 0 else n
    ensures forall i :: 0 <= i < |Accumulate(ps, fetch)| ==> Accumulate(ps, fetch)[i] == MinuteValue(ps, fetch, i)
  {
    if ps != [] {
      var init := ps[..|ps| - 1];
      var p := ps[|ps| - 1];
      assert AllOfLength(init, fetch, n) by {
        forall k | 0 <= k < |init| ensures |fetch(init[k].symbol)| == n {
          assert init[k] == ps[k];
        }
      }
      AlignedHistory(init, fetch, n);
      var acc := Accumulate(init, fetch);
      forall i | 0 <= i < |Accumulate(ps, fetch)|
        ensures Accumulate(ps, fetch)[i] == MinuteValue(ps, fetch, i)
      {
        assert |fetch(p.symbol)| == n;
        if init == [] {
          assert MinuteValue(init, fetch, i) == 0.0;
        }
      }
    }
  }

  /** The accumulator never holds more entries than all histories have bars together. */
  lemma {:induction false} AccumulateLength(ps: seq<Position>, fetch: string -> seq<Bar>)
    ensures |Accumulate(ps, fetch)| <= SumLengths(ps, fetch)
  {
    if ps != [] {
      AccumulateLength(ps[..|ps| - 1], fetch);
    }
  }

  /**
   * Two histories of different lengths are never added: the second is
   * appended after the first, so a symbol that missed a minute shifts every
   * later minute instead of being summed with it.
   */
  lemma MisalignedAppends(a: Position, b: Position, fetch: string -> seq<Bar>)
    requires |fetch(a.symbol)| != |fetch(b.symbol)|
    ensures Accumulate([a, b], fetch) == Scaled(a, fetch) + Scaled(b, fetch)
    ensures |Accumulate([a, b], fetch)| == |fetch(a.symbol)| + |fetch(b.symbol)|
  {
    assert [a, b][..1] == [a];
    assert [a][..0] == [];
    var first := Accumulate([a], fetch);
    assert Accumulate([], fetch) == [];
    assert [a][..|[a]| - 1] == [] && [a][|[a]| - 1] == a;
    assert first == Merge([], |fetch(a.symbol)|, Scaled(a, fetch));
    assert first == Scaled(a, fetch);
    assert Accumulate([a, b], fetch) == Merge(first, |fetch(b.symbol)|, Scaled(b, fetch));
  }
}
