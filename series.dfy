/**
 * Price series as the scripts receive them from the market-data library:
 * one bar per minute, its timestamp (the DataFrame index) and its closing
 * price (the 'Close' column).
 */
module Series {
  import opened Holdings

  /** One row of a price history: a timestamp in seconds and a closing price. */
  datatype Bar = Bar(time: int, close: real)

  /** `historical_data.index.tolist()` */
  function Times(bars: seq<Bar>): seq<int>
  {
    seq(|bars|, i requires 0 <= i < |bars| => bars[i].time)
  }

  /** `historical_data['Close'].tolist()` */
  function Closes(bars: seq<Bar>): seq<real>
  {
    seq(|bars|, i requires 0 <= i < |bars| => bars[i].close)
  }

  /** `[quantity * price for price in prices]` */
  function Scale(quantity: int, prices: seq<real>): seq<real>
  {
    seq(|prices|, i requires 0 <= i < |prices| => Worth(prices[i], quantity))
  }

  /** The scaled series of one position, from its fetched history. */
  function Scaled(p: Position, fetch: string -> seq<Bar>): seq<real>
  {
    Scale(p.quantity, Closes(fetch(p.symbol)))
  }

  /** The scaled series has one value per bar: the bar's close times the quantity. */
  lemma ScaledAt(p: Position, fetch: string -> seq<Bar>, i: int)
    requires 0 <= i < |fetch(p.symbol)|
    ensures |Scaled(p, fetch)| == |fetch(p.symbol)|
    ensures Scaled(p, fetch)[i] == Worth(fetch(p.symbol)[i].close, p.quantity)
  {
  }

  /**
   * The indexed `+=` loop of portfolio.py and app.py, which in both scripts
   * runs over the accumulator's length,
   * as a value: `acc` with the matching entries of `scaled` added.
   */
  function AddPrefix(acc: seq<real>, scaled: seq<real>): seq<real>
    requires |acc| <= |scaled|
  {
    seq(|acc|, i requires 0 <= i < |acc| => acc[i] + scaled[i])
  }

  /**
   * The loop itself, on the accumulator list: entry by entry, add the
   * scaled value of the same index.
   */
  method AddInPlace(acc: seq<real>, scaled: seq<real>) returns (updated: seq<real>)
    requires |acc| <= |scaled|
    ensures updated == AddPrefix(acc, scaled)
  {
    updated := acc;
    for value := 0 to |acc|
      invariant |updated| == |acc|
      invariant forall i :: 0 <= i < value ==> updated[i] == acc[i] + scaled[i]
      invariant forall i :: value <= i < |acc| ==> updated[i] == acc[i]
    {
      updated := updated[value := updated[value] + scaled[value]];
    }
  }

  /** The total number of bars fetched for the positions. */
  function SumLengths(ps: seq<Position>, fetch: string -> seq<Bar>): nat
  {
    if ps == [] then 0 else SumLengths(ps[..|ps| - 1], fetch) + |fetch(ps[|ps| - 1].symbol)|
  }

  /** Every position's history has exactly `n` bars. */
  ghost predicate AllOfLength(ps: seq<Position>, fetch: string -> seq<Bar>, n: nat)
  {
    forall k :: 0 <= k < |ps| ==> |fetch(ps[k].symbol)| == n
  }

  /**
   * The portfolio's value at minute `i` when every history has a bar `i`:
   * the sum over the positions of quantity * close at `i`.  This is the
   * reference an index-aligned history is compared with.
   */
  function MinuteValue(ps: seq<Position>, fetch: string -> seq<Bar>, i: nat): real
    requires forall k :: 0 <= k < |ps| ==> i < |fetch(ps[k].symbol)|
  {
    if ps == [] then 0.0
    else MinuteValue(ps[..|ps| - 1], fetch, i) + Worth(fetch(ps[|ps| - 1].symbol)[i].close, ps[|ps| - 1].quantity)
  }
}
