/**
 * Holdings aggregation and the current portfolio value.
 *
 * The three scripts carry the same text of combine_individual_stock_totals
 * (portfolio.py, app.py, graph.py) and the same calculate_portfolio_value
 * (portfolio.py, graph.py), whose first half repeats the aggregation loop
 * inline.  The model keeps one copy of each.
 */
module Holdings {
  import opened Wrappers

  /** One row read from the holdings table: (stock_symbol, quantity). */
  datatype Holding = Holding(symbol: string, quantity: int)

  /** One entry of the aggregated list: a symbol and its summed quantity. */
  datatype Position = Position(symbol: string, quantity: int)

  /** The ways a valuation can raise in the scripts. */
  datatype Error =
    | NoHoldings              // a loop variable read after a loop that never ran
    | NoQuote(symbol: string) // a price lookup that returned no rows
    | EmptySeries(symbol: string) // `[-1]` on an empty price series

  // ---------------------------------------------------------------------
  // Specification of the aggregation

  /** Some row of `rows` is about symbol `s`. */
  ghost predicate Held(rows: seq<Holding>, s: string)
  {
    exists k :: 0 <= k < |rows| && rows[k].symbol == s
  }

  /** `k` is the index of the first row about `s`. */
  ghost predicate IsFirstIndex(rows: seq<Holding>, s: string, k: int)
  {
    0 <= k < |rows| && rows[k].symbol == s &&
    forall m :: 0 <= m < k ==> rows[m].symbol != s
  }

  /** No symbol occurs twice in `keys`. */
  ghost predicate Distinct(keys: seq<string>)
  {
    forall i, j :: 0 <= i < j < |keys| ==> keys[i] != keys[j]
  }

  /** The symbols of `rows`, each once, in the order a dict receives them as keys. */
  function FirstSeen(rows: seq<Holding>): seq<string>
  {
    if rows == [] then []
    else
      var seen := FirstSeen(rows[..|rows| - 1]);
      var s := rows[|rows| - 1].symbol;
      if s in seen then seen else seen + [s]
  }

  /** The sum of the quantities of the rows about `s`. */
  function QuantityOf(rows: seq<Holding>, s: string): int
  {
    if rows == [] then 0
    else
      var last := rows[|rows| - 1];
      QuantityOf(rows[..|rows| - 1], s) + (if last.symbol == s then last.quantity else 0)
  }

  /** What combine_individual_stock_totals returns for `rows`. */
  function Aggregate(rows: seq<Holding>): seq<Position>
  {
    var keys := FirstSeen(rows);
    seq(|keys|, i requires 0 <= i < |keys| => Position(keys[i], QuantityOf(rows, keys[i])))
  }

  // ---------------------------------------------------------------------
  // The aggregation loop

  /**
   * combine_individual_stock_totals: fold the rows into a dict from symbol
   * to running total, then list the dict's items.  The dict is the pair
   * `keys` (its insertion order) and `stockTotals` (its contents).
   */
  method CombineIndividualStockTotals(stockList: seq<Holding>) returns (updatedStockList: seq<Position>)
    ensures updatedStockList == Aggregate(stockList)
  {
    var keys: seq<string> := [];
    var stockTotals: map<string, int> := map[];
    for i := 0 to |stockList|
      invariant keys == FirstSeen(stockList[..i])
      invariant forall s :: s in stockTotals <==> s in keys
      invariant forall s :: s in stockTotals ==> stockTotals[s] == QuantityOf(stockList[..i], s)
      invariant forall s :: s !in stockTotals ==> QuantityOf(stockList[..i], s) == 0
    {
      assert stockList[..i + 1][..i] == stockList[..i];
      var stock, quantity := stockList[i].symbol, stockList[i].quantity;
      var previous := if stock in stockTotals then stockTotals[stock] else 0;
      if stock !in stockTotals {
        keys := keys + [stock];
      }
      stockTotals := stockTotals[stock := previous + quantity];
    }
    assert stockList[..|stockList|] == stockList;
    updatedStockList := seq(|keys|, j requires 0 <= j < |keys| && keys[j] in stockTotals =>
                              Position(keys[j], stockTotals[keys[j]]));
  }

  // ---------------------------------------------------------------------
  // What the aggregation promises

  lemma {:induction false} FirstSeenMembership(rows: seq<Holding>, s: string)
    ensures s in FirstSeen(rows) <==> Held(rows, s)
  {
    if rows != [] {
      var init := rows[..|rows| - 1];
      FirstSeenMembership(init, s);
      if Held(rows, s) {
        var k :| 0 <= k < |rows| && rows[k].symbol == s;
        if k < |init| {
          assert init[k].symbol == s;
        }
      }
      if Held(init, s) {
        var k :| 0 <= k < |init| && init[k].symbol == s;
        assert rows[k].symbol == s;
      }
      if rows[|rows| - 1].symbol == s {
        assert Held(rows, s);
      }
    }
  }

  lemma {:induction false} FirstSeenDistinct(rows: seq<Holding>)
    ensures Distinct(FirstSeen(rows))
  {
    if rows != [] {
      FirstSeenDistinct(rows[..|rows| - 1]);
    }
  }

  lemma {:induction false} QuantityOfNotHeld(rows: seq<Holding>, s: string)
    requires !Held(rows, s)
    ensures QuantityOf(rows, s) == 0
  {
    if rows != [] {
      var init := rows[..|rows| - 1];
      forall m | 0 <= m < |init| ensures init[m].symbol != s {
        assert init[m] == rows[m];
      }
      QuantityOfNotHeld(init, s);
    }
  }

  /** The aggregated list is empty exactly when there are no rows. */
  lemma AggregateEmpty(rows: seq<Holding>)
    ensures |Aggregate(rows)| == 0 <==> rows == []
  {
  }

  /** Each symbol appears at most once in the aggregated list. */
  lemma AggregateDistinct(rows: seq<Holding>)
    ensures forall i, j :: 0 <= i < j < |Aggregate(rows)| ==> Aggregate(rows)[i].symbol != Aggregate(rows)[j].symbol
  {
    FirstSeenDistinct(rows);
  }

  /**
   * A symbol held in some row appears exactly once in the aggregated list,
   * with the sum of the quantities of its rows; a symbol no row holds does
   * not appear.
   */
  lemma AggregateLookup(rows: seq<Holding>, s: string)
    ensures Held(rows, s) ==>
      exists i :: 0 <= i < |Aggregate(rows)| && Aggregate(rows)[i] == Position(s, QuantityOf(rows, s))
    ensures !Held(rows, s) ==>
      forall i :: 0 <= i < |Aggregate(rows)| ==> Aggregate(rows)[i].symbol != s
  {
    FirstSeenMembership(rows, s);
    var keys := FirstSeen(rows);
    if Held(rows, s) {
      var i :| 0 <= i < |keys| && keys[i] == s;
      assert Aggregate(rows)[i] == Position(s, QuantityOf(rows, s));
    }
  }

  /** The aggregated list is ordered by where each symbol first occurs in the rows. */
  lemma {:induction false} AggregateFirstSeenOrder(rows: seq<Holding>)
    ensures forall i, j, ki, kj ::
      (0 <= i < j < |Aggregate(rows)| &&
       IsFirstIndex(rows, Aggregate(rows)[i].symbol, ki) &&
       IsFirstIndex(rows, Aggregate(rows)[j].symbol, kj)) ==> ki < kj
  {
    FirstSeenOrder(rows);
  }

  lemma {:induction false} FirstSeenOrder(rows: seq<Holding>)
    ensures forall i, j, ki, kj ::
      (0 <= i < j < |FirstSeen(rows)| &&
       IsFirstIndex(rows, FirstSeen(rows)[i], ki) &&
       IsFirstIndex(rows, FirstSeen(rows)[j], kj)) ==> ki < kj
  {
    if rows != [] {
      var init := rows[..|rows| - 1];
      var keys := FirstSeen(rows);
      var seen := FirstSeen(init);
      FirstSeenOrder(init);
      forall i, j, ki, kj |
        0 <= i < j < |keys| && IsFirstIndex(rows, keys[i], ki) && IsFirstIndex(rows, keys[j], kj)
        ensures ki < kj
      {
        FirstSeenInit(rows, keys[i], ki);
        if j < |seen| {
          FirstSeenInit(rows, keys[j], kj);
        } else {
          FirstSeenMembership(init, keys[j]);
          forall m | 0 <= m < |init| ensures rows[m].symbol != keys[j] {
            assert rows[m] == init[m];
          }
        }
      }
    }
  }

  /** The first row about a symbol already seen before the last row lies before it. */
  lemma FirstSeenInit(rows: seq<Holding>, s: string, k: int)
    requires rows != [] && s in FirstSeen(rows[..|rows| - 1])
    requires IsFirstIndex(rows, s, k)
    ensures k < |rows| - 1 && IsFirstIndex(rows[..|rows| - 1], s, k)
  {
    var init := rows[..|rows| - 1];
    FirstSeenMembership(init, s);
    var m :| 0 <= m < |init| && init[m].symbol == s;
    assert rows[m].symbol == s;
  }

  /** The examples the scripts' comments give. */
  lemma AggregateExamples()
    ensures Aggregate([]) == []
    ensures Aggregate([Holding("AAPL", 5), Holding("AAPL", 5)]) == [Position("AAPL", 10)]
    ensures Aggregate([Holding("AAPL", 5), Holding("AAPL", 5), Holding("MSFT", 2)])
         == [Position("AAPL", 10), Position("MSFT", 2)]
  {
    var one := [Holding("AAPL", 5)];
    var two := [Holding("AAPL", 5), Holding("AAPL", 5)];
    var three := [Holding("AAPL", 5), Holding("AAPL", 5), Holding("MSFT", 2)];
    assert two[..1] == one;
    assert three[..2] == two;
    assert FirstSeen(one) == ["AAPL"];
    assert FirstSeen(two) == ["AAPL"];
    assert FirstSeen(three) == ["AAPL", "MSFT"];
  }

  // ---------------------------------------------------------------------
  // Current value

  /** The value of `quantity` shares at `price` (the scripts' `price * quantity`). */
  function Worth(price: real, quantity: int): real
  {
    price * quantity as real
  }

  lemma WorthAdds(price: real, a: int, b: int)
    ensures Worth(price, a + b) == Worth(price, a) + Worth(price, b)
  {
  }

  /** The value of the raw rows at the given prices: the sum of price * quantity. */
  function RowsValue(rows: seq<Holding>, price: string -> real): real
  {
    if rows == [] then 0.0
    else
      var last := rows[|rows| - 1];
      RowsValue(rows[..|rows| - 1], price) + Worth(price(last.symbol), last.quantity)
  }

  /** The value of an aggregated list at the given prices. */
  function PositionsValue(ps: seq<Position>, price: string -> real): real
  {
    if ps == [] then 0.0
    else
      var last := ps[|ps| - 1];
      PositionsValue(ps[..|ps| - 1], price) + Worth(price(last.symbol), last.quantity)
  }

  /**
   * The running sum of calculate_portfolio_value over `ps`, where a symbol
   * without a quote raises and so ends the valuation at the first such symbol.
   */
  function Valuation(ps: seq<Position>, quote: string -> Option<real>): Result<real, Error>
  {
    if ps == [] then Success(0.0)
    else
      var last := ps[|ps| - 1];
      var sofar := Valuation(ps[..|ps| - 1], quote);
      if sofar.Failure? then sofar
      else if quote(last.symbol).None? then Failure(NoQuote(last.symbol))
      else Success(sofar.value + Worth(quote(last.symbol).value, last.quantity))
  }

  /**
   * calculate_portfolio_value: aggregate the rows, then add up
   * price(symbol) * quantity over the aggregated list.
   */
  method CalculatePortfolioValue(stockList: seq<Holding>, quote: string -> Option<real>)
    returns (portfolioValue: Result<real, Error>)
    ensures portfolioValue == Valuation(Aggregate(stockList), quote)
  {
    var updatedStockList := CombineIndividualStockTotals(stockList);
    var total := 0.0;
    for k := 0 to |updatedStockList|
      invariant Valuation(updatedStockList[..k], quote) == Success(total)
    {
      assert updatedStockList[..k + 1][..k] == updatedStockList[..k];
      var stock, quantity := updatedStockList[k].symbol, updatedStockList[k].quantity;
      var stockValue := quote(stock);
      assert updatedStockList[..k + 1][k] == updatedStockList[k];
      if stockValue.None? {
        ValuationStopsAtFailure(updatedStockList, quote, k + 1);
        return Failure(NoQuote(stock));
      }
      total := total + Worth(stockValue.value, quantity);
    }
    assert updatedStockList[..|updatedStockList|] == updatedStockList;
    portfolioValue := Success(total);
  }

  /** Once a prefix of the list fails to value, the whole list fails the same way. */
  lemma {:induction false} ValuationStopsAtFailure(ps: seq<Position>, quote: string -> Option<real>, k: nat)
    requires k <= |ps| && Valuation(ps[..k], quote).Failure?
    ensures Valuation(ps, quote) == Valuation(ps[..k], quote)
    decreases |ps| - k
  {
    if k < |ps| {
      assert ps[..k + 1][..k] == ps[..k];
      ValuationStopsAtFailure(ps, quote, k + 1);
    } else {
      assert ps[..k] == ps;
    }
  }

  /** With every position's symbol quoted, the valuation is the sum of price * quantity. */
  lemma {:induction false} ValuationQuoted(ps: seq<Position>, quote: string -> Option<real>, price: string -> real)
    requires forall k :: 0 <= k < |ps| ==> quote(ps[k].symbol) == Some(price(ps[k].symbol))
    ensures Valuation(ps, quote) == Success(PositionsValue(ps, price))
  {
    if ps != [] {
      var init := ps[..|ps| - 1];
      var last := ps[|ps| - 1];
      forall k | 0 <= k < |init| ensures quote(init[k].symbol) == Some(price(init[k].symbol)) {
        assert init[k] == ps[k];
      }
      ValuationQuoted(init, quote, price);
      assert quote(last.symbol) == Some(price(last.symbol));
    }
  }

  /**
   * The valuation fails exactly when some aggregated symbol has no quote,
   * and then it names the first such symbol.
   */
  lemma {:induction false} ValuationFailure(ps: seq<Position>, quote: string -> Option<real>)
    ensures Valuation(ps, quote).Failure? <==> exists i :: 0 <= i < |ps| && quote(ps[i].symbol).None?
    ensures Valuation(ps, quote).Failure? ==>
      exists i :: 0 <= i < |ps| && Valuation(ps, quote).error == NoQuote(ps[i].symbol) &&
        quote(ps[i].symbol).None? &&
        forall m :: 0 <= m < i ==> quote(ps[m].symbol).Some?
  {
    if ps != [] {
      var init := ps[..|ps| - 1];
      ValuationFailure(init, quote);
      if exists i :: 0 <= i < |init| && quote(init[i].symbol).None? {
        var i :| 0 <= i < |init| && quote(init[i].symbol).None?;
        assert quote(ps[i].symbol).None?;
      }
      if Valuation(init, quote).Failure? {
        var i :| 0 <= i < |init| && Valuation(init, quote).error == NoQuote(init[i].symbol) &&
          quote(init[i].symbol).None? && forall m :: 0 <= m < i ==> quote(init[m].symbol).Some?;
        assert ps[i] == init[i];
        assert forall m :: 0 <= m < i ==> ps[m] == init[m];
      } else {
        forall m | 0 <= m < |ps| - 1 ensures quote(ps[m].symbol).Some? {
          assert ps[m] == init[m];
        }
      }
    }
  }

  /** Summing over the aggregated list gives the same value as summing over the rows. */
  lemma AggregatePreservesValue(rows: seq<Holding>, price: string -> real)
    ensures PositionsValue(Aggregate(rows), price) == RowsValue(rows, price)
  {
    AggregateValueIsKeysValue(FirstSeen(rows), rows, price);
    KeysValueOfFirstSeen(rows, price);
  }

  /** The value of `keys`, each at its summed quantity in `rows`. */
  function KeysValue(keys: seq<string>, rows: seq<Holding>, price: string -> real): real
  {
    if keys == [] then 0.0
    else KeysValue(keys[..|keys| - 1], rows, price) + Worth(price(keys[|keys| - 1]), QuantityOf(rows, keys[|keys| - 1]))
  }

  lemma {:induction false} AggregateValueIsKeysValue(keys: seq<string>, rows: seq<Holding>, price: string -> real)
    requires keys == FirstSeen(rows)
    ensures PositionsValue(Aggregate(rows), price) == KeysValue(keys, rows, price)
  {
    PositionsOfKeys(keys, rows, price);
  }

  lemma {:induction false} PositionsOfKeys(keys: seq<string>, rows: seq<Holding>, price: string -> real)
    ensures PositionsValue(seq(|keys|, i requires 0 <= i < |keys| => Position(keys[i], QuantityOf(rows, keys[i]))), price)
         == KeysValue(keys, rows, price)
  {
    var ps := seq(|keys|, i requires 0 <= i < |keys| => Position(keys[i], QuantityOf(rows, keys[i])));
    if keys != [] {
      var init := keys[..|keys| - 1];
      PositionsOfKeys(init, rows, price);
      assert ps[..|ps| - 1] == seq(|init|, i requires 0 <= i < |init| => Position(init[i], QuantityOf(rows, init[i])));
    }
  }

  /** Adding one row changes the value of a list of distinct keys by that row's value if its symbol is listed. */
  lemma {:induction false} KeysValueAddRow(keys: seq<string>, rows: seq<Holding>, price: string -> real)
    requires rows != [] && Distinct(keys)
    ensures var last := rows[|rows| - 1];
      KeysValue(keys, rows, price)
        == KeysValue(keys, rows[..|rows| - 1], price) + (if last.symbol in keys then Worth(price(last.symbol), last.quantity) else 0.0)
  {
    if keys != [] {
      var init := keys[..|keys| - 1];
      assert Distinct(init);
      KeysValueAddRow(init, rows, price);
      var last := rows[|rows| - 1];
      var k := keys[|keys| - 1];
      var q0 := QuantityOf(rows[..|rows| - 1], k);
      if last.symbol == k {
        assert last.symbol !in init;
        WorthAdds(price(k), q0, last.quantity);
      } else {
        assert last.symbol in keys <==> last.symbol in init;
      }
    }
  }

  lemma {:induction false} KeysValueOfFirstSeen(rows: seq<Holding>, price: string -> real)
    ensures KeysValue(FirstSeen(rows), rows, price) == RowsValue(rows, price)
  {
    if rows != [] {
      var init := rows[..|rows| - 1];
      var last := rows[|rows| - 1];
      var seen := FirstSeen(init);
      KeysValueOfFirstSeen(init, price);
      FirstSeenDistinct(rows);
      FirstSeenDistinct(init);
      if last.symbol in seen {
        KeysValueAddRow(seen, rows, price);
      } else {
        var keys := seen + [last.symbol];
        assert keys[..|keys| - 1] == seen;
        KeysValueAddRow(seen, rows, price);
        FirstSeenMembership(init, last.symbol);
        QuantityOfNotHeld(init, last.symbol);
      }
    }
  }
}
