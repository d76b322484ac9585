/**
 * How the three copies of get_portfolio_value_history relate: graph.py
 * always appends, portfolio.py adds series of the accumulated length,
 * app.py adds series one longer than the accumulator.
 */
module Drift {
  import opened Wrappers
  import opened Holdings
  import opened Series
  import Portfolio
  import App
  import Graph

  /** portfolio.py appends exactly as graph.py does as long as no series matches the accumulated length. */
  lemma {:induction false} PortfolioAppendsLikeGraph(ps: seq<Position>, fetch: string -> seq<Bar>)
    requires forall k :: 0 <= k < |ps| ==> |fetch(ps[k].symbol)| != |Graph.Concatenate(ps[..k], fetch)|
    ensures Portfolio.Accumulate(ps, fetch) == Graph.Concatenate(ps, fetch)
  {
    if ps != [] {
      var init := ps[..|ps| - 1];
      forall k | 0 <= k < |init|
        ensures |fetch(init[k].symbol)| != |Graph.Concatenate(init[..k], fetch)|
      {
        assert init[k] == ps[k] && init[..k] == ps[..k];
      }
      PortfolioAppendsLikeGraph(init, fetch);
      assert ps[..|ps| - 1] == init;
    }
  }

  /** With one common length `n >= 2`, app.py's loop produces graph.py's concatenation. */
  lemma {:induction false} AppEqualLengthsLikeGraph(ps: seq<Position>, fetch: string -> seq<Bar>, n: nat)
    requires n >= 2 && AllOfLength(ps, fetch, n)
    ensures App.Accumulate(ps, fetch) == Graph.Concatenate(ps, fetch)
  {
    if ps != [] {
      var init := ps[..|ps| - 1];
      assert AllOfLength(init, fetch, n) by {
        forall k | 0 <= k < |init| ensures |fetch(init[k].symbol)| == n {
          assert init[k] == ps[k];
        }
      }
      AppEqualLengthsLikeGraph(init, fetch, n);
      App.EqualLengthsAppend(init, fetch, n);
      var m := |init|;
      assert m * n != n - 1 by {
        if m > 0 {
          assert m * n == (m - 1) * n + n;
        }
      }
    }
  }

  /**
   * Two symbols with the same number `n >= 2` of bars: portfolio.py sums
   * them into `n` entries, graph.py lists them in `2 * n`, and app.py in
   * `2 * n` plus the trailing point.
   */
  lemma EqualLengthsDisagree(a: Position, b: Position, fetch: string -> seq<Bar>, n: nat)
    requires n >= 2 && |fetch(a.symbol)| == n && |fetch(b.symbol)| == n
    ensures |Portfolio.Accumulate([a, b], fetch)| == n
    ensures |Graph.Concatenate([a, b], fetch)| == 2 * n
    ensures App.History([a, b], fetch).Success? && |App.History([a, b], fetch).value.1| == 2 * n + 1
  {
    assert AllOfLength([a, b], fetch, n);
    Portfolio.AlignedHistory([a, b], fetch, n);
    Graph.ConcatenateLength([a, b], fetch);
    assert [a, b][..1] == [a] && [a][..0] == [];
    assert SumLengths([a], fetch) == n;
    App.EqualLengthsAppend([a, b], fetch, n);
    assert [a, b][|[a, b]| - 1] == b;
  }
}
