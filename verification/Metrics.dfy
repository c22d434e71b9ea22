/** Trade statistics (bot/metrics.py). */
module Metrics {
  import opened Types
  import opened Folds
  import Ledger
  import Backtester
  import Books

  function Wins(pnls: seq<real>): seq<real> {
    if pnls == [] then [] else
      var n := |pnls| - 1;
      Wins(pnls[..n]) + if pnls[n] > 0.0 then [pnls[n]] else []
  }

  /** Everything that is not a win, including trades that broke even. */
  function Losses(pnls: seq<real>): seq<real> {
    if pnls == [] then [] else
      var n := |pnls| - 1;
      Losses(pnls[..n]) + if pnls[n] <= 0.0 then [pnls[n]] else []
  }

  function Mean(xs: seq<real>): real { if xs == [] then 0.0 else Sum(xs) / |xs| as real }

  function WinRate(pnls: seq<real>): real
    requires pnls != []
  { |Wins(pnls)| as real / |pnls| as real }

  function Blend(rate: real, win: real, loss: real): real { rate * win + (1.0 - rate) * loss }

  function Expectancy(pnls: seq<real>): real {
    if pnls == [] then 0.0 else Blend(WinRate(pnls), Mean(Wins(pnls)), Mean(Losses(pnls)))
  }

  datatype Factor = Infinite | Ratio(value: real)

  /** What was won against what was lost. */
  function ProfitFactor(pnls: seq<real>): Factor {
    var won, lost := Sum(Wins(pnls)), -Sum(Losses(pnls));
    if lost <= 0.0 then (if won > 0.0 then Infinite else Ratio(0.0)) else Ratio(won / lost)
  }

  lemma {:induction false} Split(pnls: seq<real>)
    ensures |Wins(pnls)| + |Losses(pnls)| == |pnls| && Sum(Wins(pnls)) + Sum(Losses(pnls)) == Sum(pnls)
    ensures Sum(Wins(pnls)) >= 0.0 && Sum(Losses(pnls)) <= 0.0
  {
    if pnls != [] {
      var n := |pnls| - 1;
      Split(pnls[..n]);
      var w, l := Wins(pnls[..n]), Losses(pnls[..n]);
      assert (w + [pnls[n]])[..|w|] == w && (l + [pnls[n]])[..|l|] == l;
      assert w + [] == w && l + [] == l;
    }
  }

  lemma Cancel(x: real, k: real, n: real)
    requires k > 0.0 && n > 0.0
    ensures k / n * (x / k) == x / n
  {
    var q := x / k;
    assert q * k == x;
    assert k / n * q == k * q / n;
  }

  lemma Complement(w: real, l: real, n: real)
    requires n > 0.0 && w + l == n
    ensures 1.0 - w / n == l / n
  {
    assert (w + l) / n == w / n + l / n;
  }

  lemma MeanShare(xs: seq<real>, n: real)
    requires n > 0.0
    ensures |xs| as real / n * Mean(xs) == Sum(xs) / n
  {
    if xs != [] { Cancel(Sum(xs), |xs| as real, n); }
  }

  lemma AddShares(x: real, y: real, n: real)
    requires n > 0.0
    ensures x / n + y / n == (x + y) / n
  {
  }

  lemma Weighed(rate: real, other: real, win: real, loss: real, won: real, lost: real, n: real)
    requires n > 0.0 && 1.0 - rate == other && rate * win == won / n && other * loss == lost / n
    ensures Blend(rate, win, loss) == (won + lost) / n
  {
    AddShares(won, lost, n);
  }

  lemma BlendOfMeans(wins: seq<real>, losses: seq<real>, n: real)
    requires |wins| as real + |losses| as real == n > 0.0
    ensures Blend(|wins| as real / n, Mean(wins), Mean(losses)) == (Sum(wins) + Sum(losses)) / n
  {
    var w, l := |wins| as real, |losses| as real;
    Complement(w, l, n);
    MeanShare(wins, n);
    MeanShare(losses, n);
    Weighed(w / n, l / n, Mean(wins), Mean(losses), Sum(wins), Sum(losses), n);
  }

  /** Weighing the average win and the average loss by their rates gives the average result. */
  lemma ExpectancyIsMean(pnls: seq<real>)
    ensures Expectancy(pnls) == Mean(pnls)
  {
    if pnls != [] {
      Split(pnls);
      BlendOfMeans(Wins(pnls), Losses(pnls), |pnls| as real);
    }
  }

  predicate BeatsOne(f: Factor) { f.Infinite? || f.value > 1.0 }

  lemma RatioAboveOne(x: real, y: real)
    requires y > 0.0
    ensures x / y > 1.0 <==> x > y
  {
    var q := x / y;
    assert q * y == x;
    assert (q - 1.0) * y == x - y;
    if q > 1.0 { Books.Positive(q - 1.0, y); }
    if q < 1.0 { Books.Positive(1.0 - q, y); assert (1.0 - q) * y == y - x; }
  }

  lemma MeanSign(pnls: seq<real>)
    ensures Mean(pnls) > 0.0 <==> Sum(pnls) > 0.0
  {
    if pnls != [] {
      var n, q := |pnls| as real, Mean(pnls);
      assert q * n == Sum(pnls);
      if q > 0.0 { Books.Positive(q, n); }
      if q < 0.0 { Books.Positive(-q, n); }
    }
  }

  /** The profit factor beats one exactly when the expectancy is positive. */
  lemma FactorAgreesWithExpectancy(pnls: seq<real>)
    ensures BeatsOne(ProfitFactor(pnls)) <==> Expectancy(pnls) > 0.0
  {
    Split(pnls);
    ExpectancyIsMean(pnls);
    MeanSign(pnls);
    var won, lost := Sum(Wins(pnls)), -Sum(Losses(pnls));
    if lost > 0.0 { RatioAboveOne(won, lost); }
  }

  function Pnls(trades: seq<Ledger.Trade>): seq<real> {
    if trades == [] then [] else Pnls(trades[..|trades| - 1]) + [trades[|trades| - 1].pnl]
  }

  lemma {:induction false} PnlsSum(trades: seq<Ledger.Trade>)
    ensures |Pnls(trades)| == |trades| && Sum(Pnls(trades)) == Ledger.SumOf(Ledger.Pnl(), trades)
  {
    if trades != [] {
      PnlsSum(trades[..|trades| - 1]);
      assert Pnls(trades)[..|trades| - 1] == Pnls(trades[..|trades| - 1]);
    }
  }

  /** Over a whole backtest, the expectancy is what the account gained per booked trade. */
  lemma ExpectancyIsTheGain(c: Backtester.Config, strategy: Backtester.Strategy, bars: seq<Bar>, e: Backtester.Engine)
    requires c.Valid() && e == Backtester.Batch(c, strategy, bars)
    ensures |Pnls(e.ledger.trades)| == |e.ledger.trades|
    ensures e.ledger.trades != [] ==>
              Expectancy(Pnls(e.ledger.trades)) == (e.book.equity - c.startingCash) / |e.ledger.trades| as real
  {
    Books.BooksBalance(c, strategy, bars);
    PnlsSum(e.ledger.trades);
    ExpectancyIsMean(Pnls(e.ledger.trades));
  }
}
