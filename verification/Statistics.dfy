/** What the statistics say of a list of results (automation-hub/backtest.py, bot/metrics.py), counted and summed
    place by place, and what each fold of the walk-forward is. */
module Statistics {
  import opened Types
  import opened Folds
  import opened WalkForward
  import WindowSim
  import Drawdown
  import Account = Metrics
  import Risk

  function WinPlaces(rs: seq<real>): set<int> { set i | 0 <= i < |rs| && rs[i] > 0.0 }

  function WonAt(rs: seq<real>): seq<real> {
    seq(|rs|, i requires 0 <= i < |rs| => if rs[i] > 0.0 then rs[i] else 0.0)
  }

  function LostAt(rs: seq<real>): seq<real> {
    seq(|rs|, i requires 0 <= i < |rs| => if rs[i] < 0.0 then -rs[i] else 0.0)
  }

  function Won(rs: seq<real>): real { Sum(WonAt(rs)) }

  function Lost(rs: seq<real>): real { Sum(LostAt(rs)) }

  lemma PlacesSnoc(rs: seq<real>)
    requires rs != []
    ensures var n := |rs| - 1;
            && |WinPlaces(rs)| == |WinPlaces(rs[..n])| + (if rs[n] > 0.0 then 1 else 0)
            && Won(rs) == Won(rs[..n]) + (if rs[n] > 0.0 then rs[n] else 0.0)
            && Lost(rs) == Lost(rs[..n]) + (if rs[n] < 0.0 then -rs[n] else 0.0)
  {
    var n := |rs| - 1;
    assert WinPlaces(rs) == WinPlaces(rs[..n]) + if rs[n] > 0.0 then {n} else {};
    assert WonAt(rs)[..n] == WonAt(rs[..n]) && LostAt(rs)[..n] == LostAt(rs[..n]);
  }

  lemma {:induction false} RunningCounts(rs: seq<real>)
    ensures CountWins(rs) == |WinPlaces(rs)| && Gains(rs) == Won(rs) && Losses(rs) == Lost(rs)
    ensures Lost(rs) >= 0.0 && Won(rs) - Lost(rs) == Sum(rs)
  {
    if rs != [] {
      RunningCounts(rs[..|rs| - 1]);
      PlacesSnoc(rs);
    } else {
      assert WinPlaces(rs) == {} && WonAt(rs) == [] && LostAt(rs) == [];
    }
  }

  lemma {:induction false} TotalsAreSums(rs: seq<real>, i: nat)
    requires i <= |rs|
    ensures |Drawdown.Totals(rs)| == |rs| + 1 && Drawdown.Totals(rs)[i] == Sum(rs[..i])
  {
    if rs != [] {
      var n := |rs| - 1;
      TotalsAreSums(rs[..n], if i < |rs| then i else n);
      if i < |rs| {
        assert rs[..n][..i] == rs[..i];
      } else {
        assert rs[..n][..n] == rs[..n] && rs[..i] == rs;
      }
    }
  }

  /** x is the largest fall of the running total, which starts at zero. */
  ghost predicate IsWorstFall(rs: seq<real>, x: real) {
    && (forall i, j :: 0 <= i <= j <= |rs| ==> Sum(rs[..i]) - Sum(rs[..j]) <= x)
    && exists i, j :: 0 <= i <= j <= |rs| && Sum(rs[..i]) - Sum(rs[..j]) == x
  }

  lemma DropIsLargest(rs: seq<real>)
    ensures IsWorstFall(rs, Drawdown.CurveOf(rs).drop)
  {
    Drawdown.DropIsWorstFall(rs);
    forall i | 0 <= i <= |rs| ensures |Drawdown.Totals(rs)| == |rs| + 1 && Drawdown.Totals(rs)[i] == Sum(rs[..i]) {
      TotalsAreSums(rs, i);
    }
    var ts, x := Drawdown.Totals(rs), Drawdown.CurveOf(rs).drop;
    var i, j :| 0 <= i <= j < |ts| && ts[i] - ts[j] == x;
    assert Sum(rs[..i]) - Sum(rs[..j]) == x;
  }

  /** The figures of a list of results; a list without a loss has the profit factor 99. */
  ghost predicate AreFigures(rs: seq<real>, m: WalkForward.Metrics) {
    match m
    case Metrics(trades, winRate, profitFactor, avgR, netR, maxDd) =>
      && trades == |rs| && netR == Sum(rs) && IsRate(rs, winRate) && avgR * |rs| as real == Sum(rs)
      && IsWorstFall(rs, maxDd) && (rs == [] ==> winRate == avgR == profitFactor == 0.0)
      && (rs != [] ==> if Lost(rs) == 0.0 then profitFactor == 99.0 else profitFactor * Lost(rs) == Won(rs))
  }

  /** In per cent. */
  predicate IsRate(rs: seq<real>, rate: real) { rate * |rs| as real == 100.0 * |WinPlaces(rs)| as real }

  lemma ShareOf(k: real, n: real)
    requires n != 0.0
    ensures k / n * 100.0 * n == 100.0 * k && k / n * n == k
  {
    var q := k / n;
    assert q * n == k;
    assert q * 100.0 * n == 100.0 * (q * n);
  }

  lemma RateIs(rs: seq<real>, m: WalkForward.Metrics)
    requires rs != [] && m == MetricsOf(rs)
    ensures IsRate(rs, m.winRate)
  {
    RunningCounts(rs);
    ShareOf(CountWins(rs) as real, |rs| as real);
  }

  lemma AverageIs(rs: seq<real>, m: WalkForward.Metrics)
    requires rs != [] && m == MetricsOf(rs)
    ensures m.avgR * |rs| as real == Sum(rs)
  {
    ShareOf(Sum(rs), |rs| as real);
  }

  lemma FactorIs(rs: seq<real>, m: WalkForward.Metrics)
    requires rs != [] && m == MetricsOf(rs)
    ensures if Lost(rs) == 0.0 then m.profitFactor == 99.0 else m.profitFactor * Lost(rs) == Won(rs)
  {
    RunningCounts(rs);
    if Losses(rs) != 0.0 { ShareOf(Gains(rs), Losses(rs)); }
  }

  lemma SizeAndSum(rs: seq<real>, m: WalkForward.Metrics)
    requires rs != [] && m == MetricsOf(rs)
    ensures m.trades == |rs| && m.netR == Sum(rs) && IsWorstFall(rs, m.maxDd)
  {
    DropIsLargest(rs);
  }

  lemma FiguresOfSome(rs: seq<real>, m: WalkForward.Metrics)
    requires rs != [] && m.trades == |rs| && m.netR == Sum(rs) && IsWorstFall(rs, m.maxDd)
    requires IsRate(rs, m.winRate) && m.avgR * |rs| as real == Sum(rs)
    requires if Lost(rs) == 0.0 then m.profitFactor == 99.0 else m.profitFactor * Lost(rs) == Won(rs)
    ensures AreFigures(rs, m)
  {
  }

  lemma FiguresOfNone()
    ensures AreFigures([], MetricsOf([]))
  {
    DropIsLargest([]);
    assert WinPlaces([]) == {};
  }

  lemma FiguresExactly(rs: seq<real>)
    ensures AreFigures(rs, MetricsOf(rs))
  {
    if rs == [] {
      FiguresOfNone();
    } else {
      var m := MetricsOf(rs);
      SizeAndSum(rs, m);
      RateIs(rs, m);
      AverageIs(rs, m);
      FactorIs(rs, m);
      FiguresOfSome(rs, m);
    }
  }

  // ---- the statistics of an account

  lemma {:induction false} SplitCounts(pnls: seq<real>)
    ensures |Account.Wins(pnls)| == |WinPlaces(pnls)|
    ensures Sum(Account.Wins(pnls)) == Won(pnls) && Sum(Account.Losses(pnls)) == -Lost(pnls)
  {
    if pnls != [] {
      var n := |pnls| - 1;
      SplitCounts(pnls[..n]);
      PlacesSnoc(pnls);
      var w, l := Account.Wins(pnls[..n]), Account.Losses(pnls[..n]);
      assert (w + [pnls[n]])[..|w|] == w && (l + [pnls[n]])[..|l|] == l;
      assert w + [] == w && l + [] == l;
    } else {
      assert WinPlaces(pnls) == {} && WonAt(pnls) == [] && LostAt(pnls) == [];
    }
  }

  /** What was won over what was lost: infinite without a loss, zero without a gain. */
  ghost predicate IsFactor(pnls: seq<real>, factor: Account.Factor) {
    match factor
    case Infinite => Lost(pnls) == 0.0 && WinPlaces(pnls) != {}
    case Ratio(q) => q * Lost(pnls) == Won(pnls) && (q == 0.0 <==> WinPlaces(pnls) == {})
  }

  lemma FactorExactly(pnls: seq<real>)
    ensures IsFactor(pnls, Account.ProfitFactor(pnls))
  {
    SplitCounts(pnls);
    RunningCounts(pnls);
    WonIffWins(pnls);
    if Lost(pnls) > 0.0 { ShareOf(Won(pnls), Lost(pnls)); }
  }

  lemma RateTimes(pnls: seq<real>)
    requires pnls != []
    ensures Account.WinRate(pnls) * |pnls| as real == |Account.Wins(pnls)| as real
  {
    Risk.QuotientTimes(|Account.Wins(pnls)| as real, |pnls| as real);
  }

  lemma WinsCounted(pnls: seq<real>)
    requires pnls != []
    ensures Account.WinRate(pnls) * |pnls| as real == |WinPlaces(pnls)| as real
  {
    RateTimes(pnls);
    SplitCounts(pnls);
  }

  /** The rate counts the gains, and the factor is what was won over what was lost. */
  lemma AccountExactly(pnls: seq<real>)
    requires pnls != []
    ensures Account.WinRate(pnls) * |pnls| as real == |WinPlaces(pnls)| as real
    ensures IsFactor(pnls, Account.ProfitFactor(pnls))
  {
    WinsCounted(pnls);
    FactorExactly(pnls);
  }

  lemma {:induction false} WonIffWins(pnls: seq<real>)
    ensures Won(pnls) >= 0.0 && (Won(pnls) == 0.0 <==> WinPlaces(pnls) == {})
  {
    if pnls != [] {
      var n := |pnls| - 1;
      WonIffWins(pnls[..n]);
      PlacesSnoc(pnls);
      assert WinPlaces(pnls) == WinPlaces(pnls[..n]) + if pnls[n] > 0.0 then {n} else {};
    } else {
      assert WonAt(pnls) == [];
    }
  }

  // ---- the folds

  /** Every target of the first threshold, then every target of the next: of equal earners the earlier pair is taken. */
  lemma GridIsInOrder(i: nat, j: nat)
    requires i < 3 && j < 4
    ensures |GRID| == 12 && GRID[4 * i + j] == Params(0.4 + 0.1 * i as real, 1.5 + 0.5 * j as real)
  {
    assert (4 * i + j) / 4 == i && (4 * i + j) % 4 == j;
  }

  /** What parameter pair number k earned on the training window that begins at bar a. */
  function Earned(w: Plan, k: nat, a: nat): real
    requires k < |w.grid|
  { Sum(Rs(w.sim(w.grid[k], a, a, a + w.train))) }

  /** None earned more there, and none before it as much. */
  ghost predicate IsChoice(w: Plan, a: nat, k: nat) {
    && k < |w.grid| && (forall j: nat :: j < |w.grid| ==> Earned(w, j, a) <= Earned(w, k, a))
    && forall j: nat :: j < k ==> Earned(w, j, a) < Earned(w, k, a)
  }

  /** Out of sample, right after the training window that begins at bar a: the trades of the pair chosen there, with the
      training window as warm-up. */
  ghost predicate IsFoldOf(w: Plan, bars: seq<Bar>, a: int, fold: WalkForward.Fold, trades: seq<WindowSim.Closed>) {
    && 0 <= a && a + w.train + w.test <= |bars| && w.test >= 1 && AreFigures(Rs(trades), fold.metrics)
    && fold.first == DayOf(bars[a + w.train].timestamp) && fold.last == DayOf(bars[a + w.train + w.test - 1].timestamp)
    && exists k: nat :: IsChoice(w, a, k) && fold.best == w.grid[k] &&
                   trades == w.sim(w.grid[k], a, a + w.train, a + w.train + w.test)
  }

  lemma BestIsChoice(w: Plan, a: nat)
    requires w.Valid()
    ensures IsChoice(w, a, Best(w, a))
  {
    FirstMaxIsFirstGreatest(Score(w, a), |w.grid|);
    forall k: nat | k < |w.grid| ensures Score(w, a)(k) == Earned(w, k, a) {}
  }

  lemma FoldExactly(w: Plan, bars: seq<Bar>, a: nat)
    requires w.Valid() && a + w.train + w.test <= |bars|
    ensures IsFoldOf(w, bars, a, FoldRow(w, bars, a), FoldTrades(w, a))
  {
    BestIsChoice(w, a);
    FiguresExactly(Rs(FoldTrades(w, a)));
  }

  /** All trades, fold after fold. */
  function Joined(parts: seq<seq<WindowSim.Closed>>): seq<WindowSim.Closed> {
    if parts == [] then [] else Joined(parts[..|parts| - 1]) + parts[|parts| - 1]
  }

  function Parts(w: Plan, starts: seq<nat>): seq<seq<WindowSim.Closed>>
    requires w.Valid()
  { seq(|starts|, k requires 0 <= k < |starts| => FoldTrades(w, starts[k])) }

  lemma {:induction false} PartsJoin(w: Plan, starts: seq<nat>)
    requires w.Valid()
    ensures Joined(Parts(w, starts)) == Trades(w, starts)
  {
    if starts != [] {
      var n := |starts| - 1;
      PartsJoin(w, starts[..n]);
      assert Parts(w, starts)[..n] == Parts(w, starts[..n]);
    }
  }

  lemma {:induction false} StartsAreMany(span: nat, test: nat, n: nat, a: nat, k: nat)
    requires test >= 1
    ensures k < |Starts(span, test, n, a)| <==> a + k * test + span <= n
    decreases k
  {
    if a + span > n {
      assert k * test >= 0;
    } else if k > 0 {
      StartsAreMany(span, test, n, a + test, k - 1);
      assert (k - 1) * test + test == k * test;
    }
  }

  /** The parts are the trades of the reported folds, of which the k-th begins k test windows into the series. */
  ghost predicate AreFolds(w: Plan, bars: seq<Bar>, folds: seq<WalkForward.Fold>, parts: seq<seq<WindowSim.Closed>>) {
    |parts| == |folds| && forall k: nat :: k < |folds| ==> IsFoldOf(w, bars, k * w.test, folds[k], parts[k])
  }

  /** A walk-forward has a fold for every k whose training and test windows fit when they begin k test windows into
      the series; each trades, right after its training window, the first of the pairs that earned most in it; and the
      totals are the figures of all these trades. */
  lemma WalkForwardExactly(w: Plan, bars: seq<Bar>, total: WalkForward.Metrics, folds: seq<WalkForward.Fold>)
    requires w.Valid() && w.n == |bars| && AllFit(w, bars, AllStarts(w))
    requires total == MetricsOf(Rs(Trades(w, AllStarts(w)))) && folds == Rows(w, bars, AllStarts(w))
    ensures forall k: nat :: k < |folds| <==> k * w.test + w.train + w.test <= |bars|
    ensures exists parts :: AreFolds(w, bars, folds, parts) && AreFigures(Rs(Joined(parts)), total)
  {
    var starts, parts := AllStarts(w), Parts(w, AllStarts(w));
    StartsTile(w.train + w.test, w.test, w.n, 0);
    forall k: nat ensures k < |folds| <==> k * w.test + w.train + w.test <= |bars| {
      StartsAreMany(w.train + w.test, w.test, w.n, 0, k);
    }
    forall k: nat | k < |folds| ensures IsFoldOf(w, bars, k * w.test, folds[k], parts[k]) {
      FoldExactly(w, bars, starts[k]);
    }
    assert AreFolds(w, bars, folds, parts);
    PartsJoin(w, starts);
    FiguresExactly(Rs(Trades(w, starts)));
  }
}
