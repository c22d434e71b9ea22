/** The two walk-forward drivers (automation-hub/backtest.py, walk_forward and oos_trades). */
module WalkForward {
  import opened Types
  import opened Folds
  import opened WindowSim
  import opened Drawdown

  datatype Params = Params(threshold: real, rr: real)

  const THRESHOLDS := [0.4, 0.5, 0.6]
  const TARGETS := [1.5, 2.0, 2.5, 3.0]

  /** For each threshold, every target. */
  const GRID: seq<Params> := seq(12, k requires 0 <= k < 12 => Params(THRESHOLDS[k / 4], TARGETS[k % 4]))

  /** The simulator on a fixed series: what it returns for a parameter pair, the first warm-up bar,
      the first traded bar and the end of the window. */
  type Simulator = (Params, nat, nat, nat) -> seq<Closed>

  /** A simulator, the parameter pairs to choose from, the length of the series, and the lengths of the
      training and test windows. The drivers use GRID; nothing below depends on its entries. */
  datatype Plan = Plan(sim: Simulator, grid: seq<Params>, n: nat, train: nat, test: nat) {
    predicate Valid() { grid != [] && test >= 1 }
  }

  function Rs(out: seq<Closed>): seq<real> { seq(|out|, i requires 0 <= i < |out| => out[i].r) }

  // ---- statistics of a list of results

  datatype Metrics = Metrics(trades: nat, winRate: real, profitFactor: real, avgR: real, netR: real, maxDd: real)

  function CountWins(rs: seq<real>): nat {
    if rs == [] then 0 else CountWins(rs[..|rs| - 1]) + if rs[|rs| - 1] > 0.0 then 1 else 0
  }

  function Gains(rs: seq<real>): real {
    if rs == [] then 0.0 else Gains(rs[..|rs| - 1]) + Max(rs[|rs| - 1], 0.0)
  }

  function Losses(rs: seq<real>): real {
    if rs == [] then 0.0 else Losses(rs[..|rs| - 1]) + Max(-rs[|rs| - 1], 0.0)
  }

  function MetricsOf(rs: seq<real>): Metrics {
    if rs == [] then Metrics(0, 0.0, 0.0, 0.0, 0.0, 0.0) else
      var n := |rs| as real;
      Metrics(|rs|, CountWins(rs) as real / n * 100.0,
              if Losses(rs) != 0.0 then Gains(rs) / Losses(rs) else 99.0,
              Sum(rs) / n, Sum(rs), CurveOf(rs).drop)
  }

  method ComputeMetrics(rs: seq<real>) returns (m: Metrics)
    ensures m == MetricsOf(rs)
  {
    if rs == [] { return Metrics(0, 0.0, 0.0, 0.0, 0.0, 0.0); }
    var wins, gp, gl := 0, 0.0, 0.0;
    var eq, peak, dd := 0.0, 0.0, 0.0;
    for i := 0 to |rs|
      invariant wins == CountWins(rs[..i]) && gp == Gains(rs[..i]) && gl == Losses(rs[..i])
      invariant CurveOf(rs[..i]) == Curve(eq, peak, dd) && eq == Sum(rs[..i])
    {
      assert rs[..i + 1][..i] == rs[..i];
      var r := rs[i];
      if r > 0.0 { wins, gp := wins + 1, gp + r; }
      if r < 0.0 { gl := gl - r; }
      eq := eq + r;
      peak := Max(peak, eq);
      dd := Max(dd, peak - eq);
    }
    assert rs[..|rs|] == rs;
    var n := |rs| as real;
    m := Metrics(|rs|, wins as real / n * 100.0, if gl != 0.0 then gp / gl else 99.0, eq / n, eq, dd);
  }

  // ---- choosing the parameters of a fold

  /** What each parameter pair earned on the training window [a, a + train). */
  function Score(w: Plan, a: nat): nat -> real {
    (k: nat) => if k < |w.grid| then Sum(Rs(w.sim(w.grid[k], a, a, a + w.train))) else 0.0
  }

  /** The first of the numbers below n with the greatest score. */
  function FirstMax(score: nat -> real, n: nat): (k: nat)
    requires n > 0
    ensures k < n
  {
    if n == 1 then 0 else
      var k := FirstMax(score, n - 1);
      if score(n - 1) > score(k) then n - 1 else k
  }

  lemma {:induction false} FirstMaxIsFirstGreatest(score: nat -> real, n: nat)
    requires n > 0
    ensures forall j: nat :: j < n ==> score(j) <= score(FirstMax(score, n))
    ensures forall j: nat :: j < FirstMax(score, n) ==> score(j) < score(FirstMax(score, n))
  {
    if n > 1 {
      FirstMaxIsFirstGreatest(score, n - 1);
    }
  }

  lemma {:induction false} FirstMaxCongruent(f: nat -> real, g: nat -> real, n: nat)
    requires n > 0 && forall j: nat :: j < n ==> f(j) == g(j)
    ensures FirstMax(f, n) == FirstMax(g, n)
  {
    if n > 1 {
      FirstMaxCongruent(f, g, n - 1);
    }
  }

  function Best(w: Plan, a: nat): (k: nat)
    requires w.Valid()
    ensures k < |w.grid|
  { FirstMax(Score(w, a), |w.grid|) }

  method ChooseParams(w: Plan, a: nat) returns (k: nat)
    requires w.Valid()
    ensures k == Best(w, a)
  {
    k := 0;
    ghost var score := Score(w, a);
    var earned := [];
    for j := 0 to |w.grid|
      invariant |earned| == j && forall i: nat :: i < j ==> earned[i] == score(i)
    {
      earned := earned + [Sum(Rs(w.sim(w.grid[j], a, a, a + w.train)))];
    }
    for j := 1 to |w.grid|
      invariant k == FirstMax(score, j)
    {
      if earned[j] > earned[k] { k := j; }
    }
  }

  // ---- the folds

  /** The out-of-sample trades of the fold whose training window starts at bar `a`. */
  function FoldTrades(w: Plan, a: nat): seq<Closed>
    requires w.Valid()
  {
    var b := a + w.train;
    w.sim(w.grid[Best(w, a)], a, b, b + w.test)
  }

  /** The days of the first and the last bar of the test window, the parameters taken, and what they earned there. */
  datatype Fold = Fold(first: int, last: int, best: Params, metrics: Metrics)

  function FoldRow(w: Plan, bars: seq<Bar>, a: nat): Fold
    requires w.Valid() && a + w.train + w.test <= |bars|
  {
    var b := a + w.train;
    var m := MetricsOf(Rs(FoldTrades(w, a)));
    Fold(DayOf(bars[b].timestamp), DayOf(bars[b + w.test - 1].timestamp), w.grid[Best(w, a)], m)
  }

  /** The first training bar of every fold from `a` on that fits into n bars. */
  function Starts(span: nat, test: nat, n: nat, a: nat): seq<nat>
    requires test >= 1
    decreases n - a
  {
    if a + span > n then [] else [a] + Starts(span, test, n, a + test)
  }

  function AllStarts(w: Plan): seq<nat>
    requires w.Valid()
  {
    Starts(w.train + w.test, w.test, w.n, 0)
  }

  /** The out-of-sample trades of the given folds, one fold after the other. */
  function Trades(w: Plan, starts: seq<nat>): seq<Closed>
    requires w.Valid()
  {
    if starts == [] then [] else
      Trades(w, starts[..|starts| - 1]) + FoldTrades(w, starts[|starts| - 1])
  }

  ghost predicate AllFit(w: Plan, bars: seq<Bar>, starts: seq<nat>) {
    forall k :: 0 <= k < |starts| ==> starts[k] + w.train + w.test <= |bars|
  }

  function Rows(w: Plan, bars: seq<Bar>, starts: seq<nat>): seq<Fold>
    requires w.Valid() && AllFit(w, bars, starts)
  {
    seq(|starts|, k requires 0 <= k < |starts| => FoldRow(w, bars, starts[k]))
  }

  lemma TradesSnoc(w: Plan, starts: seq<nat>, a: nat)
    requires w.Valid()
    ensures Trades(w, starts + [a]) == Trades(w, starts) + FoldTrades(w, a)
  {
    assert (starts + [a])[..|starts|] == starts;
  }

  lemma StartsStep(span: nat, test: nat, n: nat, a: nat, done: seq<nat>, all: seq<nat>)
    requires test >= 1 && a + span <= n && done + Starts(span, test, n, a) == all
    ensures done + [a] + Starts(span, test, n, a + test) == all
  {
    assert done + ([a] + Starts(span, test, n, a + test)) == all;
  }

  lemma RsConcat(x: seq<Closed>, y: seq<Closed>)
    ensures Rs(x + y) == Rs(x) + Rs(y)
  {
  }

  method RunFold(w: Plan, a: nat) returns (rows: seq<Closed>, best: nat)
    requires w.Valid()
    ensures best == Best(w, a) && rows == FoldTrades(w, a)
  {
    best := ChooseParams(w, a);
    rows := w.sim(w.grid[best], a, a + w.train, a + w.train + w.test);
  }

  method ReportFold(w: Plan, bars: seq<Bar>, a: nat) returns (rows: seq<Closed>, row: Fold)
    requires w.Valid() && a + w.train + w.test <= |bars|
    ensures rows == FoldTrades(w, a) && row == FoldRow(w, bars, a)
  {
    var best;
    rows, best := RunFold(w, a);
    var m := ComputeMetrics(Rs(rows));
    var b := a + w.train;
    row := Fold(DayOf(bars[b].timestamp), DayOf(bars[b + w.test - 1].timestamp), w.grid[best], m);
  }

  /** What has been reported after the given folds. */
  ghost predicate Reported(w: Plan, bars: seq<Bar>, done: seq<nat>, oos: seq<real>, folds: seq<Fold>)
    requires w.Valid()
  {
    oos == Rs(Trades(w, done)) && AllFit(w, bars, done) && folds == Rows(w, bars, done)
  }

  lemma ReportedStep(w: Plan, bars: seq<Bar>, done: seq<nat>, oos: seq<real>, folds: seq<Fold>, a: nat)
    requires w.Valid() && Reported(w, bars, done, oos, folds) && a + w.train + w.test <= |bars|
    ensures Reported(w, bars, done + [a], oos + Rs(FoldTrades(w, a)), folds + [FoldRow(w, bars, a)])
  {
    TradesSnoc(w, done, a);
    RsConcat(Trades(w, done), FoldTrades(w, a));
  }

  method RunWalkForward(w: Plan, bars: seq<Bar>) returns (total: Metrics, folds: seq<Fold>)
    requires w.Valid() && w.n == |bars|
    ensures total == MetricsOf(Rs(Trades(w, AllStarts(w))))
    ensures AllFit(w, bars, AllStarts(w)) && folds == Rows(w, bars, AllStarts(w))
  {
    ghost var done: seq<nat> := [];
    var oos, start := [], 0;
    folds := [];
    while start + w.train + w.test <= w.n
      invariant done + Starts(w.train + w.test, w.test, w.n, start) == AllStarts(w)
      invariant Reported(w, bars, done, oos, folds)
      decreases w.n - start
    {
      var rows, row := ReportFold(w, bars, start);
      ReportedStep(w, bars, done, oos, folds, start);
      StartsStep(w.train + w.test, w.test, w.n, start, done, AllStarts(w));
      done := done + [start];
      oos := oos + Rs(rows);
      folds := folds + [row];
      start := start + w.test;
    }
    assert done + [] == done;
    total := ComputeMetrics(oos);
  }

  // ---- the ordered list of out-of-sample trades

  datatype Stamped = Stamped(timestamp: int, r: real)

  function StampAll(bars: seq<Bar>, out: seq<Closed>): seq<Stamped>
    requires forall i :: 0 <= i < |out| ==> out[i].index < |bars|
  {
    seq(|out|, i requires 0 <= i < |out| => Stamped(bars[out[i].index].timestamp, out[i].r))
  }

  function StampOf(): Stamped -> int { (x: Stamped) => x.timestamp }

  /** Entry bars lie in [lo, hi) and strictly increase. */
  ghost predicate Ascending(out: seq<Closed>, lo: int, hi: int) {
    && (forall i :: 0 <= i < |out| ==> lo <= out[i].index < hi)
    && (forall i, j :: 0 <= i < j < |out| ==> out[i].index < out[j].index)
  }

  /** Trades of a window enter inside it, in order. */
  ghost predicate Conforming(w: Plan) {
    forall p, warm: nat, start: nat, end: nat :: Ascending(w.sim(p, warm, start, end), start, end)
  }

  /** Each fold starts where the test window of the one before it ends, less the training length. */
  ghost predicate Tiling(starts: seq<nat>, a: nat, test: nat, span: nat, n: nat) {
    forall k :: 0 <= k < |starts| ==> starts[k] == a + k * test && starts[k] + span <= n
  }

  lemma {:induction false} StartsTile(span: nat, test: nat, n: nat, a: nat)
    requires test >= 1
    ensures Tiling(Starts(span, test, n, a), a, test, span, n)
    decreases n - a
  {
    if a + span <= n {
      StartsTile(span, test, n, a + test);
      var rest := Starts(span, test, n, a + test);
      forall k | 0 < k < |rest| + 1 ensures ([a] + rest)[k] == a + k * test {
        assert ([a] + rest)[k] == rest[k - 1] == a + test + (k - 1) * test;
        assert (k - 1) * test + test == k * test;
      }
    }
  }

  lemma AscendingConcat(x: seq<Closed>, y: seq<Closed>, lo: int, mid: int, hi: int)
    requires Ascending(x, lo, mid) && Ascending(y, mid, hi) && lo <= mid <= hi
    ensures Ascending(x + y, lo, hi)
  {
  }

  /** The test windows tile, so trades enter in order, each on a later bar than the one before. */
  lemma {:induction false} TestWindowsTile(w: Plan, starts: seq<nat>)
    requires w.Valid() && Conforming(w) && Tiling(starts, 0, w.test, w.train + w.test, w.n)
    ensures Ascending(Trades(w, starts), w.train, w.train + |starts| * w.test)
    ensures starts != [] ==> w.train + |starts| * w.test <= w.n
  {
    if starts != [] {
      var n := |starts| - 1;
      TestWindowsTile(w, starts[..n]);
      assert starts[n] == n * w.test && (n + 1) * w.test == n * w.test + w.test;
      AscendingConcat(Trades(w, starts[..n]), FoldTrades(w, starts[n]),
                      w.train, starts[n] + w.train, starts[n] + w.train + w.test);
    }
  }

  lemma AllTradesAscend(w: Plan)
    requires w.Valid() && Conforming(w)
    ensures Ascending(Trades(w, AllStarts(w)), w.train, w.n)
  {
    StartsTile(w.train + w.test, w.test, w.n, 0);
    TestWindowsTile(w, AllStarts(w));
  }

  function AllStamped(w: Plan, bars: seq<Bar>): seq<Stamped>
    requires w.Valid() && w.n == |bars| && Ascending(Trades(w, AllStarts(w)), w.train, w.n)
  {
    StampAll(bars, Trades(w, AllStarts(w)))
  }

  lemma StampConcat(bars: seq<Bar>, x: seq<Closed>, y: seq<Closed>)
    requires forall i :: 0 <= i < |x| ==> x[i].index < |bars|
    requires forall i :: 0 <= i < |y| ==> y[i].index < |bars|
    ensures forall i :: 0 <= i < |x + y| ==> (x + y)[i].index < |bars|
    ensures StampAll(bars, x + y) == StampAll(bars, x) + StampAll(bars, y)
  {
  }

  /** What the list holds after the given folds. */
  ghost predicate Holds(w: Plan, bars: seq<Bar>, done: seq<nat>, out: seq<Stamped>)
    requires w.Valid()
  {
    var trades := Trades(w, done);
    (forall i :: 0 <= i < |trades| ==> trades[i].index < |bars|) && out == StampAll(bars, trades)
  }

  lemma HoldsStep(w: Plan, bars: seq<Bar>, done: seq<nat>, out: seq<Stamped>, a: nat)
    requires w.Valid() && Conforming(w) && a + w.train + w.test <= |bars| && Holds(w, bars, done, out)
    ensures var rows := FoldTrades(w, a);
            (forall i :: 0 <= i < |rows| ==> rows[i].index < |bars|) &&
            Holds(w, bars, done + [a], out + StampAll(bars, rows))
  {
    assert Ascending(FoldTrades(w, a), a + w.train, a + w.train + w.test);
    TradesSnoc(w, done, a);
    StampConcat(bars, Trades(w, done), FoldTrades(w, a));
  }

  /** The results of one more fold, stamped with the times of their entry bars. */
  method StampFold(w: Plan, bars: seq<Bar>, ghost done: seq<nat>, out: seq<Stamped>, a: nat)
      returns (more: seq<Stamped>)
    requires w.Valid() && Conforming(w) && a + w.train + w.test <= |bars| && Holds(w, bars, done, out)
    ensures Holds(w, bars, done + [a], more)
  {
    var rows, _ := RunFold(w, a);
    HoldsStep(w, bars, done, out, a);
    more := out + StampAll(bars, rows);
  }

  lemma HoldsNothing(w: Plan, bars: seq<Bar>)
    requires w.Valid()
    ensures Holds(w, bars, [], [])
  {
  }

  /** The folds done are those before `start`. */
  ghost predicate DoneUpTo(w: Plan, done: seq<nat>, start: nat)
    requires w.Valid()
  {
    done + Starts(w.train + w.test, w.test, w.n, start) == AllStarts(w)
  }

  lemma DoneNext(w: Plan, done: seq<nat>, start: nat)
    requires w.Valid() && DoneUpTo(w, done, start) && start + w.train + w.test <= w.n
    ensures DoneUpTo(w, done + [start], start + w.test)
  {
    StartsStep(w.train + w.test, w.test, w.n, start, done, AllStarts(w));
  }

  lemma DoneAll(w: Plan, done: seq<nat>, start: nat)
    requires w.Valid() && DoneUpTo(w, done, start) && start + w.train + w.test > w.n
    ensures done == AllStarts(w)
  {
    assert done + [] == done;
  }

  lemma NothingDone(w: Plan)
    requires w.Valid()
    ensures DoneUpTo(w, [], 0)
  {
  }

  method CollectFolds(w: Plan, bars: seq<Bar>) returns (out: seq<Stamped>)
    requires w.Valid() && w.n == |bars| && Conforming(w)
    ensures Holds(w, bars, AllStarts(w), out)
  {
    ghost var done: seq<nat> := [];
    out := [];
    var start := 0;
    NothingDone(w);
    HoldsNothing(w, bars);
    while start + w.train + w.test <= w.n
      invariant DoneUpTo(w, done, start) && Holds(w, bars, done, out)
      decreases w.n - start
    {
      out := StampFold(w, bars, done, out, start);
      DoneNext(w, done, start);
      done := done + [start];
      start := start + w.test;
    }
    DoneAll(w, done, start);
  }

  method OosTrades(w: Plan, bars: seq<Bar>) returns (out: seq<Stamped>)
    requires w.Valid() && w.n == |bars| && Conforming(w)
    ensures Ascending(Trades(w, AllStarts(w)), w.train, w.n)
    ensures out == SortBy(StampOf(), AllStamped(w, bars))
  {
    AllTradesAscend(w);
    out := CollectFolds(w, bars);
    out := SortBy(StampOf(), out);
  }

  // ---- agreement and causality, for the real simulator

  /** The simulator that builds a fresh strategy for every window. */
  function SimulatorOf(brainOf: Params -> Brain, cost: real, bars: seq<Bar>): Simulator {
    (p: Params, warm: nat, start: nat, end: nat) => Window(Setup(brainOf(p), p.rr, cost), bars, warm, start, end).out
  }

  function PlanOf(brainOf: Params -> Brain, cost: real, bars: seq<Bar>, grid: seq<Params>, train: nat,
                  test: nat): Plan {
    Plan(SimulatorOf(brainOf, cost, bars), grid, |bars|, train, test)
  }

  lemma SimulatorConforms(brainOf: Params -> Brain, cost: real, bars: seq<Bar>, grid: seq<Params>, train: nat,
                          test: nat)
    ensures Conforming(PlanOf(brainOf, cost, bars, grid, train, test))
  {
    var w := PlanOf(brainOf, cost, bars, grid, train, test);
    forall p, warm: nat, start: nat, end: nat ensures Ascending(w.sim(p, warm, start, end), start, end) {
      TradesAreOrderly(Setup(brainOf(p), p.rr, cost), bars, warm, start, end);
    }
  }

  function StampedRs(xs: seq<Stamped>): seq<real> { seq(|xs|, i requires 0 <= i < |xs| => xs[i].r) }

  /** On bars in time order the final sort changes nothing, and the results listed by one driver are
      exactly those aggregated by the other. */
  lemma SameResults(w: Plan, bars: seq<Bar>)
    requires w.Valid() && w.n == |bars| && Conforming(w) && InTimeOrder(bars)
    ensures Ascending(Trades(w, AllStarts(w)), w.train, w.n)
    ensures SortBy(StampOf(), AllStamped(w, bars)) == AllStamped(w, bars)
    ensures StampedRs(SortBy(StampOf(), AllStamped(w, bars))) == Rs(Trades(w, AllStarts(w)))
  {
    AllTradesAscend(w);
    SortIsNoOp(StampOf(), AllStamped(w, bars));
    assert StampedRs(AllStamped(w, bars)) == Rs(Trades(w, AllStarts(w)));
  }

  /** Both drivers on the same data: the statistics of the listed trades are the reported aggregate. */
  method RunBoth(brainOf: Params -> Brain, cost: real, bars: seq<Bar>, train: nat, test: nat)
    returns (aggregate: Metrics, listed: seq<Stamped>)
    requires test >= 1 && InTimeOrder(bars)
    ensures MetricsOf(StampedRs(listed)) == aggregate
    ensures OrderedBy(StampOf(), listed)
  {
    var w := PlanOf(brainOf, cost, bars, GRID, train, test);
    SimulatorConforms(brainOf, cost, bars, GRID, train, test);
    SameResults(w, bars);
    var folds;
    aggregate, folds := RunWalkForward(w, bars);
    listed := OosTrades(w, bars);
  }

  /** The two simulators return the same trades on every window inside [lo, hi). */
  ghost predicate SameWithin(s: Simulator, t: Simulator, lo: nat, hi: nat) {
    forall p, warm: nat, start: nat, end: nat :: lo <= warm <= start && end <= hi ==>
      s(p, warm, start, end) == t(p, warm, start, end)
  }

  lemma SameBarsSameTrades(brainOf: Params -> Brain, cost: real, x: seq<Bar>, y: seq<Bar>, lo: nat, hi: nat)
    requires Agree(x, y, lo, hi)
    ensures SameWithin(SimulatorOf(brainOf, cost, x), SimulatorOf(brainOf, cost, y), lo, hi)
  {
    var s, t := SimulatorOf(brainOf, cost, x), SimulatorOf(brainOf, cost, y);
    forall p, warm: nat, start: nat, end: nat | lo <= warm <= start && end <= hi
      ensures s(p, warm, start, end) == t(p, warm, start, end)
    {
      OnlyTheWindowMatters(Setup(brainOf(p), p.rr, cost), x, y, warm, start, end);
    }
  }

  lemma SameScores(v: Plan, w: Plan, a: nat)
    requires v.Valid() && w.Valid() && v.grid == w.grid && v.train == w.train
    requires SameWithin(v.sim, w.sim, a, a + v.train)
    ensures Best(v, a) == Best(w, a)
  {
    forall k: nat | k < |v.grid| ensures Score(v, a)(k) == Score(w, a)(k) {
      assert v.sim(v.grid[k], a, a, a + v.train) == w.sim(v.grid[k], a, a, a + v.train);
    }
    FirstMaxCongruent(Score(v, a), Score(w, a), |v.grid|);
  }

  /** The parameters of a fold depend only on bars before its test window, and its trades only on bars before
      the end of that window. */
  lemma FoldIsCausal(brainOf: Params -> Brain, cost: real, x: seq<Bar>, y: seq<Bar>, grid: seq<Params>,
                     train: nat, test: nat, a: nat)
    requires grid != [] && test >= 1
    ensures var v, w := PlanOf(brainOf, cost, x, grid, train, test), PlanOf(brainOf, cost, y, grid, train, test);
            (Agree(x, y, a, a + train) ==> Best(v, a) == Best(w, a)) &&
            (Agree(x, y, a, a + train + test) ==> FoldTrades(v, a) == FoldTrades(w, a))
  {
    var v, w := PlanOf(brainOf, cost, x, grid, train, test), PlanOf(brainOf, cost, y, grid, train, test);
    if Agree(x, y, a, a + train) {
      SameBarsSameTrades(brainOf, cost, x, y, a, a + train);
      SameScores(v, w, a);
    }
    if Agree(x, y, a, a + train + test) {
      SameBarsSameTrades(brainOf, cost, x, y, a, a + train + test);
      SameFold(v, w, a);
    }
  }

  lemma SameFold(v: Plan, w: Plan, a: nat)
    requires v.Valid() && w.Valid() && v.grid == w.grid && v.train == w.train && v.test == w.test
    requires SameWithin(v.sim, w.sim, a, a + v.train + v.test)
    ensures FoldTrades(v, a) == FoldTrades(w, a)
  {
    SameScores(v, w, a);
  }
}
