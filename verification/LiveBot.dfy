/** The live runner (automation-hub/bots/live_runner.py): the batch engine driven one closed bar at a time. */
module LiveBot {
  import opened Types
  import opened Folds
  import opened Ledger
  import opened Backtester

  datatype BotState = Running | Stopped

  /** How the loop ended: the feed ran dry, the stop flag was up before a bar, or a guard tripped after one. */
  datatype Ending = Exhausted | Interrupted | Halted

  /** The circuit breaker: any verdict on the equity curve, the trades, the latest day's result and the
      starting cash. */
  type Guard = (seq<(int, real)>, seq<Trade>, real, real) -> bool

  /** The latest exit day, given that one trade left on `day`. */
  function LatestDay(ts: seq<Trade>, day: int): int {
    if ts == [] then day else
      var d := LatestDay(ts[..|ts| - 1], day);
      if d < DayOf(ts[|ts| - 1].exitTime) then DayOf(ts[|ts| - 1].exitTime) else d
  }

  function DayPnl(day: int): Trade -> real { (t: Trade) => if DayOf(t.exitTime) == day then t.pnl else 0.0 }

  /** The result of the latest day on which a trade was closed. */
  function TodayPnl(ts: seq<Trade>): real {
    if ts == [] then 0.0 else SumOf(DayPnl(LatestDay(ts, DayOf(ts[0].exitTime))), ts)
  }

  /** Add up the results by exit day and take the latest day. */
  method ComputeTodayPnl(ts: seq<Trade>) returns (pnl: real)
    ensures pnl == TodayPnl(ts)
  {
    if ts == [] { return 0.0; }
    var byDay: map<int, real> := map[];
    var latest := DayOf(ts[0].exitTime);
    for i := 0 to |ts|
      invariant forall d :: d !in byDay ==> SumOf(DayPnl(d), ts[..i]) == 0.0
      invariant forall d :: d in byDay ==> byDay[d] == SumOf(DayPnl(d), ts[..i])
      invariant latest == LatestDay(ts[..i], DayOf(ts[0].exitTime)) && (i > 0 ==> latest in byDay)
    {
      assert ts[..i + 1][..i] == ts[..i];
      var day := DayOf(ts[i].exitTime);
      forall d
        ensures SumOf(DayPnl(d), ts[..i + 1]) == SumOf(DayPnl(d), ts[..i]) + if d == day then ts[i].pnl else 0.0
      {}
      byDay := byDay[day := (if day in byDay then byDay[day] else 0.0) + ts[i].pnl];
      if latest < day { latest := day; }
    }
    assert ts[..|ts|] == ts;
    return byDay[latest];
  }

  /** The result of one day: what each trade brought that was closed on it. */
  function ResultOn(ts: seq<Trade>, day: int): real {
    Sum(seq(|ts|, i requires 0 <= i < |ts| => if DayOf(ts[i].exitTime) == day then ts[i].pnl else 0.0))
  }

  /** A trade was closed on the day and none on a later one. */
  predicate IsLatest(ts: seq<Trade>, day: int) {
    (exists t :: t in ts && DayOf(t.exitTime) == day) && forall t :: t in ts ==> DayOf(t.exitTime) <= day
  }

  lemma {:induction false} DayPnlIsResult(ts: seq<Trade>, day: int)
    ensures SumOf(DayPnl(day), ts) == ResultOn(ts, day)
  {
    if ts != [] {
      var n := |ts| - 1;
      DayPnlIsResult(ts[..n], day);
      var all := seq(|ts|, i requires 0 <= i < |ts| => if DayOf(ts[i].exitTime) == day then ts[i].pnl else 0.0);
      assert all[..n] ==
             seq(n, i requires 0 <= i < n => if DayOf(ts[..n][i].exitTime) == day then ts[..n][i].pnl else 0.0);
    }
  }

  lemma {:induction false} LatestDayIsLatest(ts: seq<Trade>, day: int)
    ensures LatestDay(ts, day) >= day && forall t :: t in ts ==> DayOf(t.exitTime) <= LatestDay(ts, day)
    ensures LatestDay(ts, day) == day || exists t :: t in ts && DayOf(t.exitTime) == LatestDay(ts, day)
  {
    if ts != [] {
      var n := |ts| - 1;
      LatestDayIsLatest(ts[..n], day);
      assert ts == ts[..n] + [ts[n]];
    }
  }

  /** The day's result is that of the latest day on which a trade was closed. */
  lemma TodayIsLatestDay(ts: seq<Trade>, day: int)
    requires ts != [] && IsLatest(ts, day)
    ensures TodayPnl(ts) == ResultOn(ts, day)
  {
    var latest := LatestDay(ts, DayOf(ts[0].exitTime));
    LatestDayIsLatest(ts, DayOf(ts[0].exitTime));
    assert ts[0] in ts && latest == day;
    DayPnlIsResult(ts, day);
  }

  predicate Trips(guard: Guard, c: Config, e: Engine) {
    guard(e.curve, e.ledger.trades, TodayPnl(e.ledger.trades), c.startingCash)
  }

  /** A fresh engine before the first bar, whether or not it was started explicitly. */
  lemma {:induction false} StartIsImplicit(c: Config, strategy: Strategy, bars: seq<Bar>)
    requires bars != []
    ensures StepAll(c, strategy, Initial(c), bars) == StepAll(c, strategy, Begin(Initial(c)), bars)
    decreases |bars|
  {
    var f, n := StepFn(c, strategy), |bars| - 1;
    if n == 0 {
      assert Fold(f, Initial(c), bars[..0]) == Initial(c);
      assert Fold(f, Begin(Initial(c)), bars[..0]) == Begin(Initial(c));
      assert Step(c, strategy, Initial(c), bars[0]) == Step(c, strategy, Begin(Initial(c)), bars[0]);
    } else {
      StartIsImplicit(c, strategy, bars[..n]);
    }
  }

  /** f is the engine's step; known only where a step is taken. */
  ghost predicate IsStep(f: (Engine, Bar) -> Engine, c: Config, strategy: Strategy) {
    forall e, bar {:trigger Step(c, strategy, e, bar)} :: f(e, bar) == Step(c, strategy, e, bar)
  }

  /** The engine after the first k bars of the feed. */
  ghost function After(f: (Engine, Bar) -> Engine, c: Config, feed: seq<Bar>, k: nat): Engine
    requires k <= |feed|
  {
    Fold(f, Initial(c), feed[..k])
  }

  lemma AfterNext(f: (Engine, Bar) -> Engine, c: Config, feed: seq<Bar>, k: nat)
    requires k < |feed|
    ensures After(f, c, feed, k + 1) == f(After(f, c, feed, k), feed[k])
  {
    assert feed[..k + 1][..k] == feed[..k];
  }

  /** Finishing what was stepped live gives the batch result on the same bars. */
  lemma FinishedLiveIsBatch(c: Config, strategy: Strategy, bars: seq<Bar>)
    ensures Finalize(c, StepAll(c, strategy, Initial(c), bars), bars).(started := true)
         == Batch(c, strategy, bars).(started := true)
  {
    if bars == [] {
      assert StepAll(c, strategy, Initial(c), bars) == Initial(c);
      assert StepAll(c, strategy, Begin(Initial(c)), bars) == Begin(Initial(c));
    } else {
      StartIsImplicit(c, strategy, bars);
    }
  }

  /** After n bars: no stop flag and no trip before, and the reason why the loop ended there. */
  ghost predicate EndsRightly(ending: Ending, n: nat, feed: seq<Bar>, stopBefore: nat -> bool, guard: Guard,
                              f: (Engine, Bar) -> Engine, c: Config)
    requires n <= |feed|
  {
    && (forall k: nat :: k < n ==> !stopBefore(k))
    && (forall k: nat :: 0 < k < n ==> !Trips(guard, c, After(f, c, feed, k)))
    && match ending
       case Exhausted => n == |feed| && (n > 0 ==> !Trips(guard, c, After(f, c, feed, n)))
       case Interrupted => n < |feed| && stopBefore(n) && (n > 0 ==> !Trips(guard, c, After(f, c, feed, n)))
       case Halted => 0 < n && Trips(guard, c, After(f, c, feed, n))
  }

  class LiveBotRunner {
    const engine: Backtester
    var barCount: nat
    var lastBarTime: Option<int>
    var lastTradeTime: Option<int>
    // what the dashboard reads
    var state: BotState
    var trades: seq<Trade>
    var curve: seq<(int, real)>
    var pnlToday: real

    constructor (cfg: Config, strategy: Strategy)
      ensures engine.Wired() && fresh(engine) && fresh(engine.broker) && fresh(engine.risk)
      ensures engine.cfg == cfg && engine.strategy == strategy && engine.bars == []
      ensures engine.View() == Initial(cfg) && barCount == 0
    {
      engine := new Backtester(cfg, strategy, []);
      barCount, lastBarTime, lastTradeTime := 0, None, None;
      state, trades, curve, pnlToday := Running, [], [], 0.0;
    }

    method Sync()
      modifies this`trades, this`curve, this`pnlToday
      ensures trades == engine.trades && curve == engine.curve && pnlToday == TodayPnl(engine.trades)
    {
      trades, curve := engine.trades, engine.curve;
      pnlToday := ComputeTodayPnl(trades);
    }

    /** One bar of the feed: append it, step the engine, copy the outcome, ask the guard. */
    method StepOne(feed: seq<Bar>, i: nat, guard: Guard, ghost f: (Engine, Bar) -> Engine) returns (tripped: bool)
      requires engine.Wired() && IsStep(f, engine.cfg, engine.strategy)
      requires i < |feed| && barCount == i && engine.bars == feed[..i] && engine.View() == After(f, engine.cfg, feed, i)
      modifies this, engine, engine.broker, engine.risk
      ensures barCount == i + 1 && engine.bars == feed[..i + 1] && lastBarTime == Some(feed[i].timestamp)
      ensures engine.View() == After(f, engine.cfg, feed, i + 1)
      ensures tripped == Trips(guard, engine.cfg, engine.View())
    {
      engine.bars := engine.bars + [feed[i]];
      assert feed[..i + 1] == feed[..i] + [feed[i]];
      AfterNext(f, engine.cfg, feed, i);
      var _ := engine.StepBar(feed[i]);
      barCount := barCount + 1;
      lastBarTime := Some(feed[i].timestamp);
      if engine.trades != [] { lastTradeTime := Some(engine.trades[|engine.trades| - 1].exitTime); }
      Sync();
      tripped := guard(engine.curve, engine.trades, pnlToday, engine.cfg.startingCash);
    }

    /** Step bars until the feed ends, the stop flag is seen before a bar, or the guard trips after one. */
    method StepFeed(feed: seq<Bar>, stopBefore: nat -> bool, guard: Guard, ghost f: (Engine, Bar) -> Engine)
      returns (ending: Ending)
      requires engine.Wired() && IsStep(f, engine.cfg, engine.strategy)
      requires engine.bars == [] && engine.View() == Initial(engine.cfg) && barCount == 0
      modifies this, engine, engine.broker, engine.risk
      ensures barCount <= |feed| && engine.bars == feed[..barCount]
      ensures engine.View() == After(f, engine.cfg, feed, barCount)
      ensures EndsRightly(ending, barCount, feed, stopBefore, guard, f, engine.cfg)
    {
      ghost var c := engine.cfg;
      assert feed[..0] == [];
      for i := 0 to |feed|
        invariant barCount == i && engine.bars == feed[..i]
        invariant engine.View() == After(f, c, feed, i)
        invariant forall k: nat :: k < i ==> !stopBefore(k)
        invariant forall k: nat :: 0 < k <= i ==> !Trips(guard, c, After(f, c, feed, k))
      {
        if stopBefore(i) { return Interrupted; }
        var tripped := StepOne(feed, i, guard, f);
        if tripped { return Halted; }
      }
      return Exhausted;
    }

    /** The live run. However it ends, its result is the batch backtest on exactly the bars stepped. */
    method Loop(feed: seq<Bar>, stopBefore: nat -> bool, guard: Guard) returns (ending: Ending)
      requires engine.Wired() && engine.bars == [] && engine.View() == Initial(engine.cfg) && barCount == 0
      modifies this, engine, engine.broker, engine.risk
      ensures barCount <= |feed| && engine.bars == feed[..barCount]
      ensures engine.View().(started := true) == Batch(engine.cfg, engine.strategy, feed[..barCount]).(started := true)
      ensures trades == engine.trades && curve == engine.curve && state == Stopped
      ensures EndsRightly(ending, barCount, feed, stopBefore, guard, StepFn(engine.cfg, engine.strategy), engine.cfg)
    {
      ending := StepFeed(feed, stopBefore, guard, StepFn(engine.cfg, engine.strategy));
      CloseBooks(feed[..barCount]);
    }

    /** Finish the engine and copy the outcome. */
    method CloseBooks(ghost stepped: seq<Bar>)
      requires engine.Wired() && engine.bars == stepped
      requires engine.View() == StepAll(engine.cfg, engine.strategy, Initial(engine.cfg), stepped)
      modifies this, engine, engine.broker, engine.risk
      ensures barCount == old(barCount) && engine.bars == stepped
      ensures engine.View().(started := true) == Batch(engine.cfg, engine.strategy, stepped).(started := true)
      ensures trades == engine.trades && curve == engine.curve && state == Stopped
    {
      var _ := engine.Finish();
      FinishedLiveIsBatch(engine.cfg, engine.strategy, stepped);
      Sync();
      state := Stopped;
    }
  }
}
