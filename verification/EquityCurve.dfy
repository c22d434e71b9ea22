/** The equity curve of the single-symbol engine (bot/backtester.py): every point is the starting cash, what the
    trades closed so far have brought, and what the open trade is worth at the close. */
module EquityCurve {
  import opened Types
  import opened Folds
  import opened Paper
  import opened Ledger
  import opened Backtester
  import opened Books
  import BrokerFills
  import TradeStories

  /** What the open trade would bring at this price, its entry fee included. */
  function OpenAt(o: OpenTrade, price: real): real {
    (if o.side.Buy? then (price - o.entryPrice) * o.qty else (o.entryPrice - price) * o.qty) - o.entryFee
  }

  /** Realized and unrealized. */
  function WorthAt(c: Config, l: Ledger, price: real): real {
    c.startingCash + SumOf(Pnl(), l.trades) + if l.open.Some? then OpenAt(l.open.value, price) else 0.0
  }

  predicate LastIs(b: Book, s: Symbol, price: real) { s in b.lastPrice && b.lastPrice[s] == price }

  // ---- the close of the bar is the latest price

  lemma FeedMarks(c: Config, e: Engine, bar: Bar)
    ensures LastIs(FeedBar(c, e, bar).book, c.symbol, bar.close)
  {
    var (book, xs) := BarOf(c.fees, e.book, c.symbol, bar);
    BrokerFills.FillAllLeavesPrices(c.fees, e.book, e.book.pending, c.symbol, bar);
    TradeStories.TakeFillsBook(c, e.(book := book), xs);
  }

  lemma CloseOutMarks(c: Config, e: Engine, time: int, price: real)
    requires LastIs(e.book, c.symbol, price)
    ensures LastIs(CloseOut(c, e, time, price).book, c.symbol, price)
  {
    if c.symbol in e.book.positions {
      var qty := e.book.positions[c.symbol].qty;
      var order := Order(c.symbol, ExitSide(qty), Abs(qty), 0.0, 0.0);
      FeedMarks(c, e.(book := Serve(c.fees, e.book, Submit(order))), FlatBar(time, price));
    }
  }

  lemma ManageAtMarks(c: Config, e: Engine, bar: Bar, risk: real)
    requires e.ledger.open.Some? && risk > 0.0 && LastIs(e.book, c.symbol, bar.close)
    ensures LastIs(ManageAt(c, e, bar, risk).book, c.symbol, bar.close)
  {
    var rNow := OpenR(e.ledger.open.value, bar.close, risk);
    var part := TakePartial(c, e, bar, rNow);
    assert LastIs(part.book, c.symbol, bar.close);
    var moved := MoveToBreakeven(c, part, rNow);
    assert LastIs(moved.book, c.symbol, bar.close);
    CloseOutMarks(c, moved, bar.timestamp, bar.close);
  }

  lemma ManageMarks(c: Config, e: Engine, bar: Bar)
    requires LastIs(e.book, c.symbol, bar.close)
    ensures LastIs(Manage(c, e, bar).book, c.symbol, bar.close)
  {
    if e.ledger.open.Some? && RiskOf(Ticked(e).ledger) > 0.0 {
      ManageAtMarks(c, Ticked(e), bar, RiskOf(Ticked(e).ledger));
    }
  }

  lemma DecideMarks(c: Config, e: Engine, signal: Option<Signal>, time: int, price: real)
    requires LastIs(e.book, c.symbol, price)
    ensures LastIs(Decide(c, e, signal, time).book, c.symbol, price)
  {
  }

  lemma StepMarks(c: Config, strategy: Strategy, e: Engine, bar: Bar)
    ensures LastIs(Step(c, strategy, e, bar).book, c.symbol, bar.close)
  {
    var ready := Housekeep(c, Begin(e), bar);
    FeedMarks(c, ready, bar);
    ManageMarks(c, FeedBar(c, ready, bar), bar);
    var traded := Manage(c, FeedBar(c, ready, bar), bar);
    var shown := traded.(seen := traded.seen + [bar]);
    DecideMarks(c, shown, strategy(shown.seen), bar.timestamp, bar.close);
  }

  // ---- the worth of the account

  lemma OneValue(b: Book, s: Symbol)
    requires b.positions.Keys <= {s} && s in b.positions
    ensures SumMap(Values(b.positions, b.lastPrice)) == ValueOf(b.positions, b.lastPrice, s)
  {
    var values := Values(b.positions, b.lastPrice);
    SumMapAt(values, s);
    assert values - {s} == map[];
  }

  lemma NoValue(b: Book)
    requires b.positions == map[]
    ensures SumMap(Values(b.positions, b.lastPrice)) == 0.0
  {
    assert Values(b.positions, b.lastPrice) == map[];
  }

  lemma MarkLessCost(o: OpenTrade, price: real)
    ensures o.side.Of(o.qty) * price - (o.side.Of(o.qty) * o.entryPrice + o.entryFee) == OpenAt(o, price)
  {
  }

  lemma SyncedWorth(c: Config, l: Ledger, b: Book, price: real)
    requires Sync(c, l, b) && LastIs(b, c.symbol, price)
    ensures Worth(b) == WorthAt(c, l, price)
  {
    if l.open.Some? {
      OneValue(b, c.symbol);
      MarkLessCost(l.open.value, price);
    } else {
      assert b.positions == map[];
      NoValue(b);
    }
  }

  /** The engine after the first n bars of a run. */
  ghost function AfterBars(f: (Engine, Bar) -> Engine, c: Config, bars: seq<Bar>, n: nat): Engine
    requires n <= |bars|
  { Fold(f, Begin(Initial(c)), bars[..n]) }

  lemma BarAfter(f: (Engine, Bar) -> Engine, c: Config, bars: seq<Bar>, n: nat)
    requires n < |bars|
    ensures AfterBars(f, c, bars, n + 1) == f(AfterBars(f, c, bars, n), bars[n])
  {
    assert bars[..n + 1][..n] == bars[..n];
  }

  lemma StepKept(f: (Engine, Bar) -> Engine, c: Config, strategy: Strategy, bars: seq<Bar>, n: nat, e: Engine)
    requires c.Valid() && n <= |bars| && f == StepFn(c, strategy) && e == AfterBars(f, c, bars, n)
    ensures EngineOk(c, e) && Recorded(e, bars[..n])
  {
    EveryStepKeeps(c, strategy, bars[..n]);
  }

  lemma CurveGrows(f: (Engine, Bar) -> Engine, c: Config, strategy: Strategy, bars: seq<Bar>, n: nat)
    requires c.Valid() && n < |bars| && f == StepFn(c, strategy)
    ensures AfterBars(f, c, bars, n).curve <= AfterBars(f, c, bars, n + 1).curve
  {
    BarAfter(f, c, bars, n);
    StepKept(f, c, strategy, bars, n, AfterBars(f, c, bars, n));
    StepKeeps(c, strategy, AfterBars(f, c, bars, n), bars[n]);
  }

  lemma {:induction false} PointsStay(f: (Engine, Bar) -> Engine, c: Config, bars: seq<Bar>, n: nat, m: nat)
    requires n <= m <= |bars|
    requires forall i: nat, j: nat :: j == i + 1 <= |bars| ==>
               AfterBars(f, c, bars, i).curve <= AfterBars(f, c, bars, j).curve
    ensures AfterBars(f, c, bars, n).curve <= AfterBars(f, c, bars, m).curve
    decreases m
  {
    if n < m { PointsStay(f, c, bars, n, m - 1); }
  }

  lemma PointIsWorth(f: (Engine, Bar) -> Engine, c: Config, strategy: Strategy, bars: seq<Bar>, n: nat, e: Engine)
    requires c.Valid() && n < |bars| && f == StepFn(c, strategy) && e == AfterBars(f, c, bars, n + 1)
    ensures |e.curve| == n + 1 && e.curve[n] == (bars[n].timestamp, WorthAt(c, e.ledger, bars[n].close))
  {
    StepKept(f, c, strategy, bars, n + 1, e);
    BarAfter(f, c, bars, n);
    StepMarks(c, strategy, AfterBars(f, c, bars, n), bars[n]);
    SyncedWorth(c, e.ledger, e.book, bars[n].close);
  }

  lemma FinalizeKeepsPoints(c: Config, e: Engine, bars: seq<Bar>, n: nat)
    requires EngineOk(c, e) && e.risk.day.Some? && n + 1 < |e.curve| == |bars|
    ensures |Finalize(c, e, bars).curve| == |e.curve| && Finalize(c, e, bars).curve[n] == e.curve[n]
  {
    CloseOutKeeps(c, e, bars[|bars| - 1].timestamp, bars[|bars| - 1].close);
  }

  lemma EarlierPoints(f: (Engine, Bar) -> Engine, c: Config, strategy: Strategy, bars: seq<Bar>, n: nat)
    requires c.Valid() && n < |bars| && f == StepFn(c, strategy)
    ensures AfterBars(f, c, bars, n + 1).curve <= AfterBars(f, c, bars, |bars|).curve
  {
    forall i: nat, j: nat | j == i + 1 <= |bars|
      ensures AfterBars(f, c, bars, i).curve <= AfterBars(f, c, bars, j).curve
    {
      CurveGrows(f, c, strategy, bars, i);
    }
    PointsStay(f, c, bars, n + 1, |bars|);
  }

  /** Each point of a backtest's curve is the time of its bar with the starting cash, the results of all trades closed
      up to that bar, and the trade then open at that bar's close; the last is the final equity. */
  lemma EveryPointIsWorth(c: Config, strategy: Strategy, bars: seq<Bar>, n: nat)
    requires c.Valid() && n < |bars|
    ensures var done := Batch(c, strategy, bars);
            && |done.curve| == |bars|
            && done.curve[n] == (bars[n].timestamp,
                                 if n + 1 == |bars| then c.startingCash + SumOf(Pnl(), done.ledger.trades)
                                 else WorthAt(c, AfterBars(StepFn(c, strategy), c, bars, n + 1).ledger, bars[n].close))
  {
    BooksBalance(c, strategy, bars);
    if n + 1 < |bars| { InnerPoint(c, strategy, bars, n); }
  }

  lemma InnerPoint(c: Config, strategy: Strategy, bars: seq<Bar>, n: nat)
    requires c.Valid() && n + 1 < |bars|
    ensures var done := Batch(c, strategy, bars);
            |done.curve| == |bars| && done.curve[n] ==
              (bars[n].timestamp, WorthAt(c, AfterBars(StepFn(c, strategy), c, bars, n + 1).ledger, bars[n].close))
  {
    var f := StepFn(c, strategy);
    var e := AfterBars(f, c, bars, |bars|);
    assert bars[..|bars|] == bars;
    StepKept(f, c, strategy, bars, |bars|, e);
    PointIsWorth(f, c, strategy, bars, n, AfterBars(f, c, bars, n + 1));
    EarlierPoints(f, c, strategy, bars, n);
    FinalizeKeepsPoints(c, e, bars, n);
  }
}
