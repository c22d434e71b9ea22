/** The two engines agree: on one symbol the portfolio engine (bot/multi_backtester.py) does what the single-symbol
    engine (bot/backtester.py) does without trade management. */
module EngineAgreement {
  import opened Types
  import opened Folds
  import opened Risk
  import opened Paper
  import opened Merge
  import Ledger
  import Books
  import Single = Backtester
  import Multi = Portfolio

  type Strategy = Single.Strategy

  /** Both are set up alike for one symbol, and trades are not managed. */
  ghost predicate SetUpAlike(c: Single.Config, d: Multi.Desk, strategy: Strategy) {
    && d == Multi.Desk([c.symbol], c.risk, c.fees, c.startingCash, map[c.symbol := strategy])
    && c.partialTpR == 0.0 && c.breakevenAfterR == 0.0 && c.maxHoldBars == 0
  }

  function AsMap<V>(s: Symbol, x: Option<V>): map<Symbol, V> { if x.Some? then map[s := x.value] else map[] }

  /** What fills and decisions leave alone: the bars remembered and shown, the last time, the range last measured, the
      equity curve. */
  datatype Tape = Tape(history: seq<Bar>, seen: seq<Bar>, lastTime: Option<int>, atr: real, curve: seq<(int, real)>)

  /** Same orders, trades, broker, risk state and curve; and the open trade's risk is still that of its entry. */
  ghost predicate Alike(s: Symbol, t: Tape, e: Single.Engine, p: Multi.State) {
    && e.history == Multi.HistoryOf(p, s) == t.history && e.seen == t.seen && p.lastTime == t.lastTime
    && e.risk.atr == t.atr && e.curve == p.curve == t.curve && e.started
    && p.pending == AsMap(s, e.ledger.pending) && p.open == AsMap(s, e.ledger.open)
    && p.trades == e.ledger.trades && p.book == e.book && p.risk == e.risk
    && (e.ledger.open.Some? ==> e.ledger.riskPerUnit == Ledger.EntryRisk(e.ledger.open.value))
  }

  // ---- fills

  lemma FillAlike(c: Single.Config, d: Multi.Desk, strategy: Strategy, t: Tape, e: Single.Engine, p: Multi.State,
                  x: Fill)
    requires SetUpAlike(c, d, strategy) && Alike(c.symbol, t, e, p) && !x.role.PartialExit?
    ensures Alike(c.symbol, t, Single.TakeFill(c, e, x), Multi.TakeFill(d, p, c.symbol, x))
  {
  }

  lemma {:induction false} FillsAlike(c: Single.Config, d: Multi.Desk, strategy: Strategy, t: Tape, e: Single.Engine,
                                      p: Multi.State, xs: seq<Fill>)
    requires SetUpAlike(c, d, strategy) && Alike(c.symbol, t, e, p) && forall x :: x in xs ==> !x.role.PartialExit?
    ensures Alike(c.symbol, t, Single.TakeFills(c, e, xs), Multi.TakeFills(d, p, c.symbol, xs))
  {
    if xs != [] {
      var n := |xs| - 1;
      FillsAlike(c, d, strategy, t, e, p, xs[..n]);
      FillAlike(c, d, strategy, t, Single.TakeFills(c, e, xs[..n]), Multi.TakeFills(d, p, c.symbol, xs[..n]), xs[n]);
    }
  }

  lemma {:induction false} WaitingFillsAreWhole(f: Fees, b: Book, orders: seq<Order>, s: Symbol, bar: Bar)
    ensures forall x :: x in FillAll(f, b, orders, s, bar).1 ==> !x.role.PartialExit?
    decreases |orders|
  {
    if orders != [] { WaitingFillsAreWhole(f, b, orders[..|orders| - 1], s, bar); }
  }

  lemma BarFillsAreWhole(f: Fees, b: Book, s: Symbol, bar: Bar)
    ensures forall x :: x in BarOf(f, b, s, bar).1 ==> !x.role.PartialExit?
  {
    WaitingFillsAreWhole(f, b, b.pending, s, bar);
  }

  lemma FeedAlike(c: Single.Config, d: Multi.Desk, strategy: Strategy, t: Tape, e: Single.Engine, p: Multi.State,
                  bar: Bar)
    requires SetUpAlike(c, d, strategy) && Alike(c.symbol, t, e, p)
    ensures Alike(c.symbol, t, Single.FeedBar(c, e, bar), Multi.FeedSymbol(d, p, c.symbol, bar))
  {
    var (book, xs) := BarOf(c.fees, e.book, c.symbol, bar);
    BarFillsAreWhole(c.fees, e.book, c.symbol, bar);
    FillsAlike(c, d, strategy, t, e.(book := book), p.(book := book), xs);
  }

  // ---- the other parts of a bar

  lemma NothingToManage(c: Single.Config, s: Symbol, t: Tape, e: Single.Engine, p: Multi.State, bar: Bar)
    requires c.partialTpR == 0.0 && c.breakevenAfterR == 0.0 && c.maxHoldBars == 0 && Alike(s, t, e, p)
    ensures Alike(s, t, Single.Manage(c, e, bar), p)
  {
  }

  /** The strategy names its own symbol. */
  ghost predicate OnSymbol(strategy: Strategy, s: Symbol) {
    forall seen :: strategy(seen).Some? ==> strategy(seen).value.symbol == s
  }

  lemma DecideAlike(c: Single.Config, d: Multi.Desk, strategy: Strategy, t: Tape, e: Single.Engine, p: Multi.State,
                    signal: Option<Signal>, time: int)
    requires SetUpAlike(c, d, strategy) && Alike(c.symbol, t, e, p)
    requires signal.Some? ==> signal.value.symbol == c.symbol
    ensures Alike(c.symbol, t, Single.Decide(c, e, signal, time), Multi.Decide(d, p, c.symbol, signal, time))
  {
  }

  // ---- a bar

  /** The tape between bars: all bars shown, the last time and the last point those of the last bar, no range before the
      period is over. */
  ghost predicate Between(c: RiskConfig, t: Tape, bars: seq<Bar>) {
    && t.history == t.seen == bars && |t.curve| == |bars|
    && t.lastTime == (if bars == [] then None else Some(bars[|bars| - 1].timestamp))
    && (bars != [] ==> t.curve[|bars| - 1].0 == bars[|bars| - 1].timestamp)
    && (|bars| <= c.atrPeriod ==> t.atr == 0.0)
  }

  /** The tape after a new bar has been remembered. */
  function Remembered(c: RiskConfig, t: Tape, bar: Bar): Tape {
    var history := t.history + [bar];
    t.(history := history, lastTime := Some(bar.timestamp),
       atr := if c.atrMult > 0.0 && |history| > c.atrPeriod then Single.Atr(history, c.atrPeriod) else t.atr)
  }

  lemma RememberAlike(c: Single.Config, d: Multi.Desk, strategy: Strategy, t: Tape, e: Single.Engine, p: Multi.State,
                      bars: seq<Bar>, bar: Bar)
    requires SetUpAlike(c, d, strategy) && Alike(c.symbol, t, e, p) && Between(c.risk, t, bars)
    requires t.lastTime != Some(bar.timestamp)
    ensures Alike(c.symbol, Remembered(c.risk, t, bar), Single.Housekeep(c, Single.Begin(e), bar),
                  Multi.Remember(d, Multi.Clock(p, bar.timestamp), c.symbol, bar))
  {
  }

  /** Remember the bar, feed it to the broker, manage nothing, and show it to the strategy. */
  lemma ShownAlike(c: Single.Config, d: Multi.Desk, strategy: Strategy, t: Tape, e: Single.Engine, p: Multi.State,
                   bars: seq<Bar>, bar: Bar)
    requires SetUpAlike(c, d, strategy) && Alike(c.symbol, t, e, p) && Between(c.risk, t, bars)
    requires t.lastTime != Some(bar.timestamp)
    ensures var f := Single.Manage(c, Single.FeedBar(c, Single.Housekeep(c, Single.Begin(e), bar), bar), bar);
            var q := Multi.FeedSymbol(d, Multi.Remember(d, Multi.Clock(p, bar.timestamp), c.symbol, bar),
                                     c.symbol, bar);
            Alike(c.symbol, Remembered(c.risk, t, bar).(seen := bars + [bar]), f.(seen := f.seen + [bar]), q)
  {
    var u := Remembered(c.risk, t, bar);
    RememberAlike(c, d, strategy, t, e, p, bars, bar);
    var e1, p1 := Single.Housekeep(c, Single.Begin(e), bar),
                  Multi.Remember(d, Multi.Clock(p, bar.timestamp), c.symbol, bar);
    FeedAlike(c, d, strategy, u, e1, p1, bar);
    NothingToManage(c, c.symbol, u, Single.FeedBar(c, e1, bar), Multi.FeedSymbol(d, p1, c.symbol, bar), bar);
  }

  lemma CurveAlike(s: Symbol, t: Tape, e: Single.Engine, p: Multi.State, time: int)
    requires Alike(s, t, e, p) && (t.curve != [] ==> t.curve[|t.curve| - 1].0 != time)
    ensures Alike(s, t.(curve := t.curve + [(time, e.book.equity)]), e.(curve := e.curve + [(time, e.book.equity)]),
                  Multi.Snapshot(p, time))
  {
  }

  /** Decide and record the equity point. */
  lemma DecidedAlike(c: Single.Config, d: Multi.Desk, strategy: Strategy, t: Tape, e: Single.Engine, p: Multi.State,
                     time: int)
    requires SetUpAlike(c, d, strategy) && OnSymbol(strategy, c.symbol) && Alike(c.symbol, t, e, p)
    requires t.seen == t.history
    requires t.curve != [] ==> t.curve[|t.curve| - 1].0 != time
    ensures var f := Single.Decide(c, e, strategy(e.seen), time);
            var q := Multi.Decide(d, p, c.symbol, Multi.Ask(d, c.symbol, Multi.HistoryOf(p, c.symbol)), time);
            Alike(c.symbol, t.(curve := t.curve + [(time, f.book.equity)]),
                  f.(curve := f.curve + [(time, f.book.equity)]),
                  Multi.Snapshot(q, time))
  {
    var signal := strategy(e.seen);
    assert signal == Multi.Ask(d, c.symbol, Multi.HistoryOf(p, c.symbol));
    DecideAlike(c, d, strategy, t, e, p, signal, time);
    CurveAlike(c.symbol, t, Single.Decide(c, e, signal, time), Multi.Decide(d, p, c.symbol, signal, time), time);
  }

  ghost predicate Twins(c: Single.Config, e: Single.Engine, p: Multi.State, bars: seq<Bar>) {
    exists t :: Alike(c.symbol, t, e, p) && Between(c.risk, t, bars)
  }

  lemma StepAlike(c: Single.Config, d: Multi.Desk, strategy: Strategy, e: Single.Engine, p: Multi.State,
                  bars: seq<Bar>, bar: Bar)
    requires SetUpAlike(c, d, strategy) && OnSymbol(strategy, c.symbol) && Twins(c, e, p, bars)
    requires bars != [] ==> bars[|bars| - 1].timestamp < bar.timestamp
    ensures Twins(c, Single.Step(c, strategy, e, bar), Multi.Visit(d, p, c.symbol, bar), bars + [bar])
  {
    var t :| Alike(c.symbol, t, e, p) && Between(c.risk, t, bars);
    ShownAlike(c, d, strategy, t, e, p, bars, bar);
    var u := Remembered(c.risk, t, bar).(seen := bars + [bar]);
    var f := Single.Manage(c, Single.FeedBar(c, Single.Housekeep(c, Single.Begin(e), bar), bar), bar);
    var q := Multi.FeedSymbol(d, Multi.Remember(d, Multi.Clock(p, bar.timestamp), c.symbol, bar), c.symbol, bar);
    DecidedAlike(c, d, strategy, u, f.(seen := f.seen + [bar]), q, bar.timestamp);
    var g := Single.Step(c, strategy, e, bar);
    assert Between(c.risk, u.(curve := u.curve + [(bar.timestamp, g.book.equity)]), bars + [bar]);
  }

  // ---- whole runs

  /** One bar after the other. */
  function InTurn(s: Symbol, bars: seq<Bar>): seq<Key> {
    seq(|bars|, i requires 0 <= i < |bars| => Key(bars[i].timestamp, i, s))
  }

  lemma OneFeedInTurn(s: Symbol, bars: seq<Bar>)
    requires InTimeOrder(bars)
    ensures var feeds: Feeds := map[s := bars]; VisitOrder(feeds, Beginning(feeds)) == InTurn(s, bars)
  {
    var feeds: Feeds := map[s := bars];
    var visits, turns := VisitOrder(feeds, Beginning(feeds)), InTurn(s, bars);
    OrderVisitsOnce(feeds, Beginning(feeds));
    OrderIsSorted(feeds, Beginning(feeds));
    forall i, j | 0 <= i < j < |turns| ensures Less(turns[i], turns[j]) {
      assert bars[i].timestamp <= bars[j].timestamp;
    }
    forall k ensures k in turns <==> k in visits {
      if k in Rest(feeds, Beginning(feeds)) { assert turns[k.index] == k; }
      if k in turns {
        var i :| 0 <= i < |turns| && turns[i] == k;
        assert k == KeyAt(feeds, s, i);
      }
    }
    SortedIsUnique(turns, visits);
  }

  lemma StartAlike(c: Single.Config, d: Multi.Desk, strategy: Strategy)
    requires SetUpAlike(c, d, strategy)
    ensures Twins(c, Single.Begin(Single.Initial(c)), Multi.Initial(d), [])
  {
    var t := Tape([], [], None, 0.0, []);
    assert Alike(c.symbol, t, Single.Begin(Single.Initial(c)), Multi.Initial(d)) && Between(c.risk, t, []);
  }

  lemma RunsAlike(c: Single.Config, d: Multi.Desk, strategy: Strategy, bars: seq<Bar>)
    requires SetUpAlike(c, d, strategy) && OnSymbol(strategy, c.symbol) && IncreasingBy(TimeOf(), bars)
    ensures Twins(c, Single.StepAll(c, strategy, Single.Begin(Single.Initial(c)), bars),
                  Fold(Multi.VisitFn(d, map[c.symbol := bars]), Multi.Initial(d), InTurn(c.symbol, bars)), bars)
  {
    var f, g := Single.StepFn(c, strategy), Multi.VisitFn(d, map[c.symbol := bars]);
    var turns := InTurn(c.symbol, bars);
    ghost var inv := (e: Single.Engine, p: Multi.State, past: seq<Bar>) => Twins(c, e, p, past);
    StartAlike(c, d, strategy);
    forall i, e, p | 0 <= i < |bars| && inv(e, p, bars[..i])
      ensures inv(f(e, bars[i]), g(p, turns[i]), bars[..i] + [bars[i]])
    {
      LaterThanLast(bars, i);
      StepAlike(c, d, strategy, e, p, bars[..i], bars[i]);
      assert Multi.BarAt(map[c.symbol := bars], turns[i]) == bars[i];
    }
    FoldsKeep(f, Single.Begin(Single.Initial(c)), bars, g, Multi.Initial(d), turns, inv);
  }

  lemma LaterThanLast(bars: seq<Bar>, m: nat)
    requires IncreasingBy(TimeOf(), bars) && m < |bars|
    ensures bars[..m] != [] ==> bars[..m][m - 1].timestamp < bars[m].timestamp
  {
    assert m > 0 ==> TimeOf()(bars[m - 1]) < TimeOf()(bars[m]);
  }

  /** Same trades, equity curve, broker and risk state, and the same orders still waiting. */
  ghost predicate SameOutcome(s: Symbol, e: Single.Engine, p: Multi.State) {
    && p.trades == e.ledger.trades && p.curve == e.curve && p.book == e.book && p.risk == e.risk
    && p.pending == AsMap(s, e.ledger.pending) && p.open == AsMap(s, e.ledger.open)
  }

  lemma CloseAlike(c: Single.Config, d: Multi.Desk, strategy: Strategy, t: Tape, e: Single.Engine, p: Multi.State,
                   bars: seq<Bar>)
    requires SetUpAlike(c, d, strategy) && Alike(c.symbol, t, e, p) && bars != []
    requires e.ledger.open.Some? && c.symbol in e.book.positions
    ensures var last := bars[|bars| - 1];
            Alike(c.symbol, t, Single.CloseOut(c, e, last.timestamp, last.close),
                  Multi.CloseSymbol(d, p, c.symbol, bars))
  {
    var last, qty := bars[|bars| - 1], e.book.positions[c.symbol].qty;
    var book := Serve(c.fees, e.book, Submit(Order(c.symbol, ExitSide(qty), Abs(qty), 0.0, 0.0)));
    FeedAlike(c, d, strategy, t, e.(book := book), p.(book := book), Single.FlatBar(last.timestamp, last.close));
  }

  lemma OnlyOneToClose(d: Multi.Desk, p: Multi.State, s: Symbol, bars: seq<Bar>)
    requires d.symbols == [s]
    ensures Multi.CloseAll(d, p, map[s := bars], d.symbols) == Multi.CloseSymbol(d, p, s, bars)
  {
    assert d.symbols[..0] == [];
  }

  lemma RestateAlike(s: Symbol, t: Tape, e: Single.Engine, p: Multi.State, last: (int, real))
    requires Alike(s, t, e, p) && (t.curve != [] ==> last == (t.curve[|t.curve| - 1].0, e.book.equity))
    ensures var curve := if t.curve == [] then [] else t.curve[..|t.curve| - 1] + [last];
            SameOutcome(s, e.(curve := curve), p.(curve := Multi.Restated(p.curve, p.book.equity)))
  {
  }

  lemma FinishAlike(c: Single.Config, d: Multi.Desk, strategy: Strategy, e: Single.Engine, p: Multi.State,
                    bars: seq<Bar>)
    requires SetUpAlike(c, d, strategy) && Twins(c, e, p, bars) && Books.Recorded(e, bars)
    ensures SameOutcome(c.symbol, Single.Finalize(c, e, bars), Multi.Finish(d, p, map[c.symbol := bars]))
  {
    var t :| Alike(c.symbol, t, e, p) && Between(c.risk, t, bars);
    OnlyOneToClose(d, p, c.symbol, bars);
    if bars != [] && e.ledger.open.Some? && c.symbol in e.book.positions {
      var last := bars[|bars| - 1];
      CloseAlike(c, d, strategy, t, e, p, bars);
      var f, q := Single.CloseOut(c, e, last.timestamp, last.close), Multi.CloseSymbol(d, p, c.symbol, bars);
      RestateAlike(c.symbol, t, f, q, (last.timestamp, f.book.equity));
    } else {
      if bars != [] {
        var last := e.curve[|bars| - 1];
        RestateAlike(c.symbol, t, e, p, last);
        assert e.curve[..|bars| - 1] + [last] == e.curve;
      }
    }
  }

  /** On one symbol whose bars have strictly increasing times, with a strategy that names that symbol and without trade
      management, the two engines book the same trades and draw the same equity curve, and end with the same broker and
      the same risk state. */
  lemma EnginesAgree(c: Single.Config, d: Multi.Desk, strategy: Strategy, bars: seq<Bar>)
    requires c.Valid() && SetUpAlike(c, d, strategy) && OnSymbol(strategy, c.symbol) && IncreasingBy(TimeOf(), bars)
    ensures SameOutcome(c.symbol, Single.Batch(c, strategy, bars), Multi.RunAll(d, map[c.symbol := bars]))
  {
    forall i, j | 0 <= i < j < |bars| ensures bars[i].timestamp <= bars[j].timestamp {
      assert TimeOf()(bars[i]) < TimeOf()(bars[j]);
    }
    OneFeedInTurn(c.symbol, bars);
    RunsAlike(c, d, strategy, bars);
    Books.EveryStepKeeps(c, strategy, bars);
    FinishAlike(c, d, strategy, Single.StepAll(c, strategy, Single.Begin(Single.Initial(c)), bars),
                Fold(Multi.VisitFn(d, map[c.symbol := bars]), Multi.Initial(d), InTurn(c.symbol, bars)), bars);
  }
}
