/** Whole portfolio runs: the books balance at the end, the clock ticks once per timestamp, and per-symbol
    statistics add up to the portfolio's. */
module PortfolioRuns {
  import opened Types
  import opened Folds
  import opened Risk
  import opened Paper
  import opened Merge
  import opened Portfolio
  import opened PortfolioBooks
  import Ledger
  import Engine = Backtester

  // ---- one visit

  lemma NothingHeld(d: Desk, p: State)
    requires DeskOk(d, p) && p.open == map[] && p.trades == []
    ensures p.book.equity == d.startingCash
  {
    assert p.book.positions == map[];
    assert Values(p.book.positions, p.book.lastPrice) == map[];
    assert Costs(p.open) == map[];
  }

  lemma ClockKeeps(d: Desk, p: State, time: int)
    requires DeskOk(d, p)
    ensures DeskOk(d, Clock(p, time)) && Clock(p, time).risk.day.Some?
  {
    if p.risk.day.None? {
      FirstClockKeeps(d, p, time);
    } else if p.lastTime != Some(time) {
      LaterClockKeeps(d, p, time);
    }
  }

  lemma FirstClockKeeps(d: Desk, p: State, time: int)
    requires DeskOk(d, p) && p.risk.day.None?
    ensures DeskOk(d, Clock(p, time)) && Clock(p, time).risk.day.Some?
  {
    NothingHeld(d, p);
  }

  lemma LaterClockKeeps(d: Desk, p: State, time: int)
    requires DeskOk(d, p) && p.risk.day.Some?
    ensures DeskOk(d, Clock(p, time)) && Clock(p, time).risk.day.Some?
  {
    OnlyDailyRiskChanges(d, p, Clock(p, time));
  }

  lemma OnlyDailyRiskChanges(d: Desk, p: State, q: State)
    requires DeskOk(d, p) && p.risk.day.Some? && q == p.(risk := q.risk, lastTime := q.lastTime, ticks := q.ticks)
    requires q.risk.day.Some? && q.risk.starting == p.risk.starting && q.risk.realized == p.risk.realized
    ensures DeskOk(d, q)
  {
  }

  lemma RememberKeeps(d: Desk, p: State, s: Symbol, bar: Bar)
    requires DeskOk(d, p) && p.risk.day.Some?
    ensures DeskOk(d, Remember(d, p, s, bar)) && Remember(d, p, s, bar).risk.day.Some?
  {
  }

  lemma WaitingAdds(pending: map<Symbol, Plan>, orders: seq<Order>, s: Symbol, plan: Plan)
    requires Waiting(pending, orders) && s !in pending && plan.symbol == s
    ensures Waiting(pending[s := plan], orders + [Engine.OrderOf(plan)])
  {
    var all := orders + [Engine.OrderOf(plan)];
    forall i | 0 <= i < |orders| ensures all[i].symbol != s { assert orders[i] in orders; }
    assert all[|orders|] == Engine.OrderOf(plan);
    forall t | t in pending ensures Engine.OrderOf(pending[t]) in all { assert Engine.OrderOf(pending[t]) in orders; }
  }

  lemma AcceptKeeps(d: Desk, p: State, s: Symbol, plan: Plan)
    requires DeskOk(d, p) && s !in p.pending && s !in p.open && plan.symbol == s && plan.qty > 0.0
    ensures DeskOk(d, Accept(p, s, plan))
  {
    AcceptIsAccounted(p, s, plan);
    WaitingAdds(p.pending, p.book.pending, s, plan);
  }

  lemma AnchorIsSet(p: State, time: int)
    requires p.risk.day.Some?
    ensures AnchorState(p, time) == p
  {
  }

  lemma DecideKeeps(d: Desk, p: State, s: Symbol, signal: Option<Signal>, time: int)
    requires DeskOk(d, p) && p.risk.day.Some?
    ensures Decided(d, p, Decide(d, p, s, signal, time), s)
  {
    if signal.Some? && s !in p.pending && s !in p.open {
      AnchorIsSet(p, time);
      EnterKeeps(d, p, s, signal.value, time, Judge(d.risk, p.risk, signal.value, Engine.AccountOf(p.book)));
    }
  }

  ghost predicate Decided(d: Desk, p: State, q: State, s: Symbol) {
    DeskOk(d, q) && q.risk.day.Some? && SameTape(p, q) && q.open == p.open && q.trades == p.trades &&
    q.pending.Keys <= p.pending.Keys + {s}
  }

  lemma EnterKeeps(d: Desk, p: State, s: Symbol, signal: Signal, time: int, v: Verdict)
    requires DeskOk(d, p) && p.risk.day.Some? && s !in p.pending && s !in p.open
    ensures Decided(d, p, Enter(p, s, signal, time, v), s)
  {
    if v.Allow? && v.qty > 0.0 { AcceptKeeps(d, p, s, PlanFor(s, signal, time, v.qty)); }
  }

  ghost predicate NewTradesOn(ts: seq<Trade>, us: seq<Trade>, s: Symbol) {
    forall t :: t in us ==> t in ts || t.what.symbol == s
  }

  lemma {:induction false} FillsTradeOwn(d: Desk, p: State, s: Symbol, xs: seq<Fill>)
    requires Accounted(p)
    ensures Accounted(TakeFills(d, p, s, xs)) && NewTradesOn(p.trades, TakeFills(d, p, s, xs).trades, s)
  {
    if xs != [] {
      FillsTradeOwn(d, p, s, xs[..|xs| - 1]);
      AnyFillIsAccounted(d, TakeFills(d, p, s, xs[..|xs| - 1]), s, xs[|xs| - 1]);
    }
  }

  ghost predicate Fed(d: Desk, p: State, q: State, s: Symbol) {
    && DeskOk(d, q) && q.risk.day.Some? && SameTape(p, q)
    && q.open.Keys <= p.open.Keys + {s} && q.pending.Keys <= p.pending.Keys && NewTradesOn(p.trades, q.trades, s)
  }

  lemma FeedsOwn(d: Desk, p: State, s: Symbol, bar: Bar)
    requires DeskOk(d, p) && p.risk.day.Some?
    ensures Fed(d, p, FeedSymbol(d, p, s, bar), s)
  {
    FeedKeeps(d, p, s, bar);
    var (book, xs) := BarOf(d.fees, p.book, s, bar);
    FillsTradeOwn(d, p.(book := book), s, xs);
  }

  /** What a visit of s at the given time does to the record of the run. */
  ghost predicate Visited(p: State, q: State, s: Symbol, time: int) {
    && q.lastTime == Some(time) && q.ticks == (if p.lastTime == Some(time) then p.ticks else p.ticks + [time])
    && q.marks == p.marks + [(time, q.book.equity)] && q.curve == Plot(p.curve, time, q.book.equity)
    && q.open.Keys <= p.open.Keys + {s} && q.pending.Keys <= p.pending.Keys + {s} && NewTradesOn(p.trades, q.trades, s)
  }

  /** Between the clock and the snapshot only the books change. */
  lemma VisitedBy(d: Desk, p: State, p2: State, p3: State, p4: State, s: Symbol, time: int)
    requires p2.lastTime == Some(time) && p2.ticks == if p.lastTime == Some(time) then p.ticks else p.ticks + [time]
    requires p2.marks == p.marks && p2.curve == p.curve && p2.open == p.open && p2.pending == p.pending
    requires p2.trades == p.trades && Fed(d, p2, p3, s) && Decided(d, p3, p4, s)
    ensures var q := Snapshot(p4, time); DeskOk(d, q) && q.risk.day.Some? && Visited(p, q, s, time)
  {
  }

  lemma VisitKeeps(d: Desk, p: State, s: Symbol, bar: Bar)
    requires DeskOk(d, p)
    ensures var q := Visit(d, p, s, bar); DeskOk(d, q) && q.risk.day.Some? && Visited(p, q, s, bar.timestamp)
  {
    var time := bar.timestamp;
    ClockKeeps(d, p, time);
    RememberKeeps(d, Clock(p, time), s, bar);
    var p2 := Remember(d, Clock(p, time), s, bar);
    FeedsOwn(d, p2, s, bar);
    var p3 := FeedSymbol(d, p2, s, bar);
    var signal := Ask(d, s, HistoryOf(p3, s));
    DecideKeeps(d, p3, s, signal, time);
    VisitedBy(d, p, p2, p3, Decide(d, p3, s, signal, time), s, time);
  }

  // ---- one equity point per time

  function Plotted(marks: seq<(int, real)>): seq<(int, real)> {
    if marks == [] then [] else
      var m := marks[|marks| - 1];
      Plot(Plotted(marks[..|marks| - 1]), m.0, m.1)
  }

  /** The point is the last mark of its time. */
  ghost predicate LastAt(marks: seq<(int, real)>, c: (int, real)) {
    exists i :: 0 <= i < |marks| && marks[i] == c && forall j :: i < j < |marks| ==> marks[j].0 != c.0
  }

  /** Times strictly increase, every marked time has its point, and the point is the last mark of that time. */
  ghost predicate OnePointPerTime(curve: seq<(int, real)>, marks: seq<(int, real)>) {
    && TimesIncrease(curve)
    && (forall m :: m in marks ==> exists c :: c in curve && c.0 == m.0)
    && (forall c :: c in curve ==> LastAt(marks, c))
  }

  ghost predicate TimesNeverBack(marks: seq<(int, real)>) {
    forall i, j :: 0 <= i < j < |marks| ==> marks[i].0 <= marks[j].0
  }

  ghost predicate TimesIncrease(curve: seq<(int, real)>) {
    forall i, j :: 0 <= i < j < |curve| ==> curve[i].0 < curve[j].0
  }

  lemma {:induction false} PlotEndsAtLastMark(marks: seq<(int, real)>)
    requires marks != []
    ensures var curve := Plotted(marks); curve != [] && curve[|curve| - 1] == marks[|marks| - 1]
  {
  }

  lemma LastAtExtends(marks: seq<(int, real)>, m: (int, real), c: (int, real))
    requires LastAt(marks, c) && c.0 != m.0
    ensures LastAt(marks + [m], c)
  {
    var i :| 0 <= i < |marks| && marks[i] == c && forall j :: i < j < |marks| ==> marks[j].0 != c.0;
    assert (marks + [m])[i] == c;
  }

  lemma {:induction false} PlotIncreases(marks: seq<(int, real)>)
    requires TimesNeverBack(marks)
    ensures TimesIncrease(Plotted(marks))
  {
    if marks != [] {
      var n := |marks| - 1;
      PlotIncreases(marks[..n]);
      if n > 0 { PlotEndsAtLastMark(marks[..n]); }
    }
  }

  lemma {:induction false} PlotCovers(marks: seq<(int, real)>)
    ensures forall m :: m in marks ==> exists c :: c in Plotted(marks) && c.0 == m.0
  {
    if marks != [] {
      var n := |marks| - 1;
      PlotCovers(marks[..n]);
      PlotEndsAtLastMark(marks);
      var before, curve := Plotted(marks[..n]), Plotted(marks);
      assert marks[n] == curve[|curve| - 1] && marks[n] in curve;
      forall m | m in marks ensures exists c :: c in curve && c.0 == m.0 {
        if m.0 != marks[n].0 {
          assert m in marks[..n];
          var i :| 0 <= i < |before| && before[i].0 == m.0;
          assert curve[i] == before[i] && curve[i] in curve;
        }
      }
    }
  }

  lemma {:induction false} PlotKeepsLast(marks: seq<(int, real)>)
    requires TimesNeverBack(marks)
    ensures forall c :: c in Plotted(marks) ==> LastAt(marks, c)
  {
    if marks != [] {
      var n := |marks| - 1;
      var m := marks[n];
      PlotKeepsLast(marks[..n]);
      PlotIncreases(marks);
      PlotEndsAtLastMark(marks);
      var before, curve := Plotted(marks[..n]), Plotted(marks);
      assert marks == marks[..n] + [m];
      assert LastAt(marks, m);
      forall i | 0 <= i < |curve| - 1 ensures LastAt(marks, curve[i]) {
        assert curve[i] == before[i] && before[i] in before;
        LastAtExtends(marks[..n], m, curve[i]);
      }
    }
  }

  lemma PlotCollapses(marks: seq<(int, real)>)
    requires TimesNeverBack(marks)
    ensures OnePointPerTime(Plotted(marks), marks)
  {
    PlotIncreases(marks);
    PlotCovers(marks);
    PlotKeepsLast(marks);
  }

  lemma {:induction false} IncreasingPlotNeverBack(marks: seq<(int, real)>)
    requires TimesIncrease(Plotted(marks))
    ensures TimesNeverBack(marks)
  {
    if marks != [] {
      var n := |marks| - 1;
      var before, curve := Plotted(marks[..n]), Plotted(marks);
      assert forall i :: 0 <= i < |before| ==> before[i].0 == curve[i].0;
      IncreasingPlotNeverBack(marks[..n]);
      PlotEndsAtLastMark(marks);
      if n > 0 {
        PlotEndsAtLastMark(marks[..n]);
        assert marks[n - 1].0 == curve[|before| - 1].0 <= marks[n].0;
      }
    }
  }

  // ---- whole runs

  ghost predicate Shown(visits: seq<Key>, s: Symbol) { exists k :: k in visits && k.symbol == s }

  /** Only symbols that were visited are pending, open or traded. */
  ghost predicate OnlyShown(p: State, visits: seq<Key>) {
    && (forall s :: s in p.open.Keys + p.pending.Keys ==> Shown(visits, s))
    && (forall t :: t in p.trades ==> Shown(visits, t.what.symbol))
  }

  /** The i-th mark is the time of the i-th visit and the equity after it. */
  ghost predicate MarksFollow(d: Desk, feeds: Feeds, f: (State, Key) -> State, marks: seq<(int, real)>,
                              visits: seq<Key>) {
    |marks| == |visits| &&
    forall i :: 0 <= i < |visits| ==>
      marks[i] == (BarAt(feeds, visits[i]).timestamp, Fold(f, Initial(d), visits[..i + 1]).book.equity)
  }

  /** The risk manager was told the times of the equity points. */
  ghost predicate SameTimes(ticks: seq<int>, curve: seq<(int, real)>) {
    |ticks| == |curve| && forall i :: 0 <= i < |curve| ==> ticks[i] == curve[i].0
  }

  ghost predicate TapeOk(p: State) {
    && p.curve == Plotted(p.marks) && SameTimes(p.ticks, p.curve)
    && p.lastTime == if p.curve == [] then None else Some(p.curve[|p.curve| - 1].0)
  }

  ghost predicate RunOk(d: Desk, feeds: Feeds, f: (State, Key) -> State, p: State, visits: seq<Key>) {
    && p == Fold(f, Initial(d), visits)
    && DeskOk(d, p) && TapeOk(p) && OnlyShown(p, visits) && MarksFollow(d, feeds, f, p.marks, visits)
    && (visits == [] <==> p.risk.day.None?)
  }

  lemma TapeStep(p: State, q: State, s: Symbol, time: int)
    requires TapeOk(p) && Visited(p, q, s, time)
    ensures TapeOk(q)
  {
    assert q.marks[..|q.marks| - 1] == p.marks;
  }

  lemma ShownStep(p: State, q: State, visits: seq<Key>, k: Key, time: int)
    requires OnlyShown(p, visits) && Visited(p, q, k.symbol, time)
    ensures OnlyShown(q, visits + [k])
  {
    assert k in visits + [k];
    forall s | Shown(visits, s) ensures Shown(visits + [k], s) {
      var j :| j in visits && j.symbol == s;
      assert j in visits + [k];
    }
  }

  lemma MarksStep(d: Desk, feeds: Feeds, f: (State, Key) -> State, marks: seq<(int, real)>, visits: seq<Key>, k: Key,
                  equity: real)
    requires MarksFollow(d, feeds, f, marks, visits) && equity == Fold(f, Initial(d), visits + [k]).book.equity
    ensures MarksFollow(d, feeds, f, marks + [(BarAt(feeds, k).timestamp, equity)], visits + [k])
  {
    var all := visits + [k];
    assert all[..|all|] == all;
    forall i | 0 <= i < |visits|
      ensures marks[i] == (BarAt(feeds, visits[i]).timestamp, Fold(f, Initial(d), all[..i + 1]).book.equity)
    {
      assert all[..i + 1] == visits[..i + 1];
    }
  }

  lemma RunStep(d: Desk, feeds: Feeds, f: (State, Key) -> State, p: State, visits: seq<Key>, k: Key)
    requires IsVisit(f, d, feeds) && RunOk(d, feeds, f, p, visits)
    ensures RunOk(d, feeds, f, f(p, k), visits + [k])
  {
    var bar := BarAt(feeds, k);
    var q := f(p, k);
    assert q == Visit(d, p, k.symbol, bar);
    VisitKeeps(d, p, k.symbol, bar);
    FoldNext(f, Initial(d), visits, k);
    TapeStep(p, q, k.symbol, bar.timestamp);
    ShownStep(p, q, visits, k, bar.timestamp);
    MarksStep(d, feeds, f, p.marks, visits, k, q.book.equity);
  }

  lemma StartsOk(d: Desk, feeds: Feeds, f: (State, Key) -> State)
    ensures RunOk(d, feeds, f, Initial(d), [])
  {
    assert Values(map[], map[]) == map[];
    assert Costs(map[]) == map[];
  }

  lemma RunKeeps(d: Desk, feeds: Feeds, f: (State, Key) -> State, visits: seq<Key>)
    requires IsVisit(f, d, feeds)
    ensures RunOk(d, feeds, f, Fold(f, Initial(d), visits), visits)
  {
    ghost var inv := (t: State, ys: seq<Key>) => RunOk(d, feeds, f, t, ys);
    StartsOk(d, feeds, f);
    forall t, ys, k | inv(t, ys) ensures inv(f(t, k), ys + [k]) { RunStep(d, feeds, f, t, ys, k); }
    FoldKeeps(f, Initial(d), visits, inv);
  }

  // ---- the end of a run

  ghost predicate HasBars(feeds: Feeds, s: Symbol) { s in feeds && feeds[s] != [] }

  lemma {:induction false} NothingToClose(d: Desk, p: State, feeds: Feeds, symbols: seq<Symbol>)
    requires p.open == map[]
    ensures CloseAll(d, p, feeds, symbols) == p
  {
    if symbols != [] { NothingToClose(d, p, feeds, symbols[..|symbols| - 1]); }
  }

  ghost predicate ClosedOut(d: Desk, p: State, q: State, feeds: Feeds, symbols: seq<Symbol>) {
    && DeskOk(d, q) && q.risk.day.Some? && SameTape(p, q) && q.pending == p.pending
    && q.open.Keys <= p.open.Keys && (forall s :: s in symbols && HasBars(feeds, s) ==> s !in q.open)
    && (forall t :: t in q.trades ==> t in p.trades || t.what.symbol in p.open)
  }

  lemma {:induction false} CloseAllKeeps(d: Desk, p: State, feeds: Feeds, symbols: seq<Symbol>)
    requires DeskOk(d, p) && p.risk.day.Some?
    ensures ClosedOut(d, p, CloseAll(d, p, feeds, symbols), feeds, symbols)
  {
    if symbols != [] {
      var n := |symbols| - 1;
      CloseAllKeeps(d, p, feeds, symbols[..n]);
      assert symbols == symbols[..n] + [symbols[n]];
      var q, s := CloseAll(d, p, feeds, symbols[..n]), symbols[n];
      if s in feeds {
        CloseSymbolKeeps(d, q, s, feeds[s]);
        CloseSymbolTrades(d, q, s, feeds[s]);
      }
    }
  }

  lemma CloseSymbolTrades(d: Desk, p: State, s: Symbol, bars: seq<Bar>)
    requires Accounted(p)
    ensures var q := CloseSymbol(d, p, s, bars);
            forall t :: t in q.trades ==> t in p.trades || (t.what.symbol == s && s in p.open)
  {
    if bars != [] && s in p.open && s in p.book.positions {
      var last, qty := bars[|bars| - 1], p.book.positions[s].qty;
      var waiting := Serve(d.fees, p.book, Submit(Types.Order(s, ExitSide(qty), Abs(qty), 0.0, 0.0)));
      var (book, xs) := BarOf(d.fees, waiting, s, Engine.FlatBar(last.timestamp, last.close));
      FillsTradeOwn(d, p.(book := waiting).(book := book), s, xs);
    }
  }

  /** After the visits, before the end-of-run close. */
  ghost function Traded(d: Desk, feeds: Feeds): State {
    Fold(VisitFn(d, feeds), Initial(d), VisitOrder(feeds, Beginning(feeds)))
  }

  lemma TradedOk(d: Desk, feeds: Feeds)
    ensures var visits := VisitOrder(feeds, Beginning(feeds));
            RunOk(d, feeds, VisitFn(d, feeds), Traded(d, feeds), visits) &&
            forall s :: Shown(visits, s) ==> HasBars(feeds, s)
  {
    RunKeeps(d, feeds, VisitFn(d, feeds), VisitOrder(feeds, Beginning(feeds)));
    OrderVisitsOnce(feeds, Beginning(feeds));
  }

  /** Every symbol with bars is in the list the engine closes out. */
  ghost predicate Lists(d: Desk, feeds: Feeds) { forall s :: s in feeds ==> s in d.symbols }

  /** With everything closed, but before the last equity point is restated. */
  ghost function Ended(d: Desk, feeds: Feeds): State { CloseAll(d, Traded(d, feeds), feeds, d.symbols) }

  lemma EndOfRun(d: Desk, feeds: Feeds)
    requires Lists(d, feeds)
    ensures var p, q := Traded(d, feeds), Ended(d, feeds);
            && DeskOk(d, q) && SameTape(p, q) && q.open == map[]
            && (p.risk.day.Some? ==> q.risk.day.Some?)
            && forall t :: t in q.trades ==> HasBars(feeds, t.what.symbol)
  {
    TradedOk(d, feeds);
    var p := Traded(d, feeds);
    if p.risk.day.None? {
      NothingToClose(d, p, feeds, d.symbols);
    } else {
      CloseAllKeeps(d, p, feeds, d.symbols);
    }
  }

  lemma RunIsEnded(d: Desk, feeds: Feeds)
    ensures var e, q := RunAll(d, feeds), Ended(d, feeds);
            && e == q.(curve := Restated(q.curve, q.book.equity)) && e.book == q.book && e.risk == q.risk
            && e.trades == q.trades && e.open == q.open && e.pending == q.pending && e.accepted == q.accepted
            && e.ticks == q.ticks && e.marks == q.marks
  {
  }

  lemma FlatDesk(d: Desk, q: State)
    requires DeskOk(d, q) && q.open == map[]
    ensures q.book.positions == map[] && q.book.equity == q.book.cash
    ensures q.book.cash == d.startingCash + Ledger.SumOf(Ledger.Pnl(), q.trades)
    ensures q.accepted == |q.trades| + |q.pending|
  {
    assert q.book.positions == map[];
    assert Values(q.book.positions, q.book.lastPrice) == map[];
    assert Costs(q.open) == map[];
  }

  lemma EndedBasis(d: Desk, feeds: Feeds, q: State)
    requires Lists(d, feeds) && Traded(d, feeds).risk.day.Some? && q == Ended(d, feeds)
    ensures q.risk.realized == Some(Base(d) + (q.book.equity - d.startingCash))
  {
    EndOfRun(d, feeds);
    FlatBasis(d, q);
  }

  lemma FlatBasis(d: Desk, q: State)
    requires DeskOk(d, q) && q.open == map[] && q.risk.day.Some?
    ensures q.risk.realized == Some(Base(d) + (q.book.equity - d.startingCash))
  {
    FlatDesk(d, q);
  }

  lemma TickedHasDay(d: Desk, feeds: Feeds)
    requires Traded(d, feeds).ticks != []
    ensures Traded(d, feeds).risk.day.Some?
  {
    TradedOk(d, feeds);
  }

  /** At the end of every run, for all strategies and feeds: nothing is left open, final equity is cash, and that is the
      starting cash plus the result of every booked trade; every accepted entry order became a trade or still waits. */
  lemma PortfolioBooksBalance(d: Desk, feeds: Feeds)
    requires Lists(d, feeds)
    ensures var e := RunAll(d, feeds);
            && e.open == map[] && e.book.positions == map[]
            && e.book.equity == e.book.cash == d.startingCash + Ledger.SumOf(Ledger.Pnl(), e.trades)
            && e.accepted == |e.trades| + |e.pending|
  {
    EndOfRun(d, feeds);
    RunIsEnded(d, feeds);
    FlatDesk(d, Ended(d, feeds));
  }

  /** Once there was a bar, the sizing basis has moved by exactly what the account gained. */
  lemma BasisFollowsAccount(d: Desk, feeds: Feeds)
    requires Lists(d, feeds) && Traded(d, feeds).ticks != []
    ensures var e := RunAll(d, feeds); e.risk.realized == Some(Base(d) + (e.book.equity - d.startingCash))
  {
    RunIsEnded(d, feeds);
    TickedHasDay(d, feeds);
    EndedBasis(d, feeds, Ended(d, feeds));
  }

  /** The tape of a run tells whether time went back. */
  lemma ClockOfTape(p: State)
    requires TapeOk(p)
    ensures TimesNeverBack(p.marks) <==> Increasing(p.ticks)
    ensures TimesNeverBack(p.marks) ==> OnePointPerTime(p.curve, p.marks)
  {
    if TimesNeverBack(p.marks) { PlotCollapses(p.marks); }
    if Increasing(p.ticks) { IncreasingPlotNeverBack(p.marks); }
  }

  lemma MarksOnTime(d: Desk, feeds: Feeds, marks: seq<(int, real)>, visits: seq<Key>)
    requires MarksFollow(d, feeds, VisitFn(d, feeds), marks, visits)
    requires VisitsOnce(visits, Rest(feeds, Beginning(feeds)))
    ensures NeverBack(visits) <==> TimesNeverBack(marks)
  {
    forall i | 0 <= i < |visits| ensures marks[i].0 == visits[i].time {
      assert visits[i] in visits;
      assert visits[i] in Rest(feeds, Beginning(feeds));
    }
    if NeverBack(visits) {
      forall i, j | 0 <= i < j < |marks| ensures marks[i].0 <= marks[j].0 {
        assert visits[i].time <= visits[j].time;
      }
    }
    if TimesNeverBack(marks) {
      forall i, j | 0 <= i < j < |visits| ensures visits[i].time <= visits[j].time {
        assert marks[i].0 <= marks[j].0;
      }
    }
  }

  /** The risk manager is told of a bar exactly once for every equity point. Its clock strictly increases if and only if
      every symbol's bars are in time order; in that case there is exactly one point for every distinct time, the equity
      after the last visit at that time. */
  lemma PortfolioClock(d: Desk, feeds: Feeds)
    ensures var p := Traded(d, feeds);
            && MarksFollow(d, feeds, VisitFn(d, feeds), p.marks, VisitOrder(feeds, Beginning(feeds)))
            && SameTimes(p.ticks, p.curve)
            && (AllInTimeOrder(feeds) <==> Increasing(p.ticks))
            && (AllInTimeOrder(feeds) ==> OnePointPerTime(p.curve, p.marks))
  {
    var visits := VisitOrder(feeds, Beginning(feeds));
    TradedOk(d, feeds);
    OrderVisitsOnce(feeds, Beginning(feeds));
    MergeVisitsAllInOrder(feeds);
    MarksOnTime(d, feeds, Traded(d, feeds).marks, visits);
    ClockOfTape(Traded(d, feeds));
  }

  /** Closing out at the end ticks no clock and restates the last equity point only, as the final equity. */
  lemma EndRestatesLastPoint(d: Desk, feeds: Feeds)
    requires Lists(d, feeds)
    ensures var p, e := Traded(d, feeds), RunAll(d, feeds);
            && e.ticks == p.ticks && e.marks == p.marks
            && LastRestated(p.curve, e.book.equity, e.curve)
  {
    EndOfRun(d, feeds);
    RunIsEnded(d, feeds);
    RestatedLast(Traded(d, feeds).curve, RunAll(d, feeds).book.equity);
  }

  /** The same points but for the equity of the last one. */
  ghost predicate LastRestated(curve: seq<(int, real)>, equity: real, after: seq<(int, real)>) {
    |after| == |curve| && forall i :: 0 <= i < |curve| ==>
      after[i] == if i == |curve| - 1 then (curve[i].0, equity) else curve[i]
  }

  lemma RestatedLast(curve: seq<(int, real)>, equity: real)
    ensures LastRestated(curve, equity, Restated(curve, equity))
  {
  }

  // ---- per-symbol statistics

  function TradesOf(trades: seq<Trade>, s: Symbol): seq<Trade> {
    if trades == [] then [] else
      TradesOf(trades[..|trades| - 1], s) + if trades[|trades| - 1].what.symbol == s then [trades[|trades| - 1]] else []
  }

  function CountOver(trades: seq<Trade>, symbols: seq<Symbol>): nat {
    if symbols == [] then 0 else
      CountOver(trades, symbols[..|symbols| - 1]) + |TradesOf(trades, symbols[|symbols| - 1])|
  }

  function PnlOver(trades: seq<Trade>, symbols: seq<Symbol>): real {
    if symbols == [] then 0.0 else
      PnlOver(trades, symbols[..|symbols| - 1]) + Ledger.SumOf(Ledger.Pnl(), TradesOf(trades, symbols[|symbols| - 1]))
  }

  ghost predicate Distinct(symbols: seq<Symbol>) { forall i, j :: 0 <= i < j < |symbols| ==> symbols[i] != symbols[j] }

  /** One more trade counts once if its symbol is listed, and not at all otherwise. */
  lemma {:induction false} TradeCountsOnce(trades: seq<Trade>, t: Trade, symbols: seq<Symbol>)
    requires Distinct(symbols)
    ensures var hit := t.what.symbol in symbols;
            && CountOver(trades + [t], symbols) == CountOver(trades, symbols) + (if hit then 1 else 0)
            && PnlOver(trades + [t], symbols) == PnlOver(trades, symbols) + (if hit then t.pnl else 0.0)
    decreases |symbols|
  {
    if symbols != [] {
      var n := |symbols| - 1;
      TradeCountsOnce(trades, t, symbols[..n]);
      assert symbols == symbols[..n] + [symbols[n]];
      assert (trades + [t])[..|trades|] == trades;
      Ledger.SumSnoc(Ledger.Pnl(), TradesOf(trades, symbols[n]), t);
      assert TradesOf(trades, symbols[n]) + [] == TradesOf(trades, symbols[n]);
    }
  }

  lemma {:induction false} NoTradesNoTotals(symbols: seq<Symbol>)
    ensures CountOver([], symbols) == 0 && PnlOver([], symbols) == 0.0
  {
    if symbols != [] { NoTradesNoTotals(symbols[..|symbols| - 1]); }
  }

  lemma {:induction false} SymbolsSumToTotal(trades: seq<Trade>, symbols: seq<Symbol>)
    requires Distinct(symbols) && forall t :: t in trades ==> t.what.symbol in symbols
    ensures CountOver(trades, symbols) == |trades| && PnlOver(trades, symbols) == Ledger.SumOf(Ledger.Pnl(), trades)
  {
    if trades == [] {
      NoTradesNoTotals(symbols);
    } else {
      var n := |trades| - 1;
      SymbolsSumToTotal(trades[..n], symbols);
      TradeCountsOnce(trades[..n], trades[n], symbols);
      Ledger.SumSnoc(Ledger.Pnl(), trades[..n], trades[n]);
      assert trades == trades[..n] + [trades[n]];
    }
  }

  /** The trade counts and results reported per symbol add up to those of the portfolio. */
  lemma PerSymbolTotals(d: Desk, feeds: Feeds, symbols: seq<Symbol>)
    requires Lists(d, feeds) && Distinct(symbols) && forall s :: s in feeds ==> s in symbols
    ensures var e := RunAll(d, feeds);
            CountOver(e.trades, symbols) == |e.trades| &&
            d.startingCash + PnlOver(e.trades, symbols) == e.book.equity
  {
    EndOfRun(d, feeds);
    RunIsEnded(d, feeds);
    PortfolioBooksBalance(d, feeds);
    SymbolsSumToTotal(RunAll(d, feeds).trades, symbols);
  }
}
