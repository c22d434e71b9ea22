/** The multi-symbol engine (bot/multi_backtester.py): one broker and one risk manager shared by all symbols. */
module Portfolio {
  import opened Types
  import opened Folds
  import opened Risk
  import opened Paper
  import opened Merge
  import Ledger
  import Engine = Backtester

  type Plan = Ledger.Plan
  type OpenTrade = Ledger.OpenTrade
  type Trade = Ledger.Trade

  /** `symbols` lists the symbols in dictionary order. */
  datatype Desk = Desk(symbols: seq<Symbol>, risk: RiskConfig, fees: Fees, startingCash: real, strategies: map<Symbol,
                       Engine.Strategy>)

  /** A symbol missing from `pending` or `open` has nothing pending or open. `ticks`, `marks` and `accepted` are kept
      for the statements below: the times the risk manager was told of a bar, time and equity after each visit, and
      the number of accepted entry orders. */
  datatype State = State(
    pending: map<Symbol, Plan>, open: map<Symbol, OpenTrade>, trades: seq<Trade>, book: Book, risk: RiskState,
    history: map<Symbol, seq<Bar>>, curve: seq<(int, real)>, lastTime: Option<int>,
    ticks: seq<int>, marks: seq<(int, real)>, accepted: nat)

  function TakeFill(d: Desk, p: State, s: Symbol, x: Fill): State {
    if x.role.Entry? then
      if s !in p.pending then p else
        p.(open := p.open[s := Ledger.Opened(p.pending[s], x)], pending := p.pending - {s})
    else if s !in p.open then p else
      var o := p.open[s];
      var t := Ledger.TradeOn(o, Ledger.EntryRisk(o), x, false);
      p.(open := p.open - {s}, trades := p.trades + [t], risk := CloseUpdate(d.risk, p.risk, t.pnl, x.timestamp))
  }

  function TakeFills(d: Desk, p: State, s: Symbol, xs: seq<Fill>): State {
    if xs == [] then p else TakeFill(d, TakeFills(d, p, s, xs[..|xs| - 1]), s, xs[|xs| - 1])
  }

  /** Tell the risk manager of a bar only when the time has changed. */
  function Clock(p: State, time: int): State {
    if p.lastTime == Some(time) then p else
      p.(risk := BarUpdate(p.risk, p.book.equity, time), lastTime := Some(time), ticks := p.ticks + [time])
  }

  function HistoryOf(p: State, s: Symbol): seq<Bar> { if s in p.history then p.history[s] else [] }

  /** The symbol's own range, or zero while it is too young, so that no symbol is sized by another's range. */
  function Remember(d: Desk, p: State, s: Symbol, bar: Bar): State {
    var seen := HistoryOf(p, s) + [bar];
    p.(history := p.history[s := seen],
       risk := if d.risk.atrMult > 0.0
               then p.risk.(atr := if |seen| > d.risk.atrPeriod then Engine.Atr(seen, d.risk.atrPeriod) else 0.0)
               else p.risk)
  }

  ghost function FeedSymbol(d: Desk, p: State, s: Symbol, bar: Bar): State {
    var (book, xs) := BarOf(d.fees, p.book, s, bar);
    TakeFills(d, p.(book := book), s, xs)
  }

  function PlanFor(s: Symbol, sig: Signal, time: int, qty: real): Plan {
    Ledger.Plan(s, time, if sig.kind.Long? then Buy else Sell, sig.entry, sig.stopLoss, sig.takeProfit, qty)
  }

  function Accept(p: State, s: Symbol, plan: Plan): State {
    p.(pending := p.pending[s := plan], accepted := p.accepted + 1,
       book := p.book.(pending := p.book.pending + [Engine.OrderOf(plan)]))
  }

  function Enter(p: State, s: Symbol, signal: Signal, time: int, v: Verdict): State {
    if v.Allow? && v.qty > 0.0 then Accept(p, s, PlanFor(s, signal, time, v.qty)) else p
  }

  function AnchorState(p: State, time: int): State { p.(risk := Anchored(p.risk, p.book.equity, time)) }

  function Decide(d: Desk, p: State, s: Symbol, signal: Option<Signal>, time: int): State {
    if signal.None? || signal.value.kind.Flat? || s in p.book.positions || s in p.pending || s in p.open then p
    else
      var q := AnchorState(p, time);
      Enter(q, s, signal.value, time, Judge(d.risk, q.risk, signal.value, Engine.AccountOf(p.book)))
  }

  /** One equity point per time: a later visit at the same time overwrites it. */
  function Plot(curve: seq<(int, real)>, time: int, equity: real): seq<(int, real)> {
    if curve != [] && curve[|curve| - 1].0 == time then curve[|curve| - 1 := (time, equity)]
    else curve + [(time, equity)]
  }

  function Snapshot(p: State, time: int): State {
    p.(curve := Plot(p.curve, time, p.book.equity), marks := p.marks + [(time, p.book.equity)])
  }

  function Ask(d: Desk, s: Symbol, seen: seq<Bar>): Option<Signal> {
    if s in d.strategies then d.strategies[s](seen) else None
  }

  ghost function Visit(d: Desk, p: State, s: Symbol, bar: Bar): State {
    var q := FeedSymbol(d, Remember(d, Clock(p, bar.timestamp), s, bar), s, bar);
    Snapshot(Decide(d, q, s, Ask(d, s, HistoryOf(q, s)), bar.timestamp), bar.timestamp)
  }

  function BarAt(feeds: Feeds, k: Key): Bar {
    if k.symbol in feeds && k.index < |feeds[k.symbol]| then feeds[k.symbol][k.index] else Engine.FlatBar(k.time, 0.0)
  }

  ghost function VisitFn(d: Desk, feeds: Feeds): (State, Key) -> State {
    (p: State, k: Key) => Visit(d, p, k.symbol, BarAt(feeds, k))
  }

  function Initial(d: Desk): State {
    State(map[], map[], [], Opening(d.startingCash), Fresh(d.risk), map[], [], None, [], [], 0)
  }

  /** Close the position of one symbol at its last close. */
  ghost function CloseSymbol(d: Desk, p: State, s: Symbol, bars: seq<Bar>): State {
    if bars == [] || s !in p.open || s !in p.book.positions then p else
      var qty := p.book.positions[s].qty;
      var last := bars[|bars| - 1];
      var order := Order(s, ExitSide(qty), Abs(qty), 0.0, 0.0);
      FeedSymbol(d, p.(book := Serve(d.fees, p.book, Submit(order))), s, Engine.FlatBar(last.timestamp, last.close))
  }

  ghost function CloseAll(d: Desk, p: State, feeds: Feeds, symbols: seq<Symbol>): State {
    if symbols == [] then p else
      var q := CloseAll(d, p, feeds, symbols[..|symbols| - 1]);
      var s := symbols[|symbols| - 1];
      if s in feeds then CloseSymbol(d, q, s, feeds[s]) else q
  }

  /** The last point's equity is overwritten. */
  function Restated(curve: seq<(int, real)>, equity: real): seq<(int, real)> {
    if curve == [] then [] else curve[|curve| - 1 := (curve[|curve| - 1].0, equity)]
  }

  ghost function Finish(d: Desk, p: State, feeds: Feeds): State {
    var q := CloseAll(d, p, feeds, d.symbols);
    q.(curve := Restated(q.curve, q.book.equity))
  }

  ghost function RunAll(d: Desk, feeds: Feeds): State {
    Finish(d, Fold(VisitFn(d, feeds), Initial(d), VisitOrder(feeds, Beginning(feeds))), feeds)
  }

  // ---- the heap's content after a pop and a push

  lemma HeadsAfterPush(feeds: Feeds, cursors: Cursors, k: Key)
    requires Ready(feeds, cursors) && k in Heads(feeds, cursors)
    ensures Ready(feeds, Advance(feeds, cursors, k))
    ensures Heads(feeds, Advance(feeds, cursors, k)) == Heads(feeds, cursors) - {k}
              + if k.index + 1 < |feeds[k.symbol]| then {KeyAt(feeds, k.symbol, k.index + 1)} else {}
  {
    AdvanceTakesOne(feeds, cursors, k);
    var next := Advance(feeds, cursors, k);
    var a, b := Heads(feeds, next), Heads(feeds, cursors);
    var pushed := if k.index + 1 < |feeds[k.symbol]| then {KeyAt(feeds, k.symbol, k.index + 1)} else {};
    assert k == KeyAt(feeds, k.symbol, cursors[k.symbol]);
    forall j ensures j in a <==> j in b - {k} + pushed {
      if j in b && j != k { assert j == KeyAt(feeds, j.symbol, next[j.symbol]); }
      if j in a && j.symbol != k.symbol { assert j == KeyAt(feeds, j.symbol, cursors[j.symbol]); }
    }
  }

  /** Take the least head off the heap, advance its symbol's cursor, and put that symbol's next bar on the heap. */
  method PopAndPush(feeds: Feeds, heap: set<Key>, cursors: Cursors) returns (k: Key, rest: set<Key>, next: Cursors)
    requires Ready(feeds, cursors) && heap == Heads(feeds, cursors) && heap != {}
    ensures IsMin(k, heap) && k.symbol in feeds && k.index < |feeds[k.symbol]|
    ensures next == Advance(feeds, cursors, k) && Ready(feeds, next) && rest == Heads(feeds, next)
  {
    k := PopMin(heap);
    HeadsAfterPush(feeds, cursors, k);
    rest := heap - {k};
    next := cursors[k.symbol := cursors[k.symbol] + 1];
    var i := next[k.symbol];
    if i < |feeds[k.symbol]| {
      rest := rest + {Key(feeds[k.symbol][i].timestamp, i, k.symbol)};
    }
  }

  /** f is the engine's visit; known only where a bar is visited. */
  ghost predicate IsVisit(f: (State, Key) -> State, d: Desk, feeds: Feeds) {
    forall p, k {:trigger Visit(d, p, k.symbol, BarAt(feeds, k))} :: f(p, k) == Visit(d, p, k.symbol, BarAt(feeds, k))
  }

  lemma FoldNext(f: (State, Key) -> State, p: State, done: seq<Key>, k: Key)
    ensures Fold(f, p, done + [k]) == f(Fold(f, p, done), k)
  {
    assert (done + [k])[..|done|] == done;
  }

  lemma OrderStep(feeds: Feeds, cursors: Cursors, done: seq<Key>, k: Key, all: seq<Key>)
    requires Ready(feeds, cursors) && IsMin(k, Heads(feeds, cursors)) && done + VisitOrder(feeds, cursors) == all
    ensures Ready(feeds, Advance(feeds, cursors, k))
    ensures done + [k] + VisitOrder(feeds, Advance(feeds, cursors, k)) == all
    ensures |Rest(feeds, Advance(feeds, cursors, k))| < |Rest(feeds, cursors)|
  {
    MinIsUnique(k, MinOf(Heads(feeds, cursors)), Heads(feeds, cursors));
    AdvanceTakesOne(feeds, cursors, k);
    assert done + ([k] + VisitOrder(feeds, Advance(feeds, cursors, k))) == all;
  }

  // ---- the engine object

  class MultiSymbolBacktester {
    const desk: Desk
    const bars: Feeds
    const broker: PaperBroker
    const risk: RiskManager
    var pending: map<Symbol, Plan>
    var open: map<Symbol, OpenTrade>
    var trades: seq<Trade>
    var history: map<Symbol, seq<Bar>>
    var curve: seq<(int, real)>
    var lastTime: Option<int>
    ghost var ticks: seq<int>
    ghost var marks: seq<(int, real)>
    ghost var accepted: nat

    predicate Wired() { broker.fees == desk.fees && risk.cfg == desk.risk }

    ghost function View(): State
      reads this, broker, risk
    {
      State(pending, open, trades, broker.View(), risk.View(), history, curve, lastTime, ticks, marks, accepted)
    }

    constructor (desk: Desk, bars: Feeds)
      ensures Wired() && fresh(broker) && fresh(risk) && this.desk == desk && this.bars == bars
      ensures View() == Initial(desk)
    {
      this.desk, this.bars := desk, bars;
      broker := new PaperBroker(desk.fees, desk.startingCash);
      risk := new RiskManager(desk.risk);
      pending, open, trades, history, curve, lastTime := map[], map[], [], map[], [], None;
      ticks, marks, accepted := [], [], 0;
    }

    method HandleFill(s: Symbol, x: Fill)
      requires Wired()
      modifies this, risk
      ensures View() == TakeFill(desk, old(View()), s, x)
    {
      if x.role.Entry? {
        if s !in pending { return; }
        open := open[s := Ledger.Opened(pending[s], x)];
        pending := pending - {s};
        return;
      }
      if s !in open { return; }
      var o := open[s];
      var t := Ledger.TradeOn(o, Ledger.EntryRisk(o), x, false);
      trades := trades + [t];
      risk.OnTradeClosed(t.pnl, x.timestamp);
      open := open - {s};
    }

    method FeedBroker(s: Symbol, bar: Bar)
      requires Wired()
      modifies this, broker, risk
      ensures View() == FeedSymbol(desk, old(View()), s, bar)
    {
      var fills := broker.OnBar(s, bar);
      ghost var before := View();
      for i := 0 to |fills|
        invariant View() == TakeFills(desk, before, s, fills[..i])
      {
        assert fills[..i + 1][..i] == fills[..i];
        HandleFill(s, fills[i]);
      }
      assert fills[..|fills|] == fills;
    }

    method Prepare(s: Symbol, bar: Bar)
      requires Wired()
      modifies this, risk
      ensures View() == Remember(desk, Clock(old(View()), bar.timestamp), s, bar)
    {
      if lastTime != Some(bar.timestamp) {
        risk.OnBar(broker.equity, bar.timestamp);
        lastTime := Some(bar.timestamp);
        ticks := ticks + [bar.timestamp];
      }
      var seen := (if s in history then history[s] else []) + [bar];
      history := history[s := seen];
      if desk.risk.atrMult > 0.0 {
        if |seen| > desk.risk.atrPeriod {
          risk.UpdateAtr(Engine.Atr(seen, desk.risk.atrPeriod));
        } else {
          risk.UpdateAtr(0.0);
        }
      }
    }

    method ActOn(s: Symbol, signal: Option<Signal>, time: int)
      requires Wired()
      modifies this, broker, risk
      ensures View() == Decide(desk, old(View()), s, signal, time)
    {
      if signal.None? || signal.value.kind.Flat? { return; }
      if s in broker.positions || s in pending || s in open { return; }
      var v := risk.Evaluate(signal.value, Account(broker.cash, broker.equity, |broker.positions|), time);
      if v.Allow? && v.qty > 0.0 {
        var plan := PlanFor(s, signal.value, time, v.qty);
        var _ := broker.SubmitOrder(Engine.OrderOf(plan));
        pending := pending[s := plan];
        accepted := accepted + 1;
      }
    }

    method VisitBar(s: Symbol, bar: Bar)
      requires Wired()
      modifies this, broker, risk
      ensures View() == Visit(desk, old(View()), s, bar)
    {
      Prepare(s, bar);
      FeedBroker(s, bar);
      ActOn(s, Ask(desk, s, if s in history then history[s] else []), bar.timestamp);
      var equity := broker.equity;
      if curve != [] && curve[|curve| - 1].0 == bar.timestamp {
        curve := curve[|curve| - 1 := (bar.timestamp, equity)];
      } else {
        curve := curve + [(bar.timestamp, equity)];
      }
      marks := marks + [(bar.timestamp, equity)];
    }

    method VisitNext(k: Key, ghost f: (State, Key) -> State)
      requires Wired() && IsVisit(f, desk, bars) && k.symbol in bars && k.index < |bars[k.symbol]|
      modifies this, broker, risk
      ensures View() == f(old(View()), k)
    {
      VisitBar(k.symbol, bars[k.symbol][k.index]);
      assert BarAt(bars, k) == bars[k.symbol][k.index];
    }

    /** Until the heap is empty: pop the least head, push the symbol's next bar, visit the popped bar. */
    method VisitAll(ghost f: (State, Key) -> State)
      requires Wired() && IsVisit(f, desk, bars) && View() == Initial(desk)
      modifies this, broker, risk
      ensures View() == Fold(f, Initial(desk), VisitOrder(bars, Beginning(bars)))
    {
      var cursors: Cursors := Beginning(bars);
      var heap := set s | s in bars && bars[s] != [] :: Key(bars[s][0].timestamp, 0, s);
      ghost var done, all, p := [], VisitOrder(bars, cursors), Initial(desk);
      assert heap == Heads(bars, cursors);
      while heap != {}
        invariant Ready(bars, cursors) && heap == Heads(bars, cursors)
        invariant done + VisitOrder(bars, cursors) == all
        invariant View() == Fold(f, p, done)
        decreases |Rest(bars, cursors)|
      {
        var k;
        ghost var before := cursors;
        k, heap, cursors := PopAndPush(bars, heap, cursors);
        OrderStep(bars, before, done, k, all);
        FoldNext(f, p, done, k);
        VisitNext(k, f);
        done := done + [k];
      }
      assert done + [] == done;
    }

    method ForceClose(s: Symbol, own: seq<Bar>)
      requires Wired()
      modifies this, broker, risk
      ensures View() == CloseSymbol(desk, old(View()), s, own)
    {
      if own != [] && s in open && s in broker.positions {
        var qty, last := broker.positions[s].qty, own[|own| - 1];
        var _ := broker.SubmitOrder(Order(s, ExitSide(qty), Abs(qty), 0.0, 0.0));
        FeedBroker(s, Engine.FlatBar(last.timestamp, last.close));
      }
    }

    method ForceCloseAtEnd()
      requires Wired()
      modifies this, broker, risk
      ensures View() == Finish(desk, old(View()), bars)
    {
      ghost var before := View();
      for i := 0 to |desk.symbols|
        invariant View() == CloseAll(desk, before, bars, desk.symbols[..i])
      {
        assert desk.symbols[..i + 1][..i] == desk.symbols[..i];
        var s := desk.symbols[i];
        if s in bars { ForceClose(s, bars[s]); }
      }
      assert desk.symbols[..|desk.symbols|] == desk.symbols;
      if curve != [] {
        curve := curve[|curve| - 1 := (curve[|curve| - 1].0, broker.equity)];
      }
    }

    method Run() returns (ending: real)
      requires Wired() && View() == Initial(desk)
      modifies this, broker, risk
      ensures View() == RunAll(desk, bars) && ending == broker.equity
    {
      VisitAll(VisitFn(desk, bars));
      ForceCloseAtEnd();
      ending := broker.equity;
    }
  }
}
