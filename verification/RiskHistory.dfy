/** What the risk manager is told over a backtest (bot/backtester.py), and under what history entries are accepted. */
module RiskHistory {
  import opened Types
  import opened Risk
  import opened Paper
  import opened Ledger
  import opened Backtester

  type Event = Risk.Event

  /** The risk manager hears of the trades closed in full. */
  function ClosesOf(ts: seq<Trade>): seq<Event> {
    if ts == [] then [] else
      var t := ts[|ts| - 1];
      ClosesOf(ts[..|ts| - 1]) + if t.partial then [] else [TradeClosed(t.pnl, t.exitTime)]
  }

  /** Apart from the range last measured, the state is what the events and then the trades make of a fresh one. */
  ghost predicate Heard(c: RiskConfig, events: seq<Event>, ts: seq<Trade>, r: RiskState) {
    Replay(c, events + ClosesOf(ts)) == r.(atr := 0.0) && r.day.Some?
  }

  lemma HeardClose(c: RiskConfig, events: seq<Event>, ts: seq<Trade>, t: Trade, r: RiskState)
    requires Heard(c, events, ts, r) && !t.partial
    ensures Heard(c, events, ts + [t], CloseUpdate(c, r, t.pnl, t.exitTime))
  {
    var close := TradeClosed(t.pnl, t.exitTime);
    assert (ts + [t])[..|ts|] == ts;
    ReplayNext(c, events + ClosesOf(ts), close);
    assert events + ClosesOf(ts + [t]) == events + ClosesOf(ts) + [close];
  }

  lemma HeardPart(c: RiskConfig, events: seq<Event>, ts: seq<Trade>, t: Trade, r: RiskState)
    requires Heard(c, events, ts, r) && t.partial
    ensures Heard(c, events, ts + [t], r)
  {
    assert (ts + [t])[..|ts|] == ts;
    assert ClosesOf(ts) + [] == ClosesOf(ts);
  }

  /** The trades booked since. */
  function Since(before: seq<Trade>, now: seq<Trade>): seq<Trade> {
    if |before| <= |now| then now[|before|..] else []
  }

  /** Nothing was accepted since e, and the risk manager has heard the events and the trades booked since. */
  ghost predicate Follows(c: Config, events: seq<Event>, e: Engine, f: Engine) {
    && |e.ledger.trades| <= |f.ledger.trades|
    && Heard(c.risk, events, Since(e.ledger.trades, f.ledger.trades), f.risk)
    && f.ledger.log.accepted == e.ledger.log.accepted
  }

  lemma FollowsFill(c: Config, events: seq<Event>, e: Engine, f: Engine, x: Fill)
    requires Follows(c, events, e, f)
    ensures Follows(c, events, e, TakeFill(c, f, x))
  {
    if x.role.Exit? && f.ledger.open.Some? {
      var t := ClosedBy(f.ledger, x);
      HeardClose(c.risk, events, Since(e.ledger.trades, f.ledger.trades), t, f.risk);
      assert Since(e.ledger.trades, f.ledger.trades + [t]) == Since(e.ledger.trades, f.ledger.trades) + [t];
    }
  }

  lemma {:induction false} FollowsFills(c: Config, events: seq<Event>, e: Engine, f: Engine, xs: seq<Fill>)
    requires Follows(c, events, e, f)
    ensures Follows(c, events, e, TakeFills(c, f, xs))
  {
    if xs != [] {
      FollowsFills(c, events, e, f, xs[..|xs| - 1]);
      FollowsFill(c, events, e, TakeFills(c, f, xs[..|xs| - 1]), xs[|xs| - 1]);
    }
  }

  lemma FollowsFeed(c: Config, events: seq<Event>, e: Engine, f: Engine, bar: Bar)
    requires Follows(c, events, e, f)
    ensures Follows(c, events, e, FeedBar(c, f, bar))
  {
    var (book, xs) := BarOf(c.fees, f.book, c.symbol, bar);
    FollowsFills(c, events, e, f.(book := book), xs);
  }

  lemma FollowsCloseOut(c: Config, events: seq<Event>, e: Engine, f: Engine, time: int, price: real)
    requires Follows(c, events, e, f)
    ensures Follows(c, events, e, CloseOut(c, f, time, price))
  {
    if c.symbol in f.book.positions {
      var qty := f.book.positions[c.symbol].qty;
      var order := Order(c.symbol, ExitSide(qty), Abs(qty), 0.0, 0.0);
      FollowsFeed(c, events, e, f.(book := Serve(c.fees, f.book, Submit(order))), FlatBar(time, price));
    }
  }

  lemma FollowsPartial(c: Config, events: seq<Event>, e: Engine, f: Engine, bar: Bar, rNow: real)
    requires Follows(c, events, e, f) && f.ledger.open.Some?
    ensures Follows(c, events, e, TakePartial(c, f, bar, rNow)) && TakePartial(c, f, bar, rNow).ledger.open.Some?
  {
    var qty := PartQty(c, f.ledger.open.value);
    var (book, x) := PartialOf(c.fees, f.book, c.symbol, qty, bar);
    if c.partialTpR > 0.0 && !f.ledger.partialDone && rNow >= c.partialTpR && x.Some? {
      assert f.ledger.open.value.qty != 0.0;
      var t := PartOf(f.ledger, x.value, qty);
      HeardPart(c.risk, events, Since(e.ledger.trades, f.ledger.trades), t, f.risk);
      assert Since(e.ledger.trades, f.ledger.trades + [t]) == Since(e.ledger.trades, f.ledger.trades) + [t];
    }
  }

  lemma FollowsManage(c: Config, events: seq<Event>, e: Engine, f: Engine, bar: Bar)
    requires Follows(c, events, e, f)
    ensures Follows(c, events, e, Manage(c, f, bar))
  {
    if f.ledger.open.Some? && RiskOf(Ticked(f).ledger) > 0.0 {
      var t := Ticked(f);
      var rNow := OpenR(t.ledger.open.value, bar.close, RiskOf(t.ledger));
      FollowsPartial(c, events, e, t, bar, rNow);
      var moved := MoveToBreakeven(c, TakePartial(c, t, bar, rNow), rNow);
      assert Follows(c, events, e, moved);
      FollowsCloseOut(c, events, e, moved, bar.timestamp, bar.close);
    }
  }

  // ---- one bar

  /** What a bar tells the risk manager: the equity before it, then the trades it closes. */
  ghost function BarEvents(c: Config, strategy: Strategy, e: Engine, bar: Bar): seq<Event> {
    [BarSeen(e.book.equity, bar.timestamp)]
      + ClosesOf(Since(e.ledger.trades, Step(c, strategy, e, bar).ledger.trades))
  }

  lemma FollowsHousekeep(c: Config, events: seq<Event>, e: Engine, bar: Bar)
    requires Replay(c.risk, events) == e.risk.(atr := 0.0)
    ensures Follows(c, events + [BarSeen(e.book.equity, bar.timestamp)], e, Housekeep(c, Begin(e), bar))
  {
    var seen := BarSeen(e.book.equity, bar.timestamp);
    ReplayNext(c.risk, events, seen);
    assert Since(e.ledger.trades, e.ledger.trades) == [];
    assert events + [seen] + ClosesOf([]) == events + [seen];
  }

  /** The accepted orders are the same, or one more was accepted at this time with the manager unblocked. */
  ghost predicate AcceptedUnblocked(c: RiskConfig, events: seq<Event>, e: Engine, f: Engine, time: int) {
    || f.ledger.log.accepted == e.ledger.log.accepted
    || exists p :: f.ledger.log.accepted == e.ledger.log.accepted + [p] &&
         p.time == time && Unblocked(c, events, f.book.equity)
  }

  lemma DecisionIsUnblocked(c: Config, events: seq<Event>, e: Engine, signal: Option<Signal>, time: int)
    requires c.risk.Valid() && Replay(c.risk, events) == e.risk.(atr := 0.0) && e.risk.day.Some?
    ensures var f := Decide(c, e, signal, time);
            f.risk == e.risk && f.ledger.trades == e.ledger.trades && AcceptedUnblocked(c.risk, events, e, f, time)
  {
    if signal.Some? && Judge(c.risk, e.risk, signal.value, AccountOf(e.book)).Allow? {
      assert Replay(c.risk, events).(atr := e.risk.atr) == e.risk;
      ApprovedIsUnblocked(c.risk, events, e.risk.atr, signal.value, AccountOf(e.book));
    }
  }

  lemma StepFollows(c: Config, strategy: Strategy, events: seq<Event>, e: Engine, bar: Bar)
    requires c.risk.Valid() && Replay(c.risk, events) == e.risk.(atr := 0.0)
    ensures var f, all := Step(c, strategy, e, bar), events + BarEvents(c, strategy, e, bar);
            Replay(c.risk, all) == f.risk.(atr := 0.0) && AcceptedUnblocked(c.risk, all, e, f, bar.timestamp)
  {
    var told := events + [BarSeen(e.book.equity, bar.timestamp)];
    FollowsHousekeep(c, events, e, bar);
    var e1 := Housekeep(c, Begin(e), bar);
    FollowsFeed(c, told, e, e1, bar);
    var e2 := FeedBar(c, e1, bar);
    FollowsManage(c, told, e, e2, bar);
    var e3 := Manage(c, e2, bar);
    var e4 := e3.(seen := e3.seen + [bar]);
    var all := told + ClosesOf(Since(e.ledger.trades, e4.ledger.trades));
    DecisionIsUnblocked(c, all, e4, strategy(e4.seen), bar.timestamp);
    assert all == events + BarEvents(c, strategy, e, bar);
  }

  // ---- whole runs

  /** All that the risk manager is told over the bars. */
  ghost function Told(c: Config, strategy: Strategy, bars: seq<Bar>): seq<Event> {
    if bars == [] then [] else
      var n := |bars| - 1;
      Told(c, strategy, bars[..n]) + BarEvents(c, strategy, EngineAfter(c, strategy, bars[..n]), bars[n])
  }

  /** The engine after the bars. */
  ghost function EngineAfter(c: Config, strategy: Strategy, bars: seq<Bar>): Engine {
    StepAll(c, strategy, Begin(Initial(c)), bars)
  }

  /** At bar k - 1 the manager, having heard of all bars up to it, was not blocked. */
  ghost predicate OpenAt(c: Config, strategy: Strategy, bars: seq<Bar>, k: nat, time: int) {
    0 < k <= |bars| && bars[k - 1].timestamp == time &&
    Unblocked(c.risk, Told(c, strategy, bars[..k]), EngineAfter(c, strategy, bars[..k]).book.equity)
  }

  ghost predicate AllOpen(c: Config, strategy: Strategy, bars: seq<Bar>, plans: seq<Plan>) {
    forall p :: p in plans ==> exists k :: OpenAt(c, strategy, bars, k, p.time)
  }

  lemma OpenBefore(c: Config, strategy: Strategy, bars: seq<Bar>, n: nat, plans: seq<Plan>)
    requires n <= |bars| && AllOpen(c, strategy, bars[..n], plans)
    ensures AllOpen(c, strategy, bars, plans)
  {
    forall p | p in plans ensures exists k :: OpenAt(c, strategy, bars, k, p.time) {
      var k :| OpenAt(c, strategy, bars[..n], k, p.time);
      OpenStays(c, strategy, bars, n, k, p.time);
    }
  }

  lemma OpenStays(c: Config, strategy: Strategy, bars: seq<Bar>, n: nat, k: nat, time: int)
    requires n <= |bars| && OpenAt(c, strategy, bars[..n], k, time)
    ensures OpenAt(c, strategy, bars, k, time)
  {
    assert bars[..n][..k] == bars[..k];
  }

  lemma LastIsOpen(c: Config, strategy: Strategy, bars: seq<Bar>, before: Engine, e: Engine)
    requires bars != [] && e == EngineAfter(c, strategy, bars)
    requires AllOpen(c, strategy, bars, before.ledger.log.accepted)
    requires AcceptedUnblocked(c.risk, Told(c, strategy, bars), before, e, bars[|bars| - 1].timestamp)
    ensures AllOpen(c, strategy, bars, e.ledger.log.accepted)
  {
    assert bars[..|bars|] == bars;
    forall p | p in e.ledger.log.accepted && p !in before.ledger.log.accepted
      ensures exists k :: OpenAt(c, strategy, bars, k, p.time)
    {
      assert OpenAt(c, strategy, bars, |bars|, p.time);
    }
  }

  lemma ToldNext(c: Config, strategy: Strategy, bars: seq<Bar>)
    requires bars != []
    ensures var n := |bars| - 1;
            var e := EngineAfter(c, strategy, bars[..n]);
            && EngineAfter(c, strategy, bars) == Step(c, strategy, e, bars[n])
            && Told(c, strategy, bars) == Told(c, strategy, bars[..n]) + BarEvents(c, strategy, e, bars[n])
  {
  }

  /** The risk state of every run is the one its bars and closes make of a fresh one, apart from the range last
      measured; and every entry order was accepted on a bar on which the cooldown was over and equity above the daily
      limit. */
  lemma {:induction false} EveryEntryWasUnblocked(c: Config, strategy: Strategy, bars: seq<Bar>)
    requires c.risk.Valid()
    ensures var e := EngineAfter(c, strategy, bars);
            && Replay(c.risk, Told(c, strategy, bars)) == e.risk.(atr := 0.0)
            && AllOpen(c, strategy, bars, e.ledger.log.accepted)
  {
    if bars != [] {
      var n := |bars| - 1;
      var before := EngineAfter(c, strategy, bars[..n]);
      EveryEntryWasUnblocked(c, strategy, bars[..n]);
      StepFollows(c, strategy, Told(c, strategy, bars[..n]), before, bars[n]);
      ToldNext(c, strategy, bars);
      OpenBefore(c, strategy, bars, n, before.ledger.log.accepted);
      LastIsOpen(c, strategy, bars, before, EngineAfter(c, strategy, bars));
    }
  }
}
