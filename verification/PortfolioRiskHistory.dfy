/** What the shared risk manager is told over a portfolio run (bot/multi_backtester.py), and when entries are
    accepted. */
module PortfolioRiskHistory {
  import opened Types
  import opened Folds
  import opened Risk
  import opened Paper
  import opened Merge
  import opened Portfolio
  import opened RiskHistory
  import Ledger
  import Engine = Backtester

  type Event = Risk.Event

  /** Nothing was accepted since p, and the risk manager has heard the events and the trades booked since. */
  ghost predicate StillFollows(d: Desk, events: seq<Event>, p: State, q: State) {
    && |p.trades| <= |q.trades| && q.accepted == p.accepted && q.lastTime.Some?
    && Heard(d.risk, events, Since(p.trades, q.trades), q.risk)
  }

  lemma FillIsHeard(d: Desk, events: seq<Event>, p: State, q: State, s: Symbol, x: Fill)
    requires StillFollows(d, events, p, q)
    ensures StillFollows(d, events, p, Portfolio.TakeFill(d, q, s, x))
  {
    if !x.role.Entry? && s in q.open {
      var t := Ledger.TradeOn(q.open[s], Ledger.EntryRisk(q.open[s]), x, false);
      HeardClose(d.risk, events, Since(p.trades, q.trades), t, q.risk);
      assert Since(p.trades, q.trades + [t]) == Since(p.trades, q.trades) + [t];
    }
  }

  lemma {:induction false} FillsAreHeard(d: Desk, events: seq<Event>, p: State, q: State, s: Symbol, xs: seq<Fill>)
    requires StillFollows(d, events, p, q)
    ensures StillFollows(d, events, p, Portfolio.TakeFills(d, q, s, xs))
  {
    if xs != [] {
      FillsAreHeard(d, events, p, q, s, xs[..|xs| - 1]);
      FillIsHeard(d, events, p, Portfolio.TakeFills(d, q, s, xs[..|xs| - 1]), s, xs[|xs| - 1]);
    }
  }

  lemma FeedIsHeard(d: Desk, events: seq<Event>, p: State, q: State, s: Symbol, bar: Bar)
    requires StillFollows(d, events, p, q)
    ensures StillFollows(d, events, p, FeedSymbol(d, q, s, bar))
  {
    var (book, xs) := BarOf(d.fees, q.book, s, bar);
    FillsAreHeard(d, events, p, q.(book := book), s, xs);
  }

  // ---- one visit

  /** The manager is told of a bar only when the time has changed. */
  function ClockEvents(p: State, time: int): seq<Event> {
    if p.lastTime == Some(time) then [] else [BarSeen(p.book.equity, time)]
  }

  ghost function VisitEvents(d: Desk, p: State, s: Symbol, bar: Bar): seq<Event> {
    ClockEvents(p, bar.timestamp) + ClosesOf(Since(p.trades, Visit(d, p, s, bar).trades))
  }

  /** The risk state is what the events make of a fresh one, apart from the range last measured. */
  ghost predicate Explained(d: Desk, events: seq<Event>, p: State) {
    Replay(d.risk, events) == p.risk.(atr := 0.0) && (p.lastTime.Some? ==> p.risk.day.Some?)
  }

  lemma ClockIsHeard(d: Desk, events: seq<Event>, p: State, s: Symbol, bar: Bar)
    requires Explained(d, events, p)
    ensures StillFollows(d, events + ClockEvents(p, bar.timestamp), p, Remember(d, Clock(p, bar.timestamp), s, bar))
  {
    var told := events + ClockEvents(p, bar.timestamp);
    if p.lastTime == Some(bar.timestamp) {
      assert told == events;
    } else {
      ReplayNext(d.risk, events, BarSeen(p.book.equity, bar.timestamp));
    }
    assert Since(p.trades, p.trades) == [] && told + ClosesOf([]) == told;
  }

  /** No further order was accepted, or one was, with the manager unblocked. */
  ghost predicate EnteredUnblocked(c: RiskConfig, events: seq<Event>, p: State, q: State) {
    q.accepted == p.accepted || (q.accepted == p.accepted + 1 && Unblocked(c, events, q.book.equity))
  }

  lemma DecideIsUnblocked(d: Desk, events: seq<Event>, p: State, s: Symbol, signal: Option<Signal>, time: int)
    requires d.risk.Valid() && Replay(d.risk, events) == p.risk.(atr := 0.0) && p.risk.day.Some?
    ensures var q := Portfolio.Decide(d, p, s, signal, time);
            q.risk == p.risk && q.trades == p.trades && q.lastTime == p.lastTime
            && EnteredUnblocked(d.risk, events, p, q)
  {
    if signal.Some? && Judge(d.risk, p.risk, signal.value, Engine.AccountOf(p.book)).Allow? {
      assert Replay(d.risk, events).(atr := p.risk.atr) == p.risk;
      ApprovedIsUnblocked(d.risk, events, p.risk.atr, signal.value, Engine.AccountOf(p.book));
    }
  }

  lemma FedIsHeard(d: Desk, events: seq<Event>, p: State, s: Symbol, bar: Bar)
    requires Explained(d, events, p)
    ensures StillFollows(d, events + ClockEvents(p, bar.timestamp), p,
                         FeedSymbol(d, Remember(d, Clock(p, bar.timestamp), s, bar), s, bar))
  {
    ClockIsHeard(d, events, p, s, bar);
    FeedIsHeard(d, events + ClockEvents(p, bar.timestamp), p, Remember(d, Clock(p, bar.timestamp), s, bar), s, bar);
  }

  lemma SnapshotIsUnblocked(d: Desk, told: seq<Event>, p: State, q: State, s: Symbol, signal: Option<Signal>, time: int)
    requires d.risk.Valid() && StillFollows(d, told, p, q)
    ensures var r := Snapshot(Portfolio.Decide(d, q, s, signal, time), time);
            var all := told + ClosesOf(Since(p.trades, r.trades));
            Explained(d, all, r) && EnteredUnblocked(d.risk, all, p, r)
  {
    DecideIsUnblocked(d, told + ClosesOf(Since(p.trades, q.trades)), q, s, signal, time);
  }

  lemma VisitIsHeard(d: Desk, events: seq<Event>, p: State, s: Symbol, bar: Bar)
    requires d.risk.Valid() && Explained(d, events, p)
    ensures var q, all := Visit(d, p, s, bar), events + VisitEvents(d, p, s, bar);
            Explained(d, all, q) && EnteredUnblocked(d.risk, all, p, q)
  {
    var told := events + ClockEvents(p, bar.timestamp);
    FedIsHeard(d, events, p, s, bar);
    var fed := FeedSymbol(d, Remember(d, Clock(p, bar.timestamp), s, bar), s, bar);
    SnapshotIsUnblocked(d, told, p, fed, s, Ask(d, s, HistoryOf(fed, s)), bar.timestamp);
    assert told + ClosesOf(Since(p.trades, Visit(d, p, s, bar).trades)) == events + VisitEvents(d, p, s, bar);
  }

  // ---- whole runs

  /** The engine after the visits. */
  ghost function DeskAfter(d: Desk, feeds: Feeds,
                           visits: seq<Key>): State { Fold(VisitFn(d, feeds), Portfolio.Initial(d), visits) }

  /** All that the risk manager is told over the visits. */
  ghost function DeskTold(d: Desk, feeds: Feeds, visits: seq<Key>): seq<Event> {
    if visits == [] then [] else
      var n := |visits| - 1;
      DeskTold(d, feeds, visits[..n])
        + VisitEvents(d, DeskAfter(d, feeds, visits[..n]), visits[n].symbol, BarAt(feeds, visits[n]))
  }

  lemma DeskToldNext(d: Desk, feeds: Feeds, visits: seq<Key>)
    requires visits != []
    ensures var n := |visits| - 1;
            var p, bar := DeskAfter(d, feeds, visits[..n]), BarAt(feeds, visits[n]);
            && DeskAfter(d, feeds, visits) == Visit(d, p, visits[n].symbol, bar)
            && DeskTold(d, feeds, visits) == DeskTold(d, feeds, visits[..n]) + VisitEvents(d, p, visits[n].symbol, bar)
  {
  }

  /** After any visits the shared risk state is the one that the times and closes told to it make of a fresh one,
      apart from the range last measured; and the last visit has accepted an order only with the cooldown over and
      equity above the daily limit. */
  lemma {:induction false} EveryVisitWasUnblocked(d: Desk, feeds: Feeds, visits: seq<Key>)
    requires d.risk.Valid()
    ensures Explained(d, DeskTold(d, feeds, visits), DeskAfter(d, feeds, visits))
    ensures visits != [] ==>
              EnteredUnblocked(d.risk, DeskTold(d, feeds, visits), DeskAfter(d, feeds, visits[..|visits| - 1]),
                               DeskAfter(d, feeds, visits))
  {
    if visits != [] {
      var n := |visits| - 1;
      EveryVisitWasUnblocked(d, feeds, visits[..n]);
      VisitIsHeard(d, DeskTold(d, feeds, visits[..n]), DeskAfter(d, feeds, visits[..n]),
                   visits[n].symbol, BarAt(feeds, visits[n]));
      DeskToldNext(d, feeds, visits);
    }
  }
}
