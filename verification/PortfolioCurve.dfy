/** The equity points of the portfolio engine (bot/multi_backtester.py): the starting cash, what the closed trades
    brought, and every open trade at the latest close of its own symbol. */
module PortfolioCurve {
  import opened Types
  import opened Folds
  import opened Paper
  import opened Merge
  import opened Portfolio
  import opened PortfolioBooks
  import BrokerFills
  import EquityCurve
  import Ledger
  import PortfolioRanges
  import PortfolioRuns
  import PortfolioStories

  function CloseOf(p: State, s: Symbol): real {
    var shown := HistoryOf(p, s);
    if shown == [] then 0.0 else shown[|shown| - 1].close
  }

  function OpenMarks(p: State): map<Symbol, real> {
    map s | s in p.open :: EquityCurve.OpenAt(p.open[s], CloseOf(p, s))
  }

  /** Realized and unrealized over all symbols. */
  ghost function WorthOf(d: Desk, p: State): real {
    d.startingCash + Ledger.SumOf(Ledger.Pnl(), p.trades) + SumMap(OpenMarks(p))
  }

  /** The broker's latest price of every open symbol is the close of the symbol's latest bar. */
  ghost predicate Priced(p: State) {
    forall s :: s in p.open ==> HistoryOf(p, s) != [] && EquityCurve.LastIs(p.book, s, CloseOf(p, s))
  }

  // ---- prices

  lemma {:induction false} FillsKeepBook(d: Desk, p: State, s: Symbol, xs: seq<Fill>)
    ensures TakeFills(d, p, s, xs).book == p.book
  {
    if xs != [] { FillsKeepBook(d, p, s, xs[..|xs| - 1]); }
  }

  lemma FeedPrices(d: Desk, p: State, s: Symbol, bar: Bar)
    ensures FeedSymbol(d, p, s, bar).book.lastPrice == p.book.lastPrice[s := bar.close]
  {
    var (book, xs) := BarOf(d.fees, p.book, s, bar);
    BrokerFills.FillAllLeavesPrices(d.fees, p.book, p.book.pending, s, bar);
    FillsKeepBook(d, p.(book := book), s, xs);
  }

  lemma DecisionPrices(d: Desk, p: State, s: Symbol, signal: Option<Signal>, time: int)
    ensures Snapshot(Decide(d, p, s, signal, time), time).book.lastPrice == p.book.lastPrice
  {
  }

  lemma VisitPrices(d: Desk, p: State, s: Symbol, bar: Bar)
    ensures Visit(d, p, s, bar).book.lastPrice == p.book.lastPrice[s := bar.close]
  {
    var r := Remember(d, Clock(p, bar.timestamp), s, bar);
    FeedPrices(d, r, s, bar);
    var f := FeedSymbol(d, r, s, bar);
    DecisionPrices(d, f, s, Ask(d, s, HistoryOf(f, s)), bar.timestamp);
  }

  lemma StaysPriced(p: State, q: State, s: Symbol, bar: Bar, t: Symbol)
    requires Priced(p) && t in q.open && HistoryOf(q, s) == HistoryOf(p, s) + [bar]
    requires q.book.lastPrice == p.book.lastPrice[s := bar.close]
    requires t != s ==> HistoryOf(q, t) == HistoryOf(p, t) && Lookup(q.open, t) == Lookup(p.open, t)
    ensures HistoryOf(q, t) != [] && EquityCurve.LastIs(q.book, t, CloseOf(q, t))
  {
  }

  lemma VisitKeepsPriced(d: Desk, p: State, s: Symbol, bar: Bar, q: State)
    requires Priced(p) && q == Visit(d, p, s, bar)
    ensures Priced(q)
  {
    VisitPrices(d, p, s, bar);
    PortfolioRanges.VisitMeasuresOwn(d, p, s, bar);
    forall t | t in q.open ensures HistoryOf(q, t) != [] && EquityCurve.LastIs(q.book, t, CloseOf(q, t)) {
      if t != s { PortfolioStories.VisitMovesOwn(d, p, s, bar, t); }
      StaysPriced(p, q, s, bar, t);
    }
  }

  // ---- worth

  lemma {:induction false} SumsDiffer(a: map<Symbol, real>, b: map<Symbol, real>, c: map<Symbol, real>)
    requires a.Keys == b.Keys == c.Keys && forall s :: s in a ==> c[s] == a[s] - b[s]
    ensures SumMap(c) == SumMap(a) - SumMap(b)
    decreases |a|
  {
    if a == map[] {
      assert b == map[] && c == map[];
    } else {
      var s :| s in a;
      SumMapAt(a, s);
      SumMapAt(b, s);
      SumMapAt(c, s);
      SumsDiffer(a - {s}, b - {s}, c - {s});
    }
  }

  lemma OneMark(o: OpenTrade, price: real, value: real)
    requires value == o.side.Of(o.qty) * price
    ensures EquityCurve.OpenAt(o, price) == value - CostOf(o)
  {
    EquityCurve.MarkLessCost(o, price);
  }

  lemma MarkAt(p: State, s: Symbol)
    requires Holds(p.book.positions, p.open) && Priced(p) && s in p.open
    ensures OpenMarks(p)[s] == ValueOf(p.book.positions, p.book.lastPrice, s) - CostOf(p.open[s])
  {
    OneMark(p.open[s], CloseOf(p, s), ValueOf(p.book.positions, p.book.lastPrice, s));
  }

  lemma MarksDiffer(p: State)
    requires Holds(p.book.positions, p.open) && Priced(p)
    ensures SumMap(OpenMarks(p)) == SumMap(Values(p.book.positions, p.book.lastPrice)) - SumMap(Costs(p.open))
  {
    forall s | s in p.open { MarkAt(p, s); }
    SumsDiffer(Values(p.book.positions, p.book.lastPrice), Costs(p.open), OpenMarks(p));
  }

  lemma PricedWorth(d: Desk, p: State)
    requires DeskOk(d, p) && Priced(p)
    ensures p.book.equity == WorthOf(d, p)
  {
    MarksDiffer(p);
  }

  // ---- whole runs

  /** After the first n visits. */
  ghost predicate MarkedUpTo(d: Desk, feeds: Feeds, f: (State, Key) -> State, visits: seq<Key>, p: State, n: nat) {
    match n <= |visits|
    case false => false
    case true =>
      && p == Fold(f, Portfolio.Initial(d), visits[..n]) && DeskOk(d, p) && Priced(p) && |p.marks| == n
      && (n > 0 ==> p.risk.day.Some?)
      && forall i, j :: 0 <= i < n && j == i + 1 ==>
           p.marks[i] == (BarAt(feeds, visits[i]).timestamp, WorthOf(d, Fold(f, Portfolio.Initial(d), visits[..j])))
  }

  lemma MarkAdded(d: Desk, feeds: Feeds, f: (State, Key) -> State, visits: seq<Key>, p: State, n: nat, q: State)
    requires n < |visits| && MarkedUpTo(d, feeds, f, visits, p, n)
    requires q == Fold(f, Portfolio.Initial(d), visits[..n + 1]) && DeskOk(d, q) && q.risk.day.Some? && Priced(q)
    requires q.marks == p.marks + [(BarAt(feeds, visits[n]).timestamp, q.book.equity)]
    ensures MarkedUpTo(d, feeds, f, visits, q, n + 1)
  {
    PricedWorth(d, q);
  }

  lemma VisitMarks(d: Desk, p: State, s: Symbol, bar: Bar, q: State)
    requires DeskOk(d, p) && Priced(p) && q == Visit(d, p, s, bar)
    ensures DeskOk(d, q) && q.risk.day.Some? && Priced(q) && q.marks == p.marks + [(bar.timestamp, q.book.equity)]
  {
    PortfolioRuns.VisitKeeps(d, p, s, bar);
    VisitKeepsPriced(d, p, s, bar, q);
  }

  lemma NextIsVisit(d: Desk, feeds: Feeds, f: (State, Key) -> State, visits: seq<Key>, p: State, n: nat)
    requires n < |visits| && p == Fold(f, Portfolio.Initial(d), visits[..n]) && IsVisit(f, d, feeds)
    ensures var k := visits[n];
            Fold(f, Portfolio.Initial(d), visits[..n + 1]) == f(p, k) == Visit(d, p, k.symbol, BarAt(feeds, k))
  {
    assert visits[..n + 1][..n] == visits[..n];
  }

  lemma MarkNext(d: Desk, feeds: Feeds, f: (State, Key) -> State, visits: seq<Key>, p: State, n: nat)
    requires n < |visits| && MarkedUpTo(d, feeds, f, visits, p, n) && IsVisit(f, d, feeds)
    ensures MarkedUpTo(d, feeds, f, visits, f(p, visits[n]), n + 1)
  {
    var k := visits[n];
    NextIsVisit(d, feeds, f, visits, p, n);
    VisitMarks(d, p, k.symbol, BarAt(feeds, k), f(p, k));
    MarkAdded(d, feeds, f, visits, p, n, f(p, k));
  }

  lemma NothingMarked(d: Desk, feeds: Feeds, f: (State, Key) -> State, visits: seq<Key>)
    ensures MarkedUpTo(d, feeds, f, visits, Portfolio.Initial(d), 0)
  {
    assert Values(map[], map[]) == map[];
    assert Costs(map[]) == map[];
  }

  lemma AllMarked(d: Desk, feeds: Feeds, f: (State, Key) -> State, visits: seq<Key>)
    requires IsVisit(f, d, feeds)
    ensures MarkedUpTo(d, feeds, f, visits, Fold(f, Portfolio.Initial(d), visits), |visits|)
  {
    ghost var inv := (q: State, i: nat) => MarkedUpTo(d, feeds, f, visits, q, i);
    NothingMarked(d, feeds, f, visits);
    forall i: nat, q | i < |visits| && inv(q, i) ensures inv(f(q, visits[i]), i + 1) {
      MarkNext(d, feeds, f, visits, q, i);
    }
    FoldCounts(f, Portfolio.Initial(d), visits, |visits|, inv);
    assert visits[..|visits|] == visits;
  }

  /** Every visit of a portfolio run marks the account with the bar's time and with what it was worth then: the
      starting cash, the results of all trades closed up to this visit, and each open trade at the latest close shown
      of its symbol. The equity curve keeps the last mark of each time. */
  lemma EveryMarkIsWorth(d: Desk, feeds: Feeds, n: nat)
    requires n < |VisitOrder(feeds, Beginning(feeds))|
    ensures var visits, done := VisitOrder(feeds, Beginning(feeds)), RunAll(d, feeds);
            && |done.marks| == |visits|
            && done.marks[n] == (BarAt(feeds, visits[n]).timestamp,
                                 WorthOf(d, Fold(VisitFn(d, feeds), Portfolio.Initial(d), visits[..n + 1])))
  {
    var visits, f := VisitOrder(feeds, Beginning(feeds)), VisitFn(d, feeds);
    var p := Fold(f, Portfolio.Initial(d), visits);
    AllMarked(d, feeds, f, visits);
    PortfolioRuns.CloseAllKeeps(d, p, feeds, d.symbols);
  }
}
