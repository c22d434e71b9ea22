/** Whose bars size a position in the portfolio engine (bot/multi_backtester.py): those of its own symbol, up to the bar
    visited. */
module PortfolioRanges {
  import opened Types
  import opened Folds
  import opened Paper
  import opened Merge
  import opened Portfolio
  import opened PortfolioRiskHistory
  import Engine = Backtester

  /** The bars of s among those visited. */
  function ShownOf(feeds: Feeds, visits: seq<Key>, s: Symbol): seq<Bar> {
    if visits == [] then [] else
      var k := visits[|visits| - 1];
      ShownOf(feeds, visits[..|visits| - 1], s) + if k.symbol == s then [BarAt(feeds, k)] else []
  }

  // ---- what a visit remembers

  ghost predicate SameMemory(p: State, q: State) { q.history == p.history && q.risk.atr == p.risk.atr }

  lemma {:induction false} FillsLeaveMemory(d: Desk, p: State, s: Symbol, xs: seq<Fill>)
    ensures SameMemory(p, TakeFills(d, p, s, xs))
  {
    if xs != [] { FillsLeaveMemory(d, p, s, xs[..|xs| - 1]); }
  }

  lemma FeedLeavesMemory(d: Desk, p: State, s: Symbol, bar: Bar)
    ensures SameMemory(p, FeedSymbol(d, p, s, bar))
  {
    var (book, xs) := BarOf(d.fees, p.book, s, bar);
    FillsLeaveMemory(d, p.(book := book), s, xs);
  }

  lemma DecisionLeavesMemory(d: Desk, p: State, s: Symbol, signal: Option<Signal>, time: int)
    ensures SameMemory(p, Snapshot(Decide(d, p, s, signal, time), time))
  {
  }

  /** The visited symbol's bars are remembered and no other's change; with range stops on, the range measured is that
      of the visited symbol's own bars. */
  lemma VisitMeasuresOwn(d: Desk, p: State, s: Symbol, bar: Bar)
    ensures var q := Visit(d, p, s, bar);
            && HistoryOf(q, s) == HistoryOf(p, s) + [bar]
            && (forall t :: t != s ==> HistoryOf(q, t) == HistoryOf(p, t))
            && (d.risk.Valid() && d.risk.atrMult > 0.0 ==>
                  Engine.IsAverageRange(HistoryOf(q, s), d.risk.atrPeriod, q.risk.atr))
  {
    var r := Remember(d, Clock(p, bar.timestamp), s, bar);
    var f := FeedSymbol(d, r, s, bar);
    FeedLeavesMemory(d, r, s, bar);
    DecisionLeavesMemory(d, f, s, Ask(d, s, HistoryOf(f, s)), bar.timestamp);
    if d.risk.Valid() { Engine.AtrIsAverageRange(HistoryOf(p, s) + [bar], d.risk.atrPeriod); }
  }

  lemma {:induction false} HistoryIsShown(d: Desk, feeds: Feeds, visits: seq<Key>, s: Symbol)
    ensures HistoryOf(DeskAfter(d, feeds, visits), s) == ShownOf(feeds, visits, s)
  {
    if visits != [] {
      var n := |visits| - 1;
      HistoryIsShown(d, feeds, visits[..n], s);
      DeskToldNext(d, feeds, visits);
      VisitMeasuresOwn(d, DeskAfter(d, feeds, visits[..n]), visits[n].symbol, BarAt(feeds, visits[n]));
    }
  }

  // ---- which bars have been visited

  ghost predicate ShownUpTo(feeds: Feeds, done: seq<Key>, cursors: Cursors) {
    Ready(feeds, cursors) && forall s :: s in feeds ==> ShownOf(feeds, done, s) == feeds[s][..cursors[s]]
  }

  lemma ShownNext(feeds: Feeds, done: seq<Key>, cursors: Cursors, k: Key)
    requires ShownUpTo(feeds, done, cursors) && k in Heads(feeds, cursors)
    ensures ShownUpTo(feeds, done + [k], Advance(feeds, cursors, k)) && k.index == cursors[k.symbol]
  {
    var next := Advance(feeds, cursors, k);
    AdvanceTakesOne(feeds, cursors, k);
    assert (done + [k])[..|done|] == done;
    assert k == KeyAt(feeds, k.symbol, cursors[k.symbol]);
    forall s | s in feeds ensures ShownOf(feeds, done + [k], s) == feeds[s][..next[s]] {
      if s == k.symbol { assert feeds[s][..next[s]] == feeds[s][..cursors[s]] + [feeds[s][cursors[s]]]; }
    }
  }

  /** By visit number n, which is made after those done, its symbol's bars have been shown in order. */
  ghost predicate ShownInTurn(feeds: Feeds, done: seq<Key>, order: seq<Key>, n: nat) {
    n < |order| && var k := order[n];
    && k.symbol in feeds && k.index < |feeds[k.symbol]|
    && ShownOf(feeds, done + order[..n + 1], k.symbol) == feeds[k.symbol][..k.index + 1]
  }

  lemma FirstInTurn(feeds: Feeds, done: seq<Key>, cursors: Cursors, k: Key, later: seq<Key>)
    requires ShownUpTo(feeds, done, cursors) && k in Heads(feeds, cursors)
    ensures ShownInTurn(feeds, done, [k] + later, 0)
  {
    ShownNext(feeds, done, cursors, k);
    assert ([k] + later)[..1] == [k];
  }

  lemma LaterInTurn(feeds: Feeds, done: seq<Key>, k: Key, later: seq<Key>, n: nat)
    requires ShownInTurn(feeds, done + [k], later, n)
    ensures ShownInTurn(feeds, done, [k] + later, n + 1)
  {
    assert done + [k] + later[..n + 1] == done + ([k] + later)[..n + 2];
  }

  lemma {:induction false} VisitsInTurn(feeds: Feeds, done: seq<Key>, cursors: Cursors, n: nat)
    requires ShownUpTo(feeds, done, cursors) && n < |VisitOrder(feeds, cursors)|
    ensures ShownInTurn(feeds, done, VisitOrder(feeds, cursors), n)
    decreases n
  {
    var k := MinOf(Heads(feeds, cursors));
    AdvanceTakesOne(feeds, cursors, k);
    var next := Advance(feeds, cursors, k);
    ShownNext(feeds, done, cursors, k);
    assert VisitOrder(feeds, cursors) == [k] + VisitOrder(feeds, next);
    if n == 0 {
      FirstInTurn(feeds, done, cursors, k, VisitOrder(feeds, next));
    } else {
      VisitsInTurn(feeds, done + [k], next, n - 1);
      LaterInTurn(feeds, done, k, VisitOrder(feeds, next), n - 1);
    }
  }

  /** Visit number n of a run shows its symbol's bars in order. */
  lemma VisitShowsPrefix(feeds: Feeds, n: nat)
    requires n < |VisitOrder(feeds, Beginning(feeds))|
    ensures var visits := VisitOrder(feeds, Beginning(feeds));
            var k := visits[n];
            && k.symbol in feeds && k.index < |feeds[k.symbol]|
            && ShownOf(feeds, visits[..n + 1], k.symbol) == feeds[k.symbol][..k.index + 1]
  {
    var visits := VisitOrder(feeds, Beginning(feeds));
    VisitsInTurn(feeds, [], Beginning(feeds), n);
    assert [] + visits[..n + 1] == visits[..n + 1];
  }

  /** At every visit of a run with range stops the range in the risk state is that of the visited symbol's own bars up
      to the one visited: zero while there are no more than the period, else the mean of their last true ranges. */
  lemma RangeIsOwn(d: Desk, feeds: Feeds, n: nat)
    requires d.risk.Valid() && d.risk.atrMult > 0.0 && n < |VisitOrder(feeds, Beginning(feeds))|
    ensures var visits := VisitOrder(feeds, Beginning(feeds));
            var k, p := visits[n], DeskAfter(d, feeds, visits[..n + 1]);
            && k.symbol in feeds && k.index < |feeds[k.symbol]|
            && HistoryOf(p, k.symbol) == feeds[k.symbol][..k.index + 1]
            && Engine.IsAverageRange(feeds[k.symbol][..k.index + 1], d.risk.atrPeriod, p.risk.atr)
  {
    var visits := VisitOrder(feeds, Beginning(feeds));
    var k := visits[n];
    VisitShowsPrefix(feeds, n);
    HistoryIsShown(d, feeds, visits[..n + 1], k.symbol);
    assert visits[..n + 1][..n] == visits[..n];
    DeskToldNext(d, feeds, visits[..n + 1]);
    VisitMeasuresOwn(d, DeskAfter(d, feeds, visits[..n]), k.symbol, BarAt(feeds, k));
  }

  lemma {:induction false} SumIsUnique(xs: seq<real>, ys: seq<real>)
    requires |xs| == |ys| && forall i :: 0 <= i < |xs| ==> xs[i] == ys[i]
    ensures Sum(xs) == Sum(ys)
  {
    assert xs == ys;
  }

  lemma TrueRangeIsUnique(previous: Bar, b: Bar, x: real, y: real)
    requires Engine.IsTrueRange(previous, b, x) && Engine.IsTrueRange(previous, b, y)
    ensures x == y
  {
  }

  lemma AverageRangeIsUnique(bars: seq<Bar>, period: int, x: real, y: real)
    requires Engine.IsAverageRange(bars, period, x) && Engine.IsAverageRange(bars, period, y)
    ensures x == y
  {
    if |bars| > period {
      var xs :| Engine.AreLastRanges(bars, period, xs) && x * period as real == Sum(xs);
      var ys :| Engine.AreLastRanges(bars, period, ys) && y * period as real == Sum(ys);
      forall i | 0 <= i < |xs| ensures xs[i] == ys[i] {
        var j := |bars| - period + i;
        TrueRangeIsUnique(bars[j - 1], bars[j], xs[i], ys[i]);
      }
      SumIsUnique(xs, ys);
      SameQuotient(x, y, period as real);
    }
  }

  lemma SameQuotient(x: real, y: real, n: real)
    requires n > 0.0 && x * n == y * n
    ensures x == y
  {
    assert (x - y) * n == 0.0;
  }

  /** The feeds hold the same bars of s up to number i, if they hold so many. */
  predicate SameUpTo(feeds: Feeds, others: Feeds, s: Symbol, i: nat) {
    s in feeds && s in others && i < |feeds[s]| && i < |others[s]| ==> feeds[s][..i + 1] == others[s][..i + 1]
  }

  /** Two runs whose feeds agree on a symbol up to some bar measure the same range on that bar, whatever the other
      symbols do. */
  lemma OtherSymbolsDoNotMatter(d: Desk, feeds: Feeds, n: nat, e: Desk, others: Feeds, m: nat)
    requires d.risk.Valid() && d.risk.atrMult > 0.0 && e.risk == d.risk
    requires n < |VisitOrder(feeds, Beginning(feeds))| && m < |VisitOrder(others, Beginning(others))|
    requires var k, j := VisitOrder(feeds, Beginning(feeds))[n], VisitOrder(others, Beginning(others))[m];
             k.symbol == j.symbol && k.index == j.index && SameUpTo(feeds, others, k.symbol, k.index)
    ensures DeskAfter(d, feeds, VisitOrder(feeds, Beginning(feeds))[..n + 1]).risk.atr
         == DeskAfter(e, others, VisitOrder(others, Beginning(others))[..m + 1]).risk.atr
  {
    RangeIsOwn(d, feeds, n);
    RangeIsOwn(e, others, m);
    var k := VisitOrder(feeds, Beginning(feeds))[n];
    AverageRangeIsUnique(feeds[k.symbol][..k.index + 1], d.risk.atrPeriod,
                         DeskAfter(d, feeds, VisitOrder(feeds, Beginning(feeds))[..n + 1]).risk.atr,
                         DeskAfter(e, others, VisitOrder(others, Beginning(others))[..m + 1]).risk.atr);
  }
}
