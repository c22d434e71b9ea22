/** The story of every trade of the portfolio engine (bot/multi_backtester.py): on its own symbol's bars it is that of a
    single-symbol trade without management. */
module PortfolioStories {
  import opened Types
  import opened Folds
  import opened Risk
  import opened Paper
  import opened Merge
  import opened Portfolio
  import opened PortfolioBooks
  import opened PortfolioRanges
  import opened BrokerFills
  import PortfolioRuns
  import Ledger
  import Books
  import Engine = Backtester
  import Stories = TradeStories

  type Life = Stories.Life

  /** The desk as one symbol sees it: no part is closed, no stop moved, no time limit set. */
  function Alone(d: Desk,
                 s: Symbol): Engine.Config { Engine.Config(s, d.risk, d.fees, d.startingCash, 0.0, 0.0, 0.0, 0) }

  /** The engine takes a strategy's signals for its own symbol, whatever symbol they name. */
  function OnBehalf(d: Desk, s: Symbol, seen: seq<Bar>): Option<Signal> {
    if s !in d.strategies || d.strategies[s](seen).None? then None
    else Some(d.strategies[s](seen).value.(symbol := s))
  }

  /** For every symbol the strategy that answers on its behalf. */
  type Own = Symbol -> Engine.Strategy

  ghost predicate IsOwn(own: Own, d: Desk) { forall s, seen :: own(s)(seen) == OnBehalf(d, s, seen) }

  /** The trade's life on the bars of its own symbol, ended on bar m. */
  ghost predicate ToldOn(d: Desk, feeds: Feeds, own: Own, t: Trade, k: Life, m: nat) {
    t.what.symbol in feeds &&
    var s := t.what.symbol;
    Stories.Told(Alone(d, s), own(s), feeds[s], Ledger.Trip(t.what, [t]), k, m)
  }

  ghost predicate HasStory(d: Desk, feeds: Feeds, own: Own, t: Trade) {
    match Lookup(feeds, t.what.symbol)
    case None => false
    case Some(_) => exists k, m :: ToldOn(d, feeds, own, t, k, m)
  }

  ghost predicate AllToldOn(d: Desk, feeds: Feeds, own: Own, trades: seq<Trade>) {
    forall t :: t in trades ==> HasStory(d, feeds, own, t)
  }

  // ---- the trade under way on one symbol

  /** The open trade o of s, whose levels no bar before number n has reached. */
  ghost predicate LivingOn(d: Desk, feeds: Feeds, own: Own, s: Symbol, o: OpenTrade, b: Book, k: Life, n: nat) {
    && s in feeds && Stories.Begun(Alone(d, s), own(s), feeds[s], k) && k.part.None? && k.even.None?
    && o == k.entry && s in b.brackets && b.brackets[s] == Bracket(o.stop, o.target)
    && Stories.Untouched(k, feeds[s], n)
  }

  lemma EntryLivesOn(d: Desk, feeds: Feeds, own: Own, s: Symbol, plan: Plan, b: Book, n: nat)
    requires s in feeds && 0 < n < |feeds[s]| && s !in b.positions && plan.symbol == s
    requires Stories.PlannedOn(own(s), feeds[s], n - 1, plan)
    ensures var (e, x) := FillOrder(d.fees, b, Engine.OrderOf(plan), feeds[s][n]);
            var o := Ledger.Opened(plan, x);
            x.role.Entry? && LivingOn(d, feeds, own, s, o, e, Stories.Life(n - 1, plan, o, None, None), n)
  {
    Stories.EntryIsAtOpen(Alone(d, s), b, plan, feeds[s][n]);
  }

  /** A fill of the whole trade on bar m, at the level reached or else at the last close. */
  lemma ExitIsTold(d: Desk, feeds: Feeds, own: Own, s: Symbol, o: OpenTrade, b: Book, k: Life, m: nat, x: Fill,
                   price: real)
    requires LivingOn(d, feeds, own, s, o, b, k, m) && k.at < m < |feeds[s]|
    requires FilledAt(d.fees, x, s, o.side.Opposite(), o.qty, price, feeds[s][m].timestamp)
    requires var stop, target := Stories.StoppedOn(k, feeds[s], m), Stories.TargetOn(k, feeds[s], m);
             if stop && (d.fees.stopFirst || !target) then price == o.stop
             else if target then price == o.target
             else price == feeds[s][m].close && m == |feeds[s]| - 1
    ensures ToldOn(d, feeds, own, Ledger.TradeOn(o, Ledger.EntryRisk(o), x, false), k, m)
  {
    var t := Ledger.TradeOn(o, Ledger.EntryRisk(o), x, false);
    assert o.symbol == s && [t][..0] == [];
    assert Stories.Closes(d.fees, k, t, o.qty, price, feeds[s][m].timestamp);
  }

  /** The position of s is that of its open trade. */
  predicate HeldAs(b: Book, s: Symbol, o: OpenTrade) {
    s in b.positions && b.positions[s].qty == o.side.Of(o.qty) && o.qty > 0.0
  }

  lemma BracketIsTold(d: Desk, feeds: Feeds, own: Own, s: Symbol, o: OpenTrade, b: Book, k: Life, n: nat, x: Fill)
    requires LivingOn(d, feeds, own, s, o, b, k, n) && k.at < n < |feeds[s]| && HeldAs(b, s, o)
    requires BracketExit(d.fees, b, s, feeds[s][n], x)
    ensures ToldOn(d, feeds, own, Ledger.TradeOn(o, Ledger.EntryRisk(o), x, false), k, n)
  {
    var stop := Stories.StoppedOn(k, feeds[s], n) && (d.fees.stopFirst || !Stories.TargetOn(k, feeds[s], n));
    ExitIsTold(d, feeds, own, s, o, b, k, n, x, if stop then o.stop else o.target);
  }

  // ---- feeding the symbol's own bar

  ghost predicate HasLife(d: Desk, feeds: Feeds, own: Own, s: Symbol, p: State, before: int, n: nat) {
    match Lookup(p.open, s)
    case None => true
    case Some(o) => exists k: Life :: k.at < before && LivingOn(d, feeds, own, s, o, p.book, k, n)
  }

  ghost predicate WaitsSince(d: Desk, feeds: Feeds, own: Own, s: Symbol, p: State, n: int) {
    s in p.pending ==> n > 0 && s in feeds && Stories.PlannedOn(own(s), feeds[s], n - 1, p.pending[s])
  }

  /** Before bar n of s. */
  ghost predicate StoryOn(d: Desk, feeds: Feeds, own: Own, s: Symbol, p: State, n: nat) {
    HasLife(d, feeds, own, s, p, n - 1, n) && WaitsSince(d, feeds, own, s, p, n)
  }

  lemma OwnOrderAlone(d: Desk, p: State, s: Symbol, bar: Bar)
    requires Mid(d, p) && s in p.pending
    ensures var (b, x) := FillOrder(d.fees, p.book, Engine.OrderOf(p.pending[s]), bar);
            FillAll(d.fees, p.book, p.book.pending, s, bar) == (b, [x])
    ensures s !in p.book.positions && p.pending[s].symbol == s
  {
    OwnOrderFills(d.fees, p.book, p.book.pending, s, bar);
    assert Engine.OrderOf(p.pending[s]) in p.book.pending;
  }

  lemma EntersOn(d: Desk, feeds: Feeds, own: Own, s: Symbol, p: State, n: nat, b: Book, xs: seq<Fill>)
    requires Mid(d, p) && s in feeds && n < |feeds[s]| && WaitsSince(d, feeds, own, s, p, n) && s in p.pending
    requires (b, xs) == FillAll(d.fees, p.book, p.book.pending, s, feeds[s][n])
    ensures var q := TakeFills(d, p.(book := b), s, xs);
            s !in q.pending && q.trades == p.trades && q.book == b && HasLife(d, feeds, own, s, q, n, n)
  {
    OwnOrderAlone(d, p, s, feeds[s][n]);
    EntryLivesOn(d, feeds, own, s, p.pending[s], p.book, n);
    OneFill(d, p.(book := b), s, xs[0]);
  }

  lemma NothingEnters(d: Desk, p: State, s: Symbol, bar: Bar)
    requires Mid(d, p) && s !in p.pending
    ensures FillAll(d.fees, p.book, p.book.pending, s, bar) == (p.book, [])
  {
    OwnOrderFills(d.fees, p.book, p.book.pending, s, bar);
  }

  lemma WaitingOn(d: Desk, feeds: Feeds, own: Own, s: Symbol, p: State, n: nat, b: Book, xs: seq<Fill>)
    requires Mid(d, p) && s in feeds && n < |feeds[s]| && StoryOn(d, feeds, own, s, p, n)
    requires (b, xs) == FillAll(d.fees, p.book, p.book.pending, s, feeds[s][n])
    ensures var q := TakeFills(d, p.(book := b), s, xs);
            s !in q.pending && q.trades == p.trades && q.book == b && HasLife(d, feeds, own, s, q, n, n)
  {
    if s in p.pending {
      EntersOn(d, feeds, own, s, p, n, b, xs);
    } else {
      NothingEnters(d, p, s, feeds[s][n]);
    }
  }

  lemma ToldNextOn(d: Desk, feeds: Feeds, own: Own, trades: seq<Trade>, t: Trade, k: Life, m: nat)
    requires AllToldOn(d, feeds, own, trades) && ToldOn(d, feeds, own, t, k, m)
    ensures AllToldOn(d, feeds, own, trades + [t])
  {
  }

  /** The bracket closes the trade of s on bar n, or the bar reaches neither of its levels. */
  lemma TriggerOn(d: Desk, feeds: Feeds, own: Own, s: Symbol, p: State, n: nat, b: Book, ys: seq<Fill>, k: Life)
    requires s in feeds && n < |feeds[s]| && s in p.open && AllToldOn(d, feeds, own, p.trades)
    requires HeldAs(p.book, s, p.open[s])
    requires k.at < n && LivingOn(d, feeds, own, s, p.open[s], p.book, k, n)
    requires (b, ys) == Trigger(d.fees, p.book, s, feeds[s][n])
    ensures var q := TakeFills(d, p.(book := b), s, ys);
            q.pending == p.pending && AllToldOn(d, feeds, own, q.trades) && HasLife(d, feeds, own, s, q, n, n + 1)
  {
    TriggerAt(d.fees, p.book, s, feeds[s][n]);
    if ys == [] {
      assert LivingOn(d, feeds, own, s, p.open[s], b, k, n + 1);
    } else {
      BracketIsTold(d, feeds, own, s, p.open[s], p.book, k, n, ys[0]);
      OneFill(d, p.(book := b), s, ys[0]);
      assert ys == [ys[0]];
      ToldNextOn(d, feeds, own, p.trades, Ledger.TradeOn(p.open[s], Ledger.EntryRisk(p.open[s]), ys[0], false), k, n);
    }
  }

  /** What a bracket does depends on its own position alone. */
  lemma TriggerAt(f: Fees, b: Book, s: Symbol, bar: Bar)
    requires s in b.positions && b.positions[s].qty != 0.0
    ensures var (d, ys) := Trigger(f, b, s, bar);
            && (ys == [] || (|ys| == 1 && BracketExit(f, b, s, bar, ys[0])))
            && (ys == [] ==> d == b && (s in b.brackets ==>
                  !Reached(b.brackets[s].stop, b.positions[s].qty > 0.0, bar) &&
                  !Reached(b.brackets[s].target, b.positions[s].qty < 0.0, bar)))
  {
    var own := b.(positions := map[s := b.positions[s]]);
    TriggerIsBracketExit(f, own, s, bar);
  }

  lemma TriggeredOn(d: Desk, feeds: Feeds, own: Own, s: Symbol, p: State, n: nat, b: Book, ys: seq<Fill>)
    requires Mid(d, p) && s in feeds && n < |feeds[s]| && AllToldOn(d, feeds, own, p.trades)
    requires HasLife(d, feeds, own, s, p, n, n)
    requires (b, ys) == Trigger(d.fees, p.book, s, feeds[s][n])
    ensures var q := TakeFills(d, p.(book := b), s, ys);
            q.pending == p.pending && AllToldOn(d, feeds, own, q.trades) && HasLife(d, feeds, own, s, q, n, n + 1)
  {
    if s in p.open {
      var k: Life :| k.at < n && LivingOn(d, feeds, own, s, p.open[s], p.book, k, n);
      TriggerOn(d, feeds, own, s, p, n, b, ys, k);
    }
  }

  lemma LifeElsewhere(d: Desk, feeds: Feeds, own: Own, s: Symbol, p: State, q: State, before: int, n: nat)
    requires HasLife(d, feeds, own, s, p, before, n) && Lookup(q.open, s) == Lookup(p.open, s)
    requires Lookup(q.book.brackets, s) == Lookup(p.book.brackets, s)
    ensures HasLife(d, feeds, own, s, q, before, n)
  {
    if s in p.open {
      var k: Life :| k.at < before && LivingOn(d, feeds, own, s, p.open[s], p.book, k, n);
      assert LivingOn(d, feeds, own, s, q.open[s], q.book, k, n);
    }
  }

  /** A bar is fed in two steps: the waiting orders, then the bracket. */
  lemma FeedSplits(d: Desk, p: State, s: Symbol, bar: Bar, b1: Book, xs: seq<Fill>, b2: Book, b3: Book, ys: seq<Fill>)
    requires (b1, xs) == FillAll(d.fees, p.book, p.book.pending, s, bar)
    requires b2 == b1.(pending := Others(p.book.pending, s)) && (b3, ys) == Trigger(d.fees, b2, s, bar)
    ensures FeedSymbol(d, p, s, bar)
         == TakeFills(d, TakeFills(d, p.(book := b2), s, xs).(book := b3), s, ys).(book := Marked(b3, s, bar.close))
  {
    var b4 := Marked(b3, s, bar.close);
    assert BarOf(d.fees, p.book, s, bar) == (b4, xs + ys);
    TriggerBook(d.fees, b2, s, bar);
    FillsIgnoreBook(d, p, s, xs, b2);
    FillsIgnoreBook(d, p, s, xs + ys, b4);
    FillsConcat(d, p, s, xs, ys);
    FillsIgnoreBook(d, TakeFills(d, p, s, xs), s, ys, b3);
  }

  lemma WaitingMoved(d: Desk, feeds: Feeds, own: Own, s: Symbol, p: State, n: nat, b1: Book, xs: seq<Fill>, b2: Book)
    requires Mid(d, p) && s in feeds && n < |feeds[s]| && StoryOn(d, feeds, own, s, p, n)
    requires (b1, xs) == FillAll(d.fees, p.book, p.book.pending, s, feeds[s][n])
    requires b2 == b1.(pending := Others(p.book.pending, s))
    ensures var q := TakeFills(d, p.(book := b2), s, xs);
            Mid(d, q) && s !in q.pending && q.trades == p.trades && q.book == b2 && HasLife(d, feeds, own, s, q, n, n)
  {
    WaitingOn(d, feeds, own, s, p, n, b1, xs);
    WaitingKeeps(d, p, s, feeds[s][n]);
    FillsIgnoreBook(d, p, s, xs, b1);
    FillsIgnoreBook(d, p, s, xs, b2);
    LifeElsewhere(d, feeds, own, s, TakeFills(d, p.(book := b1), s, xs), TakeFills(d, p.(book := b2), s, xs), n, n);
  }

  lemma OwnFeedStory(d: Desk, feeds: Feeds, own: Own, s: Symbol, p: State, n: nat)
    requires Mid(d, p) && s in feeds && n < |feeds[s]| && AllToldOn(d, feeds, own, p.trades)
    requires StoryOn(d, feeds, own, s, p, n)
    ensures var q := FeedSymbol(d, p, s, feeds[s][n]);
            s !in q.pending && AllToldOn(d, feeds, own, q.trades) && HasLife(d, feeds, own, s, q, n, n + 1)
  {
    var bar := feeds[s][n];
    var (b1, xs) := FillAll(d.fees, p.book, p.book.pending, s, bar);
    var b2 := b1.(pending := Others(p.book.pending, s));
    var (b3, ys) := Trigger(d.fees, b2, s, bar);
    FeedSplits(d, p, s, bar, b1, xs, b2, b3, ys);
    WaitingMoved(d, feeds, own, s, p, n, b1, xs, b2);
    var q1 := TakeFills(d, p.(book := b2), s, xs);
    TriggeredOn(d, feeds, own, s, q1, n, b3, ys);
    var q2 := TakeFills(d, q1.(book := b3), s, ys);
    FillsIgnoreBook(d, q1, s, ys, b3);
    LifeElsewhere(d, feeds, own, s, q2, q2.(book := Marked(b3, s, bar.close)), n, n + 1);
  }

  // ---- a visit

  /** Nothing of t has changed. */
  ghost predicate Unmoved(p: State, q: State, t: Symbol) {
    && Lookup(q.pending, t) == Lookup(p.pending, t) && Lookup(q.open, t) == Lookup(p.open, t)
    && Lookup(q.book.brackets, t) == Lookup(p.book.brackets, t)
  }

  lemma {:induction false} FillAllLeavesBrackets(f: Fees, b: Book, orders: seq<Order>, s: Symbol, bar: Bar, t: Symbol)
    requires t != s
    ensures Lookup(FillAll(f, b, orders, s, bar).0.brackets, t) == Lookup(b.brackets, t)
    decreases |orders|
  {
    if orders != [] {
      var n := |orders| - 1;
      FillAllLeavesBrackets(f, b, orders[..n], s, bar, t);
      EntryArmsBracket(f, FillAll(f, b, orders[..n], s, bar).0, orders[n], bar);
    }
  }

  lemma BarLeavesBrackets(f: Fees, b: Book, s: Symbol, bar: Bar, t: Symbol)
    requires t != s
    ensures Lookup(BarOf(f, b, s, bar).0.brackets, t) == Lookup(b.brackets, t)
  {
    FillAllLeavesBrackets(f, b, b.pending, s, bar, t);
  }

  lemma {:induction false} FillsMoveOwn(d: Desk, p: State, s: Symbol, xs: seq<Fill>, t: Symbol)
    requires t != s
    ensures Unmoved(p, TakeFills(d, p, s, xs), t)
  {
    if xs != [] { FillsMoveOwn(d, p, s, xs[..|xs| - 1], t); }
  }

  lemma FeedMovesOwn(d: Desk, p: State, s: Symbol, bar: Bar, t: Symbol)
    requires t != s
    ensures Unmoved(p, FeedSymbol(d, p, s, bar), t)
  {
    var (book, xs) := BarOf(d.fees, p.book, s, bar);
    BarLeavesBrackets(d.fees, p.book, s, bar, t);
    FillsMoveOwn(d, p.(book := book), s, xs, t);
  }

  lemma DecisionMovesOwn(d: Desk, p: State, s: Symbol, signal: Option<Signal>, time: int, t: Symbol)
    requires t != s
    ensures Unmoved(p, Snapshot(Decide(d, p, s, signal, time), time), t)
  {
  }

  lemma VisitMovesOwn(d: Desk, p: State, s: Symbol, bar: Bar, t: Symbol)
    requires t != s
    ensures Unmoved(p, Visit(d, p, s, bar), t)
  {
    var r := Remember(d, Clock(p, bar.timestamp), s, bar);
    var f := FeedSymbol(d, r, s, bar);
    FeedMovesOwn(d, r, s, bar, t);
    DecisionMovesOwn(d, f, s, Ask(d, s, HistoryOf(f, s)), bar.timestamp, t);
  }

  lemma StoryElsewhere(d: Desk, feeds: Feeds, own: Own, t: Symbol, p: State, q: State, n: nat)
    requires StoryOn(d, feeds, own, t, p, n) && Unmoved(p, q, t)
    ensures StoryOn(d, feeds, own, t, q, n)
  {
    LifeElsewhere(d, feeds, own, t, p, q, n - 1, n);
    assert t in q.pending ==> Lookup(q.pending, t).value == Lookup(p.pending, t).value;
  }

  lemma AnswerIsPlanned(d: Desk, feeds: Feeds, own: Own, s: Symbol, n: nat, signal: Signal, qty: real)
    requires IsOwn(own, d)
    requires s in feeds && n < |feeds[s]| && Ask(d, s, feeds[s][..n + 1]) == Some(signal) && !signal.kind.Flat?
    requires signal.stopLoss != 0.0 && qty > 0.0
    ensures Stories.PlannedOn(own(s), feeds[s], n, PlanFor(s, signal, feeds[s][n].timestamp, qty))
  {
  }

  lemma DecisionStory(d: Desk, feeds: Feeds, own: Own, s: Symbol, p: State, n: nat)
    requires IsOwn(own, d)
    requires s in feeds && n < |feeds[s]| && p.risk.day.Some? && HistoryOf(p, s) == feeds[s][..n + 1]
    requires s !in p.pending && HasLife(d, feeds, own, s, p, n, n + 1)
    ensures var time := feeds[s][n].timestamp;
            var q := Snapshot(Decide(d, p, s, Ask(d, s, HistoryOf(p, s)), time), time);
            StoryOn(d, feeds, own, s, q, n + 1) && q.trades == p.trades
  {
    var signal, time := Ask(d, s, HistoryOf(p, s)), feeds[s][n].timestamp;
    var q := Snapshot(Decide(d, p, s, signal, time), time);
    LifeElsewhere(d, feeds, own, s, p, q, n, n + 1);
    if s in q.pending {
      PortfolioRuns.AnchorIsSet(p, time);
      var v := Judge(d.risk, p.risk, signal.value, Engine.AccountOf(p.book));
      Stories.ApprovedHasStop(d.risk, p.risk, signal.value, Engine.AccountOf(p.book));
      AnswerIsPlanned(d, feeds, own, s, n, signal.value, v.qty);
    }
  }

  /** Bar n of s is remembered but not yet traded. */
  ghost predicate Shown(d: Desk, feeds: Feeds, own: Own, s: Symbol, p: State, n: nat) {
    && Mid(d, p) && s in feeds && n < |feeds[s]| && HistoryOf(p, s) == feeds[s][..n + 1]
    && AllToldOn(d, feeds, own, p.trades) && StoryOn(d, feeds, own, s, p, n)
  }

  /** Bar n of s is traded but not yet decided on. */
  ghost predicate Fed(d: Desk, feeds: Feeds, own: Own, s: Symbol, p: State, n: nat) {
    && p.risk.day.Some? && s in feeds && n < |feeds[s]| && HistoryOf(p, s) == feeds[s][..n + 1]
    && AllToldOn(d, feeds, own, p.trades) && s !in p.pending && HasLife(d, feeds, own, s, p, n, n + 1)
  }

  lemma RememberMovesNothing(d: Desk, p: State, s: Symbol, bar: Bar)
    ensures var r := Remember(d, Clock(p, bar.timestamp), s, bar);
            Unmoved(p, r, s) && r.trades == p.trades && HistoryOf(r, s) == HistoryOf(p, s) + [bar]
  {
  }

  lemma RememberIsMid(d: Desk, p: State, s: Symbol, bar: Bar)
    requires DeskOk(d, p)
    ensures Mid(d, Remember(d, Clock(p, bar.timestamp), s, bar))
  {
    PortfolioRuns.ClockKeeps(d, p, bar.timestamp);
    PortfolioRuns.RememberKeeps(d, Clock(p, bar.timestamp), s, bar);
  }

  lemma VisitShows(d: Desk, feeds: Feeds, own: Own, s: Symbol, p: State, n: nat, r: State)
    requires DeskOk(d, p) && s in feeds && n < |feeds[s]| && HistoryOf(p, s) == feeds[s][..n]
    requires AllToldOn(d, feeds, own, p.trades) && StoryOn(d, feeds, own, s, p, n)
    requires r == Remember(d, Clock(p, feeds[s][n].timestamp), s, feeds[s][n])
    ensures Shown(d, feeds, own, s, r, n)
  {
    RememberIsMid(d, p, s, feeds[s][n]);
    RememberMovesNothing(d, p, s, feeds[s][n]);
    StoryElsewhere(d, feeds, own, s, p, r, n);
  }

  lemma VisitFeeds(d: Desk, feeds: Feeds, own: Own, s: Symbol, p: State, n: nat)
    requires Shown(d, feeds, own, s, p, n)
    ensures Fed(d, feeds, own, s, FeedSymbol(d, p, s, feeds[s][n]), n)
  {
    OwnFeedStory(d, feeds, own, s, p, n);
    FeedLeavesMemory(d, p, s, feeds[s][n]);
    FeedKeeps(d, p, s, feeds[s][n]);
  }

  /** A visit of bar n of s moves the story of s on by one bar. */
  lemma OwnVisitStory(d: Desk, feeds: Feeds, own: Own, s: Symbol, p: State, n: nat)
    requires IsOwn(own, d)
    requires DeskOk(d, p) && s in feeds && n < |feeds[s]| && HistoryOf(p, s) == feeds[s][..n]
    requires AllToldOn(d, feeds, own, p.trades) && StoryOn(d, feeds, own, s, p, n)
    ensures var q := Visit(d, p, s, feeds[s][n]);
            AllToldOn(d, feeds, own, q.trades) && StoryOn(d, feeds, own, s, q, n + 1)
  {
    var bar := feeds[s][n];
    var r := Remember(d, Clock(p, bar.timestamp), s, bar);
    VisitShows(d, feeds, own, s, p, n, r);
    VisitFeeds(d, feeds, own, s, r, n);
    DecisionStory(d, feeds, own, s, FeedSymbol(d, r, s, bar), n);
  }

  // ---- whole runs

  /** After the visits made so far: the desk's books are in order, every trade is told, and every symbol's story has
      come as far as its bars. */
  ghost predicate DeskStory(d: Desk, feeds: Feeds, own: Own, p: State) {
    && DeskOk(d, p) && AllToldOn(d, feeds, own, p.trades) && p.pending.Keys + p.open.Keys <= feeds.Keys
    && StoriesOn(d, feeds, own, p)
  }

  /** Every other symbol's story stays where it was. */
  lemma OtherStory(d: Desk, feeds: Feeds, own: Own, p: State, s: Symbol, bar: Bar, t: Symbol)
    requires t != s && StoryOn(d, feeds, own, t, p, |HistoryOf(p, t)|)
    ensures var q := Visit(d, p, s, bar); StoryOn(d, feeds, own, t, q, |HistoryOf(q, t)|)
  {
    VisitMeasuresOwn(d, p, s, bar);
    VisitMovesOwn(d, p, s, bar, t);
    StoryElsewhere(d, feeds, own, t, p, Visit(d, p, s, bar), |HistoryOf(p, t)|);
  }

  lemma NoOtherKeys(d: Desk, feeds: Feeds, own: Own, p: State, s: Symbol, bar: Bar)
    requires s in feeds && p.pending.Keys + p.open.Keys <= feeds.Keys
    ensures var q := Visit(d, p, s, bar); q.pending.Keys + q.open.Keys <= feeds.Keys
  {
    var q := Visit(d, p, s, bar);
    forall t | t in q.pending.Keys + q.open.Keys ensures t in feeds {
      if t != s { MovedKeys(d, p, s, bar, t); }
    }
  }

  lemma MovedKeys(d: Desk, p: State, s: Symbol, bar: Bar, t: Symbol)
    requires t != s
    ensures var q := Visit(d, p, s, bar); (t in q.pending <==> t in p.pending) && (t in q.open <==> t in p.open)
  {
    VisitMovesOwn(d, p, s, bar, t);
  }

  ghost predicate StoriesOn(d: Desk, feeds: Feeds, own: Own, p: State) {
    forall s :: s in feeds ==> StoryOn(d, feeds, own, s, p, |HistoryOf(p, s)|)
  }

  lemma AllStories(d: Desk, feeds: Feeds, own: Own, p: State, s: Symbol, n: nat)
    requires IsOwn(own, d)
    requires DeskStory(d, feeds, own, p) && s in feeds && n < |feeds[s]| && HistoryOf(p, s) == feeds[s][..n]
    ensures var q := Visit(d, p, s, feeds[s][n]); StoriesOn(d, feeds, own, q) && AllToldOn(d, feeds, own, q.trades)
  {
    var q := Visit(d, p, s, feeds[s][n]);
    OwnVisitStory(d, feeds, own, s, p, n);
    VisitMeasuresOwn(d, p, s, feeds[s][n]);
    forall t | t in feeds ensures StoryOn(d, feeds, own, t, q, |HistoryOf(q, t)|) {
      if t != s { OtherStory(d, feeds, own, p, s, feeds[s][n], t); }
    }
  }

  lemma VisitStory(d: Desk, feeds: Feeds, own: Own, p: State, s: Symbol, n: nat)
    requires IsOwn(own, d)
    requires DeskStory(d, feeds, own, p) && s in feeds && n < |feeds[s]| && HistoryOf(p, s) == feeds[s][..n]
    ensures DeskStory(d, feeds, own, Visit(d, p, s, feeds[s][n]))
  {
    PortfolioRuns.VisitKeeps(d, p, s, feeds[s][n]);
    AllStories(d, feeds, own, p, s, n);
    NoOtherKeys(d, feeds, own, p, s, feeds[s][n]);
  }

  lemma ShownSnoc(feeds: Feeds, visits: seq<Key>, n: nat)
    requires n < |visits|
    ensures var k := visits[n];
            ShownOf(feeds, visits[..n + 1], k.symbol) == ShownOf(feeds, visits[..n], k.symbol) + [BarAt(feeds, k)]
  {
    assert visits[..n + 1][..n] == visits[..n];
  }

  /** The first n visits have been made. */
  ghost predicate StoryAfter(d: Desk, feeds: Feeds, own: Own, visits: seq<Key>, p: State, n: nat) {
    match n <= |visits|
    case false => false
    case true => DeskStory(d, feeds, own, p) && forall s :: HistoryOf(p, s) == ShownOf(feeds, visits[..n], s)
  }

  /** Visit number n is of the next bar of its symbol. */
  lemma NextVisit(feeds: Feeds, n: nat)
    requires n < |VisitOrder(feeds, Beginning(feeds))|
    ensures var visits := VisitOrder(feeds, Beginning(feeds));
            var k := visits[n];
            && k.symbol in feeds && k.index < |feeds[k.symbol]| && BarAt(feeds, k) == feeds[k.symbol][k.index]
            && ShownOf(feeds, visits[..n], k.symbol) == feeds[k.symbol][..k.index]
  {
    var visits := VisitOrder(feeds, Beginning(feeds));
    var k := visits[n];
    VisitShowsPrefix(feeds, n);
    ShownSnoc(feeds, visits, n);
    var before, bars := ShownOf(feeds, visits[..n], k.symbol), feeds[k.symbol];
    assert before == (before + [BarAt(feeds, k)])[..|before|];
    assert bars[..k.index + 1][..k.index] == bars[..k.index];
  }

  lemma HistoryNext(d: Desk, feeds: Feeds, own: Own, visits: seq<Key>, p: State, n: nat, s: Symbol)
    requires n < |visits| && forall t :: HistoryOf(p, t) == ShownOf(feeds, visits[..n], t)
    ensures HistoryOf(Visit(d, p, visits[n].symbol, BarAt(feeds, visits[n])), s) == ShownOf(feeds, visits[..n + 1], s)
  {
    assert visits[..n + 1][..n] == visits[..n];
    VisitMeasuresOwn(d, p, visits[n].symbol, BarAt(feeds, visits[n]));
  }

  lemma StoryNext(d: Desk, feeds: Feeds, own: Own, f: (State, Key) -> State, p: State, n: nat)
    requires IsOwn(own, d)
    requires var visits := VisitOrder(feeds, Beginning(feeds)); n < |visits| && StoryAfter(d, feeds, own, visits, p, n)
    requires IsVisit(f, d, feeds)
    ensures var visits := VisitOrder(feeds, Beginning(feeds)); StoryAfter(d, feeds, own, visits, f(p, visits[n]), n + 1)
  {
    var visits := VisitOrder(feeds, Beginning(feeds));
    var k := visits[n];
    NextVisit(feeds, n);
    VisitStory(d, feeds, own, p, k.symbol, k.index);
    forall s ensures HistoryOf(f(p, k), s) == ShownOf(feeds, visits[..n + 1], s) {
      HistoryNext(d, feeds, own, visits, p, n, s);
    }
    assert f(p, k) == Visit(d, p, k.symbol, BarAt(feeds, k));
  }

  lemma DeskStories(d: Desk, feeds: Feeds, own: Own, f: (State, Key) -> State, p: State, visits: seq<Key>)
    requires IsOwn(own, d)
    requires visits == VisitOrder(feeds, Beginning(feeds)) && IsVisit(f, d, feeds)
    requires StoryAfter(d, feeds, own, visits, p, 0)
    ensures StoryAfter(d, feeds, own, visits, Fold(f, p, visits), |visits|)
  {
    ghost var inv := (q: State, i: nat) => StoryAfter(d, feeds, own, visits, q, i);
    forall i: nat, q | i < |visits| && inv(q, i) ensures inv(f(q, visits[i]), i + 1) {
      StoryNext(d, feeds, own, f, q, i);
    }
    FoldCounts(f, p, visits, |visits|, inv);
    assert visits[..|visits|] == visits;
  }

  lemma DeskBegins(d: Desk, feeds: Feeds, own: Own, visits: seq<Key>)
    ensures StoryAfter(d, feeds, own, visits, Portfolio.Initial(d), 0)
  {
    assert Values(map[], map[]) == map[];
    assert Costs(map[]) == map[];
  }

  // ---- the end

  lemma NoHeadsNoMore(feeds: Feeds, cursors: Cursors, s: Symbol)
    requires Ready(feeds, cursors) && Heads(feeds, cursors) == {} && s in feeds
    ensures cursors[s] == |feeds[s]|
  {
    if cursors[s] < |feeds[s]| { HeadOf(feeds, cursors, s); }
  }

  lemma HeadOf(feeds: Feeds, cursors: Cursors, s: Symbol)
    requires Ready(feeds, cursors) && s in feeds && cursors[s] < |feeds[s]|
    ensures KeyAt(feeds, s, cursors[s]) in Heads(feeds, cursors)
  {
  }

  lemma VisitsSplit(feeds: Feeds, done: seq<Key>, cursors: Cursors, k: Key)
    requires Ready(feeds, cursors) && Heads(feeds, cursors) != {} && k == MinOf(Heads(feeds, cursors))
    ensures done + VisitOrder(feeds, cursors) == done + [k] + VisitOrder(feeds, Advance(feeds, cursors, k))
  {
    var rest := VisitOrder(feeds, Advance(feeds, cursors, k));
    assert done + ([k] + rest) == done + [k] + rest;
  }

  lemma {:induction false} AllShown(feeds: Feeds, done: seq<Key>, cursors: Cursors, s: Symbol)
    requires ShownUpTo(feeds, done, cursors) && s in feeds
    ensures ShownOf(feeds, done + VisitOrder(feeds, cursors), s) == feeds[s]
    decreases |Rest(feeds, cursors)|
  {
    if Heads(feeds, cursors) == {} {
      assert done + [] == done;
      NoHeadsNoMore(feeds, cursors, s);
    } else {
      var k := MinOf(Heads(feeds, cursors));
      AdvanceTakesOne(feeds, cursors, k);
      ShownNext(feeds, done, cursors, k);
      AllShown(feeds, done + [k], Advance(feeds, cursors, k), s);
      VisitsSplit(feeds, done, cursors, k);
    }
  }

  /** What is open has lived through all bars of its symbol. */
  ghost predicate LivedThrough(d: Desk, feeds: Feeds, own: Own, p: State) {
    forall s :: s in p.open ==> s in feeds && HasLife(d, feeds, own, s, p, |feeds[s]| - 1, |feeds[s]|)
  }

  /** Before the forced close of any symbol. */
  ghost predicate Finishing(d: Desk, feeds: Feeds, own: Own, p: State) {
    match p.risk.day
    case None => false
    case Some(_) => DeskOk(d, p) && LivedThrough(d, feeds, own, p) && AllToldOn(d, feeds, own, p.trades)
  }

  /** The fill closes the trade of s at the close of the last bar. */
  ghost predicate IsClosing(d: Desk, p: State, s: Symbol, last: Bar, trades: seq<Trade>, x: Fill) {
    s in p.open &&
    var o := p.open[s];
    && FilledAt(d.fees, x, s, o.side.Opposite(), o.qty, last.close, last.timestamp)
    && trades == p.trades + [Ledger.TradeOn(o, Ledger.EntryRisk(o), x, false)]
  }

  ghost predicate HasClosing(d: Desk, p: State, s: Symbol, last: Bar, trades: seq<Trade>) {
    match Lookup(p.open, s)
    case None => false
    case Some(_) => exists x :: IsClosing(d, p, s, last, trades, x)
  }

  /** The forced close fills the whole position at the given price. */
  lemma ClosingFill(d: Desk, p: State, s: Symbol, bars: seq<Bar>, last: Bar, trades: seq<Trade>)
    requires DeskOk(d, p) && s in p.open && bars != [] && last == bars[|bars| - 1]
    requires trades == CloseSymbol(d, p, s, bars).trades
    ensures HasClosing(d, p, s, last, trades)
  {
    var o, qty := p.open[s], p.book.positions[s].qty;
    var bar := Engine.FlatBar(last.timestamp, last.close);
    Books.CloseSideOf(o.side, o.qty);
    var order := Types.Order(s, ExitSide(qty), Abs(qty), 0.0, 0.0);
    var waiting := p.book.(pending := p.book.pending + [order]);
    forall w | w in p.book.pending ensures w.symbol != s { assert w.symbol in p.pending; }
    ClosingBar(d.fees, p.book, order, bar);
    FillIsAtOpen(d.fees, p.book, order, bar);
    var x := FillOrder(d.fees, p.book, order, bar).1;
    OneFill(d, p.(book := Marked(Execute(p.book, x), s, last.close)), s, x);
    assert IsClosing(d, p, s, last, trades, x);
  }

  /** The fill that closes the trade of s ends its life. */
  lemma CloseEnds(d: Desk, feeds: Feeds, own: Own, p: State, s: Symbol, trades: seq<Trade>, x: Fill)
    requires s in p.open && s in feeds && feeds[s] != [] && HasLife(d, feeds, own, s, p, |feeds[s]| - 1, |feeds[s]|)
    requires IsClosing(d, p, s, feeds[s][|feeds[s]| - 1], trades, x)
    ensures AllToldOn(d, feeds, own, p.trades) ==> AllToldOn(d, feeds, own, trades)
  {
    var n, o := |feeds[s]|, p.open[s];
    var k: Life :| k.at < n - 1 && LivingOn(d, feeds, own, s, o, p.book, k, n);
    LastClose(d, feeds, own, s, o, p.book, k, x);
    var t := Ledger.TradeOn(o, Ledger.EntryRisk(o), x, false);
    if AllToldOn(d, feeds, own, p.trades) { ToldNextOn(d, feeds, own, p.trades, t, k, n - 1); }
  }

  lemma LastClose(d: Desk, feeds: Feeds, own: Own, s: Symbol, o: OpenTrade, b: Book, k: Life, x: Fill)
    requires s in feeds && k.at < |feeds[s]| - 1 && LivingOn(d, feeds, own, s, o, b, k, |feeds[s]|)
    requires var last := feeds[s][|feeds[s]| - 1];
             FilledAt(d.fees, x, s, o.side.Opposite(), o.qty, last.close, last.timestamp)
    ensures ToldOn(d, feeds, own, Ledger.TradeOn(o, Ledger.EntryRisk(o), x, false), k, |feeds[s]| - 1)
  {
    var m := |feeds[s]| - 1;
    assert !Stories.StoppedOn(k, feeds[s], m) && !Stories.TargetOn(k, feeds[s], m);
    assert LivingOn(d, feeds, own, s, o, b, k, m);
    ExitIsTold(d, feeds, own, s, o, b, k, m, x, feeds[s][m].close);
  }

  lemma CloseMovesOwn(d: Desk, p: State, s: Symbol, bars: seq<Bar>, t: Symbol)
    requires t != s
    ensures Unmoved(p, CloseSymbol(d, p, s, bars), t)
  {
    if bars != [] && s in p.open && s in p.book.positions {
      var qty, last := p.book.positions[s].qty, bars[|bars| - 1];
      var order := Types.Order(s, ExitSide(qty), Abs(qty), 0.0, 0.0);
      var waiting := p.(book := Serve(d.fees, p.book, Submit(order)));
      FeedMovesOwn(d, waiting, s, Engine.FlatBar(last.timestamp, last.close), t);
    }
  }

  /** What closing the position of s does. */
  ghost predicate CloseStep(d: Desk, p: State, s: Symbol, last: Bar, q: State) {
    match q.risk.day
    case None => false
    case Some(_) =>
      && DeskOk(d, q) && s !in q.open && q.open.Keys <= p.open.Keys
      && (q.trades == p.trades || HasClosing(d, p, s, last, q.trades))
      && forall t :: t != s ==> Unmoved(p, q, t)
  }

  lemma CloseIsStep(d: Desk, p: State, s: Symbol, bars: seq<Bar>)
    requires DeskOk(d, p) && p.risk.day.Some? && bars != []
    ensures CloseStep(d, p, s, bars[|bars| - 1], CloseSymbol(d, p, s, bars))
  {
    CloseSymbolKeeps(d, p, s, bars);
    if s in p.open { ClosingFill(d, p, s, bars, bars[|bars| - 1], CloseSymbol(d, p, s, bars).trades); }
    forall t | t != s { CloseMovesOwn(d, p, s, bars, t); }
  }

  lemma StepTells(d: Desk, feeds: Feeds, own: Own, p: State, s: Symbol, last: Bar, trades: seq<Trade>)
    requires s in p.open && s in feeds && feeds[s] != [] && last == feeds[s][|feeds[s]| - 1]
    requires HasLife(d, feeds, own, s, p, |feeds[s]| - 1, |feeds[s]|) && AllToldOn(d, feeds, own, p.trades)
    requires HasClosing(d, p, s, last, trades)
    ensures AllToldOn(d, feeds, own, trades)
  {
    var x :| IsClosing(d, p, s, last, trades, x);
    CloseEnds(d, feeds, own, p, s, trades, x);
  }

  lemma StepLeavesLives(d: Desk, feeds: Feeds, own: Own, p: State, s: Symbol, last: Bar, q: State)
    requires LivedThrough(d, feeds, own, p) && CloseStep(d, p, s, last, q)
    ensures LivedThrough(d, feeds, own, q)
  {
    forall t | t in q.open ensures t in feeds && HasLife(d, feeds, own, t, q, |feeds[t]| - 1, |feeds[t]|) {
      assert t in p.open && Unmoved(p, q, t);
      LifeElsewhere(d, feeds, own, t, p, q, |feeds[t]| - 1, |feeds[t]|);
    }
  }

  lemma StepFinishes(d: Desk, feeds: Feeds, own: Own, p: State, s: Symbol, last: Bar, q: State)
    requires Finishing(d, feeds, own, p) && s in feeds && feeds[s] != [] && last == feeds[s][|feeds[s]| - 1]
    requires CloseStep(d, p, s, last, q)
    ensures Finishing(d, feeds, own, q)
  {
    StepLeavesLives(d, feeds, own, p, s, last, q);
    if q.trades != p.trades { StepTells(d, feeds, own, p, s, last, q.trades); }
  }

  lemma CloseKeepsFinishing(d: Desk, feeds: Feeds, own: Own, p: State, s: Symbol)
    requires Finishing(d, feeds, own, p) && s in feeds
    ensures Finishing(d, feeds, own, CloseSymbol(d, p, s, feeds[s]))
  {
    if feeds[s] != [] {
      CloseIsStep(d, p, s, feeds[s]);
      StepFinishes(d, feeds, own, p, s, feeds[s][|feeds[s]| - 1], CloseSymbol(d, p, s, feeds[s]));
    }
  }

  lemma {:induction false} CloseAllTold(d: Desk, feeds: Feeds, own: Own, p: State, symbols: seq<Symbol>)
    requires Finishing(d, feeds, own, p)
    ensures Finishing(d, feeds, own, CloseAll(d, p, feeds, symbols))
  {
    if symbols != [] {
      var n := |symbols| - 1;
      CloseAllTold(d, feeds, own, p, symbols[..n]);
      if symbols[n] in feeds {
        var s := symbols[n];
        CloseKeepsFinishing(d, feeds, own, CloseAll(d, p, feeds, symbols[..n]), s);
      }
    }
  }

  lemma LivedThroughAll(d: Desk, feeds: Feeds, own: Own, p: State, s: Symbol)
    requires StoryOn(d, feeds, own, s, p, |HistoryOf(p, s)|) && s in feeds && HistoryOf(p, s) == feeds[s]
    ensures HasLife(d, feeds, own, s, p, |feeds[s]| - 1, |feeds[s]|)
  {
  }

  lemma AllVisited(feeds: Feeds, visits: seq<Key>, s: Symbol)
    requires visits == VisitOrder(feeds, Beginning(feeds)) && s in feeds
    ensures ShownOf(feeds, visits[..|visits|], s) == feeds[s]
  {
    assert visits[..|visits|] == visits && [] + visits == visits;
    AllShown(feeds, [], Beginning(feeds), s);
  }

  lemma StoryOfEach(d: Desk, feeds: Feeds, own: Own, visits: seq<Key>, p: State, n: nat, s: Symbol)
    requires StoryAfter(d, feeds, own, visits, p, n) && s in p.open
    ensures s in feeds && StoryOn(d, feeds, own, s, p, |HistoryOf(p, s)|)
    ensures HistoryOf(p, s) == ShownOf(feeds, visits[..n], s)
  {
    assert s in p.pending.Keys + p.open.Keys;
  }

  lemma BooksOfStory(d: Desk, feeds: Feeds, own: Own, visits: seq<Key>, p: State, n: nat)
    requires StoryAfter(d, feeds, own, visits, p, n)
    ensures DeskOk(d, p) && AllToldOn(d, feeds, own, p.trades)
  {
  }

  lemma OneLivedThrough(d: Desk, feeds: Feeds, own: Own, visits: seq<Key>, p: State, n: nat, s: Symbol)
    requires visits == VisitOrder(feeds, Beginning(feeds)) && n == |visits| && StoryAfter(d, feeds, own, visits, p, n)
    requires s in p.open
    ensures s in feeds && HasLife(d, feeds, own, s, p, |feeds[s]| - 1, |feeds[s]|)
  {
    StoryOfEach(d, feeds, own, visits, p, n, s);
    AllVisited(feeds, visits, s);
    LivedThroughAll(d, feeds, own, p, s);
  }

  lemma AllLivedThrough(d: Desk, feeds: Feeds, own: Own, visits: seq<Key>, p: State, n: nat)
    requires visits == VisitOrder(feeds, Beginning(feeds)) && n == |visits| && StoryAfter(d, feeds, own, visits, p, n)
    ensures LivedThrough(d, feeds, own, p)
  {
    forall s | s in p.open { OneLivedThrough(d, feeds, own, visits, p, n, s); }
  }

  lemma ReadyToFinish(d: Desk, feeds: Feeds, own: Own, visits: seq<Key>, p: State, n: nat)
    requires visits == VisitOrder(feeds, Beginning(feeds)) && n == |visits| && StoryAfter(d, feeds, own, visits, p, n)
    ensures if p.risk.day.Some? then Finishing(d, feeds, own, p) else p.open == map[] && p.trades == []
  {
    BooksOfStory(d, feeds, own, visits, p, n);
    AllLivedThrough(d, feeds, own, visits, p, n);
  }

  /** Every trade of every portfolio run has, on its own symbol's bars, the story of a single-symbol trade without
      management: planned from its own strategy's answer to its own bars so far, entered at the symbol's next open,
      closed on the first bar that reaches a level or else at the symbol's own last close. */
  lemma EveryPortfolioTradeHasItsStory(d: Desk, feeds: Feeds, own: Own)
    requires IsOwn(own, d)
    ensures AllToldOn(d, feeds, own, RunAll(d, feeds).trades)
  {
    var visits := VisitOrder(feeds, Beginning(feeds));
    var p := Fold(VisitFn(d, feeds), Portfolio.Initial(d), visits);
    DeskBegins(d, feeds, own, visits);
    DeskStories(d, feeds, own, VisitFn(d, feeds), Portfolio.Initial(d), visits);
    ReadyToFinish(d, feeds, own, visits, p, |visits|);
    if p.risk.day.Some? {
      CloseAllTold(d, feeds, own, p, d.symbols);
    } else {
      PortfolioRuns.NothingToClose(d, p, feeds, d.symbols);
    }
  }
}
