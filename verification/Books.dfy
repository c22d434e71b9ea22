/** The engine and the broker keep the same books: over every run, for every strategy. */
module Books {
  import opened Types
  import opened Folds
  import opened Risk
  import opened Paper
  import opened Ledger
  import opened Backtester

  /** What the open trade has cost so far: signed notional and the unshared entry fee. */
  function OpenCost(l: Ledger): real {
    if l.open.None? then 0.0 else
      var o := l.open.value;
      o.side.Of(o.qty) * o.entryPrice + o.entryFee
  }

  /** The broker holds exactly the open trade and waits for exactly the pending one, and its cash is the starting
      cash plus every booked result less the cost of the open trade. */
  ghost predicate Sync(c: Config, l: Ledger, b: Book) {
    && b.positions.Keys <= {c.symbol}
    && (l.open.Some? <==> c.symbol in b.positions)
    && (l.open.Some? ==> b.positions[c.symbol].qty == l.open.value.side.Of(l.open.value.qty))
    && b.pending == (if l.pending.Some? then [OrderOf(l.pending.value)] else [])
    && b.cash == c.startingCash + SumOf(Pnl(), l.trades) - OpenCost(l)
  }

  /** What the sizing basis starts from. */
  function Base(c: Config): real { OrElse(c.risk.startingEquity, c.startingCash) }

  /** The sizing basis has heard of trades closed in full and of nothing else. */
  ghost predicate BasisOk(c: Config, l: Ledger, r: RiskState) {
    if r.day.None? then
      l.trades == [] && l.open.None? && r.starting == c.risk.startingEquity && r.realized == c.risk.startingEquity
    else
      r.starting == Some(Base(c)) && r.realized == Some(Base(c) + SumOf(FinalPnl(), l.trades))
  }

  ghost predicate EngineOk(c: Config, e: Engine) {
    && Sound(e.ledger) && Sync(c, e.ledger, e.book) && BasisOk(c, e.ledger, e.risk)
    && e.book.equity == Worth(e.book)
  }

  /** A long signal gains exactly when the exit is above the entry, a short one exactly when it is below. */
  lemma GainsFollowSignal(s: Signal, time: int, qty: real, x: Fill, exit: real)
    requires qty > 0.0 && !s.kind.Flat?
    ensures var o := Opened(PlanOf(s, time, qty), x);
            Gross(o.side, o.entryPrice, exit, o.qty) > 0.0 <==>
              if s.kind.Long? then exit > x.price else exit < x.price
  {
    var rise := exit - x.price;
    if rise > 0.0 { Positive(rise, qty); } else if rise < 0.0 { Positive(-rise, qty); }
    assert (x.price - exit) * qty == -(rise * qty);
  }

  // ---- single fills

  lemma EntryFills(c: Config, l: Ledger, b: Book, bar: Bar)
    requires Sync(c, l, b) && l.open.None? && l.pending.Some? && l.pending.value.symbol == c.symbol
    ensures var (d, x) := FillOrder(c.fees, b, OrderOf(l.pending.value), bar);
            x.role.Entry? && Sync(c, OnFill(l, x), d.(pending := []))
  {
  }

  lemma ExitFills(c: Config, l: Ledger, b: Book, x: Fill)
    requires Sync(c, l, b) && l.open.Some? && l.open.value.qty > 0.0 && l.pending.None?
    requires x.role.Exit? && x.symbol == c.symbol
    requires x.side == l.open.value.side.Opposite() && x.qty == l.open.value.qty
    ensures Sync(c, OnFill(l, x), Execute(b, x)) && c.symbol !in Execute(b, x).positions
  {
    var o, t := l.open.value, ClosedBy(l, x);
    SumSnoc(Pnl(), l.trades, t);
    assert b.positions[c.symbol].qty + x.side.Of(x.qty) == 0.0;
    ExitCash(o.side, o.entryPrice, x.price, o.qty);
  }

  /** Selling what was bought returns its cost plus the gross result. */
  lemma ExitCash(side: Side, entry: real, exit: real, qty: real)
    ensures -(side.Opposite().Of(qty) * exit) == side.Of(qty) * entry + Gross(side, entry, exit, qty)
  {
  }

  lemma CloseSideOf(side: Side, qty: real)
    requires qty > 0.0
    ensures ExitSide(side.Of(qty)) == side.Opposite() && Abs(side.Of(qty)) == qty
  {
  }

  lemma TriggerSync(c: Config, l: Ledger, b: Book, bar: Bar)
    requires Sound(l) && Sync(c, l, b)
    ensures var (d, ys) := Trigger(c.fees, b, c.symbol, bar);
            |ys| <= 1 && Sync(c, if ys == [] then l else OnFill(l, ys[0]), d)
  {
    if c.symbol in b.positions && c.symbol in b.brackets {
      var o, qty := l.open.value, b.positions[c.symbol].qty;
      CloseSideOf(o.side, o.qty);
      var price := Triggered(c.fees, b.brackets[c.symbol], qty, bar);
      if price.Some? {
        var order := Order(c.symbol, ExitSide(qty), Abs(qty), 0.0, 0.0);
        var x := FillOf(c.fees, order, Slipped(c.fees, price.value, order.side), bar.timestamp, Exit);
        ExitFills(c, l, b, x);
      }
    }
  }

  // ---- whole bars

  lemma TakeFillKeeps(c: Config, e: Engine, x: Fill)
    requires Sound(e.ledger) && BasisOk(c, e.ledger, e.risk) && e.risk.day.Some?
    ensures var f := TakeFill(c, e, x);
            Sound(f.ledger) && BasisOk(c, f.ledger, f.risk) && f.risk.day.Some? && f.ledger == OnFill(e.ledger, x) &&
            f == e.(ledger := f.ledger, risk := f.risk)
  {
    FillKeeps(e.ledger, x);
    if x.role.Exit? && e.ledger.open.Some? { ExitReachesBasis(c, e.ledger, e.risk, x); }
  }

  lemma ExitReachesBasis(c: Config, l: Ledger, r: RiskState, x: Fill)
    requires l.open.Some? && BasisOk(c, l, r) && r.day.Some?
    ensures BasisOk(c, OnExit(l, x), CloseUpdate(c.risk, r, ClosedBy(l, x).pnl, x.timestamp))
  {
    SumSnoc(FinalPnl(), l.trades, ClosedBy(l, x));
  }

  lemma {:induction false} TakeFillsKeeps(c: Config, e: Engine, xs: seq<Fill>)
    requires Sound(e.ledger) && BasisOk(c, e.ledger, e.risk) && e.risk.day.Some?
    ensures var f := TakeFills(c, e, xs);
            Sound(f.ledger) && BasisOk(c, f.ledger, f.risk) && f.risk.day.Some? &&
            f == e.(ledger := f.ledger, risk := f.risk)
  {
    if xs != [] {
      TakeFillsKeeps(c, e, xs[..|xs| - 1]);
      TakeFillKeeps(c, TakeFills(c, e, xs[..|xs| - 1]), xs[|xs| - 1]);
    }
  }

  function LedgerAfter(l: Ledger, xs: seq<Fill>): Ledger {
    if xs == [] then l else OnFill(LedgerAfter(l, xs[..|xs| - 1]), xs[|xs| - 1])
  }

  lemma {:induction false} TakeFillsLedger(c: Config, e: Engine, xs: seq<Fill>)
    ensures TakeFills(c, e, xs).ledger == LedgerAfter(e.ledger, xs)
  {
    if xs != [] { TakeFillsLedger(c, e, xs[..|xs| - 1]); }
  }

  lemma LedgerAfterOne(l: Ledger, xs: seq<Fill>, ys: seq<Fill>)
    requires |ys| <= 1
    ensures LedgerAfter(l, xs + ys) == if ys == [] then LedgerAfter(l, xs) else OnFill(LedgerAfter(l, xs), ys[0])
  {
    if ys == [] { assert xs + ys == xs; } else { assert (xs + ys)[..|xs + ys| - 1] == xs; }
  }

  /** One order waiting: it fills if it is on this symbol. */
  lemma OneOrder(f: Fees, b: Book, o: Order, symbol: Symbol, bar: Bar)
    ensures FillAll(f, b, [o], symbol, bar) ==
              if o.symbol != symbol then (b, []) else (FillOrder(f, b, o, bar).0, [FillOrder(f, b, o, bar).1])
    ensures Others([o], symbol) == if o.symbol == symbol then [] else [o]
  {
    assert [o][..0] == [];
    assert FillAll(f, b, [o][..0], symbol, bar) == (b, []);
    var x := FillOrder(f, b, o, bar).1;
    assert [] + [x] == [x];
  }

  /** After the waiting orders, ledger and broker agree again. */
  lemma WaitingSync(c: Config, l: Ledger, b: Book, bar: Bar)
    requires Sound(l) && Sync(c, l, b)
    ensures var (d, xs) := FillAll(c.fees, b, b.pending, c.symbol, bar);
            Sync(c, LedgerAfter(l, xs), d.(pending := Others(b.pending, c.symbol))) && Sound(LedgerAfter(l, xs))
  {
    if l.pending.Some? {
      var o := OrderOf(l.pending.value);
      OneOrder(c.fees, b, o, c.symbol, bar);
      if o.symbol == c.symbol {
        EntryFills(c, l, b, bar);
        var x := FillOrder(c.fees, b, o, bar).1;
        assert [x][..0] == [];
        assert LedgerAfter(l, [x]) == OnFill(LedgerAfter(l, []), x);
        FillKeeps(l, x);
      }
    }
  }

  lemma MarkSync(c: Config, l: Ledger, b: Book, price: real)
    requires Sync(c, l, b)
    ensures var d := Marked(b, c.symbol, price); Sync(c, l, d) && d.equity == Worth(d)
  {
  }

  lemma FeedKeeps(c: Config, e: Engine, bar: Bar)
    requires EngineOk(c, e) && e.risk.day.Some?
    ensures var f := FeedBar(c, e, bar); EngineOk(c, f) && f.risk.day.Some? && SameTape(e, f)
  {
    var (b1, xs) := FillAll(c.fees, e.book, e.book.pending, c.symbol, bar);
    var b2 := b1.(pending := Others(e.book.pending, c.symbol));
    var (b3, ys) := Trigger(c.fees, b2, c.symbol, bar);
    var book := Marked(b3, c.symbol, bar.close);
    assert BarOf(c.fees, e.book, c.symbol, bar) == (book, xs + ys);
    WaitingSync(c, e.ledger, e.book, bar);
    var l := LedgerAfter(e.ledger, xs);
    TriggerSync(c, l, b2, bar);
    LedgerAfterOne(e.ledger, xs, ys);
    MarkSync(c, LedgerAfter(e.ledger, xs + ys), b3, bar.close);
    TakeFillsLedger(c, e.(book := book), xs + ys);
    TakeFillsKeeps(c, e.(book := book), xs + ys);
  }

  /** The bars shown and the equity points recorded are the same. */
  ghost predicate SameTape(e: Engine, f: Engine) {
    f.history == e.history && f.seen == e.seen && f.curve == e.curve && f.started == e.started
      && f.startingEquity == e.startingEquity
  }

  /** Closing out leaves nothing open, and cash equal to the starting cash plus every booked result. */
  lemma CloseOutKeeps(c: Config, e: Engine, time: int, price: real)
    requires EngineOk(c, e) && e.risk.day.Some?
    ensures var f := CloseOut(c, e, time, price);
            EngineOk(c, f) && f.risk.day.Some? && SameTape(e, f) && f.ledger.open.None?
  {
    if c.symbol in e.book.positions {
      var o, qty := e.ledger.open.value, e.book.positions[c.symbol].qty;
      var order := Order(c.symbol, ExitSide(qty), Abs(qty), 0.0, 0.0);
      CloseSideOf(o.side, o.qty);
      var waiting := e.book.(pending := [order]);
      assert Serve(c.fees, e.book, Submit(order)) == waiting;
      var bar := FlatBar(time, price);
      OneOrder(c.fees, waiting, order, c.symbol, bar);
      var (b1, x) := FillOrder(c.fees, waiting, order, bar);
      assert x.role.Exit? && b1 == Execute(waiting, x);
      ExitFills(c, e.ledger, e.book, x);
      var b2 := b1.(pending := []);
      assert Sync(c, OnFill(e.ledger, x), b2);
      assert Trigger(c.fees, b2, c.symbol, bar) == (b2, []);
      var book := Marked(b2, c.symbol, price);
      assert BarOf(c.fees, waiting, c.symbol, bar) == (book, [x] + []);
      MarkSync(c, OnFill(e.ledger, x), b2, price);
      assert [x] + [] == [x] && [x][..0] == [];
      TakeFillKeeps(c, e.(book := book), x);
      assert TakeFills(c, e.(book := book), [x]) == TakeFill(c, e.(book := book), x);
    }
  }

  // ---- trade management, decisions and whole runs

  lemma Positive(x: real, y: real)
    requires x > 0.0 && y > 0.0
    ensures x * y > 0.0
  {
  }

  lemma FractionIsPositive(q: real, frac: real, part: real)
    requires q > 0.0 && 0.0 < frac && part == q * frac
    ensures 0.0 < part
  {
    Positive(q, frac);
  }

  lemma FractionIsSmaller(q: real, frac: real, part: real)
    requires q > 0.0 && frac < 1.0 && part == q * frac
    ensures part < q
  {
    Positive(q, 1.0 - frac);
    assert q * (1.0 - frac) == q - part;
  }

  lemma PartIsSmaller(c: Config, o: OpenTrade)
    requires o.qty > 0.0 && 0.0 < c.partialTpFrac < 1.0
    ensures 0.0 < PartQty(c, o) < o.qty
  {
    FractionIsPositive(o.qty, c.partialTpFrac, PartQty(c, o));
    FractionIsSmaller(o.qty, c.partialTpFrac, PartQty(c, o));
  }

  /** Reducing the open trade at the broker and in the ledger keeps the two in step. */
  lemma PartSync(c: Config, l: Ledger, b: Book, x: Fill)
    requires Sync(c, l, b) && l.open.Some? && l.pending.None? && 0.0 < x.qty < l.open.value.qty
    requires x.symbol == c.symbol && x.side == l.open.value.side.Opposite()
    ensures Sync(c, OnPartial(l, x, x.qty), Execute(b, x))
  {
    var o, held := l.open.value, b.positions[c.symbol].qty;
    var t := PartOf(l, x, x.qty);
    SumSnoc(Pnl(), l.trades, t);
    PartHeld(o.side, o.qty, x.qty);
    PartCash(o.side, o.entryPrice, x.price, o.qty, x.qty);
    assert t.pnl == Gross(o.side, o.entryPrice, x.price, x.qty) - t.what.entryFee - x.fee;
  }

  lemma PartHeld(side: Side, whole: real, qty: real)
    ensures side.Of(whole) + side.Opposite().Of(qty) == side.Of(whole - qty)
  {
  }

  lemma PartCash(side: Side, entry: real, exit: real, whole: real, qty: real)
    ensures -(side.Opposite().Of(qty) * exit) - side.Of(whole) * entry
         == Gross(side, entry, exit, qty) - side.Of(whole - qty) * entry
  {
    if side.Buy? {
      assert (exit - entry) * qty - (whole - qty) * entry == qty * exit - whole * entry;
    } else {
      assert (entry - exit) * qty + (whole - qty) * entry == whole * entry - qty * exit;
    }
  }

  /** The broker never refuses to close less than it holds. */
  lemma PartCloses(c: Config, l: Ledger, b: Book, qty: real, bar: Bar)
    requires Sound(l) && Sync(c, l, b) && l.open.Some? && 0.0 < qty < l.open.value.qty
    ensures var (d, x) := PartialOf(c.fees, b, c.symbol, qty, bar);
            x.Some? && x.value.qty == qty && Sync(c, OnPartial(l, x.value, qty), d) && d.equity == Worth(d)
  {
    var o, held := l.open.value, b.positions[c.symbol].qty;
    CloseSideOf(o.side, o.qty);
    var side := ExitSide(held);
    var x := FillOf(c.fees, Order(c.symbol, side, qty, 0.0, 0.0), Slipped(c.fees, bar.close, side),
                    bar.timestamp, PartialExit);
    PartSync(c, l, b, x);
    MarkSync(c, OnPartial(l, x, qty), Execute(b, x), bar.close);
  }

  lemma PartKeepsEngine(c: Config, e: Engine, bar: Bar, qty: real)
    requires EngineOk(c, e) && e.risk.day.Some? && e.ledger.open.Some? && RiskOf(e.ledger) > 0.0
    requires !e.ledger.partialDone && 0.0 < qty < e.ledger.open.value.qty
    ensures var (book, x) := PartialOf(c.fees, e.book, c.symbol, qty, bar);
            x.Some? &&
            var l := OnPartial(e.ledger, x.value, qty);
            EngineOk(c, e.(book := book, ledger := l)) && l.open.Some? && RiskOf(l) > 0.0
  {
    PartCloses(c, e.ledger, e.book, qty, bar);
    var x := PartialOf(c.fees, e.book, c.symbol, qty, bar).1.value;
    PartKeeps(e.ledger, x, qty);
    SumSnoc(FinalPnl(), e.ledger.trades, PartOf(e.ledger, x, qty));
  }

  lemma TakePartialKeeps(c: Config, e: Engine, bar: Bar, rNow: real)
    requires c.Valid() && EngineOk(c, e) && e.risk.day.Some? && e.ledger.open.Some? && RiskOf(e.ledger) > 0.0
    ensures var f := TakePartial(c, e, bar, rNow);
            EngineOk(c, f) && f.risk == e.risk && SameTape(e, f) && f.ledger.open.Some? && RiskOf(f.ledger) > 0.0
  {
    if c.partialTpR > 0.0 && !e.ledger.partialDone && rNow >= c.partialTpR {
      PartIsSmaller(c, e.ledger.open.value);
      PartKeepsEngine(c, e, bar, PartQty(c, e.ledger.open.value));
    }
  }

  lemma StopSync(c: Config, l: Ledger, b: Book, stop: real)
    requires Sync(c, l, b) && l.open.Some? && StopOf(b, c.symbol, stop).Some?
    ensures var d := StopOf(b, c.symbol, stop).value;
            Sync(c, OnBreakeven(l), d) && Worth(d) == Worth(b) && d.equity == b.equity
  {
  }

  lemma BreakevenKeeps(c: Config, e: Engine, rNow: real)
    requires EngineOk(c, e) && e.ledger.open.Some? && RiskOf(e.ledger) > 0.0
    ensures var f := MoveToBreakeven(c, e, rNow);
            EngineOk(c, f) && f.risk == e.risk && SameTape(e, f) && f.ledger.open.Some?
  {
    StopKeeps(e.ledger);
    var stop := e.ledger.open.value.entryPrice;
    if StopOf(e.book, c.symbol, stop).Some? { StopSync(c, e.ledger, e.book, stop); }
  }

  lemma ManageKeeps(c: Config, e: Engine, bar: Bar)
    requires c.Valid() && EngineOk(c, e) && e.risk.day.Some?
    ensures var f := Manage(c, e, bar); EngineOk(c, f) && f.risk.day.Some? && SameTape(e, f)
  {
    if e.ledger.open.Some? {
      TickKeepsEngine(c, e);
      ManageTickedKeeps(c, Ticked(e), bar);
    }
  }

  lemma ManageTickedKeeps(c: Config, e: Engine, bar: Bar)
    requires c.Valid() && EngineOk(c, e) && e.risk.day.Some? && e.ledger.open.Some?
    ensures var f := ManageTicked(c, e, bar); EngineOk(c, f) && f.risk.day.Some? && SameTape(e, f)
  {
    if RiskOf(e.ledger) > 0.0 { ManageAtKeeps(c, e, bar, RiskOf(e.ledger)); }
  }

  lemma TickKeepsEngine(c: Config, e: Engine)
    requires EngineOk(c, e) && e.ledger.open.Some?
    ensures EngineOk(c, Ticked(e))
  {
    TickKeeps(e.ledger);
  }

  lemma ManageAtKeeps(c: Config, e: Engine, bar: Bar, risk: real)
    requires c.Valid() && EngineOk(c, e) && e.risk.day.Some? && e.ledger.open.Some? && risk == RiskOf(e.ledger) > 0.0
    ensures var f := ManageAt(c, e, bar, risk); EngineOk(c, f) && f.risk.day.Some? && SameTape(e, f)
  {
    var rNow := OpenR(e.ledger.open.value, bar.close, risk);
    TakePartialKeeps(c, e, bar, rNow);
    var f := TakePartial(c, e, bar, rNow);
    BreakevenKeeps(c, f, rNow);
    CloseOutKeeps(c, MoveToBreakeven(c, f, rNow), bar.timestamp, bar.close);
  }

  lemma AcceptKeepsEngine(c: Config, e: Engine, p: Plan)
    requires EngineOk(c, e) && e.ledger.pending.None? && e.ledger.open.None? && p.qty > 0.0
    ensures EngineOk(c, e.(book := e.book.(pending := e.book.pending + [OrderOf(p)]), ledger := Accept(e.ledger, p)))
  {
    AcceptKeeps(e.ledger, p);
  }

  lemma DecideKeeps(c: Config, e: Engine, signal: Option<Signal>, time: int)
    requires EngineOk(c, e) && e.risk.day.Some?
    ensures var f := Decide(c, e, signal, time); EngineOk(c, f) && f.risk.day.Some? && SameTape(e, f)
  {
    if signal.Some? && e.ledger.pending.None? && e.ledger.open.None? {
      var v := Judge(c.risk, e.risk, signal.value, AccountOf(e.book));
      if v.Allow? && v.qty > 0.0 {
        AcceptKeepsEngine(c, e, PlanOf(signal.value, time, v.qty));
      }
    }
  }

  lemma HousekeepKeeps(c: Config, e: Engine, bar: Bar)
    requires EngineOk(c, e)
    ensures var f := Housekeep(c, e, bar);
            EngineOk(c, f) && f.risk.day.Some? &&
            f.seen == e.seen && f.curve == e.curve && f.history == e.history + [bar]
  {
    if e.risk.day.None? {
      assert e.book.positions == map[];
      assert Values(e.book.positions, e.book.lastPrice) == map[];
      assert e.book.equity == c.startingCash;
    }
  }

  lemma StepKeeps(c: Config, strategy: Strategy, e: Engine, bar: Bar)
    requires c.Valid() && EngineOk(c, e)
    ensures var f := Step(c, strategy, e, bar);
            EngineOk(c, f) && f.risk.day.Some? && f.history == e.history + [bar] && f.seen == e.seen + [bar] &&
            f.curve == e.curve + [(bar.timestamp, f.book.equity)]
  {
    var e0 := Begin(e);
    assert EngineOk(c, e0);
    HousekeepKeeps(c, e0, bar);
    var e1 := Housekeep(c, e0, bar);
    FeedKeeps(c, e1, bar);
    var e2 := FeedBar(c, e1, bar);
    ManageKeeps(c, e2, bar);
    var e3 := Manage(c, e2, bar);
    var e4 := e3.(seen := e3.seen + [bar]);
    assert EngineOk(c, e4);
    DecideKeeps(c, e4, strategy(e4.seen), bar.timestamp);
  }

  lemma InitialIsOk(c: Config)
    ensures EngineOk(c, Initial(c))
  {
    assert Values(map[], map[]) == map[];
  }

  /** What has been recorded after the given bars. */
  ghost predicate Recorded(e: Engine, bars: seq<Bar>) {
    && e.history == bars && e.seen == bars && |e.curve| == |bars|
    && (forall i :: 0 <= i < |bars| ==> e.curve[i].0 == bars[i].timestamp)
    && (bars == [] <==> e.risk.day.None?)
    && (bars != [] ==> e.curve[|bars| - 1].1 == e.book.equity)
  }

  lemma RecordedStep(e: Engine, f: Engine, bars: seq<Bar>, bar: Bar)
    requires Recorded(e, bars) && f.history == e.history + [bar] && f.seen == e.seen + [bar]
    requires f.curve == e.curve + [(bar.timestamp, f.book.equity)] && f.risk.day.Some?
    ensures Recorded(f, bars + [bar])
  {
  }

  lemma StepRecords(c: Config, strategy: Strategy, e: Engine, bars: seq<Bar>, bar: Bar)
    requires c.Valid() && EngineOk(c, e) && Recorded(e, bars)
    ensures EngineOk(c, Step(c, strategy, e, bar)) && Recorded(Step(c, strategy, e, bar), bars + [bar])
  {
    StepKeeps(c, strategy, e, bar);
    RecordedStep(e, Step(c, strategy, e, bar), bars, bar);
  }

  lemma StepAllKeeps(c: Config, strategy: Strategy, e: Engine, bars: seq<Bar>)
    requires c.Valid() && EngineOk(c, e) && Recorded(e, [])
    ensures EngineOk(c, StepAll(c, strategy, e, bars)) && Recorded(StepAll(c, strategy, e, bars), bars)
  {
    var f := StepFn(c, strategy);
    ghost var inv := (t: Engine, xs: seq<Bar>) => EngineOk(c, t) && Recorded(t, xs);
    forall t, xs, bar | inv(t, xs) ensures inv(f(t, bar), xs + [bar]) {
      StepRecords(c, strategy, t, xs, bar);
    }
    FoldKeeps(f, e, bars, inv);
  }

  /** After every bar of every run the books agree; the strategy has been shown exactly the bars stepped, in order,
      and the equity curve has one point for each of them. */
  lemma EveryStepKeeps(c: Config, strategy: Strategy, bars: seq<Bar>)
    requires c.Valid()
    ensures var e := StepAll(c, strategy, Begin(Initial(c)), bars); EngineOk(c, e) && Recorded(e, bars)
  {
    InitialIsOk(c);
    StepAllKeeps(c, strategy, Begin(Initial(c)), bars);
  }

  /** The books balance at the end of every backtest: nothing is left open, final equity is the starting cash plus
      the result of every booked trade, partial or final, and the last equity point says so. */
  lemma BooksBalance(c: Config, strategy: Strategy, bars: seq<Bar>)
    requires c.Valid()
    ensures var e := Batch(c, strategy, bars);
            && Sound(e.ledger) && e.ledger.open.None? && e.book.positions == map[]
            && e.book.equity == e.book.cash == c.startingCash + SumOf(Pnl(), e.ledger.trades)
            && e.seen == bars && |e.curve| == |bars|
            && (bars != [] ==> e.curve[|bars| - 1] == (bars[|bars| - 1].timestamp, e.book.equity))
  {
    FinishedRun(c, strategy, bars);
    var e := Batch(c, strategy, bars);
    assert e.book.positions == map[];
    assert Values(e.book.positions, e.book.lastPrice) == map[];
  }

  lemma FinishedRun(c: Config, strategy: Strategy, bars: seq<Bar>)
    requires c.Valid()
    ensures var e := Batch(c, strategy, bars);
            && EngineOk(c, e) && e.ledger.open.None? && e.seen == bars && |e.curve| == |bars|
            && (bars == [] <==> e.risk.day.None?)
            && (bars != [] ==> e.curve[|bars| - 1] == (bars[|bars| - 1].timestamp, e.book.equity))
  {
    EveryStepKeeps(c, strategy, bars);
    if bars != [] {
      var last := bars[|bars| - 1];
      CloseOutKeeps(c, StepAll(c, strategy, Begin(Initial(c)), bars), last.timestamp, last.close);
    }
  }

  lemma {:induction false} PnlSplits(ts: seq<Trade>)
    ensures SumOf(Pnl(), ts) == SumOf(FinalPnl(), ts) + SumOf(PartialPnl(), ts)
  {
    if ts != [] { PnlSplits(ts[..|ts| - 1]); }
  }

  /** Partial profits never reach the sizing basis: at the end of a run, what the account gained and what the basis
      gained differ by exactly the booked partial results. */
  lemma BasisMissesPartials(c: Config, strategy: Strategy, bars: seq<Bar>)
    requires c.Valid() && bars != []
    ensures var e := Batch(c, strategy, bars);
            e.risk.realized.Some? &&
            (e.book.equity - c.startingCash) - (e.risk.realized.value - Base(c)) == SumOf(PartialPnl(), e.ledger.trades)
  {
    FinishedRun(c, strategy, bars);
    BooksBalance(c, strategy, bars);
    PnlSplits(Batch(c, strategy, bars).ledger.trades);
  }
}
