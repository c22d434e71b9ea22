/** The portfolio engine and its shared broker keep the same books, and its clock ticks once per time. */
module PortfolioBooks {
  import opened Types
  import opened Folds
  import opened Risk
  import opened Paper
  import opened Portfolio
  import Ledger
  import Engine = Backtester
  import Books

  function CostOf(o: OpenTrade): real { o.side.Of(o.qty) * o.entryPrice + o.entryFee }

  function Costs(open: map<Symbol, OpenTrade>): map<Symbol, real> { map s | s in open :: CostOf(open[s]) }

  /** The waiting orders are exactly those of the pending entries, one for each symbol. */
  ghost predicate Waiting(pending: map<Symbol, Plan>, orders: seq<Order>) {
    && (forall o :: o in orders ==> o.symbol in pending && o == Engine.OrderOf(pending[o.symbol]))
    && (forall s :: s in pending ==> Engine.OrderOf(pending[s]) in orders)
    && OnePerSymbol(orders)
  }

  /** Each accepted order is pending, open or closed; nothing is both pending and open. */
  ghost predicate Counted(pending: map<Symbol, Plan>, open: map<Symbol, OpenTrade>, closed: nat, accepted: nat) {
    pending.Keys !! open.Keys && accepted == closed + |open| + |pending|
  }

  ghost predicate Named(pending: map<Symbol, Plan>, open: map<Symbol, OpenTrade>) {
    && (forall s :: s in pending ==> pending[s].symbol == s && pending[s].qty > 0.0)
    && (forall s :: s in open ==> open[s].symbol == s && open[s].qty > 0.0)
  }

  ghost predicate Accounted(p: State) {
    Counted(p.pending, p.open, |p.trades|, p.accepted) && Named(p.pending, p.open)
  }

  /** The broker holds exactly the open trades. */
  ghost predicate Holds(positions: map<Symbol, Position>, open: map<Symbol, OpenTrade>) {
    && positions.Keys == open.Keys
    && (forall s :: s in open ==> positions[s].qty == open[s].side.Of(open[s].qty))
  }

  ghost predicate CashOk(start: real, cash: real, trades: seq<Trade>, open: map<Symbol, OpenTrade>) {
    cash == start + Ledger.SumOf(Ledger.Pnl(), trades) - SumMap(Costs(open))
  }

  ghost predicate SameHoldings(d: Desk, p: State) {
    && Holds(p.book.positions, p.open)
    && Waiting(p.pending, p.book.pending)
    && CashOk(d.startingCash, p.book.cash, p.trades, p.open)
  }

  function Base(d: Desk): real { OrElse(d.risk.startingEquity, d.startingCash) }

  /** Once the first bar was seen, the sizing basis has heard of every closed trade. */
  ghost predicate BasisOk(d: Desk, p: State) {
    if p.risk.day.None? then
      p.lastTime.None? && p.trades == [] && p.open == map[] && p.risk.starting == d.risk.startingEquity
        && p.risk.realized == d.risk.startingEquity
    else
      p.risk.starting == Some(Base(d)) && p.risk.realized == Some(Base(d) + Ledger.SumOf(Ledger.Pnl(), p.trades))
  }

  ghost predicate DeskOk(d: Desk, p: State) {
    Accounted(p) && SameHoldings(d, p) && BasisOk(d, p) && p.book.equity == Worth(p.book)
  }

  // ---- single fills

  lemma CountedMoves(pending: map<Symbol, Plan>, open: map<Symbol, OpenTrade>, closed: nat, accepted: nat,
                     s: Symbol, o: OpenTrade)
    requires Counted(pending, open, closed, accepted) && s in pending
    ensures Counted(pending - {s}, open[s := o], closed, accepted)
  {
    assert open[s := o].Keys == open.Keys + {s} && (pending - {s}).Keys == pending.Keys - {s};
    assert |open[s := o]| == |open[s := o].Keys| && |pending - {s}| == |(pending - {s}).Keys|;
    assert |open| == |open.Keys| && |pending| == |pending.Keys|;
  }

  lemma CountedCloses(pending: map<Symbol, Plan>, open: map<Symbol, OpenTrade>, closed: nat, accepted: nat, s: Symbol)
    requires Counted(pending, open, closed, accepted) && s in open
    ensures Counted(pending, open - {s}, closed + 1, accepted)
  {
    assert (open - {s}).Keys == open.Keys - {s};
    assert |open - {s}| == |(open - {s}).Keys| && |open| == |open.Keys|;
  }

  lemma CountedAccepts(pending: map<Symbol, Plan>, open: map<Symbol, OpenTrade>, closed: nat, accepted: nat,
                       s: Symbol, plan: Plan)
    requires Counted(pending, open, closed, accepted) && s !in pending && s !in open
    ensures Counted(pending[s := plan], open, closed, accepted + 1)
  {
    assert pending[s := plan].Keys == pending.Keys + {s};
    assert |pending[s := plan]| == |pending[s := plan].Keys| && |pending| == |pending.Keys|;
  }

  /** Whatever the fill, the account of orders stands. */
  lemma AnyFillIsAccounted(d: Desk, p: State, s: Symbol, x: Fill)
    requires Accounted(p)
    ensures Accounted(TakeFill(d, p, s, x))
  {
    if x.role.Entry? && s in p.pending {
      CountedMoves(p.pending, p.open, |p.trades|, p.accepted, s, Ledger.Opened(p.pending[s], x));
    } else if !x.role.Entry? && s in p.open {
      CountedCloses(p.pending, p.open, |p.trades|, p.accepted, s);
    }
  }

  lemma AcceptIsAccounted(p: State, s: Symbol, plan: Plan)
    requires Accounted(p) && s !in p.pending && s !in p.open && plan.symbol == s && plan.qty > 0.0
    ensures Accounted(Accept(p, s, plan))
  {
    CountedAccepts(p.pending, p.open, |p.trades|, p.accepted, s, plan);
  }

  datatype Event = Filled(symbol: Symbol, fill: Fill) | Entered(symbol: Symbol, plan: Plan)

  function Apply(d: Desk, p: State, e: Event): State {
    match e
    case Filled(s, x) => TakeFill(d, p, s, x)
    case Entered(s, plan) =>
      if s !in p.pending && s !in p.open && plan.symbol == s && plan.qty > 0.0 then Accept(p, s, plan) else p
  }

  function ApplyAll(d: Desk, events: seq<Event>): State {
    if events == [] then Initial(d) else Apply(d, ApplyAll(d, events[..|events| - 1]), events[|events| - 1])
  }

  /** Against any stream of fills: nothing is ever both pending and open, and accepted entry orders are the closed
      trades plus what is open plus what is pending. */
  lemma {:induction false} EveryDeskIsAccounted(d: Desk, events: seq<Event>)
    ensures Accounted(ApplyAll(d, events))
  {
    if events != [] {
      EveryDeskIsAccounted(d, events[..|events| - 1]);
      match events[|events| - 1]
      case Filled(s, x) => AnyFillIsAccounted(d, ApplyAll(d, events[..|events| - 1]), s, x);
      case Entered(s, plan) =>
        var p := ApplyAll(d, events[..|events| - 1]);
        if s !in p.pending && s !in p.open && plan.symbol == s && plan.qty > 0.0 { AcceptIsAccounted(p, s, plan); }
    }
  }

  // ---- the broker's fills

  lemma CostPut(open: map<Symbol, OpenTrade>, s: Symbol, o: OpenTrade)
    requires s !in open
    ensures SumMap(Costs(open[s := o])) == SumMap(Costs(open)) + CostOf(o)
  {
    SumMapPut(Costs(open), s, CostOf(o));
    assert Costs(open[s := o]) == Costs(open)[s := CostOf(o)];
    assert Costs(open) - {s} == Costs(open);
  }

  lemma CostDrop(open: map<Symbol, OpenTrade>, s: Symbol)
    requires s in open
    ensures SumMap(Costs(open - {s})) == SumMap(Costs(open)) - CostOf(open[s])
  {
    SumMapAt(Costs(open), s);
    assert Costs(open - {s}) == Costs(open) - {s};
  }

  /** With distinct symbols, at most the order of the bar's own symbol fills. */
  lemma {:induction false} OwnOrderFills(f: Fees, b: Book, orders: seq<Order>, s: Symbol, bar: Bar)
    requires OnePerSymbol(orders)
    ensures forall o :: o in orders && o.symbol == s ==>
              FillAll(f, b, orders, s, bar) == (FillOrder(f, b, o, bar).0, [FillOrder(f, b, o, bar).1])
    ensures (forall o :: o in orders ==> o.symbol != s) ==> FillAll(f, b, orders, s, bar) == (b, [])
    decreases |orders|
  {
    if orders != [] {
      var n := |orders| - 1;
      OwnOrderFills(f, b, orders[..n], s, bar);
      assert orders == orders[..n] + [orders[n]];
      if orders[n].symbol == s {
        var x := FillOrder(f, b, orders[n], bar).1;
        assert [] + [x] == [x];
      }
    }
  }

  ghost predicate OnePerSymbol(orders: seq<Order>) {
    forall i, j :: 0 <= i < j < |orders| ==> orders[i].symbol != orders[j].symbol
  }

  lemma {:induction false} OthersKeepOrder(orders: seq<Order>, s: Symbol)
    requires OnePerSymbol(orders)
    ensures forall o :: o in Others(orders, s) <==> o in orders && o.symbol != s
    ensures OnePerSymbol(Others(orders, s))
    decreases |orders|
  {
    if orders != [] {
      var n := |orders| - 1;
      OthersKeepOrder(orders[..n], s);
      assert orders == orders[..n] + [orders[n]];
      var r := Others(orders[..n], s);
      forall i | 0 <= i < |r| ensures r[i].symbol != orders[n].symbol {
        assert r[i] in r;
        assert r[i] in orders[..n];
      }
      assert OnePerSymbol(r + [orders[n]]);
    }
  }

  lemma {:induction false} OthersAll(orders: seq<Order>, s: Symbol)
    requires forall o :: o in orders ==> o.symbol != s
    ensures Others(orders, s) == orders
  {
    if orders != [] {
      OthersAll(orders[..|orders| - 1], s);
      assert orders == orders[..|orders| - 1] + [orders[|orders| - 1]];
      assert orders[|orders| - 1] in orders;
    }
  }

  /** What an entry fill does to the books of the broker. */
  ghost predicate EntryBook(b: Book, o: Order, c: Book, x: Fill) {
    && x.role.Entry? && c.positions == b.positions[o.symbol := Position(o.side.Of(o.qty), x.price)]
    && c.cash == b.cash - o.side.Of(o.qty) * x.price - x.fee
  }

  lemma EntryFillBook(f: Fees, b: Book, o: Order, bar: Bar)
    requires o.symbol !in b.positions
    ensures var (c, x) := FillOrder(f, b, o, bar); EntryBook(b, o, c, x)
  {
  }

  /** What a fill that closes the position of its symbol does to the books of the broker. */
  lemma ExitFillBook(b: Book, x: Fill)
    requires x.symbol in b.positions && b.positions[x.symbol].qty + x.side.Of(x.qty) == 0.0
    ensures Execute(b, x).positions == b.positions - {x.symbol}
    ensures Execute(b, x).cash == b.cash - x.side.Of(x.qty) * x.price - x.fee && Execute(b, x).pending == b.pending
  {
  }

  lemma WaitingDrops(pending: map<Symbol, Plan>, orders: seq<Order>, s: Symbol)
    requires Waiting(pending, orders) && forall t :: t in pending ==> pending[t].symbol == t
    ensures Waiting(pending - {s}, Others(orders, s))
  {
    OthersKeepOrder(orders, s);
    forall t | t in pending - {s} ensures Engine.OrderOf(pending[t]) in Others(orders, s) {
      var o := Engine.OrderOf(pending[t]);
      assert o in orders;
    }
  }

  lemma EntryCashOk(start: real, cash: real, trades: seq<Trade>, open: map<Symbol, OpenTrade>, s: Symbol, o: OpenTrade,
                    cost: real)
    requires CashOk(start, cash, trades, open) && s !in open && cost == CostOf(o)
    ensures CashOk(start, cash - cost, trades, open[s := o])
  {
    CostPut(open, s, o);
  }

  lemma ExitCashOk(start: real, cash: real, trades: seq<Trade>, open: map<Symbol, OpenTrade>, s: Symbol, t: Trade)
    requires CashOk(start, cash, trades, open) && s in open
    ensures CashOk(start, cash + CostOf(open[s]) + t.pnl, trades + [t], open - {s})
  {
    Ledger.SumSnoc(Ledger.Pnl(), trades, t);
    CostDrop(open, s);
  }

  /** The trade that closing o with the fill x books. */
  function ClosedBy(o: OpenTrade, x: Fill): Trade { Ledger.TradeOn(o, Ledger.EntryRisk(o), x, false) }

  lemma ClosingCash(o: OpenTrade, x: Fill, cash: real)
    ensures cash - o.side.Opposite().Of(o.qty) * x.price - x.fee == cash + CostOf(o) + ClosedBy(o, x).pnl
  {
    Books.ExitCash(o.side, o.entryPrice, x.price, o.qty);
  }

  /** What the broker's books look like once the pending entry of s has filled. */
  ghost predicate EntryBooked(p: State, s: Symbol, b: Book, x: Fill)
    requires s in p.pending
  {
    var o := Ledger.Opened(p.pending[s], x);
    && x.role.Entry? && b.pending == Others(p.book.pending, s)
    && b.positions == p.book.positions[s := Position(o.side.Of(o.qty), x.price)] && b.cash == p.book.cash - CostOf(o)
  }

  /** The pending entry of s fills: it becomes the open trade, in the books of both. */
  lemma EntryKeeps(d: Desk, p: State, s: Symbol, b: Book, x: Fill)
    requires Accounted(p) && SameHoldings(d, p) && s in p.pending && EntryBooked(p, s, b, x)
    ensures var q := TakeFill(d, p.(book := b), s, x);
            Accounted(q) && SameHoldings(d, q) && q.trades == p.trades && q.risk == p.risk &&
            q.pending == p.pending - {s} && q.open == p.open[s := Ledger.Opened(p.pending[s], x)] && q.book == b
  {
    AnyFillIsAccounted(d, p.(book := b), s, x);
    WaitingDrops(p.pending, p.book.pending, s);
    var o := Ledger.Opened(p.pending[s], x);
    EntryCashOk(d.startingCash, p.book.cash, p.trades, p.open, s, o, CostOf(o));
  }

  /** The broker's books before and after o is closed: its cost comes back with the result. */
  ghost predicate ExitBook(b: Book, o: OpenTrade, x: Fill, c: Book) {
    && x.role.Exit? && c.positions == b.positions - {x.symbol} && c.pending == b.pending
    && c.cash == b.cash + CostOf(o) + ClosedBy(o, x).pnl
  }

  lemma OppositeCancels(side: Side, qty: real)
    ensures side.Of(qty) + side.Opposite().Of(qty) == 0.0
  {
  }

  /** An exit order for all that is held. */
  ghost predicate ClosesAll(held: real, x: Fill) {
    x.role.Exit? && x.side == ExitSide(held) && x.qty == Abs(held)
  }

  lemma ClosingBook(b: Book, o: OpenTrade, x: Fill)
    requires x.symbol in b.positions && b.positions[x.symbol].qty == o.side.Of(o.qty) && o.qty > 0.0
    requires ClosesAll(o.side.Of(o.qty), x)
    ensures ExitBook(b, o, x, Execute(b, x))
  {
    Books.CloseSideOf(o.side, o.qty);
    OppositeCancels(o.side, o.qty);
    ExitFillBook(b, x);
    ClosingCash(o, x, b.cash);
  }

  ghost predicate ExitBooked(p: State, s: Symbol, b: Book, x: Fill)
    requires s in p.open
  {
    x.symbol == s && ExitBook(p.book, p.open[s], x, b)
  }

  /** The open trade of s is closed in full: it leaves the books of both, and cash takes in its result. */
  lemma ExitKeeps(d: Desk, p: State, s: Symbol, b: Book, x: Fill)
    requires Accounted(p) && SameHoldings(d, p) && s in p.open && ExitBooked(p, s, b, x)
    ensures var q := TakeFill(d, p.(book := b), s, x);
            Accounted(q) && SameHoldings(d, q) && q.open == p.open - {s} && q.pending == p.pending && q.book == b
  {
    AnyFillIsAccounted(d, p.(book := b), s, x);
    ExitCashOk(d.startingCash, p.book.cash, p.trades, p.open, s, ClosedBy(p.open[s], x));
  }

  lemma BasisHears(d: Desk, p: State, s: Symbol, x: Fill)
    requires BasisOk(d, p) && p.risk.day.Some?
    ensures BasisOk(d, TakeFill(d, p, s, x)) && TakeFill(d, p, s, x).risk.day.Some?
  {
    if !x.role.Entry? && s in p.open {
      Ledger.SumSnoc(Ledger.Pnl(), p.trades, Ledger.TradeOn(p.open[s], Ledger.EntryRisk(p.open[s]), x, false));
    }
  }

  /** What a bar, a forced close or a decision leaves alone. */
  ghost predicate SameTape(p: State, q: State) {
    q.history == p.history && q.curve == p.curve && q.lastTime == p.lastTime && q.ticks == p.ticks && q.marks == p.marks
  }

  /** Trade under way, clock started. */
  ghost predicate Mid(d: Desk, p: State) {
    Accounted(p) && SameHoldings(d, p) && BasisOk(d, p) && p.risk.day.Some?
  }

  lemma OneFill(d: Desk, p: State, s: Symbol, x: Fill)
    ensures TakeFills(d, p, s, [x]) == TakeFill(d, p, s, x)
  {
    assert [x][..0] == [];
    assert TakeFills(d, p, s, [x][..0]) == p;
  }

  lemma WaitingKeeps(d: Desk, p: State, s: Symbol, bar: Bar)
    requires Mid(d, p)
    ensures var (b, xs) := FillAll(d.fees, p.book, p.book.pending, s, bar);
            Taken(d, p, s, b.(pending := Others(p.book.pending, s)), xs)
  {
    OwnOrderFills(d.fees, p.book, p.book.pending, s, bar);
    if s in p.pending {
      assert Engine.OrderOf(p.pending[s]) in p.book.pending;
      OwnEntryKeeps(d, p, s, bar);
    } else {
      OthersAll(p.book.pending, s);
    }
  }

  lemma OwnEntryKeeps(d: Desk, p: State, s: Symbol, bar: Bar)
    requires Mid(d, p) && s in p.pending
    ensures var (b, x) := FillOrder(d.fees, p.book, Engine.OrderOf(p.pending[s]), bar);
            Taken(d, p, s, b.(pending := Others(p.book.pending, s)), [x])
  {
    var o := Engine.OrderOf(p.pending[s]);
    var (b, x) := FillOrder(d.fees, p.book, o, bar);
    EntryFillBook(d.fees, p.book, o, bar);
    EntryBooks(p, s, b, x);
    EntryFilled(d, p, s, b.(pending := Others(p.book.pending, s)), x);
  }

  /** The fills xs are taken, the broker's books being at c. */
  ghost predicate Taken(d: Desk, p: State, s: Symbol, c: Book, xs: seq<Fill>) {
    var q := TakeFills(d, p.(book := c), s, xs);
    Mid(d, q) && SameTape(p, q) && q.book == c && q.open.Keys <= p.open.Keys + {s} && q.pending.Keys <= p.pending.Keys
  }

  lemma EntryBooks(p: State, s: Symbol, b: Book, x: Fill)
    requires s in p.pending && p.pending[s].symbol == s && EntryBook(p.book, Engine.OrderOf(p.pending[s]), b, x)
    ensures EntryBooked(p, s, b.(pending := Others(p.book.pending, s)), x)
  {
  }

  lemma EntryFilled(d: Desk, p: State, s: Symbol, b: Book, x: Fill)
    requires Mid(d, p) && s in p.pending && EntryBooked(p, s, b, x)
    ensures Taken(d, p, s, b, [x])
  {
    EntryKeeps(d, p, s, b, x);
    BasisHears(d, p.(book := b), s, x);
    OneFill(d, p.(book := b), s, x);
  }

  lemma ExitFilled(d: Desk, p: State, s: Symbol, b: Book, x: Fill)
    requires Mid(d, p) && s in p.open && ExitBooked(p, s, b, x)
    ensures Taken(d, p, s, b, [x])
    ensures var q := TakeFills(d, p.(book := b), s, [x]); q.open == p.open - {s} && q.pending == p.pending
  {
    ExitKeeps(d, p, s, b, x);
    BasisHears(d, p.(book := b), s, x);
    OneFill(d, p.(book := b), s, x);
  }

  /** A bracket that fires closes the position it guards and nothing else. */
  ghost predicate Fired(b: Book, s: Symbol, c: Book, ys: seq<Fill>) {
    if ys == [] then c == b else
      |ys| == 1 && s in b.positions && ys[0].symbol == s && ClosesAll(b.positions[s].qty, ys[0]) &&
      c == Execute(b, ys[0]).(brackets := b.brackets - {s})
  }

  lemma TriggerBook(f: Fees, b: Book, s: Symbol, bar: Bar)
    ensures var (c, ys) := Trigger(f, b, s, bar); Fired(b, s, c, ys)
  {
  }

  lemma FiredKeeps(d: Desk, p: State, s: Symbol, b: Book, ys: seq<Fill>)
    requires Mid(d, p) && Fired(p.book, s, b, ys)
    ensures Taken(d, p, s, b, ys) && |ys| <= 1
  {
    if ys != [] {
      assert ys == [ys[0]];
      ClosingBook(p.book, p.open[s], ys[0]);
      ExitFilled(d, p, s, b, ys[0]);
    }
  }

  lemma TriggerKeeps(d: Desk, p: State, s: Symbol, bar: Bar)
    requires Mid(d, p)
    ensures var (b, ys) := Trigger(d.fees, p.book, s, bar); Taken(d, p, s, b, ys) && |ys| <= 1
  {
    TriggerBook(d.fees, p.book, s, bar);
    var (b, ys) := Trigger(d.fees, p.book, s, bar);
    FiredKeeps(d, p, s, b, ys);
  }

  lemma {:induction false} FillsIgnoreBook(d: Desk, p: State, s: Symbol, xs: seq<Fill>, b: Book)
    ensures TakeFills(d, p.(book := b), s, xs) == TakeFills(d, p, s, xs).(book := b)
  {
    if xs != [] { FillsIgnoreBook(d, p, s, xs[..|xs| - 1], b); }
  }

  lemma FillsConcat(d: Desk, p: State, s: Symbol, xs: seq<Fill>, ys: seq<Fill>)
    requires |ys| <= 1
    ensures TakeFills(d, p, s, xs + ys) == TakeFills(d, TakeFills(d, p, s, xs), s, ys)
  {
    if ys == [] {
      assert xs + ys == xs;
    } else {
      assert (xs + ys)[..|xs + ys| - 1] == xs;
      assert ys[..0] == [];
    }
  }

  lemma MarkKeeps(d: Desk, p: State, s: Symbol, price: real)
    requires Mid(d, p)
    ensures DeskOk(d, p.(book := Marked(p.book, s, price)))
  {
  }

  lemma FeedKeeps(d: Desk, p: State, s: Symbol, bar: Bar)
    requires Mid(d, p)
    ensures var q := FeedSymbol(d, p, s, bar);
            DeskOk(d, q) && q.risk.day.Some? && SameTape(p, q) &&
            q.open.Keys <= p.open.Keys + {s} && q.pending.Keys <= p.pending.Keys
  {
    var (b1, xs) := FillAll(d.fees, p.book, p.book.pending, s, bar);
    var b2 := b1.(pending := Others(p.book.pending, s));
    var (b3, ys) := Trigger(d.fees, b2, s, bar);
    var b4 := Marked(b3, s, bar.close);
    assert BarOf(d.fees, p.book, s, bar) == (b4, xs + ys);
    WaitingKeeps(d, p, s, bar);
    var q1 := TakeFills(d, p.(book := b2), s, xs);
    TriggerKeeps(d, q1, s, bar);
    var q2 := TakeFills(d, q1.(book := b3), s, ys);
    MarkKeeps(d, q2, s, bar.close);
    FillsIgnoreBook(d, p, s, xs, b2);
    FillsIgnoreBook(d, p, s, xs + ys, b4);
    FillsConcat(d, p, s, xs, ys);
    FillsIgnoreBook(d, TakeFills(d, p, s, xs), s, ys, b3);
  }

  /** An order on its own symbol, waiting behind others, is the one that fills. */
  lemma LastOrderFills(f: Fees, b: Book, orders: seq<Order>, o: Order, bar: Bar)
    requires forall w :: w in orders ==> w.symbol != o.symbol
    ensures FillAll(f, b, orders + [o], o.symbol, bar) == (FillOrder(f, b, o, bar).0, [FillOrder(f, b, o, bar).1])
    ensures Others(orders + [o], o.symbol) == orders
  {
    assert (orders + [o])[..|orders|] == orders;
    NoneFills(f, b, orders, o.symbol, bar);
    OthersAll(orders, o.symbol);
    var x := FillOrder(f, b, o, bar).1;
    assert [] + [x] == [x];
  }

  lemma {:induction false} NoneFills(f: Fees, b: Book, orders: seq<Order>, s: Symbol, bar: Bar)
    requires forall w :: w in orders ==> w.symbol != s
    ensures FillAll(f, b, orders, s, bar) == (b, [])
    decreases |orders|
  {
    if orders != [] { NoneFills(f, b, orders[..|orders| - 1], s, bar); }
  }

  /** Serving a forced close: one exit fill of the whole position, then the mark. */
  lemma ClosingBar(f: Fees, b: Book, o: Order, bar: Bar)
    requires forall w :: w in b.pending ==> w.symbol != o.symbol
    requires o.symbol in b.positions && RoleOf(b, o).Exit?
    requires b.positions[o.symbol].qty + o.side.Of(o.qty) == 0.0
    ensures var x := FillOrder(f, b, o, bar).1;
            x.role.Exit? && x.symbol == o.symbol && x.side == o.side && x.qty == o.qty &&
            BarOf(f, b.(pending := b.pending + [o]), o.symbol, bar) == (Marked(Execute(b, x), o.symbol, bar.close), [x])
  {
    var waiting := b.(pending := b.pending + [o]);
    LastOrderFills(f, waiting, b.pending, o, bar);
    var (c, x) := FillOrder(f, waiting, o, bar);
    assert c == Execute(waiting, x) && x == FillOrder(f, b, o, bar).1;
    var e := c.(pending := b.pending);
    assert e == Execute(b, x);
    ExitFillBook(b, x);
    assert Trigger(f, e, o.symbol, bar) == (e, []);
    assert [x] + [] == [x];
  }

  lemma CloseAtKeeps(d: Desk, p: State, s: Symbol, time: int, price: real)
    requires Mid(d, p) && s in p.open
    ensures var qty := p.book.positions[s].qty;
            var order := Types.Order(s, ExitSide(qty), Abs(qty), 0.0, 0.0);
            var q := FeedSymbol(d, p.(book := Serve(d.fees, p.book, Submit(order))), s, Engine.FlatBar(time, price));
            DeskOk(d, q) && q.risk.day.Some? && SameTape(p, q) && q.pending == p.pending && q.open == p.open - {s}
  {
    var o, qty, bar := p.open[s], p.book.positions[s].qty, Engine.FlatBar(time, price);
    Books.CloseSideOf(o.side, o.qty);
    var order := Types.Order(s, ExitSide(qty), Abs(qty), 0.0, 0.0);
    var waiting := p.book.(pending := p.book.pending + [order]);
    assert Serve(d.fees, p.book, Submit(order)) == waiting;
    forall w | w in p.book.pending ensures w.symbol != s { assert w.symbol in p.pending; }
    ClosingBar(d.fees, p.book, order, bar);
    var x := FillOrder(d.fees, p.book, order, bar).1;
    var b := Execute(p.book, x);
    ClosingBook(p.book, o, x);
    ExitFilled(d, p, s, b, x);
    var q := TakeFills(d, p.(book := b), s, [x]);
    MarkKeeps(d, q, s, price);
    FillsIgnoreBook(d, p, s, [x], b);
    FillsIgnoreBook(d, p, s, [x], Marked(b, s, price));
    FillsIgnoreBook(d, p.(book := waiting), s, [x], Marked(b, s, price));
  }

  /** Closing out one symbol leaves it flat and the others as they were. */
  lemma CloseSymbolKeeps(d: Desk, p: State, s: Symbol, bars: seq<Bar>)
    requires DeskOk(d, p) && p.risk.day.Some?
    ensures var q := CloseSymbol(d, p, s, bars);
            DeskOk(d, q) && q.risk.day.Some? && SameTape(p, q) && q.pending == p.pending &&
            q.open.Keys == if bars == [] then p.open.Keys else p.open.Keys - {s}
  {
    if bars != [] && s in p.open {
      var last := bars[|bars| - 1];
      CloseAtKeeps(d, p, s, last.timestamp, last.close);
    }
  }
}
