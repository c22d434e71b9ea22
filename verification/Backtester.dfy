/** The single-symbol engine (bot/backtester.py): one bar at a time through risk housekeeping, the broker,
    trade management and the strategy. */
module Backtester {
  import opened Types
  import opened Folds
  import opened Risk
  import opened Paper
  import opened Ledger

  /** A strategy, as its answer to the bars it has been shown so far. */
  type Strategy = seq<Bar> -> Option<Signal>

  datatype Config = Config(
    symbol: Symbol, risk: RiskConfig, fees: Fees, startingCash: real,
    breakevenAfterR: real, partialTpR: real, partialTpFrac: real, maxHoldBars: int)
  {
    /** What the constructor accepts. */
    predicate Valid() {
      && startingCash > 0.0 && breakevenAfterR >= 0.0 && partialTpR >= 0.0 && maxHoldBars >= 0
      && (partialTpR > 0.0 ==> 0.0 < partialTpFrac < 1.0)
    }
  }

  datatype Engine = Engine(
    ledger: Ledger, book: Book, risk: RiskState, history: seq<Bar>, seen: seq<Bar>,
    curve: seq<(int, real)>, started: bool, startingEquity: real)

  // ---- average true range (bot/data/indicators.py)

  function TrueRange(previous: Bar, b: Bar): real {
    Max(b.high - b.low, Max(Abs(b.high - previous.close), Abs(b.low - previous.close)))
  }

  function RangeSum(bars: seq<Bar>, n: nat): real
    requires n < |bars| || n == 0
  {
    if n == 0 then 0.0 else
      RangeSum(bars[..|bars| - 1], n - 1) + TrueRange(bars[|bars| - 2], bars[|bars| - 1])
  }

  /** Mean of the last `period` true ranges; 0 while there are too few bars. */
  function Atr(bars: seq<Bar>, period: int): real {
    if period < 1 || |bars| < period + 1 then 0.0 else RangeSum(bars, period) / period as real
  }

  lemma {:induction false} RangeIsLocal(older: seq<Bar>, recent: seq<Bar>, n: nat)
    requires n < |recent|
    ensures RangeSum(older + recent, n) == RangeSum(recent, n)
  {
    if n > 0 {
      var all := older + recent;
      assert all[..|all| - 1] == older + recent[..|recent| - 1];
      RangeIsLocal(older, recent[..|recent| - 1], n - 1);
    }
  }

  /** The average range looks at no more than the last `period` bars and the close before them. */
  lemma AtrIsLocal(older: seq<Bar>, recent: seq<Bar>, period: int)
    requires period >= 1 && |recent| >= period + 1
    ensures Atr(older + recent, period) == Atr(recent, period)
  {
    RangeIsLocal(older, recent, period);
  }

  /** The widest of the bar's own range and its reach above or below the close before it. */
  predicate IsTrueRange(previous: Bar, b: Bar, x: real) {
    && x >= b.high - b.low && x >= b.high - previous.close && x >= previous.close - b.high
    && x >= b.low - previous.close && x >= previous.close - b.low
    && (x == b.high - b.low || x == b.high - previous.close || x == previous.close - b.high
        || x == b.low - previous.close || x == previous.close - b.low)
  }

  /** The true ranges of the last n bars, each against the bar before it. */
  ghost predicate AreLastRanges(bars: seq<Bar>, n: nat, ranges: seq<real>) {
    |ranges| == n < |bars| &&
    forall i, j :: 0 <= i < n && j == |bars| - n + i ==> IsTrueRange(bars[j - 1], bars[j], ranges[i])
  }

  /** The mean of the last `period` true ranges, or 0 while there are too few bars. */
  ghost predicate IsAverageRange(bars: seq<Bar>, period: int, x: real) {
    if |bars| <= period then x == 0.0
    else period >= 1 && exists ranges :: AreLastRanges(bars, period, ranges) && x * period as real == Sum(ranges)
  }

  lemma TrueRangeIsTrue(previous: Bar, b: Bar)
    ensures IsTrueRange(previous, b, TrueRange(previous, b))
  {
  }

  lemma RangesNext(bars: seq<Bar>, n: nat, earlier: seq<real>, x: real)
    requires |bars| >= 2 && AreLastRanges(bars[..|bars| - 1], n, earlier)
    requires IsTrueRange(bars[|bars| - 2], bars[|bars| - 1], x)
    ensures AreLastRanges(bars, n + 1, earlier + [x]) && Sum(earlier + [x]) == Sum(earlier) + x
  {
    var m, ranges := |bars| - 1, earlier + [x];
    assert ranges[..n] == earlier;
    forall i, j | 0 <= i < n + 1 && j == |bars| - (n + 1) + i ensures IsTrueRange(bars[j - 1], bars[j], ranges[i]) {
      if i < n { assert IsTrueRange(bars[..m][j - 1], bars[..m][j], earlier[i]); }
    }
  }

  lemma {:induction false} LastRanges(bars: seq<Bar>, n: nat) returns (ranges: seq<real>)
    requires n < |bars|
    ensures AreLastRanges(bars, n, ranges) && RangeSum(bars, n) == Sum(ranges)
  {
    if n == 0 {
      ranges := [];
    } else {
      var m := |bars| - 1;
      var x := TrueRange(bars[m - 1], bars[m]);
      var earlier := LastRanges(bars[..m], n - 1);
      TrueRangeIsTrue(bars[m - 1], bars[m]);
      RangesNext(bars, n - 1, earlier, x);
      ranges := earlier + [x];
    }
  }

  lemma AtrIsAverageRange(bars: seq<Bar>, period: int)
    requires period >= 1
    ensures IsAverageRange(bars, period, Atr(bars, period))
  {
    if |bars| > period {
      var ranges := LastRanges(bars, period);
      QuotientTimes(RangeSum(bars, period), period as real);
    }
  }

  // ---- one bar

  function Begin(e: Engine): Engine {
    if e.started then e else e.(started := true, startingEquity := e.book.equity)
  }

  function Housekeep(c: Config, e: Engine, bar: Bar): Engine {
    var history := e.history + [bar];
    var risk := BarUpdate(e.risk, e.book.equity, bar.timestamp);
    e.(history := history,
       risk := if c.risk.atrMult > 0.0 && |history| > c.risk.atrPeriod
               then risk.(atr := Atr(history, c.risk.atrPeriod)) else risk)
  }

  /** Book a fill; the risk manager hears only of trades closed in full. */
  function TakeFill(c: Config, e: Engine, x: Fill): Engine {
    var closes := x.role.Exit? && e.ledger.open.Some?;
    e.(ledger := OnFill(e.ledger, x),
       risk := if closes then CloseUpdate(c.risk, e.risk, ClosedBy(e.ledger, x).pnl, x.timestamp) else e.risk)
  }

  function TakeFills(c: Config, e: Engine, xs: seq<Fill>): Engine {
    if xs == [] then e else TakeFill(c, TakeFills(c, e, xs[..|xs| - 1]), xs[|xs| - 1])
  }

  /** Show the bar to the broker and book its fills. */
  ghost function FeedBar(c: Config, e: Engine, bar: Bar): Engine {
    var (book, xs) := BarOf(c.fees, e.book, c.symbol, bar);
    TakeFills(c, e.(book := book), xs)
  }

  function FlatBar(time: int, price: real): Bar { Bar(time, price, price, price, price, 0.0) }

  /** Close the position at the given price through an order filled on a synthetic bar. */
  ghost function CloseOut(c: Config, e: Engine, time: int, price: real): Engine {
    if c.symbol !in e.book.positions then e else
      var qty := e.book.positions[c.symbol].qty;
      var order := Order(c.symbol, ExitSide(qty), Abs(qty), 0.0, 0.0);
      FeedBar(c, e.(book := Serve(c.fees, e.book, Submit(order))), FlatBar(time, price))
  }

  /** The open profit in units of the risk at entry. */
  function OpenR(o: OpenTrade, close: real, risk: real): real
    requires risk > 0.0
  {
    if o.side.Buy? then (close - o.entryPrice) / risk else (o.entryPrice - close) / risk
  }

  /** The quantity a partial profit closes. */
  function PartQty(c: Config, o: OpenTrade): real { o.qty * c.partialTpFrac }

  ghost function TakePartial(c: Config, e: Engine, bar: Bar, rNow: real): Engine
    requires e.ledger.open.Some?
  {
    if c.partialTpR > 0.0 && !e.ledger.partialDone && rNow >= c.partialTpR then
      var qty := PartQty(c, e.ledger.open.value);
      var (book, x) := PartialOf(c.fees, e.book, c.symbol, qty, bar);
      if x.None? then e.(book := book)
      else e.(book := book, ledger := OnPartial(e.ledger, x.value, qty))
    else e
  }

  function MoveToBreakeven(c: Config, e: Engine, rNow: real): Engine
    requires e.ledger.open.Some?
  {
    if c.breakevenAfterR > 0.0 && !e.ledger.breakevenDone && rNow >= c.breakevenAfterR then
      var book := StopOf(e.book, c.symbol, e.ledger.open.value.entryPrice);
      if book.Some? then e.(book := book.value, ledger := OnBreakeven(e.ledger)) else e
    else e
  }

  /** Partial profit, break-even stop, time exit. */
  ghost function ManageAt(c: Config, e: Engine, bar: Bar, risk: real): Engine
    requires e.ledger.open.Some? && risk > 0.0
  {
    var rNow := OpenR(e.ledger.open.value, bar.close, risk);
    var managed := MoveToBreakeven(c, TakePartial(c, e, bar, rNow), rNow);
    if c.maxHoldBars > 0 && managed.ledger.barsHeld >= c.maxHoldBars
    then CloseOut(c, managed, bar.timestamp, bar.close) else managed
  }

  function Ticked(e: Engine): Engine { e.(ledger := e.ledger.(barsHeld := e.ledger.barsHeld + 1)) }

  ghost function ManageTicked(c: Config, e: Engine, bar: Bar): Engine
    requires e.ledger.open.Some?
  {
    if RiskOf(e.ledger) <= 0.0 then e else ManageAt(c, e, bar, RiskOf(e.ledger))
  }

  /** Count the bar and manage the open trade; a trade without risk is left alone. */
  ghost function Manage(c: Config, e: Engine, bar: Bar): Engine {
    if e.ledger.open.None? then e else ManageTicked(c, Ticked(e), bar)
  }

  function PlanOf(s: Signal, time: int, qty: real): Plan {
    Plan(s.symbol, time, if s.kind.Long? then Buy else Sell, s.entry, s.stopLoss, s.takeProfit, qty)
  }

  function OrderOf(p: Plan): Order { Order(p.symbol, p.side, p.qty, p.stop, p.target) }

  function AccountOf(b: Book): Account { Account(b.cash, b.equity, |b.positions|) }

  /** Act on a signal when nothing is pending, open or held. */
  function Decide(c: Config, e: Engine, signal: Option<Signal>, time: int): Engine {
    if signal.None? || signal.value.kind.Flat? || c.symbol in e.book.positions
       || e.ledger.pending.Some? || e.ledger.open.Some? then e
    else
      var risk := Anchored(e.risk, e.book.equity, time);
      var v := Judge(c.risk, risk, signal.value, AccountOf(e.book));
      if v.Allow? && v.qty > 0.0 then
        var p := PlanOf(signal.value, time, v.qty);
        e.(risk := risk, book := e.book.(pending := e.book.pending + [OrderOf(p)]), ledger := Accept(e.ledger, p))
      else e.(risk := risk)
  }

  ghost function Step(c: Config, strategy: Strategy, e: Engine, bar: Bar): Engine {
    var traded := Manage(c, FeedBar(c, Housekeep(c, Begin(e), bar), bar), bar);
    var shown := traded.(seen := traded.seen + [bar]);
    var decided := Decide(c, shown, strategy(shown.seen), bar.timestamp);
    decided.(curve := decided.curve + [(bar.timestamp, decided.book.equity)])
  }

  ghost function StepFn(c: Config, strategy: Strategy): (Engine, Bar) -> Engine {
    (e: Engine, bar: Bar) => Step(c, strategy, e, bar)
  }

  ghost function StepAll(c: Config, strategy: Strategy, e: Engine, bars: seq<Bar>): Engine {
    Fold(StepFn(c, strategy), e, bars)
  }

  /** Close what is open at the last close and restate the last equity point. */
  ghost function Finalize(c: Config, e: Engine, bars: seq<Bar>): Engine {
    if bars == [] || e.ledger.open.None? || c.symbol !in e.book.positions then e else
      var last := bars[|bars| - 1];
      var closed := CloseOut(c, e, last.timestamp, last.close);
      if closed.curve == [] then closed
      else closed.(curve := closed.curve[..|closed.curve| - 1] + [(last.timestamp, closed.book.equity)])
  }

  function Initial(c: Config): Engine {
    Engine(Empty(), Opening(c.startingCash), Fresh(c.risk), [], [], [], false, c.startingCash)
  }

  /** The batch backtest over a list of bars. */
  ghost function Batch(c: Config, strategy: Strategy, bars: seq<Bar>): Engine {
    Finalize(c, StepAll(c, strategy, Begin(Initial(c)), bars), bars)
  }

  // ---- the engine object

  class Backtester {
    const cfg: Config
    const strategy: Strategy
    const broker: PaperBroker
    const risk: RiskManager
    var bars: seq<Bar>
    var pendingTrade: Option<Plan>
    var openTrade: Option<OpenTrade>
    var partialDone: bool
    var breakevenDone: bool
    var barsHeld: nat
    var riskPerUnit: real
    var trades: seq<Trade>
    var history: seq<Bar>
    var seen: seq<Bar>
    var curve: seq<(int, real)>
    var started: bool
    var startingEquity: real
    ghost var log: Log

    /** The engine's parts were built from its configuration. */
    predicate Wired() {
      broker.fees == cfg.fees && risk.cfg == cfg.risk
    }

    ghost function Record(): Ledger
      reads this
    {
      Ledger(pendingTrade, openTrade, partialDone, breakevenDone, barsHeld, riskPerUnit, trades, log)
    }

    ghost function View(): Engine
      reads this, broker, risk
    {
      Engine(Record(), broker.View(), risk.View(), history, seen, curve, started, startingEquity)
    }

    constructor (cfg: Config, strategy: Strategy, bars: seq<Bar>)
      ensures Wired() && fresh(broker) && fresh(risk)
      ensures this.cfg == cfg && this.strategy == strategy && this.bars == bars && View() == Initial(cfg)
    {
      this.cfg, this.strategy, this.bars := cfg, strategy, bars;
      broker := new PaperBroker(cfg.fees, cfg.startingCash);
      risk := new RiskManager(cfg.risk);
      pendingTrade, openTrade, partialDone, breakevenDone, barsHeld := None, None, false, false, 0;
      riskPerUnit, trades, history, seen, curve := 0.0, [], [], [], [];
      started, startingEquity := false, cfg.startingCash;
      log := Log([], [], None);
    }

    method Start()
      modifies this`started, this`startingEquity
      ensures View() == Begin(old(View()))
    {
      if !started {
        startingEquity := broker.equity;
        started := true;
      }
    }

    method HandleFill(x: Fill)
      requires Wired()
      modifies this, risk
      ensures bars == old(bars) && View() == TakeFill(cfg, old(View()), x)
    {
      if x.role.Entry? && pendingTrade.Some? {
        BookEntry(x);
      } else if x.role.Exit? && openTrade.Some? {
        var t := BookExit(x);
        risk.OnTradeClosed(t.pnl, x.timestamp);
      }
    }

    method BookEntry(x: Fill)
      requires pendingTrade.Some?
      modifies this
      ensures Record() == OnEntry(old(Record()), x)
      ensures bars == old(bars) && history == old(history) && seen == old(seen) && curve == old(curve)
      ensures started == old(started) && startingEquity == old(startingEquity)
    {
      openTrade := Some(Opened(pendingTrade.value, x));
      riskPerUnit := Abs(x.price - openTrade.value.stop);
      pendingTrade := None;
      barsHeld, partialDone, breakevenDone := 0, false, false;
      log := log.(current := Some(Trip(openTrade.value, [])));
    }

    method BookExit(x: Fill) returns (t: Trade)
      requires openTrade.Some?
      modifies this
      ensures t == ClosedBy(old(Record()), x) && Record() == OnExit(old(Record()), x)
      ensures bars == old(bars) && history == old(history) && seen == old(seen) && curve == old(curve)
      ensures started == old(started) && startingEquity == old(startingEquity)
    {
      t := TradeOn(openTrade.value, RiskFor(openTrade.value, riskPerUnit), x, false);
      trades := trades + [t];
      ghost var done := WithLeg(log.current, t);
      log := log.(trips := if done.Some? then log.trips + [done.value] else log.trips, current := None);
      openTrade, riskPerUnit, barsHeld, partialDone, breakevenDone := None, 0.0, 0, false, false;
    }

    /** Show a bar to the broker and handle every fill it reports. */
    method Feed(bar: Bar)
      requires Wired()
      modifies this, broker, risk
      ensures bars == old(bars) && View() == FeedBar(cfg, old(View()), bar)
    {
      var fills := broker.OnBar(cfg.symbol, bar);
      ghost var before := View();
      for i := 0 to |fills|
        invariant bars == old(bars) && View() == TakeFills(cfg, before, fills[..i])
      {
        assert fills[..i + 1][..i] == fills[..i];
        HandleFill(fills[i]);
      }
      assert fills[..|fills|] == fills;
    }

    /** Submit an order that closes the position and fill it at the given price. */
    method ClosePosition(time: int, price: real)
      requires Wired()
      modifies this, broker, risk
      ensures bars == old(bars) && View() == CloseOut(cfg, old(View()), time, price)
    {
      if cfg.symbol in broker.positions {
        var qty := broker.positions[cfg.symbol].qty;
        var _ := broker.SubmitOrder(Order(cfg.symbol, ExitSide(qty), Abs(qty), 0.0, 0.0));
        Feed(FlatBar(time, price));
      }
    }

    method PartialProfit(bar: Bar, rNow: real)
      requires Wired() && openTrade.Some?
      modifies this, broker
      ensures bars == old(bars) && View() == TakePartial(cfg, old(View()), bar, rNow)
    {
      if cfg.partialTpR > 0.0 && !partialDone && rNow >= cfg.partialTpR {
        var qty := PartQty(cfg, openTrade.value);
        var x := broker.PartialClose(cfg.symbol, qty, bar);
        if x.Some? {
          assert openTrade.value.qty != 0.0;
          BookPartial(x.value, qty);
        }
      }
    }

    method BookPartial(x: Fill, qty: real)
      requires openTrade.Some? && openTrade.value.qty != 0.0
      modifies this
      ensures Record() == OnPartial(old(Record()), x, qty)
      ensures bars == old(bars) && history == old(history) && seen == old(seen) && curve == old(curve)
      ensures started == old(started) && startingEquity == old(startingEquity)
    {
      var o := openTrade.value;
      var t := TradeOn(Share(o, qty), RiskFor(o, riskPerUnit), x, true);
      partialDone := true;
      trades := trades + [t];
      openTrade := Some(o.(qty := o.qty - qty, entryFee := o.entryFee - t.what.entryFee));
      log := log.(current := WithLeg(log.current, t));
    }

    method BreakevenStop(rNow: real)
      requires Wired() && openTrade.Some?
      modifies this, broker
      ensures bars == old(bars) && View() == MoveToBreakeven(cfg, old(View()), rNow)
    {
      if cfg.breakevenAfterR > 0.0 && !breakevenDone && rNow >= cfg.breakevenAfterR {
        var moved := broker.ModifyStop(cfg.symbol, openTrade.value.entryPrice);
        if moved {
          openTrade := Some(openTrade.value.(stop := openTrade.value.entryPrice));
          breakevenDone := true;
        }
      }
    }

    method ManageOpenTrade(bar: Bar)
      requires Wired()
      modifies this, broker, risk
      ensures bars == old(bars) && View() == Manage(cfg, old(View()), bar)
    {
      if openTrade.None? { return; }
      barsHeld := barsHeld + 1;
      var perUnit := RiskFor(openTrade.value, riskPerUnit);
      if perUnit <= 0.0 { return; }
      ManageTrade(bar, perUnit);
    }

    method ManageTrade(bar: Bar, perUnit: real)
      requires Wired() && openTrade.Some? && perUnit > 0.0
      modifies this, broker, risk
      ensures bars == old(bars) && View() == ManageAt(cfg, old(View()), bar, perUnit)
    {
      var rNow := OpenR(openTrade.value, bar.close, perUnit);
      PartialProfit(bar, rNow);
      BreakevenStop(rNow);
      if cfg.maxHoldBars > 0 && barsHeld >= cfg.maxHoldBars {
        ClosePosition(bar.timestamp, bar.close);
      }
    }

    method ActOn(signal: Option<Signal>, time: int)
      requires Wired()
      modifies this, broker, risk
      ensures bars == old(bars) && View() == Decide(cfg, old(View()), signal, time)
    {
      if signal.None? || signal.value.kind.Flat? { return; }
      if cfg.symbol in broker.positions || pendingTrade.Some? || openTrade.Some? { return; }
      var v := risk.Evaluate(signal.value, Account(broker.cash, broker.equity, |broker.positions|), time);
      if v.Allow? && v.qty > 0.0 {
        var p := PlanOf(signal.value, time, v.qty);
        var _ := broker.SubmitOrder(OrderOf(p));
        pendingTrade := Some(p);
        log := log.(accepted := log.accepted + [p]);
      }
    }

    method Prepare(bar: Bar)
      requires Wired()
      modifies this, risk
      ensures bars == old(bars) && View() == Housekeep(cfg, old(View()), bar)
    {
      risk.OnBar(broker.equity, bar.timestamp);
      history := history + [bar];
      if cfg.risk.atrMult > 0.0 && |history| > cfg.risk.atrPeriod {
        risk.UpdateAtr(Atr(history, cfg.risk.atrPeriod));
      }
    }

    method StepBar(bar: Bar) returns (equity: real)
      requires Wired()
      modifies this, broker, risk
      ensures bars == old(bars) && View() == Step(cfg, strategy, old(View()), bar) && equity == broker.equity
    {
      Start();
      Prepare(bar);
      Feed(bar);
      ManageOpenTrade(bar);
      seen := seen + [bar];
      ActOn(strategy(seen), bar.timestamp);
      equity := broker.equity;
      curve := curve + [(bar.timestamp, equity)];
    }

    method Finish() returns (ending: real)
      requires Wired()
      modifies this, broker, risk
      ensures bars == old(bars) && View() == Finalize(cfg, old(View()), bars) && ending == broker.equity
    {
      if bars != [] && openTrade.Some? && cfg.symbol in broker.positions {
        var last := bars[|bars| - 1];
        ClosePosition(last.timestamp, last.close);
        if curve != [] {
          curve := curve[|curve| - 1 := (last.timestamp, broker.equity)];
        }
      }
      ending := broker.equity;
    }

    method Run() returns (ending: real)
      requires Wired() && View() == Initial(cfg)
      modifies this, broker, risk
      ensures bars == old(bars) && View() == Batch(cfg, strategy, bars) && ending == broker.equity
    {
      Start();
      for i := 0 to |bars|
        invariant bars == old(bars) && View() == StepAll(cfg, strategy, Begin(Initial(cfg)), bars[..i])
      {
        assert bars[..i + 1][..i] == bars[..i];
        var _ := StepBar(bars[i]);
      }
      assert bars[..|bars|] == bars;
      ending := Finish();
    }
  }
}
