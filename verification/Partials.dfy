/** When the sizing basis follows the account: exactly in engines that take no partial profit (bot/backtester.py). */
module Partials {
  import opened Types
  import opened Folds
  import opened Risk
  import opened Paper
  import opened Ledger
  import opened Backtester
  import opened Books

  /** The booked partial exits. */
  function Parts(ts: seq<Trade>): seq<Trade> {
    if ts == [] then [] else
      var t := ts[|ts| - 1];
      Parts(ts[..|ts| - 1]) + if t.partial then [t] else []
  }

  lemma PartsSnoc(ts: seq<Trade>, t: Trade)
    ensures Parts(ts + [t]) == Parts(ts) + if t.partial then [t] else []
  {
    assert (ts + [t])[..|ts|] == ts;
  }

  lemma {:induction false} NoPartsMeansNonePartial(ts: seq<Trade>)
    ensures Parts(ts) == [] ==> forall t :: t in ts ==> !t.partial
  {
    if ts != [] {
      var n := |ts| - 1;
      NoPartsMeansNonePartial(ts[..n]);
      assert ts == ts[..n] + [ts[n]];
    }
  }

  lemma {:induction false} PartsSum(ts: seq<Trade>)
    ensures SumOf(Pnl(), Parts(ts)) == SumOf(PartialPnl(), ts)
  {
    if ts != [] {
      var n := |ts| - 1;
      PartsSum(ts[..n]);
      SumSnoc(Pnl(), Parts(ts[..n]), ts[n]);
      assert Parts(ts[..n]) + [] == Parts(ts[..n]);
    }
  }

  // ---- nothing but partial profit-taking books a part

  ghost predicate SameParts(e: Engine, f: Engine) { Parts(f.ledger.trades) == Parts(e.ledger.trades) }

  lemma FillBooksNoPart(c: Config, e: Engine, x: Fill)
    ensures SameParts(e, TakeFill(c, e, x))
  {
    if x.role.Exit? && e.ledger.open.Some? { PartsSnoc(e.ledger.trades, ClosedBy(e.ledger, x)); }
  }

  lemma {:induction false} FillsBookNoPart(c: Config, e: Engine, xs: seq<Fill>)
    ensures SameParts(e, TakeFills(c, e, xs))
  {
    if xs != [] {
      FillsBookNoPart(c, e, xs[..|xs| - 1]);
      FillBooksNoPart(c, TakeFills(c, e, xs[..|xs| - 1]), xs[|xs| - 1]);
    }
  }

  lemma FeedBooksNoPart(c: Config, e: Engine, bar: Bar)
    ensures SameParts(e, FeedBar(c, e, bar))
  {
    var (book, xs) := BarOf(c.fees, e.book, c.symbol, bar);
    FillsBookNoPart(c, e.(book := book), xs);
  }

  lemma CloseOutBooksNoPart(c: Config, e: Engine, time: int, price: real)
    ensures SameParts(e, CloseOut(c, e, time, price))
  {
    if c.symbol in e.book.positions {
      var qty := e.book.positions[c.symbol].qty;
      var order := Order(c.symbol, ExitSide(qty), Abs(qty), 0.0, 0.0);
      FeedBooksNoPart(c, e.(book := Serve(c.fees, e.book, Submit(order))), FlatBar(time, price));
    }
  }

  lemma ManageBooksNoPart(c: Config, e: Engine, bar: Bar)
    requires c.partialTpR <= 0.0
    ensures SameParts(e, Manage(c, e, bar))
  {
    if e.ledger.open.Some? && RiskOf(Ticked(e).ledger) > 0.0 {
      var t, risk := Ticked(e), RiskOf(Ticked(e).ledger);
      var rNow := OpenR(t.ledger.open.value, bar.close, risk);
      CloseOutBooksNoPart(c, MoveToBreakeven(c, t, rNow), bar.timestamp, bar.close);
    }
  }

  lemma DecisionBooksNoPart(c: Config, e: Engine, signal: Option<Signal>, time: int)
    ensures SameParts(e, Decide(c, e, signal, time))
  {
  }

  lemma StepBooksNoPart(c: Config, strategy: Strategy, e: Engine, bar: Bar)
    requires c.partialTpR <= 0.0
    ensures SameParts(e, Step(c, strategy, e, bar))
  {
    var e1 := Housekeep(c, Begin(e), bar);
    var e2 := FeedBar(c, e1, bar);
    var e3 := Manage(c, e2, bar);
    var e4 := e3.(seen := e3.seen + [bar]);
    FeedBooksNoPart(c, e1, bar);
    ManageBooksNoPart(c, e2, bar);
    DecisionBooksNoPart(c, e4, strategy(e4.seen), bar.timestamp);
  }

  lemma StepAllBooksNoPart(c: Config, strategy: Strategy, e: Engine, bars: seq<Bar>)
    requires c.partialTpR <= 0.0
    ensures SameParts(e, StepAll(c, strategy, e, bars))
  {
    var f := StepFn(c, strategy);
    ghost var inv := (t: Engine, xs: seq<Bar>) => SameParts(e, t);
    forall t, xs, bar | inv(t, xs) ensures inv(f(t, bar), xs + [bar]) { StepBooksNoPart(c, strategy, t, bar); }
    FoldKeeps(f, e, bars, inv);
  }

  lemma FinalizeBooksNoPart(c: Config, e: Engine, bars: seq<Bar>)
    ensures SameParts(e, Finalize(c, e, bars))
  {
    if bars != [] {
      var last := bars[|bars| - 1];
      CloseOutBooksNoPart(c, e, last.timestamp, last.close);
    }
  }

  /** The sizing basis has moved by what the account gained. */
  ghost predicate BasisAgrees(c: Config, e: Engine) {
    e.risk.realized.Some? && e.risk.realized.value - Base(c) == e.book.equity - c.startingCash
  }

  /** With partial profits switched off, no run books a partial trade, and the basis follows the account. */
  lemma NoPartsWhenOff(c: Config, strategy: Strategy, bars: seq<Bar>)
    requires c.Valid() && c.partialTpR == 0.0 && bars != []
    ensures var e := Batch(c, strategy, bars);
            (forall t :: t in e.ledger.trades ==> !t.partial) && BasisAgrees(c, e)
  {
    var e := Batch(c, strategy, bars);
    StepAllBooksNoPart(c, strategy, Begin(Initial(c)), bars);
    FinalizeBooksNoPart(c, StepAll(c, strategy, Begin(Initial(c)), bars), bars);
    assert Parts(e.ledger.trades) == [];
    NoPartsMeansNonePartial(e.ledger.trades);
    PartsSum(e.ledger.trades);
    BasisMissesPartials(c, strategy, bars);
  }

  // ---- a run in which they differ

  /** One unit on a hundred in cash, free of charges, with a partial profit at p. */
  function Splitting(p: real, frac: real): Config {
    Config("X", RiskConfig(0.5, 1, 0.5, 1.0, 0, 0.0, 1, FixedQuantity, 1.0, None, false, None, None),
           Fees(0.0, 0.0, true), 100.0, 0.0, p, frac, 0)
  }

  /** Buys on the first bar. */
  function Once(): Strategy {
    (seen: seq<Bar>) => if |seen| == 1 then Some(Signal("X", Long, 10.0, 9.0, 0.0)) else None
  }

  const STILL: Bar := Bar(0, 10.0, 10.0, 10.0, 10.0, 0.0)

  function Rise(p: real): Bar { Bar(1, 10.0, 10.0 + p, 10.0, 10.0 + p, 0.0) }

  const BUY_ONE: Plan := Plan("X", 0, Buy, 10.0, 9.0, 0.0, 1.0)

  const BOUGHT: OpenTrade := OpenTrade("X", 0, Buy, 10.0, 9.0, 0.0, 1.0, 1, 10.0, 0.0)

  lemma QuietBar(c: Config, e: Engine, bar: Bar)
    requires e.book.pending == [] && e.book.positions == map[]
    ensures var f := FeedBar(c, e, bar);
            f.ledger == e.ledger && f.risk == e.risk && f.seen == e.seen &&
            f.book.pending == [] && f.book.positions == map[] && f.book.cash == f.book.equity == e.book.cash
  {
    assert FillAll(c.fees, e.book, [], c.symbol, bar) == (e.book, []);
    assert e.book.(pending := Others([], c.symbol)) == e.book;
    assert Trigger(c.fees, e.book, c.symbol, bar) == (e.book, []);
    var none: seq<Fill> := [];
    assert none + none == none;
    assert BarOf(c.fees, e.book, c.symbol, bar) == (Marked(e.book, c.symbol, bar.close), []);
    assert Values(map[], Marked(e.book, c.symbol, bar.close).lastPrice) == map[];
  }

  lemma OneUnitIsAllowed(p: real, frac: real, risk: RiskState)
    requires risk.anchor == 100.0 && risk.cooldown == 0 && risk.starting == risk.realized == Some(100.0)
    ensures Judge(Splitting(p, frac).risk, risk, Once()([STILL]).value, Account(100.0, 100.0, 0)) == Allow(1.0)
  {
  }

  lemma BuyIsAccepted(p: real, frac: real, e: Engine)
    requires e.ledger.pending.None? && e.ledger.open.None? && e.book.positions == map[] && e.risk.day.Some?
    requires e.book.cash == e.book.equity == 100.0
    requires e.risk.anchor == 100.0 && e.risk.cooldown == 0 && e.risk.starting == e.risk.realized == Some(100.0)
    ensures Decide(Splitting(p, frac), e, Once()([STILL]), 0).ledger == Accept(e.ledger, BUY_ONE)
  {
    OneUnitIsAllowed(p, frac, e.risk);
    assert AccountOf(e.book) == Account(100.0, 100.0, 0);
  }

  lemma FirstBarBuys(p: real, frac: real)
    ensures Step(Splitting(p, frac), Once(), Begin(Initial(Splitting(p, frac))), STILL).ledger
          == Accept(Empty(), BUY_ONE)
  {
    var c := Splitting(p, frac);
    var e1 := Housekeep(c, Begin(Initial(c)), STILL);
    QuietBar(c, e1, STILL);
    var e2 := FeedBar(c, e1, STILL);
    assert Manage(c, e2, STILL) == e2;
    var e4 := e2.(seen := e2.seen + [STILL]);
    assert e4.seen == [STILL];
    BuyIsAccepted(p, frac, e4);
  }

  lemma BuyFills(p: real, frac: real, e: Engine)
    requires p > 0.0 && Sync(Splitting(p, frac), e.ledger, e.book) && e.ledger.open.None?
    requires e.ledger.pending == Some(BUY_ONE)
    ensures var l := FeedBar(Splitting(p, frac), e, Rise(p)).ledger;
            l.open == Some(BOUGHT) && l.riskPerUnit == 1.0 && !l.partialDone
  {
    var c, bar := Splitting(p, frac), Rise(p);
    OneOrder(c.fees, e.book, OrderOf(BUY_ONE), c.symbol, bar);
    var (b1, x) := FillOrder(c.fees, e.book, OrderOf(BUY_ONE), bar);
    assert x == Fill("X", Buy, 1.0, 10.0, 1, 0.0, Entry);
    var b2 := b1.(pending := []);
    assert Trigger(c.fees, b2, c.symbol, bar) == (b2, []);
    assert BarOf(c.fees, e.book, c.symbol, bar) == (Marked(b2, c.symbol, bar.close), [x] + []);
    TakeFillsLedger(c, e.(book := Marked(b2, c.symbol, bar.close)), [x]);
    assert [x] + [] == [x] && [x][..0] == [];
    assert LedgerAfter(e.ledger, [x]) == OnFill(LedgerAfter(e.ledger, []), x);
  }

  lemma PartPnl(l: Ledger, x: Fill, p: real, frac: real)
    requires l.open == Some(BOUGHT) && x.price == 10.0 + p && x.fee == 0.0
    ensures PartOf(l, x, frac).pnl == p * frac && PartOf(l, x, frac).partial
  {
    assert Share(BOUGHT, frac).entryFee == 0.0 * (frac / 1.0) == 0.0;
  }

  lemma PartIsBooked(p: real, frac: real, e: Engine)
    requires p > 0.0 && 0.0 < frac < 1.0 && EngineOk(Splitting(p, frac), e)
    requires e.ledger.open == Some(BOUGHT) && e.ledger.riskPerUnit == 1.0 && !e.ledger.partialDone
    requires Parts(e.ledger.trades) == []
    ensures var f := Manage(Splitting(p, frac), e, Rise(p));
            exists t :: Parts(f.ledger.trades) == [t] && t.pnl == p * frac
  {
    var c, bar, t := Splitting(p, frac), Rise(p), Ticked(e);
    TickKeepsEngine(c, e);
    assert OpenR(t.ledger.open.value, bar.close, 1.0) == p;
    PartCloses(c, t.ledger, t.book, frac, bar);
    var x := PartialOf(c.fees, t.book, c.symbol, frac, bar).1.value;
    assert x.price == 10.0 + p && x.fee == 0.0;
    assert Manage(c, e, bar).ledger == OnPartial(t.ledger, x, frac);
    PartPnl(t.ledger, x, p, frac);
    PartsSnoc(t.ledger.trades, PartOf(t.ledger, x, frac));
  }

  lemma SecondBarSplits(p: real, frac: real, e: Engine)
    requires p > 0.0 && 0.0 < frac < 1.0 && EngineOk(Splitting(p, frac), e) && |e.seen| == 1
    requires e.ledger == Accept(Empty(), BUY_ONE)
    ensures exists t :: Parts(Step(Splitting(p, frac), Once(), e, Rise(p)).ledger.trades) == [t] && t.pnl == p * frac
  {
    var c, bar := Splitting(p, frac), Rise(p);
    HousekeepKeeps(c, Begin(e), bar);
    var e1 := Housekeep(c, Begin(e), bar);
    FeedKeeps(c, e1, bar);
    BuyFills(p, frac, e1);
    FeedBooksNoPart(c, e1, bar);
    var e2 := FeedBar(c, e1, bar);
    PartIsBooked(p, frac, e2);
    ManageKeeps(c, e2, bar);
  }

  lemma OnePartIsBooked(p: real, frac: real)
    requires p > 0.0 && 0.0 < frac < 1.0
    ensures var e := StepAll(Splitting(p, frac), Once(), Begin(Initial(Splitting(p, frac))), [STILL, Rise(p)]);
            exists t :: Parts(e.ledger.trades) == [t] && t.pnl == p * frac
  {
    var c := Splitting(p, frac);
    var e0 := Begin(Initial(c));
    InitialIsOk(c);
    StepKeeps(c, Once(), e0, STILL);
    FirstBarBuys(p, frac);
    SecondBarSplits(p, frac, Step(c, Once(), e0, STILL));
    TwoSteps(c, Once(), e0, STILL, Rise(p));
  }

  lemma PartGains(ts: seq<Trade>, t: Trade, p: real, frac: real)
    requires p > 0.0 && 0.0 < frac && Parts(ts) == [t] && t.pnl == p * frac
    ensures SumOf(PartialPnl(), ts) > 0.0
  {
    PartsSum(ts);
    SumSnoc(Pnl(), [], t);
    assert [] + [t] == [t];
    Positive(p, frac);
  }

  /** With any partial target and any fraction there is a run whose basis misses what the account gained: a buy at 10,
      a bar that closes at the target, the end of the data. */
  lemma BasisMissesAPart(p: real, frac: real)
    requires p > 0.0 && 0.0 < frac < 1.0
    ensures var c := Splitting(p, frac); c.Valid() && !BasisAgrees(c, Batch(c, Once(), [STILL, Rise(p)]))
  {
    var c, bars := Splitting(p, frac), [STILL, Rise(p)];
    OnePartIsBooked(p, frac);
    var e := StepAll(c, Once(), Begin(Initial(c)), bars);
    var t :| Parts(e.ledger.trades) == [t] && t.pnl == p * frac;
    FinalizeBooksNoPart(c, e, bars);
    PartGains(Batch(c, Once(), bars).ledger.trades, t, p, frac);
    BasisMissesPartials(c, Once(), bars);
  }

  lemma TwoSteps(c: Config, strategy: Strategy, e: Engine, first: Bar, second: Bar)
    ensures StepAll(c, strategy, e, [first, second]) == Step(c, strategy, Step(c, strategy, e, first), second)
  {
    assert [first, second][..1] == [first] && [first][..0] == [];
    assert Fold(StepFn(c, strategy), e, [first]) == Step(c, strategy, e, first);
  }

  /** The basis follows the account in every run of every configuration with this partial target if and only if the
      target is zero, that is, partial profits are off. */
  lemma BasisAgreesExactlyWithoutPartials(p: real, frac: real)
    requires p >= 0.0 && 0.0 < frac < 1.0
    ensures p == 0.0 <==> forall c: Config, strategy: Strategy, bars: seq<Bar> ::
              c.Valid() && c.partialTpR == p && c.partialTpFrac == frac && bars != [] ==>
                BasisAgrees(c, Batch(c, strategy, bars))
  {
    if p == 0.0 {
      forall c: Config, strategy: Strategy, bars: seq<Bar> |
        c.Valid() && c.partialTpR == p && c.partialTpFrac == frac && bars != []
        ensures BasisAgrees(c, Batch(c, strategy, bars))
      {
        NoPartsWhenOff(c, strategy, bars);
      }
    } else {
      BasisMissesAPart(p, frac);
    }
  }
}
