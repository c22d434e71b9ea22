/** When the engines enter (bot/backtester.py, bot/multi_backtester.py): exactly on a signal that the risk manager has
    to approve, while the symbol itself is free. */
module Decisions {
  import opened Types
  import opened Risk
  import opened Paper
  import opened Sizing
  import Ledger
  import Engine = Backtester
  import Portfolio

  /** The signal asks for a trade, and every gate and bound of sizing lets it through. */
  ghost predicate Passes(c: RiskConfig, s: RiskState, b: Book, signal: Signal, r: Sizing.Request) {
    !signal.kind.Flat? && GatesOpen(c, s, signal, Account(b.cash, b.equity, |b.positions|)) && Sizeable(c, r)
  }

  /** The request the signal makes of this account, whatever way it is decided. */
  ghost predicate Asks(c: RiskConfig, s: RiskState, b: Book, signal: Signal, r: Sizing.Request) {
    IsRequest(c, s, signal, Account(b.cash, b.equity, |b.positions|), r)
  }

  /** The signal's trade in the largest quantity within every bound. */
  ghost predicate PlansFor(c: RiskConfig, symbol: Symbol, signal: Signal, time: int, r: Sizing.Request,
                           p: Ledger.Plan) {
    && p.symbol == symbol && p.time == time && (p.side.Buy? <==> signal.kind.Long?) && p.entry == signal.entry
    && p.stop == signal.stopLoss && p.target == signal.takeProfit && Largest(c, r, p.qty)
  }

  /** The order that carries out the plan joins the waiting ones, and nothing else about the account changes. */
  predicate Orders(b: Book, p: Ledger.Plan, a: Book) {
    && a.(pending := b.pending) == b && |a.pending| == |b.pending| + 1 && a.pending[..|b.pending|] == b.pending
    && var o := a.pending[|b.pending|];
       o.symbol == p.symbol && o.side == p.side && o.qty == p.qty && o.stopLoss == p.stop && o.takeProfit == p.target
  }

  // ---- one symbol

  predicate Free(c: Engine.Config, e: Engine.Engine) {
    c.symbol !in e.book.positions && e.ledger.pending.None? && e.ledger.open.None?
  }

  ghost predicate Enters(c: Engine.Config, e: Engine.Engine, signal: Signal, time: int, r: Sizing.Request,
                         f: Engine.Engine) {
    match f.ledger.pending
    case None => false
    case Some(p) =>
      && PlansFor(c.risk, signal.symbol, signal, time, r, p) && Orders(e.book, p, f.book) && f.risk == e.risk
      && f.ledger.open == e.ledger.open && f.ledger.trades == e.ledger.trades
  }

  /** On a bar the engine enters exactly when it is free and the signal passes; else it changes nothing. */
  lemma EngineDecidesExactly(c: Engine.Config, e: Engine.Engine, signal: Option<Signal>, time: int, r: Sizing.Request)
    requires c.risk.Valid() && e.risk.day.Some?
    requires signal.Some? ==> Asks(c.risk, e.risk, e.book, signal.value, r)
    ensures var f := Engine.Decide(c, e, signal, time);
            if signal.Some? && Free(c, e) && Passes(c.risk, e.risk, e.book, signal.value, r)
            then Enters(c, e, signal.value, time, r, f) else f == e
  {
    if signal.Some? && Free(c, e) && !signal.value.kind.Flat? {
      EngineJudges(c, e, signal.value, time, r, Judge(c.risk, e.risk, signal.value, Engine.AccountOf(e.book)));
    }
  }

  lemma EngineJudges(c: Engine.Config, e: Engine.Engine, signal: Signal, time: int, r: Sizing.Request, v: Verdict)
    requires c.risk.Valid() && e.risk.day.Some? && Asks(c.risk, e.risk, e.book, signal, r) && Free(c, e)
    requires !signal.kind.Flat? && v == Judge(c.risk, e.risk, signal, Engine.AccountOf(e.book))
    ensures v.Allow? <==> Passes(c.risk, e.risk, e.book, signal, r)
    ensures v.Allow? ==> Enters(c, e, signal, time, r, Engine.Decide(c, e, Some(signal), time))
    ensures !v.Allow? ==> Engine.Decide(c, e, Some(signal), time) == e
  {
    ApprovedExactly(c.risk, e.risk, signal, Engine.AccountOf(e.book), r);
    if v.Allow? {
      var f := Engine.Decide(c, e, Some(signal), time);
      assert f.book.pending[..|e.book.pending|] == e.book.pending;
    }
  }

  // ---- many symbols

  /** Only its own holdings and orders keep a symbol from entering. */
  predicate FreeFor(s: Symbol, p: Portfolio.State) {
    s !in p.book.positions && s !in p.pending && s !in p.open
  }

  ghost predicate EntersFor(d: Portfolio.Desk, p: Portfolio.State, s: Symbol, signal: Signal, time: int,
                            r: Sizing.Request,
                            q: Portfolio.State) {
    match Lookup(q.pending, s)
    case None => false
    case Some(plan) =>
      && PlansFor(d.risk, s, signal, time, r, plan) && Orders(p.book, plan, q.book) && q.risk == p.risk
      && q.pending == p.pending[s := plan] && q.open == p.open && q.trades == p.trades
  }

  /** On a visit the engine enters exactly when the symbol is free and the signal passes, whatever the other symbols
      hold; else it changes nothing. */
  lemma DeskDecidesExactly(d: Portfolio.Desk, p: Portfolio.State, s: Symbol, signal: Option<Signal>, time: int,
                           r: Sizing.Request)
    requires d.risk.Valid() && p.risk.day.Some?
    requires signal.Some? ==> Asks(d.risk, p.risk, p.book, signal.value, r)
    ensures var q := Portfolio.Decide(d, p, s, signal, time);
            if signal.Some? && FreeFor(s, p) && Passes(d.risk, p.risk, p.book, signal.value, r)
            then EntersFor(d, p, s, signal.value, time, r, q) else q == p
  {
    if signal.Some? && FreeFor(s, p) && !signal.value.kind.Flat? {
      DeskJudges(d, p, s, signal.value, time, r, Judge(d.risk, p.risk, signal.value, Engine.AccountOf(p.book)));
    }
  }

  lemma DeskJudges(d: Portfolio.Desk, p: Portfolio.State, s: Symbol, signal: Signal, time: int, r: Sizing.Request,
                   v: Verdict)
    requires d.risk.Valid() && p.risk.day.Some? && Asks(d.risk, p.risk, p.book, signal, r) && FreeFor(s, p)
    requires !signal.kind.Flat? && v == Judge(d.risk, p.risk, signal, Engine.AccountOf(p.book))
    ensures v.Allow? <==> Passes(d.risk, p.risk, p.book, signal, r)
    ensures v.Allow? ==> EntersFor(d, p, s, signal, time, r, Portfolio.Decide(d, p, s, Some(signal), time))
    ensures !v.Allow? ==> Portfolio.Decide(d, p, s, Some(signal), time) == p
  {
    ApprovedExactly(d.risk, p.risk, signal, Engine.AccountOf(p.book), r);
    if v.Allow? {
      var q := Portfolio.Decide(d, p, s, Some(signal), time);
      assert q.book.pending[..|p.book.pending|] == p.book.pending;
    }
  }
}
