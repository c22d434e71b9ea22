/** What the in-memory broker fills (bot/brokers/paper.py): which orders, on which bar, at which price, and what the
    books show afterwards. */
module BrokerFills {
  import opened Types
  import opened Folds
  import opened Paper

  /** The waiting orders of a symbol, in the order they were submitted. */
  function Own(orders: seq<Order>, symbol: Symbol): seq<Order> {
    if orders == [] then [] else
      var o := orders[|orders| - 1];
      Own(orders[..|orders| - 1], symbol) + if o.symbol == symbol then [o] else []
  }

  /** The whole quantity traded at the given price, moved against the trader by the slippage, with the fee on what it
      came to. */
  ghost predicate FilledAt(f: Fees, x: Fill, symbol: Symbol, side: Side, qty: real, price: real, time: int) {
    && x.symbol == symbol && x.side == side && x.qty == qty && x.timestamp == time
    && x.price == (if side.Buy? then price + price * f.slipRate else price - price * f.slipRate)
    && x.fee == x.price * qty * f.feeRate
  }

  lemma FillOfIsFilledAt(f: Fees, o: Order, price: real, time: int, role: Role)
    ensures FilledAt(f, FillOf(f, o, Slipped(f, price, o.side), time, role), o.symbol, o.side, o.qty, price, time)
  {
    assert price * (1.0 + f.slipRate) == price + price * f.slipRate;
    assert price * (1.0 - f.slipRate) == price - price * f.slipRate;
  }

  // ---- waiting orders

  /** One fill for each order, in the same order, at the bar's open. */
  ghost predicate FilledAtOpen(f: Fees, xs: seq<Fill>, own: seq<Order>, bar: Bar) {
    |xs| == |own| && forall i :: 0 <= i < |own| ==>
      FilledAt(f, xs[i], own[i].symbol, own[i].side, own[i].qty, bar.open, bar.timestamp)
  }

  lemma FillIsAtOpen(f: Fees, b: Book, o: Order, bar: Bar)
    ensures FilledAt(f, FillOrder(f, b, o, bar).1, o.symbol, o.side, o.qty, bar.open, bar.timestamp)
  {
    FillOfIsFilledAt(f, o, bar.open, bar.timestamp, RoleOf(b, o));
  }

  lemma FilledNext(f: Fees, xs: seq<Fill>, own: seq<Order>, bar: Bar, x: Fill, o: Order)
    requires FilledAtOpen(f, xs, own, bar)
    requires FilledAt(f, x, o.symbol, o.side, o.qty, bar.open, bar.timestamp)
    ensures FilledAtOpen(f, xs + [x], own + [o], bar)
  {
  }

  lemma {:induction false} WaitingFillAtOpen(f: Fees, b: Book, orders: seq<Order>, symbol: Symbol, bar: Bar)
    ensures FilledAtOpen(f, FillAll(f, b, orders, symbol, bar).1, Own(orders, symbol), bar)
    decreases |orders|
  {
    if orders != [] {
      var n := |orders| - 1;
      WaitingFillAtOpen(f, b, orders[..n], symbol, bar);
      var (c, xs) := FillAll(f, b, orders[..n], symbol, bar);
      if orders[n].symbol == symbol {
        FillIsAtOpen(f, c, orders[n], bar);
        FilledNext(f, xs, Own(orders[..n], symbol), bar, FillOrder(f, c, orders[n], bar).1, orders[n]);
      } else {
        assert Own(orders, symbol) == Own(orders[..n], symbol);
      }
    }
  }

  /** An order that trades against the position is an exit; any other is an entry, and if it carries exit prices its
      stop is the bracket's stop and its target the bracket's target. No other bracket changes. */
  lemma EntryArmsBracket(f: Fees, b: Book, o: Order, bar: Bar)
    ensures var (d, x) := FillOrder(f, b, o, bar);
            && (x.role.Exit? <==> Held(b, o.symbol) * o.side.Of(1.0) < 0.0) && (x.role.Exit? || x.role.Entry?)
            && (x.role.Entry? && (o.stopLoss != 0.0 || o.takeProfit != 0.0) ==>
                  o.symbol in d.brackets && d.brackets[o.symbol].stop == o.stopLoss
                    && d.brackets[o.symbol].target == o.takeProfit)
            && (x.role.Exit? || (o.stopLoss == 0.0 && o.takeProfit == 0.0) ==> d.brackets == b.brackets)
            && (forall s :: s != o.symbol ==> Lookup(d.brackets, s) == Lookup(b.brackets, s))
  {
  }

  // ---- brackets

  /** The bar reaches the level: from above for one below the market, from below for one above it. */
  predicate Reached(level: real, below: bool, bar: Bar) {
    level != 0.0 && if below then bar.low <= level else bar.high >= level
  }

  /** A long position is stopped from below and takes its profit above, a short one the other way round; when both
      levels are reached the configured one counts; and no level that is not reached does anything. */
  lemma LevelsCloseExactly(f: Fees, k: Bracket, qty: real, bar: Bar)
    requires qty != 0.0
    ensures var price := Triggered(f, k, qty, bar);
            var stop, target := Reached(k.stop, qty > 0.0, bar), Reached(k.target, qty < 0.0, bar);
            && (price.None? <==> !stop && !target)
            && (stop && (f.stopFirst || !target) ==> price == Some(k.stop))
            && (target && (!f.stopFirst || !stop) ==> price == Some(k.target))
  {
  }

  /** The bracket exit of a bar: the whole position, traded to zero at the level that counts; the bracket is gone. */
  ghost predicate BracketExit(f: Fees, b: Book, symbol: Symbol, bar: Bar, x: Fill) {
    && symbol in b.positions && symbol in b.brackets && x.role.Exit?
    && var qty, k := b.positions[symbol].qty, b.brackets[symbol];
       var stop, target := Reached(k.stop, qty > 0.0, bar), Reached(k.target, qty < 0.0, bar);
       && (stop || target)
       && FilledAt(f, x, symbol, if qty > 0.0 then Sell else Buy, if qty > 0.0 then qty else -qty,
                   if stop && (f.stopFirst || !target) then k.stop else k.target, bar.timestamp)
  }

  lemma TriggerIsBracketExit(f: Fees, b: Book, symbol: Symbol, bar: Bar)
    requires forall s :: s in b.positions ==> b.positions[s].qty != 0.0
    ensures var (d, ys) := Trigger(f, b, symbol, bar);
            && (ys == [] || (|ys| == 1 && BracketExit(f, b, symbol, bar, ys[0])))
            && (ys == [] ==> d == b && (symbol in b.positions && symbol in b.brackets ==>
                  !Reached(b.brackets[symbol].stop, b.positions[symbol].qty > 0.0, bar) &&
                  !Reached(b.brackets[symbol].target, b.positions[symbol].qty < 0.0, bar)))
            && (ys != [] ==> symbol !in d.positions && symbol !in d.brackets)
  {
    if symbol in b.positions && symbol in b.brackets {
      var qty := b.positions[symbol].qty;
      var price := Triggered(f, b.brackets[symbol], qty, bar);
      LevelsCloseExactly(f, b.brackets[symbol], qty, bar);
      if price.Some? {
        var o := Order(symbol, ExitSide(qty), Abs(qty), 0.0, 0.0);
        FillOfIsFilledAt(f, o, price.value, bar.timestamp, Exit);
      }
    }
  }

  // ---- whole bars

  /** Every position at its latest price, or at its average price before any bar of its symbol. */
  ghost function AtMarket(b: Book): map<Symbol, real> {
    map s | s in b.positions ::
      b.positions[s].qty * if s in b.lastPrice then b.lastPrice[s] else b.positions[s].avgPrice
  }

  ghost predicate MarkedToMarket(b: Book) { b.equity == b.cash + SumMap(AtMarket(b)) }

  lemma WorthIsMarked(b: Book)
    requires b.equity == Worth(b)
    ensures MarkedToMarket(b)
  {
    forall s | s in b.positions ensures AtMarket(b)[s] == Values(b.positions, b.lastPrice)[s] {}
    assert AtMarket(b) == Values(b.positions, b.lastPrice);
  }

  /** The fills of a bar: first the waiting orders of its symbol at the open, then at most one exit of what is then
      held; afterwards its close is the symbol's latest price and every position is marked. */
  ghost predicate BarFilled(f: Fees, b: Book, symbol: Symbol, bar: Bar, d: Book, out: seq<Fill>) {
    var (c, xs) := FillAll(f, b, b.pending, symbol, bar);
    && xs <= out && FilledAtOpen(f, xs, Own(b.pending, symbol), bar)
    && (out == xs || (|out| == |xs| + 1 && BracketExit(f, c, symbol, bar, out[|xs|]) && symbol !in d.positions))
    && d.lastPrice == b.lastPrice[symbol := bar.close] && MarkedToMarket(d)
  }

  lemma {:induction false} FillAllLeavesPrices(f: Fees, b: Book, orders: seq<Order>, symbol: Symbol, bar: Bar)
    ensures FillAll(f, b, orders, symbol, bar).0.lastPrice == b.lastPrice
    decreases |orders|
  {
    if orders != [] { FillAllLeavesPrices(f, b, orders[..|orders| - 1], symbol, bar); }
  }

  lemma BarFillsInOrder(f: Fees, b: Book, symbol: Symbol, bar: Bar, start: real)
    requires Consistent(b, start)
    ensures BarFilled(f, b, symbol, bar, BarOf(f, b, symbol, bar).0, BarOf(f, b, symbol, bar).1)
  {
    var (c, xs) := FillAll(f, b, b.pending, symbol, bar);
    WaitingFillAtOpen(f, b, b.pending, symbol, bar);
    FillAllKeeps(f, b, b.pending, symbol, bar, start);
    FillAllLeavesPrices(f, b, b.pending, symbol, bar);
    TriggerIsBracketExit(f, c.(pending := Others(b.pending, symbol)), symbol, bar);
    WorthIsMarked(BarOf(f, b, symbol, bar).0);
  }

  // ---- partial closes and stops

  /** Part of a position is closed at the close of the bar exactly when something remains. */
  lemma PartIsFilledAtClose(f: Fees, b: Book, symbol: Symbol, qty: real, bar: Bar)
    ensures var (d, x) := PartialOf(f, b, symbol, qty, bar);
            var held := Held(b, symbol);
            && (x.Some? <==> (held > 0.0 && 0.0 < qty < held) || (held < 0.0 && 0.0 < qty < -held))
            && (x.None? ==> d == b)
            && (x.Some? ==>
                  FilledAt(f, x.value, symbol, if held > 0.0 then Sell else Buy, qty, bar.close, bar.timestamp))
            && (x.Some? ==> Held(d, symbol) == (if held > 0.0 then held - qty else held + qty))
            && (x.Some? ==> d.lastPrice == b.lastPrice[symbol := bar.close] && d.brackets == b.brackets)
  {
    if symbol in b.positions {
      var side := ExitSide(b.positions[symbol].qty);
      FillOfIsFilledAt(f, Order(symbol, side, qty, 0.0, 0.0), bar.close, bar.timestamp, PartialExit);
    }
  }

  /** A stop that moves is nearer to the market, and nothing else moves with it. */
  lemma StopMovesInFavour(b: Book, symbol: Symbol, stop: real)
    requires symbol in b.positions && b.positions[symbol].qty != 0.0 && symbol in b.brackets
    ensures var d, long, was := StopOf(b, symbol, stop), b.positions[symbol].qty > 0.0, b.brackets[symbol].stop;
            && (d.Some? <==> stop > 0.0 && if long then stop > was else was == 0.0 || stop < was)
            && (d.Some? ==> d.value == b.(brackets := d.value.brackets) && symbol in d.value.brackets)
            && (d.Some? ==> d.value.brackets[symbol].stop == stop)
            && (d.Some? ==> d.value.brackets[symbol].target == b.brackets[symbol].target)
            && (d.Some? ==> forall s :: s != symbol ==> Lookup(d.value.brackets, s) == Lookup(b.brackets, s))
  {
  }
}
