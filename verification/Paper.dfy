/** The in-memory broker both engines trade against (bot/brokers/paper.py): market orders filled at the next
    bar's open, one position per symbol, stop and target brackets, slippage and fees. */
module Paper {
  import opened Types
  import opened Folds

  /** Fee and slippage per side as fractions; whether the stop wins when a bar touches stop and target. */
  datatype Fees = Fees(feeRate: real, slipRate: real, stopFirst: bool)

  datatype Bracket = Bracket(stop: real, target: real)

  datatype Book = Book(
    cash: real, equity: real, positions: map<Symbol, Position>, pending: seq<Order>,
    brackets: map<Symbol, Bracket>, lastPrice: map<Symbol, real>, fills: seq<Fill>)

  function Slipped(f: Fees, price: real, side: Side): real {
    if side.Buy? then price * (1.0 + f.slipRate) else price * (1.0 - f.slipRate)
  }

  /** The average price of v at x and w at y. */
  function Weighted(x: real, v: real, y: real, w: real, whole: real): real
    requires whole != 0.0
  {
    (x * v + y * w) / whole
  }

  /** The position after trading the signed quantity: opened, closed, flipped, reduced or averaged up. */
  function Traded(pos: Option<Position>, signed: real, price: real): Option<Position> {
    if pos.None? then Some(Position(signed, price)) else
      var q := pos.value.qty + signed;
      if q == 0.0 then None
      else if pos.value.qty * q < 0.0 then Some(Position(q, price))
      else if Abs(q) < Abs(pos.value.qty) then Some(Position(q, pos.value.avgPrice))
      else Some(Position(q, Weighted(pos.value.avgPrice, pos.value.qty, price, signed, q)))
  }

  function Lookup<V>(m: map<Symbol, V>, s: Symbol): Option<V> { if s in m then Some(m[s]) else None }

  function FillOf(f: Fees, o: Order, price: real, time: int, role: Role): Fill {
    Fill(o.symbol, o.side, o.qty, price, time, price * o.qty * f.feeRate, role)
  }

  /** Book a fill: cash moves by its signed cost and its fee. */
  function Execute(b: Book, x: Fill): Book {
    var signed := x.side.Of(x.qty);
    var after := Traded(Lookup(b.positions, x.symbol), signed, x.price);
    b.(positions := if after.None? then b.positions - {x.symbol} else b.positions[x.symbol := after.value],
       cash := b.cash - signed * x.price - x.fee,
       fills := b.fills + [x])
  }

  /** Trading against the open position is an exit, anything else an entry. */
  function RoleOf(b: Book, o: Order): Role {
    if o.symbol in b.positions
       && ((b.positions[o.symbol].qty > 0.0 && o.side.Sell?) || (b.positions[o.symbol].qty < 0.0 && o.side.Buy?))
    then Exit else Entry
  }

  /** Fill one waiting order at the bar's open; an entry that carries exits arms a bracket. */
  function FillOrder(f: Fees, b: Book, o: Order, bar: Bar): (r: (Book, Fill)) {
    var x := FillOf(f, o, Slipped(f, bar.open, o.side), bar.timestamp, RoleOf(b, o));
    var c := Execute(b, x);
    if x.role.Entry? && (o.stopLoss != 0.0 || o.takeProfit != 0.0)
    then (c.(brackets := c.brackets[o.symbol := Bracket(o.stopLoss, o.takeProfit)]), x)
    else (c, x)
  }

  /** The waiting orders of `symbol`, filled in order. */
  function FillAll(f: Fees, b: Book, orders: seq<Order>, symbol: Symbol, bar: Bar): (Book, seq<Fill>) {
    if orders == [] then (b, []) else
      var (c, xs) := FillAll(f, b, orders[..|orders| - 1], symbol, bar);
      var o := orders[|orders| - 1];
      if o.symbol != symbol then (c, xs) else
        var (d, x) := FillOrder(f, c, o, bar);
        (d, xs + [x])
  }

  function Others(orders: seq<Order>, symbol: Symbol): seq<Order> {
    if orders == [] then [] else
      var rest := Others(orders[..|orders| - 1], symbol);
      if orders[|orders| - 1].symbol == symbol then rest else rest + [orders[|orders| - 1]]
  }

  /** The bracket price this bar triggers for a position of the given quantity; a zero level is absent. */
  function Triggered(f: Fees, k: Bracket, qty: real, bar: Bar): Option<real> {
    var stopHit := k.stop != 0.0 && if qty > 0.0 then bar.low <= k.stop else bar.high >= k.stop;
    var targetHit := k.target != 0.0 && if qty > 0.0 then bar.high >= k.target else bar.low <= k.target;
    if stopHit && targetHit then Some(if f.stopFirst then k.stop else k.target)
    else if stopHit then Some(k.stop)
    else if targetHit then Some(k.target)
    else None
  }

  function ExitSide(qty: real): Side { if qty > 0.0 then Sell else Buy }

  /** Close the whole position when its bracket triggers. */
  function Trigger(f: Fees, b: Book, symbol: Symbol, bar: Bar): (Book, seq<Fill>) {
    if symbol !in b.positions || symbol !in b.brackets then (b, []) else
      var qty := b.positions[symbol].qty;
      var price := Triggered(f, b.brackets[symbol], qty, bar);
      if price.None? then (b, []) else
        var o := Order(symbol, ExitSide(qty), Abs(qty), 0.0, 0.0);
        var x := FillOf(f, o, Slipped(f, price.value, o.side), bar.timestamp, Exit);
        var c := Execute(b, x);
        (c.(brackets := c.brackets - {symbol}), [x])
  }

  /** The value of a position at the latest price, or at its average price before any bar of its symbol. */
  function ValueOf(positions: map<Symbol, Position>, lastPrice: map<Symbol, real>, s: Symbol): real
    requires s in positions
  { positions[s].qty * if s in lastPrice then lastPrice[s] else positions[s].avgPrice }

  ghost function Values(positions: map<Symbol, Position>, lastPrice: map<Symbol, real>): map<Symbol, real> {
    map s | s in positions :: ValueOf(positions, lastPrice, s)
  }

  /** Cash plus the marked value of every position. */
  ghost function Worth(b: Book): real { b.cash + SumMap(Values(b.positions, b.lastPrice)) }

  /** Record the price and mark every position to market. */
  ghost function Marked(b: Book, symbol: Symbol, price: real): Book {
    var c := b.(lastPrice := b.lastPrice[symbol := price]);
    c.(equity := Worth(c))
  }

  ghost function BarOf(f: Fees, b: Book, symbol: Symbol, bar: Bar): (Book, seq<Fill>) {
    var (c, xs) := FillAll(f, b, b.pending, symbol, bar);
    var (d, ys) := Trigger(f, c.(pending := Others(b.pending, symbol)), symbol, bar);
    (Marked(d, symbol, bar.close), xs + ys)
  }

  /** Close part of a position at the bar's close; refused unless something remains. */
  ghost function PartialOf(f: Fees, b: Book, symbol: Symbol, qty: real, bar: Bar): (Book, Option<Fill>) {
    if qty <= 0.0 || symbol !in b.positions || qty >= Abs(b.positions[symbol].qty) then (b, None) else
      var side := ExitSide(b.positions[symbol].qty);
      var x := FillOf(f, Order(symbol, side, qty, 0.0, 0.0), Slipped(f, bar.close, side), bar.timestamp, PartialExit);
      (Marked(Execute(b, x), symbol, bar.close), Some(x))
  }

  /** A stop only moves in the position's favour. */
  function StopOf(b: Book, symbol: Symbol, stop: real): Option<Book> {
    if stop <= 0.0 || symbol !in b.positions || symbol !in b.brackets then None else
      var k := b.brackets[symbol];
      if (if b.positions[symbol].qty > 0.0 then stop > k.stop else k.stop == 0.0 || stop < k.stop)
      then Some(b.(brackets := b.brackets[symbol := k.(stop := stop)]))
      else None
  }

  function Opening(cash: real): Book { Book(cash, cash, map[], [], map[], map[], []) }

  method TotalValue(positions: map<Symbol, Position>, lastPrice: map<Symbol, real>) returns (total: real)
    ensures total == SumMap(Values(positions, lastPrice))
  {
    ghost var values := Values(positions, lastPrice);
    total := 0.0;
    var rest := positions.Keys;
    ghost var left := values;
    while rest != {}
      invariant rest <= positions.Keys && left == map s | s in rest :: values[s]
      invariant total + SumMap(left) == SumMap(values)
      decreases |rest|
    {
      var s :| s in rest;
      SumMapAt(left, s);
      total, rest, left := total + ValueOf(positions, lastPrice, s), rest - {s}, left - {s};
    }
  }

  class PaperBroker {
    const fees: Fees
    var cash: real
    var equity: real
    var positions: map<Symbol, Position>
    var pending: seq<Order>
    var brackets: map<Symbol, Bracket>
    var lastPrice: map<Symbol, real>
    var fills: seq<Fill>

    function View(): Book
      reads this
    {
      Book(cash, equity, positions, pending, brackets, lastPrice, fills)
    }

    constructor (fees: Fees, startingCash: real)
      ensures this.fees == fees && View() == Opening(startingCash)
    {
      this.fees := fees;
      cash, equity, positions, pending := startingCash, startingCash, map[], [];
      brackets, lastPrice, fills := map[], map[], [];
    }

    method SubmitOrder(o: Order) returns (accepted: bool)
      modifies this`pending
      ensures accepted <==> o.qty > 0.0
      ensures View() == if accepted then old(View()).(pending := old(pending) + [o]) else old(View())
    {
      accepted := o.qty > 0.0;
      if accepted { pending := pending + [o]; }
    }

    method Record(x: Fill)
      modifies this
      ensures View() == Execute(old(View()), x)
    {
      var signed := x.side.Of(x.qty);
      var after := Traded(Lookup(positions, x.symbol), signed, x.price);
      if after.None? {
        positions := positions - {x.symbol};
      } else {
        positions := positions[x.symbol := after.value];
      }
      cash := cash - signed * x.price;
      cash := cash - x.fee;
      fills := fills + [x];
    }

    method Mark(symbol: Symbol, price: real)
      modifies this
      ensures View() == Marked(old(View()), symbol, price)
    {
      lastPrice := lastPrice[symbol := price];
      var value := TotalValue(positions, lastPrice);
      equity := cash + value;
    }

    method OnBar(symbol: Symbol, bar: Bar) returns (out: seq<Fill>)
      modifies this
      ensures (View(), out) == BarOf(fees, old(View()), symbol, bar)
    {
      out := [];
      var kept: seq<Order> := [];
      for i := 0 to |pending|
        invariant pending == old(pending)
        invariant (View(), out) == FillAll(fees, old(View()), old(pending)[..i], symbol, bar)
        invariant kept == Others(old(pending)[..i], symbol)
      {
        assert old(pending)[..i + 1][..i] == old(pending)[..i];
        var o := pending[i];
        if o.symbol != symbol {
          kept := kept + [o];
        } else {
          var x := FillOf(fees, o, Slipped(fees, bar.open, o.side), bar.timestamp, RoleOf(View(), o));
          Record(x);
          if x.role.Entry? && (o.stopLoss != 0.0 || o.takeProfit != 0.0) {
            brackets := brackets[o.symbol := Bracket(o.stopLoss, o.takeProfit)];
          }
          out := out + [x];
        }
      }
      assert old(pending)[..|pending|] == old(pending);
      pending := kept;
      var more := FireBracket(symbol, bar);
      Mark(symbol, bar.close);
      out := out + more;
    }

    method FireBracket(symbol: Symbol, bar: Bar) returns (out: seq<Fill>)
      modifies this
      ensures (View(), out) == Trigger(fees, old(View()), symbol, bar)
    {
      out := [];
      if symbol in positions && symbol in brackets {
        var qty := positions[symbol].qty;
        var price := Triggered(fees, brackets[symbol], qty, bar);
        if price.Some? {
          var side := ExitSide(qty);
          var x := FillOf(fees, Order(symbol, side, Abs(qty), 0.0, 0.0), Slipped(fees, price.value, side),
                          bar.timestamp, Exit);
          Record(x);
          brackets := brackets - {symbol};
          out := [x];
        }
      }
    }

    method PartialClose(symbol: Symbol, qty: real, bar: Bar) returns (x: Option<Fill>)
      modifies this
      ensures (View(), x) == PartialOf(fees, old(View()), symbol, qty, bar)
    {
      if qty <= 0.0 || symbol !in positions || qty >= Abs(positions[symbol].qty) { return None; }
      var side := ExitSide(positions[symbol].qty);
      var fill := FillOf(fees, Order(symbol, side, qty, 0.0, 0.0), Slipped(fees, bar.close, side),
                         bar.timestamp, PartialExit);
      Record(fill);
      Mark(symbol, bar.close);
      return Some(fill);
    }

    method ModifyStop(symbol: Symbol, stop: real) returns (moved: bool)
      modifies this`brackets
      ensures moved <==> StopOf(old(View()), symbol, stop).Some?
      ensures View() == if moved then StopOf(old(View()), symbol, stop).value else old(View())
    {
      if stop <= 0.0 || symbol !in positions || symbol !in brackets { return false; }
      var k := brackets[symbol];
      moved := if positions[symbol].qty > 0.0 then stop > k.stop else k.stop == 0.0 || stop < k.stop;
      if moved { brackets := brackets[symbol := k.(stop := stop)]; }
    }
  }

  // ---- prices

  /** Slippage never helps: a buyer pays no less than the price and a seller gets no more. */
  lemma SlippageIsAdverse(f: Fees, price: real, side: Side)
    requires price >= 0.0 && f.slipRate >= 0.0
    ensures side.Of(Slipped(f, price, side)) >= side.Of(price)
  {
    assert price * (1.0 + f.slipRate) == price + price * f.slipRate;
    assert price * (1.0 - f.slipRate) == price - price * f.slipRate;
    NotNegative(price, f.slipRate);
  }

  lemma NotNegative(x: real, y: real)
    requires x >= 0.0 && y >= 0.0
    ensures x * y >= 0.0
  {
  }

  /** A level inside the bar's range closes the position, the stop first if so configured; nothing happens while the bar
      stays strictly between the two levels; and it is always one of the two levels that closes. */
  lemma LevelsAreReached(f: Fees, k: Bracket, qty: real, bar: Bar)
    requires qty != 0.0 && bar.low <= bar.high
    ensures var price := Triggered(f, k, qty, bar);
            && (k.stop != 0.0 && bar.low <= k.stop <= bar.high ==>
                  price.Some? && (f.stopFirst ==> price.value == k.stop))
            && (k.target != 0.0 && bar.low <= k.target <= bar.high ==>
                  price.Some? && (!f.stopFirst ==> price.value == k.target))
            && (qty > 0.0 && k.stop < bar.low && bar.high < k.target ==> price.None?)
            && (qty < 0.0 && k.target < bar.low && bar.high < k.stop ==> price.None?)
            && (price.Some? ==> price.value != 0.0 && price.value in {k.stop, k.target})
  {
  }

  /** Long and short positions are treated alike: upside down, the same level closes. */
  lemma BracketMirrors(f: Fees, k: Bracket, qty: real, bar: Bar)
    requires qty != 0.0
    ensures var price := Triggered(f, k, qty, bar);
            Triggered(f, Bracket(-k.stop, -k.target), -qty, MirrorBar(bar)) ==
              if price.Some? then Some(-price.value) else None
  {
  }

  lemma Between(x: real, v: real, y: real, w: real, whole: real)
    requires v > 0.0 && w > 0.0 && whole == v + w && x <= y
    ensures x <= Weighted(x, v, y, w, whole) <= y
  {
    var q := Weighted(x, v, y, w, whole);
    assert q * whole == x * v + y * w;
    NotNegative(y - x, v);
    NotNegative(y - x, w);
    assert (q - x) * whole == (y - x) * w;
    assert (y - q) * whole == (y - x) * v;
    SameSign(q - x, whole);
    SameSign(y - q, whole);
  }

  lemma WeightedSwaps(x: real, v: real, y: real, w: real, whole: real)
    requires whole != 0.0
    ensures Weighted(x, v, y, w, whole) == Weighted(y, w, x, v, whole)
  {
  }

  lemma WeightedNegates(x: real, v: real, y: real, w: real, whole: real)
    requires whole != 0.0
    ensures Weighted(x, v, y, w, whole) == Weighted(x, -v, y, -w, -whole)
  {
    var q, r := Weighted(x, v, y, w, whole), Weighted(x, -v, y, -w, -whole);
    assert q * whole == x * v + y * w;
    assert r * -whole == x * -v + y * -w;
    assert (q - r) * whole == 0.0;
  }

  lemma SameSign(x: real, y: real)
    requires y > 0.0 && x * y >= 0.0
    ensures x >= 0.0
  {
  }

  predicate SameDirection(x: real, y: real) { (x > 0.0 && y > 0.0) || (x < 0.0 && y < 0.0) }

  lemma WeightedLiesBetween(x: real, v: real, y: real, w: real, whole: real)
    requires SameDirection(v, w) && whole == v + w
    ensures Min(x, y) <= Weighted(x, v, y, w, whole) <= Max(x, y)
  {
    if v > 0.0 {
      if x <= y { Between(x, v, y, w, whole); } else { Between(y, w, x, v, whole); WeightedSwaps(x, v, y, w, whole); }
    } else {
      WeightedNegates(x, v, y, w, whole);
      if x <= y {
        Between(x, -v, y, -w, -whole);
      } else {
        Between(y, -w, x, -v, -whole);
        WeightedSwaps(x, -v, y, -w, -whole);
      }
    }
  }

  /** Adding to a position averages: its price times its quantity is what all of it cost, and so lies between the old
      average and the price paid. */
  lemma AverageLiesBetween(pos: Position, signed: real, price: real)
    requires SameDirection(pos.qty, signed)
    ensures var after := Traded(Some(pos), signed, price);
            after.Some? && after.value.qty == pos.qty + signed &&
            after.value.avgPrice * after.value.qty == pos.avgPrice * pos.qty + price * signed &&
            Min(pos.avgPrice, price) <= after.value.avgPrice <= Max(pos.avgPrice, price)
  {
    SameSideProduct(pos.qty, pos.qty + signed);
    WeightedLiesBetween(pos.avgPrice, pos.qty, price, signed, pos.qty + signed);
  }

  /** Trading against a position closes it, keeps the average of what is left, or opens the rest at the price of the
      fill. */
  lemma ReducingKeepsAverage(pos: Position, signed: real, price: real)
    requires SameDirection(pos.qty, -signed)
    ensures var after, left := Traded(Some(pos), signed, price), pos.qty + signed;
            && (after.None? <==> left == 0.0)
            && (after.Some? ==>
                  after.value == Position(left, if SameDirection(pos.qty, left) then pos.avgPrice else price))
  {
    SameSideProduct(pos.qty, pos.qty + signed);
  }

  lemma SameSideProduct(x: real, y: real)
    requires x != 0.0
    ensures x * y < 0.0 <==> (x > 0.0 && y < 0.0) || (x < 0.0 && y > 0.0)
  {
  }

  // ---- what every operation keeps

  /** The signed quantity of symbol s traded by the fills. */
  function Net(fills: seq<Fill>, s: Symbol): real {
    if fills == [] then 0.0 else
      var x := fills[|fills| - 1];
      Net(fills[..|fills| - 1], s) + if x.symbol == s then x.side.Of(x.qty) else 0.0
  }

  /** What the fills cost: signed notional and fees. */
  function Spent(fills: seq<Fill>): real {
    if fills == [] then 0.0 else
      var x := fills[|fills| - 1];
      Spent(fills[..|fills| - 1]) + x.side.Of(x.qty) * x.price + x.fee
  }

  function Held(b: Book, s: Symbol): real { if s in b.positions then b.positions[s].qty else 0.0 }

  /** Cash and positions are exactly what the fills account for, no position is empty, and equity is cash plus
      the marked value of the positions. */
  ghost predicate Consistent(b: Book, start: real) {
    && b.cash == start - Spent(b.fills)
    && (forall s :: Held(b, s) == Net(b.fills, s))
    && (forall s :: s in b.positions ==> b.positions[s].qty != 0.0)
    && (forall o :: o in b.pending ==> o.qty > 0.0)
  }

  lemma ExecuteKeeps(b: Book, start: real, x: Fill)
    requires Consistent(b, start) && x.qty > 0.0
    ensures Consistent(Execute(b, x), start)
    ensures Held(Execute(b, x), x.symbol) == Held(b, x.symbol) + x.side.Of(x.qty)
  {
    var c := Execute(b, x);
    assert c.fills[..|c.fills| - 1] == b.fills;
    forall s ensures Held(c, s) == Net(c.fills, s) {
      assert Held(b, s) == Net(b.fills, s);
    }
  }

  lemma {:induction false} FillAllKeeps(f: Fees, b: Book, orders: seq<Order>, symbol: Symbol, bar: Bar, start: real)
    requires Consistent(b, start) && forall o :: o in orders ==> o.qty > 0.0
    ensures Consistent(FillAll(f, b, orders, symbol, bar).0, start)
    ensures FillAll(f, b, orders, symbol, bar).0.pending == b.pending
    decreases |orders|
  {
    if orders != [] {
      FillAllKeeps(f, b, orders[..|orders| - 1], symbol, bar, start);
      var c, o := FillAll(f, b, orders[..|orders| - 1], symbol, bar).0, orders[|orders| - 1];
      ExecuteKeeps(c, start, FillOf(f, o, Slipped(f, bar.open, o.side), bar.timestamp, RoleOf(c, o)));
    }
  }

  lemma {:induction false} OthersAreWaiting(orders: seq<Order>, symbol: Symbol)
    ensures forall o :: o in Others(orders, symbol) <==> o in orders && o.symbol != symbol
  {
    if orders != [] {
      OthersAreWaiting(orders[..|orders| - 1], symbol);
      assert orders == orders[..|orders| - 1] + [orders[|orders| - 1]];
    }
  }

  lemma BarKeeps(f: Fees, b: Book, symbol: Symbol, bar: Bar, start: real)
    requires Consistent(b, start)
    ensures var c := BarOf(f, b, symbol, bar).0;
            Consistent(c, start) && c.equity == Worth(c) &&
            forall o :: o in c.pending <==> o in b.pending && o.symbol != symbol
  {
    FillAllKeeps(f, b, b.pending, symbol, bar, start);
    OthersAreWaiting(b.pending, symbol);
    var c := FillAll(f, b, b.pending, symbol, bar).0.(pending := Others(b.pending, symbol));
    if symbol in c.positions && symbol in c.brackets {
      var qty := c.positions[symbol].qty;
      var price := Triggered(f, c.brackets[symbol], qty, bar);
      if price.Some? {
        var o := Order(symbol, ExitSide(qty), Abs(qty), 0.0, 0.0);
        ExecuteKeeps(c, start, FillOf(f, o, Slipped(f, price.value, o.side), bar.timestamp, Exit));
      }
    }
    var d := Trigger(f, c, symbol, bar).0;
    assert Consistent(d, start);
    MarkKeeps(d, symbol, bar.close, start);
  }

  lemma MarkKeeps(b: Book, symbol: Symbol, price: real, start: real)
    requires Consistent(b, start)
    ensures var c := Marked(b, symbol, price);
            Consistent(c, start) && c.equity == Worth(c) && c.pending == b.pending
  {
    var c := Marked(b, symbol, price);
    forall s ensures Held(c, s) == Net(c.fills, s) { assert Held(b, s) == Net(b.fills, s); }
  }

  lemma PartialKeeps(f: Fees, b: Book, symbol: Symbol, qty: real, bar: Bar, start: real)
    requires Consistent(b, start)
    ensures Consistent(PartialOf(f, b, symbol, qty, bar).0, start)
    ensures PartialOf(f, b, symbol, qty, bar).1.Some? ==>
              Held(PartialOf(f, b, symbol, qty, bar).0, symbol) * Held(b, symbol) > 0.0
  {
    if qty > 0.0 && symbol in b.positions && qty < Abs(b.positions[symbol].qty) {
      var held := b.positions[symbol].qty;
      var side := ExitSide(held);
      var x := FillOf(f, Order(symbol, side, qty, 0.0, 0.0), Slipped(f, bar.close, side), bar.timestamp, PartialExit);
      ExecuteKeeps(b, start, x);
      MarkKeeps(Execute(b, x), symbol, bar.close, start);
      var after := Held(Execute(b, x), symbol);
      assert after == held + side.Of(qty);
      assert after * held > 0.0;
    }
  }

  datatype Request =
    | Submit(order: Order)
    | Feed(symbol: Symbol, bar: Bar)
    | Reduce(symbol: Symbol, qty: real, bar: Bar)
    | MoveStop(symbol: Symbol, stop: real)

  ghost function Serve(f: Fees, b: Book, r: Request): Book {
    match r
    case Submit(o) => if o.qty > 0.0 then b.(pending := b.pending + [o]) else b
    case Feed(symbol, bar) => BarOf(f, b, symbol, bar).0
    case Reduce(symbol, qty, bar) => PartialOf(f, b, symbol, qty, bar).0
    case MoveStop(symbol, stop) => if StopOf(b, symbol, stop).Some? then StopOf(b, symbol, stop).value else b
  }

  ghost function ServeAll(f: Fees, start: real, requests: seq<Request>): Book {
    if requests == [] then Opening(start) else
      Serve(f, ServeAll(f, start, requests[..|requests| - 1]), requests[|requests| - 1])
  }

  /** After any requests whatever, cash and positions are what the fills account for and equity is marked. */
  lemma {:induction false} EveryRunIsConsistent(f: Fees, start: real, requests: seq<Request>)
    ensures Consistent(ServeAll(f, start, requests), start)
    ensures ServeAll(f, start, requests).equity == Worth(ServeAll(f, start, requests))
  {
    if requests != [] {
      var b, r := ServeAll(f, start, requests[..|requests| - 1]), requests[|requests| - 1];
      EveryRunIsConsistent(f, start, requests[..|requests| - 1]);
      match r
      case Submit(o) => SameHoldings(b, Serve(f, b, r), start);
      case Feed(symbol, bar) => BarKeeps(f, b, symbol, bar, start);
      case Reduce(symbol, qty, bar) => PartialKeeps(f, b, symbol, qty, bar, start);
      case MoveStop(symbol, stop) => SameHoldings(b, Serve(f, b, r), start);
    } else {
      assert Values(map[], map[]) == map[];
    }
  }

  lemma SameHoldings(b: Book, c: Book, start: real)
    requires Consistent(b, start) && c.cash == b.cash && c.positions == b.positions && c.fills == b.fills
    requires forall o :: o in c.pending ==> o.qty > 0.0
    ensures Consistent(c, start)
  {
    forall s ensures Held(c, s) == Net(c.fills, s) { assert Held(b, s) == Net(b.fills, s); }
  }
}
