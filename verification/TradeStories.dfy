/** The story of every trade of the single-symbol engine (bot/backtester.py): on which bar it was signalled and
    entered, what happened to it on the bars after, and on which bar, at which price and why it was closed. */
module TradeStories {
  import opened Types
  import opened Folds
  import opened Risk
  import opened Paper
  import opened Ledger
  import opened Backtester
  import opened Books
  import opened BrokerFills

  /** A trade's life: the bar of its signal, the plan made on it, the trade as entered, and the bars on which part of
      it was closed and its stop moved to the entry price, if that happened. */
  datatype Life = Life(at: nat, plan: Plan, entry: OpenTrade, part: Option<nat>, even: Option<nat>)

  /** The price moved against the trader by the slippage. */
  predicate Slid(f: Fees, side: Side, price: real, paid: real) {
    paid == if side.Buy? then price + price * f.slipRate else price - price * f.slipRate
  }

  /** The plan is the strategy's answer to the bars up to number i. */
  ghost predicate PlannedOn(strategy: Strategy, bars: seq<Bar>, i: nat, p: Plan) {
    i < |bars| && strategy(bars[..i + 1]).Some? &&
    var s := strategy(bars[..i + 1]).value;
    && !s.kind.Flat? && p.symbol == s.symbol && p.time == bars[i].timestamp && (p.side.Buy? <==> s.kind.Long?)
    && p.entry == s.entry && p.stop == s.stopLoss != 0.0 && p.target == s.takeProfit && p.qty > 0.0
  }

  /** The whole plan is entered at the open of the bar. */
  ghost predicate EnteredOn(f: Fees, bar: Bar, p: Plan, o: OpenTrade) {
    && o.symbol == p.symbol && o.signalTime == p.time && o.side == p.side && o.plannedEntry == p.entry
    && o.stop == p.stop && o.target == p.target && o.qty == p.qty && o.entryTime == bar.timestamp
    && Slid(f, p.side, bar.open, o.entryPrice) && o.entryFee == o.entryPrice * o.qty * f.feeRate
  }

  ghost predicate Begun(c: Config, strategy: Strategy, bars: seq<Bar>, k: Life) {
    && k.at + 1 < |bars| && k.plan.symbol == c.symbol && PlannedOn(strategy, bars, k.at, k.plan)
    && EnteredOn(c.fees, bars[k.at + 1], k.plan, k.entry)
  }

  // ---- what may happen on a bar

  /** The stop in force on bar j: the planned one, and on the bars after the move the entry price. */
  function StopOn(k: Life, j: int): real {
    if k.even.Some? && k.even.value < j then k.entry.entryPrice else k.entry.stop
  }

  predicate StoppedOn(k: Life, bars: seq<Bar>, j: nat)
    requires j < |bars|
  { Reached(StopOn(k, j), k.entry.side.Buy?, bars[j]) }

  predicate TargetOn(k: Life, bars: seq<Bar>, j: nat)
    requires j < |bars|
  { Reached(k.entry.target, k.entry.side.Sell?, bars[j]) }

  /** No bar after the signal and before number n reaches stop or target. */
  ghost predicate Untouched(k: Life, bars: seq<Bar>, n: nat) {
    forall j: nat :: k.at < j < n && j < |bars| ==> !StoppedOn(k, bars, j) && !TargetOn(k, bars, j)
  }

  function RiskTaken(o: OpenTrade): real {
    if o.entryPrice > o.stop then o.entryPrice - o.stop else o.stop - o.entryPrice
  }

  /** At its close the bar is at least r times the risk taken to the good. */
  predicate Gained(o: OpenTrade, bar: Bar, r: real) {
    (if o.side.Buy? then bar.close - o.entryPrice else o.entryPrice - bar.close) >= r * RiskTaken(o)
  }

  /** The broker takes the entry price for a stop: it is nearer to the market than the planned one. */
  predicate CanMove(o: OpenTrade) {
    o.entryPrice > 0.0 && if o.side.Buy? then o.entryPrice > o.stop else o.entryPrice < o.stop
  }

  /** The mark was set and the close of bar j gained it, on a trade that took a risk. */
  predicate MarkedOn(bars: seq<Bar>, o: OpenTrade, mark: real, j: nat) {
    mark > 0.0 && RiskTaken(o) > 0.0 && j < |bars| && Gained(o, bars[j], mark)
  }

  /** Up to bar n: part of it was closed on the first bar that gained the partial target, if any did. */
  ghost predicate PartOnTime(c: Config, bars: seq<Bar>, k: Life, n: int) {
    && (k.part.Some? ==> k.at < k.part.value <= n && MarkedOn(bars, k.entry, c.partialTpR, k.part.value))
    && forall j: nat :: k.at < j <= n && MarkedOn(bars, k.entry, c.partialTpR, j) ==> k.part.Some? && k.part.value <= j
  }

  /** Up to bar n: its stop was moved to the entry price on the first bar that gained the break-even mark, if any did
      and the broker takes that price. */
  ghost predicate EvenOnTime(c: Config, bars: seq<Bar>, k: Life, n: int) {
    && (k.even.Some? ==>
          k.at < k.even.value <= n && MarkedOn(bars, k.entry, c.breakevenAfterR, k.even.value) && CanMove(k.entry))
    && forall j: nat :: k.at < j <= n && MarkedOn(bars, k.entry, c.breakevenAfterR, j) && CanMove(k.entry) ==>
         k.even.Some? && k.even.value <= j
  }

  // ---- the trades booked

  /** The leg closes this quantity of the trade at the price, with its share of the entry fee. */
  ghost predicate Closes(f: Fees, k: Life, t: Trade, qty: real, price: real, time: int) {
    && t.what.side == k.entry.side && t.what.entryPrice == k.entry.entryPrice && t.what.entryTime == k.entry.entryTime
    && t.what.qty == qty && t.exitTime == time && Slid(f, k.entry.side.Opposite(), price, t.exitPrice)
    && t.exitFee == t.exitPrice * qty * f.feeRate
  }

  /** The partial exit: the configured fraction at the close of its bar. */
  ghost predicate PartTold(c: Config, bars: seq<Bar>, k: Life, t: Trade) {
    && k.part.Some? && k.part.value < |bars| && t.partial
    && Closes(c.fees, k, t, k.entry.qty * c.partialTpFrac, bars[k.part.value].close, bars[k.part.value].timestamp)
    && t.what.entryFee * k.entry.qty == k.entry.entryFee * t.what.qty
  }

  /** The legs before the final one. */
  ghost predicate PartsTold(c: Config, bars: seq<Bar>, k: Life, legs: seq<Trade>) {
    && |legs| == (if k.part.Some? then 1 else 0) && (k.part.Some? ==> PartTold(c, bars, k, legs[0]))
  }

  function Left(c: Config, k: Life): real {
    if k.part.Some? then k.entry.qty - k.entry.qty * c.partialTpFrac else k.entry.qty
  }

  /** Why the rest was closed on bar m: it reached stop or target, of which the configured one counts; or the trade
      was held for the longest time allowed, or the data ended, and then at the close. */
  ghost predicate EndTold(c: Config, bars: seq<Bar>, k: Life, t: Trade, m: nat) {
    && k.at < m < |bars| && !t.partial
    && (if StoppedOn(k, bars, m) && (c.fees.stopFirst || !TargetOn(k, bars, m)) then
          Closes(c.fees, k, t, Left(c, k), StopOn(k, m), bars[m].timestamp)
        else if TargetOn(k, bars, m) then Closes(c.fees, k, t, Left(c, k), k.entry.target, bars[m].timestamp)
        else
          && Closes(c.fees, k, t, Left(c, k), bars[m].close, bars[m].timestamp)
          && (m == |bars| - 1 || (c.maxHoldBars > 0 && RiskTaken(k.entry) > 0.0 && m - k.at == c.maxHoldBars)))
  }

  /** A trade that took a risk is held no longer than allowed. */
  predicate InTime(c: Config, k: Life, m: int) {
    c.maxHoldBars > 0 && RiskTaken(k.entry) > 0.0 ==> m - k.at <= c.maxHoldBars
  }

  /** The trade that ended on bar m: untouched until then, managed on every bar before it and, unless stop or target was
      reached, on that bar too. */
  ghost predicate Told(c: Config, strategy: Strategy, bars: seq<Bar>, trip: Trip, k: Life, m: nat) {
    && Begun(c, strategy, bars, k) && trip.entry == k.entry && trip.legs != []
    && Untouched(k, bars, m) && InTime(c, k, m)
    && PartsTold(c, bars, k, trip.legs[..|trip.legs| - 1]) && EndTold(c, bars, k, trip.legs[|trip.legs| - 1], m)
    && var managed := if StoppedOn(k, bars, m) || TargetOn(k, bars, m) then m - 1 else m;
       PartOnTime(c, bars, k, managed) && EvenOnTime(c, bars, k, managed)
  }

  ghost predicate AllTold(c: Config, strategy: Strategy, bars: seq<Bar>, trips: seq<Trip>) {
    forall trip :: trip in trips ==> exists k, m :: Told(c, strategy, bars, trip, k, m)
  }

  // ---- the trade under way

  /** How far the bars have been dealt with: the number counted for the time exit, and the bars up to which part and
      stop have been managed and before which levels have been watched. */
  datatype Upto = Upto(held: int, part: int, even: int, watched: nat)

  /** The open trade and its bracket at the broker. */
  ghost predicate Living(c: Config, strategy: Strategy, bars: seq<Bar>, k: Life, l: Ledger, b: Book, u: Upto) {
    && Begun(c, strategy, bars, k) && l.open.Some? && l.log.current.Some? && l.log.current.value.entry == k.entry
    && l.open.value.stop == (if k.even.Some? then k.entry.entryPrice else k.entry.stop)
    && l.open.value.qty == Left(c, k)
    && l.barsHeld == u.held && (l.partialDone <==> k.part.Some?) && (l.breakevenDone <==> k.even.Some?)
    && c.symbol in b.brackets && b.brackets[c.symbol] == Bracket(l.open.value.stop, k.entry.target)
    && PartsTold(c, bars, k, l.log.current.value.legs) && Untouched(k, bars, u.watched)
    && PartOnTime(c, bars, k, u.part) && EvenOnTime(c, bars, k, u.even)
  }

  /** All of bar n has been dealt with. */
  function Through(k: Life, n: nat): Upto { Upto(n - k.at, n, n, n + 1) }

  lemma GainIsOpenR(o: OpenTrade, risk: real, r: real, bar: Bar)
    requires risk == RiskTaken(o) > 0.0
    ensures OpenR(o, bar.close, risk) >= r <==> Gained(o, bar, r)
  {
    var gain := if o.side.Buy? then bar.close - o.entryPrice else o.entryPrice - bar.close;
    QuotientTimes(gain, risk);
    var q := gain / risk;
    if q >= r { Product(r, q, risk); } else { Larger(q, r, risk, gain); }
  }

  lemma Larger(q: real, r: real, risk: real, gain: real)
    requires q < r && risk > 0.0 && q * risk == gain
    ensures gain < r * risk
  {
    assert (r - q) * risk > 0.0;
    assert (r - q) * risk == r * risk - q * risk;
  }

  // ---- entry

  lemma FillIsSlid(f: Fees, x: Fill, symbol: Symbol, side: Side, qty: real, price: real, time: int)
    requires FilledAt(f, x, symbol, side, qty, price, time)
    ensures Slid(f, side, price, x.price)
  {
  }

  lemma EntryIsAtOpen(c: Config, b: Book, p: Plan, bar: Bar)
    requires p.symbol !in b.positions && p.stop != 0.0
    ensures var (d, x) := FillOrder(c.fees, b, OrderOf(p), bar);
            && x.role.Entry? && EnteredOn(c.fees, bar, p, Opened(p, x))
            && p.symbol in d.brackets && d.brackets[p.symbol] == Bracket(p.stop, p.target)
  {
    FillIsAtOpen(c.fees, b, OrderOf(p), bar);
    EntryArmsBracket(c.fees, b, OrderOf(p), bar);
  }

  lemma EntryLives(c: Config, strategy: Strategy, bars: seq<Bar>, n: nat, l: Ledger, d: Book, x: Fill)
    requires 0 < n < |bars| && l.open.None? && l.pending.Some?
    requires l.pending.value.symbol == c.symbol && PlannedOn(strategy, bars, n - 1, l.pending.value)
    requires EnteredOn(c.fees, bars[n], l.pending.value, Opened(l.pending.value, x))
    requires c.symbol in d.brackets && d.brackets[c.symbol] == Bracket(l.pending.value.stop, l.pending.value.target)
    ensures var k := Life(n - 1, l.pending.value, Opened(l.pending.value, x), None, None);
            Living(c, strategy, bars, k, OnEntry(l, x), d, Upto(0, n - 1, n - 1, n))
  {
  }

  // ---- exits

  /** The trade closed by a fill of all that is left. */
  lemma ExitCloses(c: Config, strategy: Strategy, bars: seq<Bar>, k: Life, l: Ledger, b: Book, u: Upto, x: Fill,
                   price: real,
                   time: int)
    requires Living(c, strategy, bars, k, l, b, u) && Sound(l)
    requires FilledAt(c.fees, x, c.symbol, l.open.value.side.Opposite(), l.open.value.qty, price, time)
    ensures Closes(c.fees, k, ClosedBy(l, x), Left(c, k), price, time) && !ClosedBy(l, x).partial
  {
  }

  /** The trip that a fill closes. */
  function Closing(l: Ledger, x: Fill): Trip
    requires l.open.Some? && l.log.current.Some?
  { l.log.current.value.(legs := l.log.current.value.legs + [ClosedBy(l, x)]) }

  lemma BracketEnds(c: Config, strategy: Strategy, bars: seq<Bar>, k: Life, l: Ledger, b: Book, n: nat, x: Fill)
    requires n < |bars| && Living(c, strategy, bars, k, l, b, Upto(n - 1 - k.at, n - 1, n - 1, n)) && InTime(c, k, n)
    requires Sound(l) && Sync(c, l, b) && BracketExit(c.fees, b, c.symbol, bars[n], x) && k.at < n
    ensures Told(c, strategy, bars, Closing(l, x), k, n)
  {
    var stop := StoppedOn(k, bars, n) && (c.fees.stopFirst || !TargetOn(k, bars, n));
    var price := if stop then StopOn(k, n) else k.entry.target;
    ExitCloses(c, strategy, bars, k, l, b, Upto(n - 1 - k.at, n - 1, n - 1, n), x, price, bars[n].timestamp);
    var legs := l.log.current.value.legs;
    assert Closing(l, x).legs[..|legs|] == legs;
  }

  lemma TriggerStory(c: Config, strategy: Strategy, bars: seq<Bar>, k: Life, l: Ledger, b: Book, n: nat)
    requires n < |bars| && Living(c, strategy, bars, k, l, b, Upto(n - 1 - k.at, n - 1, n - 1, n)) && InTime(c, k, n)
    requires Sound(l) && Sync(c, l, b) && k.at < n
    ensures var (d, ys) := Trigger(c.fees, b, c.symbol, bars[n]);
            && (ys == [] ==> Living(c, strategy, bars, k, l, d, Upto(n - 1 - k.at, n - 1, n - 1, n + 1)))
            && (ys != [] ==> |ys| == 1 && ys[0].role.Exit? && Told(c, strategy, bars, Closing(l, ys[0]), k, n))
  {
    TriggerIsBracketExit(c.fees, b, c.symbol, bars[n]);
    var ys := Trigger(c.fees, b, c.symbol, bars[n]).1;
    if ys != [] { BracketEnds(c, strategy, bars, k, l, b, n, ys[0]); }
  }

  // ---- management

  lemma RiskIsTaken(c: Config, strategy: Strategy, bars: seq<Bar>, k: Life, l: Ledger, b: Book, u: Upto)
    requires Living(c, strategy, bars, k, l, b, u) && Sound(l)
    ensures RiskTaken(k.entry) == l.riskPerUnit >= 0.0
    ensures RiskTaken(k.entry) > 0.0 ==> RiskOf(l) == RiskTaken(k.entry)
    ensures RiskOf(l) > 0.0 ==> RiskTaken(k.entry) > 0.0
  {
  }

  lemma ShareOfFee(fee: real, qty: real, whole: real, share: real)
    requires whole != 0.0 && share == fee * (qty / whole)
    ensures share * whole == fee * qty
  {
    var q := qty / whole;
    assert q * whole == qty;
    assert fee * q * whole == fee * (q * whole);
  }

  lemma NothingClosedYet(c: Config, strategy: Strategy, bars: seq<Bar>, k: Life, l: Ledger, b: Book, u: Upto)
    requires Living(c, strategy, bars, k, l, b, u) && Sound(l) && k.part.None?
    ensures l.log.current.value.legs == [] && l.open.value == k.entry.(stop := l.open.value.stop) && k.entry.qty > 0.0
  {
  }

  lemma PartIsTold(c: Config, bars: seq<Bar>, k: Life, l: Ledger, n: nat, x: Fill)
    requires l.open.Some? && l.open.value == k.entry.(stop := l.open.value.stop) && k.entry.qty > 0.0 && n < |bars|
    requires FilledAt(c.fees, x, c.symbol, k.entry.side.Opposite(), PartQty(c, l.open.value), bars[n].close,
                      bars[n].timestamp)
    ensures PartTold(c, bars, k.(part := Some(n)), PartOf(l, x, PartQty(c, l.open.value)))
  {
    var o, t := l.open.value, PartOf(l, x, PartQty(c, l.open.value));
    ShareOfFee(o.entryFee, t.what.qty, o.qty, t.what.entryFee);
    assert Closes(c.fees, k.(part := Some(n)), t, PartQty(c, l.open.value), bars[n].close, bars[n].timestamp);
  }

  lemma SameLevels(k: Life, j: Life, bars: seq<Bar>, n: nat)
    requires j.at == k.at && j.entry == k.entry && Untouched(k, bars, n)
    requires j.even == k.even || (k.even.None? && j.even.value >= n - 1)
    ensures Untouched(j, bars, n)
  {
    forall i: nat | j.at < i < n && i < |bars| ensures !StoppedOn(j, bars, i) && !TargetOn(j, bars, i) {
      assert !StoppedOn(k, bars, i) && !TargetOn(k, bars, i);
    }
  }

  /** Booking the partial exit of bar n. */
  lemma PartLives(c: Config, strategy: Strategy, bars: seq<Bar>, k: Life, l: Ledger, b: Book, n: nat, x: Fill, d: Book)
    requires Living(c, strategy, bars, k, l, b, Upto(n - k.at, n - 1, n - 1, n + 1)) && Sound(l)
    requires k.at < n < |bars| && k.part.None? && MarkedOn(bars, k.entry, c.partialTpR, n) && d.brackets == b.brackets
    requires FilledAt(c.fees, x, c.symbol, l.open.value.side.Opposite(), PartQty(c, l.open.value), bars[n].close,
                      bars[n].timestamp)
    ensures Living(c, strategy, bars, k.(part := Some(n)), OnPartial(l, x, PartQty(c, l.open.value)), d,
                   Upto(n - k.at, n, n - 1, n + 1))
  {
    NothingClosedYet(c, strategy, bars, k, l, b, Upto(n - k.at, n - 1, n - 1, n + 1));
    PartIsTold(c, bars, k, l, n, x);
    SameLevels(k, k.(part := Some(n)), bars, n + 1);
  }

  lemma TakePartialStory(c: Config, strategy: Strategy, bars: seq<Bar>, k: Life, e: Engine, n: nat)
    requires c.Valid() && EngineOk(c, e) && e.risk.day.Some? && RiskTaken(k.entry) > 0.0 && k.at < n < |bars|
    requires Living(c, strategy, bars, k, e.ledger, e.book, Upto(n - k.at, n - 1, n - 1, n + 1))
    ensures var f := TakePartial(c, e, bars[n], OpenR(e.ledger.open.value, bars[n].close, RiskTaken(k.entry)));
            exists j: Life :: j == k.(part := j.part) &&
              Living(c, strategy, bars, j, f.ledger, f.book, Upto(n - k.at, n, n - 1, n + 1))
  {
    var o, rNow := e.ledger.open.value, OpenR(e.ledger.open.value, bars[n].close, RiskTaken(k.entry));
    GainIsOpenR(k.entry, RiskTaken(k.entry), c.partialTpR, bars[n]);
    RiskIsTaken(c, strategy, bars, k, e.ledger, e.book, Upto(n - k.at, n - 1, n - 1, n + 1));
    assert rNow == OpenR(k.entry, bars[n].close, RiskTaken(k.entry));
    if c.partialTpR > 0.0 && !e.ledger.partialDone && rNow >= c.partialTpR {
      PartIsSmaller(c, o);
      PartKeepsEngine(c, e, bars[n], PartQty(c, o));
      PartIsFilledAtClose(c.fees, e.book, c.symbol, PartQty(c, o), bars[n]);
      var (d, x) := PartialOf(c.fees, e.book, c.symbol, PartQty(c, o), bars[n]);
      PartLives(c, strategy, bars, k, e.ledger, e.book, n, x.value, d);
      assert k.(part := Some(n)) == k.(part := k.(part := Some(n)).part);
    } else {
      assert Living(c, strategy, bars, k, e.ledger, e.book, Upto(n - k.at, n, n - 1, n + 1));
    }
  }

  /** Moving the stop on bar n. */
  lemma EvenLives(c: Config, strategy: Strategy, bars: seq<Bar>, k: Life, l: Ledger, b: Book, n: nat, d: Book)
    requires Living(c, strategy, bars, k, l, b, Upto(n - k.at, n, n - 1, n + 1))
    requires k.at < n < |bars| && k.even.None? && MarkedOn(bars, k.entry, c.breakevenAfterR, n) && CanMove(k.entry)
    requires c.symbol in d.brackets && d.brackets[c.symbol] == Bracket(k.entry.entryPrice, k.entry.target)
    requires l.open.value.entryPrice == k.entry.entryPrice
    ensures Living(c, strategy, bars, k.(even := Some(n)), OnBreakeven(l), d, Through(k, n))
  {
    assert PartsTold(c, bars, k.(even := Some(n)), l.log.current.value.legs);
    SameLevels(k, k.(even := Some(n)), bars, n + 1);
  }

  lemma NotMoved(c: Config, strategy: Strategy, bars: seq<Bar>, k: Life, l: Ledger, b: Book, n: nat)
    requires Living(c, strategy, bars, k, l, b, Upto(n - k.at, n, n - 1, n + 1))
    requires k.even.Some? || !MarkedOn(bars, k.entry, c.breakevenAfterR, n) || !CanMove(k.entry)
    ensures Living(c, strategy, bars, k, l, b, Through(k, n))
  {
  }

  lemma BreakevenStory(c: Config, strategy: Strategy, bars: seq<Bar>, k: Life, e: Engine, n: nat)
    requires EngineOk(c, e) && RiskTaken(k.entry) > 0.0 && k.at < n < |bars|
    requires Living(c, strategy, bars, k, e.ledger, e.book, Upto(n - k.at, n, n - 1, n + 1))
    ensures var f := MoveToBreakeven(c, e, OpenR(k.entry, bars[n].close, RiskTaken(k.entry)));
            exists j: Life :: j == k.(even := j.even) && Living(c, strategy, bars, j, f.ledger, f.book, Through(k, n))
  {
    var rNow := OpenR(k.entry, bars[n].close, RiskTaken(k.entry));
    GainIsOpenR(k.entry, RiskTaken(k.entry), c.breakevenAfterR, bars[n]);
    if c.breakevenAfterR > 0.0 && !e.ledger.breakevenDone && rNow >= c.breakevenAfterR {
      StopMovesInFavour(e.book, c.symbol, k.entry.entryPrice);
      var d := StopOf(e.book, c.symbol, k.entry.entryPrice);
      assert d.Some? <==> CanMove(k.entry);
      if d.Some? {
        EvenLives(c, strategy, bars, k, e.ledger, e.book, n, d.value);
        assert k.(even := Some(n)) == k.(even := k.(even := Some(n)).even);
      } else {
        NotMoved(c, strategy, bars, k, e.ledger, e.book, n);
      }
    } else {
      NotMoved(c, strategy, bars, k, e.ledger, e.book, n);
    }
  }

  // ---- closing at a price

  /** The order that closes the position is filled at the given price. */
  lemma CloseOutFills(c: Config, e: Engine, time: int, price: real)
    requires EngineOk(c, e) && e.ledger.open.Some?
    ensures exists x :: CloseOut(c, e, time, price).ledger == OnExit(e.ledger, x) &&
              FilledAt(c.fees, x, c.symbol, e.ledger.open.value.side.Opposite(), e.ledger.open.value.qty, price, time)
  {
    var o, qty := e.ledger.open.value, e.book.positions[c.symbol].qty;
    var order, bar := Order(c.symbol, ExitSide(qty), Abs(qty), 0.0, 0.0), FlatBar(time, price);
    CloseSideOf(o.side, o.qty);
    var waiting := e.book.(pending := [order]);
    OneOrder(c.fees, waiting, order, c.symbol, bar);
    var (b1, x) := FillOrder(c.fees, waiting, order, bar);
    FillIsAtOpen(c.fees, waiting, order, bar);
    ExitFills(c, e.ledger, e.book, x);
    var b2 := b1.(pending := []);
    assert Trigger(c.fees, b2, c.symbol, bar) == (b2, []);
    var book := Marked(b2, c.symbol, price);
    assert BarOf(c.fees, waiting, c.symbol, bar) == (book, [x] + []);
    assert [x] + [] == [x] && [x][..0] == [];
    assert TakeFills(c, e.(book := book), [x]) == TakeFill(c, e.(book := book), x);
  }

  lemma CloseTold(c: Config, strategy: Strategy, bars: seq<Bar>, k: Life, l: Ledger, b: Book, n: nat, x: Fill)
    requires k.at < n < |bars| && Living(c, strategy, bars, k, l, b, Through(k, n)) && InTime(c, k, n) && Sound(l)
    requires n == |bars| - 1 || (c.maxHoldBars > 0 && RiskTaken(k.entry) > 0.0 && n - k.at == c.maxHoldBars)
    requires FilledAt(c.fees, x, c.symbol, l.open.value.side.Opposite(), l.open.value.qty, bars[n].close,
                      bars[n].timestamp)
    ensures Told(c, strategy, bars, Closing(l, x), k, n)
  {
    ExitCloses(c, strategy, bars, k, l, b, Through(k, n), x, bars[n].close, bars[n].timestamp);
    assert !StoppedOn(k, bars, n) && !TargetOn(k, bars, n);
    var legs := l.log.current.value.legs;
    assert Closing(l, x).legs[..|legs|] == legs;
  }

  lemma ToldNext(c: Config, strategy: Strategy, bars: seq<Bar>, l: Ledger, x: Fill, k: Life, m: nat)
    requires l.open.Some? && l.log.current.Some? && AllTold(c, strategy, bars, l.log.trips)
    requires Told(c, strategy, bars, Closing(l, x), k, m)
    ensures AllTold(c, strategy, bars, OnExit(l, x).log.trips)
  {
    forall trip | trip in OnExit(l, x).log.trips ensures exists k, m :: Told(c, strategy, bars, trip, k, m) {
      if trip !in l.log.trips { assert trip == Closing(l, x); }
    }
  }

  lemma CloseOutStory(c: Config, strategy: Strategy, bars: seq<Bar>, k: Life, e: Engine, n: nat)
    requires k.at < n < |bars| && EngineOk(c, e) && InTime(c, k, n)
    requires Living(c, strategy, bars, k, e.ledger, e.book, Through(k, n))
    requires AllTold(c, strategy, bars, e.ledger.log.trips)
    requires n == |bars| - 1 || (c.maxHoldBars > 0 && RiskTaken(k.entry) > 0.0 && n - k.at == c.maxHoldBars)
    ensures var f := CloseOut(c, e, bars[n].timestamp, bars[n].close);
            && AllTold(c, strategy, bars, f.ledger.log.trips) && f.ledger.open.None?
            && f.ledger.pending == e.ledger.pending
  {
    CloseOutFills(c, e, bars[n].timestamp, bars[n].close);
    var x :| CloseOut(c, e, bars[n].timestamp, bars[n].close).ledger == OnExit(e.ledger, x) &&
      FilledAt(c.fees, x, c.symbol, e.ledger.open.value.side.Opposite(), e.ledger.open.value.qty, bars[n].close,
               bars[n].timestamp);
    CloseTold(c, strategy, bars, k, e.ledger, e.book, n, x);
    ToldNext(c, strategy, bars, e.ledger, x, k, n);
  }

  // ---- one bar

  /** The plan waiting is one of an earlier bar, and the last one's if it is for this symbol. */
  ghost predicate WaitingTold(c: Config, strategy: Strategy, bars: seq<Bar>, l: Ledger, n: nat) {
    l.pending.Some? ==> exists i: nat :: i < n && PlannedOn(strategy, bars, i, l.pending.value) &&
                                         (l.pending.value.symbol == c.symbol ==> i + 1 == n)
  }

  /** After the first n bars: every finished trade, the open trade and the waiting plan have their story. */
  ghost predicate StoryUpto(c: Config, strategy: Strategy, bars: seq<Bar>, l: Ledger, b: Book, n: nat) {
    && AllTold(c, strategy, bars, l.log.trips) && WaitingTold(c, strategy, bars, l, n)
    && (l.open.Some? ==> exists k: Life :: k.at < n && OpenTold(c, strategy, bars, k, l, b, n - 1))
  }

  ghost predicate OpenTold(c: Config, strategy: Strategy, bars: seq<Bar>, k: Life, l: Ledger, b: Book, n: int) {
    0 <= n && k.at < n && Living(c, strategy, bars, k, l, b, Through(k, n)) && InTime(c, k, n + 1)
  }

  /** After the broker has seen bar n, before the trade is managed. */
  ghost predicate FedTold(c: Config, strategy: Strategy, bars: seq<Bar>, l: Ledger, b: Book, n: nat) {
    && AllTold(c, strategy, bars, l.log.trips)
    && (l.pending.Some? ==> l.pending.value.symbol != c.symbol && WaitingTold(c, strategy, bars, l, n))
    && (l.open.Some? ==> exists k: Life ::
          k.at < n && InTime(c, k, n) && Living(c, strategy, bars, k, l, b, Upto(n - 1 - k.at, n - 1, n - 1, n + 1)))
  }

  /** After the waiting orders, before the bracket: the trade, if any, is watched up to bar n. */
  ghost predicate OpenedTold(c: Config, strategy: Strategy, bars: seq<Bar>, l: Ledger, b: Book, n: nat) {
    && AllTold(c, strategy, bars, l.log.trips)
    && (l.pending.Some? ==> l.pending.value.symbol != c.symbol && WaitingTold(c, strategy, bars, l, n))
    && (l.open.Some? ==> exists k: Life ::
          k.at < n && InTime(c, k, n) && Living(c, strategy, bars, k, l, b, Upto(n - 1 - k.at, n - 1, n - 1, n)))
  }

  lemma WaitingStory(c: Config, strategy: Strategy, bars: seq<Bar>, l: Ledger, b: Book, n: nat)
    requires c.Valid() && n < |bars| && Sound(l) && Sync(c, l, b) && StoryUpto(c, strategy, bars, l, b, n)
    ensures var (d, xs) := FillAll(c.fees, b, b.pending, c.symbol, bars[n]);
            OpenedTold(c, strategy, bars, LedgerAfter(l, xs), d, n)
  {
    if l.pending.Some? {
      var p, o := l.pending.value, OrderOf(l.pending.value);
      OneOrder(c.fees, b, o, c.symbol, bars[n]);
      if o.symbol == c.symbol {
        var (d, x) := FillOrder(c.fees, b, o, bars[n]);
        EntryIsAtOpen(c, b, p, bars[n]);
        EntryLives(c, strategy, bars, n, l, d, x);
        assert [x][..0] == [];
        assert LedgerAfter(l, [x]) == OnFill(LedgerAfter(l, []), x);
      }
    }
  }

  lemma ClosedIsFed(c: Config, strategy: Strategy, bars: seq<Bar>, l: Ledger, x: Fill, k: Life, n: nat, d: Book)
    requires l.open.Some? && l.log.current.Some? && l.pending.None? && AllTold(c, strategy, bars, l.log.trips)
    requires Told(c, strategy, bars, Closing(l, x), k, n) && x.role.Exit?
    ensures FedTold(c, strategy, bars, OnFill(l, x), d, n)
  {
    ToldNext(c, strategy, bars, l, x, k, n);
  }

  lemma OpenIsFed(c: Config, strategy: Strategy, bars: seq<Bar>, l: Ledger, k: Life, n: nat, d: Book)
    requires l.pending.None? && AllTold(c, strategy, bars, l.log.trips)
    requires k.at < n && InTime(c, k, n) && Living(c, strategy, bars, k, l, d, Upto(n - 1 - k.at, n - 1, n - 1, n + 1))
    ensures FedTold(c, strategy, bars, l, d, n)
  {
  }

  lemma BracketStoryOf(c: Config, strategy: Strategy, bars: seq<Bar>, k: Life, l: Ledger, b: Book, n: nat, d: Book,
                       ys: seq<Fill>)
    requires n < |bars| && Sound(l) && Sync(c, l, b) && AllTold(c, strategy, bars, l.log.trips) && l.open.Some?
    requires k.at < n && InTime(c, k, n) && Living(c, strategy, bars, k, l, b, Upto(n - 1 - k.at, n - 1, n - 1, n))
    requires (d, ys) == Trigger(c.fees, b, c.symbol, bars[n])
    ensures |ys| <= 1 && FedTold(c, strategy, bars, if ys == [] then l else OnFill(l, ys[0]), d, n)
  {
    TriggerStory(c, strategy, bars, k, l, b, n);
    if ys == [] {
      OpenIsFed(c, strategy, bars, l, k, n, d);
    } else {
      ClosedIsFed(c, strategy, bars, l, ys[0], k, n, d);
    }
  }

  lemma NothingToTrigger(c: Config, strategy: Strategy, bars: seq<Bar>, l: Ledger, b: Book, n: nat)
    requires n < |bars| && Sync(c, l, b) && OpenedTold(c, strategy, bars, l, b, n) && l.open.None?
    ensures Trigger(c.fees, b, c.symbol, bars[n]) == (b, []) && FedTold(c, strategy, bars, l, b, n)
  {
  }

  lemma BracketStory(c: Config, strategy: Strategy, bars: seq<Bar>, l: Ledger, b: Book, n: nat, d: Book, ys: seq<Fill>)
    requires n < |bars| && Sound(l) && Sync(c, l, b) && OpenedTold(c, strategy, bars, l, b, n)
    requires (d, ys) == Trigger(c.fees, b, c.symbol, bars[n])
    ensures |ys| <= 1 && FedTold(c, strategy, bars, if ys == [] then l else OnFill(l, ys[0]), d, n)
  {
    if l.open.Some? {
      var k: Life :| k.at < n && InTime(c, k, n) &&
        Living(c, strategy, bars, k, l, b, Upto(n - 1 - k.at, n - 1, n - 1, n));
      BracketStoryOf(c, strategy, bars, k, l, b, n, d, ys);
    } else {
      NothingToTrigger(c, strategy, bars, l, b, n);
    }
  }

  lemma FeedStory(c: Config, strategy: Strategy, bars: seq<Bar>, e: Engine, n: nat)
    requires c.Valid() && n < |bars| && EngineOk(c, e) && StoryUpto(c, strategy, bars, e.ledger, e.book, n)
    ensures var f := FeedBar(c, e, bars[n]); FedTold(c, strategy, bars, f.ledger, f.book, n)
  {
    var bar := bars[n];
    var (b1, xs) := FillAll(c.fees, e.book, e.book.pending, c.symbol, bar);
    var b2 := b1.(pending := Others(e.book.pending, c.symbol));
    var (b3, ys) := Trigger(c.fees, b2, c.symbol, bar);
    var book := Marked(b3, c.symbol, bar.close);
    assert BarOf(c.fees, e.book, c.symbol, bar) == (book, xs + ys);
    WaitingSync(c, e.ledger, e.book, bar);
    WaitingStory(c, strategy, bars, e.ledger, e.book, n);
    OpenedElsewhere(c, strategy, bars, LedgerAfter(e.ledger, xs), b1, b2, n);
    BracketStory(c, strategy, bars, LedgerAfter(e.ledger, xs), b2, n, b3, ys);
    LedgerAfterOne(e.ledger, xs, ys);
    TakeFillsLedger(c, e.(book := book), xs + ys);
    TakeFillsBook(c, e.(book := book), xs + ys);
    FedElsewhere(c, strategy, bars, LedgerAfter(e.ledger, xs + ys), b3, book, n);
  }

  lemma {:induction false} TakeFillsBook(c: Config, e: Engine, xs: seq<Fill>)
    ensures TakeFills(c, e, xs).book == e.book && TakeFills(c, e, xs).seen == e.seen
  {
    if xs != [] { TakeFillsBook(c, e, xs[..|xs| - 1]); }
  }

  lemma OpenedElsewhere(c: Config, strategy: Strategy, bars: seq<Bar>, l: Ledger, b: Book, d: Book, n: nat)
    requires OpenedTold(c, strategy, bars, l, b, n) && d.brackets == b.brackets
    ensures OpenedTold(c, strategy, bars, l, d, n)
  {
    if l.open.Some? {
      var k: Life :| k.at < n && InTime(c, k, n) &&
        Living(c, strategy, bars, k, l, b, Upto(n - 1 - k.at, n - 1, n - 1, n));
      assert Living(c, strategy, bars, k, l, d, Upto(n - 1 - k.at, n - 1, n - 1, n));
    }
  }

  lemma FedElsewhere(c: Config, strategy: Strategy, bars: seq<Bar>, l: Ledger, b: Book, d: Book, n: nat)
    requires FedTold(c, strategy, bars, l, b, n) && d.brackets == b.brackets
    ensures FedTold(c, strategy, bars, l, d, n)
  {
    if l.open.Some? {
      var k: Life :| k.at < n && InTime(c, k, n) &&
        Living(c, strategy, bars, k, l, b, Upto(n - 1 - k.at, n - 1, n - 1, n + 1));
      assert Living(c, strategy, bars, k, l, d, Upto(n - 1 - k.at, n - 1, n - 1, n + 1));
    }
  }

  /** After bar n has been managed, before the strategy is asked. */
  ghost predicate SettledTold(c: Config, strategy: Strategy, bars: seq<Bar>, l: Ledger, b: Book, n: nat) {
    && AllTold(c, strategy, bars, l.log.trips)
    && (l.pending.Some? ==> l.pending.value.symbol != c.symbol && WaitingTold(c, strategy, bars, l, n))
    && (l.open.Some? ==> exists k: Life :: OpenTold(c, strategy, bars, k, l, b, n))
  }

  lemma TickLives(c: Config, strategy: Strategy, bars: seq<Bar>, k: Life, e: Engine, n: nat)
    requires Living(c, strategy, bars, k, e.ledger, e.book, Upto(n - 1 - k.at, n - 1, n - 1, n + 1))
    ensures Living(c, strategy, bars, k, Ticked(e).ledger, e.book, Upto(n - k.at, n - 1, n - 1, n + 1))
  {
  }

  lemma NoRiskNoMarks(c: Config, strategy: Strategy, bars: seq<Bar>, k: Life, l: Ledger, b: Book, n: nat)
    requires Living(c, strategy, bars, k, l, b, Upto(n - k.at, n - 1, n - 1, n + 1)) && RiskTaken(k.entry) <= 0.0
    ensures Living(c, strategy, bars, k, l, b, Through(k, n))
  {
  }

  lemma RateIsOfEntry(c: Config, strategy: Strategy, bars: seq<Bar>, k: Life, l: Ledger, b: Book, u: Upto, close: real,
                      risk: real)
    requires Living(c, strategy, bars, k, l, b, u) && Sound(l) && risk > 0.0
    ensures OpenR(l.open.value, close, risk) == OpenR(k.entry, close, risk)
  {
  }

  /** Then the stop, then the time. */
  lemma StopAndTimeStory(c: Config, strategy: Strategy, bars: seq<Bar>, k: Life, f: Engine, n: nat, g: Engine)
    requires EngineOk(c, f) && k.at < n < |bars| && InTime(c, k, n) && RiskTaken(k.entry) > 0.0
    requires Living(c, strategy, bars, k, f.ledger, f.book, Upto(n - k.at, n, n - 1, n + 1))
    requires g == MoveToBreakeven(c, f, OpenR(k.entry, bars[n].close, RiskTaken(k.entry))) && EngineOk(c, g)
    requires AllTold(c, strategy, bars, g.ledger.log.trips) && g.ledger.pending.None?
    ensures var h := if c.maxHoldBars > 0 && g.ledger.barsHeld >= c.maxHoldBars
                     then CloseOut(c, g, bars[n].timestamp, bars[n].close) else g;
            SettledTold(c, strategy, bars, h.ledger, h.book, n)
  {
    BreakevenStory(c, strategy, bars, k, f, n);
    var i: Life :| i == k.(even := i.even) && Living(c, strategy, bars, i, g.ledger, g.book, Through(k, n));
    TimeStory(c, strategy, bars, i, g, n);
  }

  /** Part, then stop, then time. */
  lemma ManageAtStory(c: Config, strategy: Strategy, bars: seq<Bar>, k: Life, e: Engine, n: nat, risk: real)
    requires c.Valid() && EngineOk(c, e) && e.risk.day.Some? && k.at < n < |bars| && InTime(c, k, n)
    requires AllTold(c, strategy, bars, e.ledger.log.trips) && e.ledger.pending.None?
    requires Living(c, strategy, bars, k, e.ledger, e.book, Upto(n - k.at, n - 1, n - 1, n + 1))
    requires risk == RiskOf(e.ledger) == RiskTaken(k.entry) > 0.0
    ensures var f := ManageAt(c, e, bars[n], risk); SettledTold(c, strategy, bars, f.ledger, f.book, n)
  {
    var bar, rNow := bars[n], OpenR(e.ledger.open.value, bars[n].close, risk);
    RateIsOfEntry(c, strategy, bars, k, e.ledger, e.book, Upto(n - k.at, n - 1, n - 1, n + 1), bar.close, risk);
    TakePartialStory(c, strategy, bars, k, e, n);
    TakePartialKeeps(c, e, bar, rNow);
    var f := TakePartial(c, e, bar, rNow);
    var j: Life :| j == k.(part := j.part) &&
      Living(c, strategy, bars, j, f.ledger, f.book, Upto(n - k.at, n, n - 1, n + 1));
    BreakevenKeeps(c, f, rNow);
    TripsStay(c, e, bar, rNow);
    StopAndTimeStory(c, strategy, bars, j, f, n, MoveToBreakeven(c, f, rNow));
  }

  lemma TripsStay(c: Config, e: Engine, bar: Bar, rNow: real)
    requires c.Valid() && EngineOk(c, e) && e.risk.day.Some? && e.ledger.open.Some? && RiskOf(e.ledger) > 0.0
    ensures var f := TakePartial(c, e, bar, rNow);
            && f.ledger.open.Some? && f.ledger.log.trips == e.ledger.log.trips && f.ledger.pending == e.ledger.pending
            && var g := MoveToBreakeven(c, f, rNow);
               g.ledger.log.trips == e.ledger.log.trips && g.ledger.pending == e.ledger.pending
  {
    TakePartialKeeps(c, e, bar, rNow);
  }

  lemma TimeStory(c: Config, strategy: Strategy, bars: seq<Bar>, k: Life, g: Engine, n: nat)
    requires EngineOk(c, g) && k.at < n < |bars| && InTime(c, k, n) && RiskTaken(k.entry) > 0.0
    requires AllTold(c, strategy, bars, g.ledger.log.trips) && g.ledger.pending.None?
    requires Living(c, strategy, bars, k, g.ledger, g.book, Through(k, n))
    ensures var f := if c.maxHoldBars > 0 && g.ledger.barsHeld >= c.maxHoldBars
                     then CloseOut(c, g, bars[n].timestamp, bars[n].close) else g;
            SettledTold(c, strategy, bars, f.ledger, f.book, n)
  {
    if c.maxHoldBars > 0 && g.ledger.barsHeld >= c.maxHoldBars {
      CloseOutStory(c, strategy, bars, k, g, n);
    } else {
      assert OpenTold(c, strategy, bars, k, g.ledger, g.book, n);
    }
  }

  lemma ManageStoryOf(c: Config, strategy: Strategy, bars: seq<Bar>, k: Life, e: Engine, n: nat)
    requires c.Valid() && EngineOk(c, e) && e.risk.day.Some? && k.at < n < |bars| && InTime(c, k, n)
    requires e.ledger.open.Some?
    requires AllTold(c, strategy, bars, e.ledger.log.trips) && e.ledger.pending.None?
    requires Living(c, strategy, bars, k, e.ledger, e.book, Upto(n - k.at, n - 1, n - 1, n + 1))
    ensures var f := ManageTicked(c, e, bars[n]); SettledTold(c, strategy, bars, f.ledger, f.book, n)
  {
    RiskIsTaken(c, strategy, bars, k, e.ledger, e.book, Upto(n - k.at, n - 1, n - 1, n + 1));
    if RiskOf(e.ledger) > 0.0 {
      ManageAtStory(c, strategy, bars, k, e, n, RiskOf(e.ledger));
    } else {
      NoRiskNoMarks(c, strategy, bars, k, e.ledger, e.book, n);
      assert OpenTold(c, strategy, bars, k, e.ledger, e.book, n);
    }
  }

  lemma ManageStory(c: Config, strategy: Strategy, bars: seq<Bar>, e: Engine, n: nat)
    requires c.Valid() && EngineOk(c, e) && e.risk.day.Some? && n < |bars|
    requires FedTold(c, strategy, bars, e.ledger, e.book, n)
    ensures var f := Manage(c, e, bars[n]); SettledTold(c, strategy, bars, f.ledger, f.book, n)
  {
    if e.ledger.open.Some? {
      var k: Life :| k.at < n && InTime(c, k, n) &&
        Living(c, strategy, bars, k, e.ledger, e.book, Upto(n - 1 - k.at, n - 1, n - 1, n + 1));
      TickLives(c, strategy, bars, k, e, n);
      TickKeepsEngine(c, e);
      ManageStoryOf(c, strategy, bars, k, Ticked(e), n);
    }
  }

  lemma ApprovedHasStop(c: RiskConfig, s: RiskState, signal: Signal, account: Account)
    requires Judge(c, s, signal, account).Allow?
    ensures signal.stopLoss != 0.0 && Judge(c, s, signal, account).qty > 0.0
  {
  }

  lemma PlanIsAnswer(strategy: Strategy, bars: seq<Bar>, n: nat, signal: Signal, qty: real)
    requires n < |bars| && strategy(bars[..n + 1]) == Some(signal) && !signal.kind.Flat?
    requires signal.stopLoss != 0.0 && qty > 0.0
    ensures PlannedOn(strategy, bars, n, PlanOf(signal, bars[n].timestamp, qty))
  {
  }

  lemma SettledIsStory(c: Config, strategy: Strategy, bars: seq<Bar>, l: Ledger, b: Book, n: nat)
    requires n < |bars| && SettledTold(c, strategy, bars, l, b, n)
    ensures StoryUpto(c, strategy, bars, l, b, n + 1)
  {
    if l.pending.Some? {
      var i: nat :| i < n && PlannedOn(strategy, bars, i, l.pending.value) &&
        (l.pending.value.symbol == c.symbol ==> i + 1 == n);
      assert WaitingTold(c, strategy, bars, l, n + 1);
    }
    if l.open.Some? {
      var k: Life :| OpenTold(c, strategy, bars, k, l, b, n);
      assert k.at < n + 1 && OpenTold(c, strategy, bars, k, l, b, n + 1 - 1);
    }
  }

  lemma DecideStory(c: Config, strategy: Strategy, bars: seq<Bar>, e: Engine, n: nat)
    requires EngineOk(c, e) && e.risk.day.Some? && n < |bars| && e.seen == bars[..n + 1]
    requires SettledTold(c, strategy, bars, e.ledger, e.book, n)
    ensures var f := Decide(c, e, strategy(e.seen), bars[n].timestamp);
            StoryUpto(c, strategy, bars, f.ledger, f.book, n + 1)
  {
    var signal := strategy(e.seen);
    SettledIsStory(c, strategy, bars, e.ledger, e.book, n);
    if signal.Some? && !signal.value.kind.Flat? && e.ledger.pending.None? && e.ledger.open.None? {
      var v := Judge(c.risk, e.risk, signal.value, AccountOf(e.book));
      if v.Allow? {
        ApprovedHasStop(c.risk, e.risk, signal.value, AccountOf(e.book));
        PlanIsAnswer(strategy, bars, n, signal.value, v.qty);
      }
    }
  }

  /** The broker has seen bar n. */
  ghost predicate FedAfter(c: Config, strategy: Strategy, bars: seq<Bar>, e: Engine, n: nat) {
    && n < |bars| && EngineOk(c, e) && e.risk.day.Some? && e.seen == bars[..n]
    && FedTold(c, strategy, bars, e.ledger, e.book, n)
  }

  ghost predicate StoryAfter(c: Config, strategy: Strategy, bars: seq<Bar>, e: Engine, n: nat) {
    n <= |bars| && EngineOk(c, e) && e.seen == bars[..n] && StoryUpto(c, strategy, bars, e.ledger, e.book, n)
  }

  lemma StepFeeds(c: Config, strategy: Strategy, bars: seq<Bar>, e: Engine, n: nat)
    requires c.Valid() && n < |bars| && StoryAfter(c, strategy, bars, e, n)
    ensures FedAfter(c, strategy, bars, FeedBar(c, Housekeep(c, Begin(e), bars[n]), bars[n]), n)
  {
    var e1 := Housekeep(c, Begin(e), bars[n]);
    HousekeepKeeps(c, Begin(e), bars[n]);
    FeedKeeps(c, e1, bars[n]);
    FeedStory(c, strategy, bars, e1, n);
  }

  lemma StepDecides(c: Config, strategy: Strategy, bars: seq<Bar>, e: Engine, n: nat)
    requires c.Valid() && FedAfter(c, strategy, bars, e, n)
    ensures var managed := Manage(c, e, bars[n]);
            var shown := managed.(seen := managed.seen + [bars[n]]);
            StoryAfter(c, strategy, bars, Decide(c, shown, strategy(shown.seen), bars[n].timestamp), n + 1)
  {
    ManageKeeps(c, e, bars[n]);
    ManageStory(c, strategy, bars, e, n);
    var managed := Manage(c, e, bars[n]);
    var shown := managed.(seen := managed.seen + [bars[n]]);
    assert shown.seen == bars[..n + 1];
    DecideKeeps(c, shown, strategy(shown.seen), bars[n].timestamp);
    DecideStory(c, strategy, bars, shown, n);
  }

  lemma PointChangesNothing(c: Config, strategy: Strategy, bars: seq<Bar>, e: Engine, n: nat, curve: seq<(int, real)>)
    requires StoryAfter(c, strategy, bars, e, n)
    ensures StoryAfter(c, strategy, bars, e.(curve := curve), n)
  {
  }

  lemma StepStory(c: Config, strategy: Strategy, bars: seq<Bar>, e: Engine, n: nat)
    requires c.Valid() && n < |bars| && StoryAfter(c, strategy, bars, e, n)
    ensures StoryAfter(c, strategy, bars, Step(c, strategy, e, bars[n]), n + 1)
  {
    StepFeeds(c, strategy, bars, e, n);
    var fed := FeedBar(c, Housekeep(c, Begin(e), bars[n]), bars[n]);
    StepDecides(c, strategy, bars, fed, n);
    var managed := Manage(c, fed, bars[n]);
    var shown := managed.(seen := managed.seen + [bars[n]]);
    var f := Decide(c, shown, strategy(shown.seen), bars[n].timestamp);
    PointChangesNothing(c, strategy, bars, f, n + 1, f.curve + [(bars[n].timestamp, f.book.equity)]);
  }

  // ---- whole runs

  lemma StoryBegins(c: Config, strategy: Strategy, bars: seq<Bar>)
    ensures StoryAfter(c, strategy, bars, Begin(Initial(c)), 0)
  {
    InitialIsOk(c);
  }

  /** f is the engine's step; known only where a bar is stepped. */
  ghost predicate IsStep(f: (Engine, Bar) -> Engine, c: Config, strategy: Strategy) {
    forall e, bar {:trigger Step(c, strategy, e, bar)} :: f(e, bar) == Step(c, strategy, e, bar)
  }

  lemma StoryStepsOn(c: Config, strategy: Strategy, bars: seq<Bar>, f: (Engine, Bar) -> Engine, e: Engine, n: nat)
    requires c.Valid() && IsStep(f, c, strategy) && n < |bars| && StoryAfter(c, strategy, bars, e, n)
    ensures StoryAfter(c, strategy, bars, f(e, bars[n]), n + 1)
  {
    StepStory(c, strategy, bars, e, n);
    assert f(e, bars[n]) == Step(c, strategy, e, bars[n]);
  }

  lemma StoryRuns(c: Config, strategy: Strategy, bars: seq<Bar>, f: (Engine, Bar) -> Engine, e: Engine)
    requires c.Valid() && IsStep(f, c, strategy) && StoryAfter(c, strategy, bars, e, 0)
    ensures StoryAfter(c, strategy, bars, Fold(f, e, bars), |bars|)
  {
    ghost var inv := (t: Engine, i: nat) => StoryAfter(c, strategy, bars, t, i);
    forall i: nat, t | i < |bars| && inv(t, i) ensures inv(f(t, bars[i]), i + 1) {
      StoryStepsOn(c, strategy, bars, f, t, i);
    }
    FoldCounts(f, e, bars, |bars|, inv);
    assert bars[..|bars|] == bars;
  }

  lemma EndStory(c: Config, strategy: Strategy, bars: seq<Bar>, e: Engine)
    requires StoryAfter(c, strategy, bars, e, |bars|)
    ensures AllTold(c, strategy, bars, Finalize(c, e, bars).ledger.log.trips)
  {
    if bars != [] && e.ledger.open.Some? {
      var n := |bars| - 1;
      var k: Life :| k.at < |bars| && OpenTold(c, strategy, bars, k, e.ledger, e.book, n);
      assert InTime(c, k, n);
      CloseOutStory(c, strategy, bars, k, e, n);
    }
  }

  /** Every trade of every backtest has its story: it was planned on a bar from the strategy's answer to the bars so
      far, entered at the next open, touched neither level until its last bar, cut in part and made safe on the first
      closes that gained the marks, and closed on its last bar at the level reached, or at the close when its time or
      the data ended. */
  lemma EveryTradeHasItsStory(c: Config, strategy: Strategy, bars: seq<Bar>)
    requires c.Valid()
    ensures var l := Batch(c, strategy, bars).ledger;
            AllTold(c, strategy, bars, l.log.trips) && l.trades == LegsOf(l.log.trips)
  {
    BooksBalance(c, strategy, bars);
    StoryBegins(c, strategy, bars);
    StoryRuns(c, strategy, bars, StepFn(c, strategy), Begin(Initial(c)));
    EndStory(c, strategy, bars, StepAll(c, strategy, Begin(Initial(c)), bars));
  }
}
