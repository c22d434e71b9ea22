/** The trade record of the single-symbol engine (bot/backtester.py): one pending entry or one open trade,
    and the list of booked trades. No assumption is made about the fills it is shown. */
module Ledger {
  import opened Types

  datatype Plan = Plan(symbol: Symbol, time: int, side: Side, entry: real, stop: real, target: real, qty: real)

  /** `stop` starts as the planned stop and moves to the entry price at break-even; `qty` and `entryFee` shrink
      when a part is closed. */
  datatype OpenTrade = OpenTrade(
    symbol: Symbol, signalTime: int, side: Side, plannedEntry: real, stop: real, target: real, qty: real,
    entryTime: int, entryPrice: real, entryFee: real)

  /** `what` holds the quantity closed and its share of the entry fee. */
  datatype Trade = Trade(
    what: OpenTrade, exitTime: int, exitPrice: real, exitFee: real, gross: real, pnl: real, r: real, partial: bool)

  /** A position from its entry fill to flat, as opened, with the trades that closed it. */
  datatype Trip = Trip(entry: OpenTrade, legs: seq<Trade>)

  /** Kept for the statements below only: accepted entry orders, finished trips, the trip under way. */
  datatype Log = Log(accepted: seq<Plan>, trips: seq<Trip>, current: Option<Trip>)

  datatype Ledger = Ledger(
    pending: Option<Plan>, open: Option<OpenTrade>, partialDone: bool, breakevenDone: bool, barsHeld: nat,
    riskPerUnit: real, trades: seq<Trade>, log: Log)

  function Empty(): Ledger { Ledger(None, None, false, false, 0, 0.0, [], Log([], [], None)) }

  function Gross(side: Side, entry: real, exit: real, qty: real): real {
    if side.Buy? then (exit - entry) * qty else (entry - exit) * qty
  }

  function InR(pnl: real, risk: real, qty: real): real {
    if risk * qty > 0.0 then pnl / (risk * qty) else 0.0
  }

  /** The risk taken at entry; the distance to the stop if none was recorded. */
  function RiskFor(o: OpenTrade, recorded: real): real {
    if recorded != 0.0 then recorded else Abs(o.entryPrice - o.stop)
  }

  function RiskOf(l: Ledger): real
    requires l.open.Some?
  {
    RiskFor(l.open.value, l.riskPerUnit)
  }

  function Opened(p: Plan, x: Fill): OpenTrade {
    OpenTrade(p.symbol, p.time, p.side, p.entry, p.stop, p.target, p.qty, x.timestamp, x.price, x.fee)
  }

  function Accept(l: Ledger, p: Plan): Ledger {
    l.(pending := Some(p), log := l.log.(accepted := l.log.accepted + [p]))
  }

  function OnEntry(l: Ledger, x: Fill): Ledger {
    if l.pending.None? then l else
      var o := Opened(l.pending.value, x);
      l.(pending := None, open := Some(o), riskPerUnit := Abs(x.price - o.stop),
         barsHeld := 0, partialDone := false, breakevenDone := false,
         log := l.log.(current := Some(Trip(o, []))))
  }

  /** The trade that closes quantity and entry fee of `what` at the price of the fill. */
  function TradeOn(what: OpenTrade, risk: real, x: Fill, partial: bool): Trade {
    var gross := Gross(what.side, what.entryPrice, x.price, what.qty);
    var pnl := gross - what.entryFee - x.fee;
    Trade(what, x.timestamp, x.price, x.fee, gross, pnl, InR(pnl, risk, what.qty), partial)
  }

  function ClosedBy(l: Ledger, x: Fill): Trade
    requires l.open.Some?
  {
    TradeOn(l.open.value, RiskOf(l), x, false)
  }

  function WithLeg(trip: Option<Trip>, t: Trade): Option<Trip> {
    if trip.None? then None else Some(trip.value.(legs := trip.value.legs + [t]))
  }

  function OnExit(l: Ledger, x: Fill): Ledger {
    if l.open.None? then l else
      var t := ClosedBy(l, x);
      var done := WithLeg(l.log.current, t);
      l.(open := None, riskPerUnit := 0.0, barsHeld := 0, partialDone := false, breakevenDone := false,
         trades := l.trades + [t],
         log := l.log.(trips := if done.Some? then l.log.trips + [done.value] else l.log.trips, current := None))
  }

  function OnFill(l: Ledger, x: Fill): Ledger {
    match x.role
    case PartialExit => l
    case Entry => OnEntry(l, x)
    case Exit => OnExit(l, x)
  }

  /** The given quantity with its share of the entry fee. */
  function Share(o: OpenTrade, qty: real): OpenTrade
    requires o.qty != 0.0
  {
    o.(qty := qty, entryFee := o.entryFee * (qty / o.qty))
  }

  function PartOf(l: Ledger, x: Fill, qty: real): Trade
    requires l.open.Some? && l.open.value.qty != 0.0
  {
    TradeOn(Share(l.open.value, qty), RiskOf(l), x, true)
  }

  function OnPartial(l: Ledger, x: Fill, qty: real): Ledger
    requires l.open.Some? && l.open.value.qty != 0.0
  {
    var o, t := l.open.value, PartOf(l, x, qty);
    l.(open := Some(o.(qty := o.qty - qty, entryFee := o.entryFee - t.what.entryFee)), partialDone := true,
       trades := l.trades + [t], log := l.log.(current := WithLeg(l.log.current, t)))
  }

  function OnBreakeven(l: Ledger): Ledger
    requires l.open.Some?
  {
    l.(open := Some(l.open.value.(stop := l.open.value.entryPrice)), breakevenDone := true)
  }

  // ---- sums over booked trades

  function SumOf(f: Trade -> real, ts: seq<Trade>): real {
    if ts == [] then 0.0 else SumOf(f, ts[..|ts| - 1]) + f(ts[|ts| - 1])
  }

  function Qty(): Trade -> real { (t: Trade) => t.what.qty }
  function EntryFee(): Trade -> real { (t: Trade) => t.what.entryFee }
  function ExitFee(): Trade -> real { (t: Trade) => t.exitFee }
  function Proceeds(): Trade -> real { (t: Trade) => t.what.qty * t.exitPrice }
  function Pnl(): Trade -> real { (t: Trade) => t.pnl }
  function Risked(): Trade -> real { (t: Trade) => t.r * t.what.qty }
  function FinalPnl(): Trade -> real { (t: Trade) => if t.partial then 0.0 else t.pnl }
  function PartialPnl(): Trade -> real { (t: Trade) => if t.partial then t.pnl else 0.0 }

  function Finals(ts: seq<Trade>): nat {
    if ts == [] then 0 else Finals(ts[..|ts| - 1]) + if ts[|ts| - 1].partial then 0 else 1
  }

  /** The trades of the trips, in order. */
  function LegsOf(trips: seq<Trip>): seq<Trade> {
    if trips == [] then [] else LegsOf(trips[..|trips| - 1]) + trips[|trips| - 1].legs
  }

  lemma SumSnoc(f: Trade -> real, ts: seq<Trade>, t: Trade)
    ensures SumOf(f, ts + [t]) == SumOf(f, ts) + f(t)
  {
    assert (ts + [t])[..|ts|] == ts;
  }

  function EntryRisk(e: OpenTrade): real { Abs(e.entryPrice - e.stop) }

  /** The results of the legs add up to their signed price flow less their fees. */
  ghost predicate PnlIsFlow(e: OpenTrade, legs: seq<Trade>) {
    SumOf(Pnl(), legs) == e.side.Of(SumOf(Proceeds(), legs) - e.entryPrice * SumOf(Qty(), legs))
                          - SumOf(EntryFee(), legs) - SumOf(ExitFee(), legs)
  }

  /** The results are the price flow less the fees, and in total r weighs the risk at entry. */
  ghost predicate Accounted(e: OpenTrade, legs: seq<Trade>) {
    && PnlIsFlow(e, legs)
    && (EntryRisk(e) > 0.0 ==> SumOf(Risked(), legs) * EntryRisk(e) == SumOf(Pnl(), legs))
  }

  /** A finished trip: an optional partial exit and one final exit that together close the planned quantity, share out
      the whole entry fee, and book the signed price flow less every fee exactly once. A trip without entry risk
      is closed in one piece and reports 0 R. */
  ghost predicate Balanced(t: Trip) {
    var e, legs := t.entry, t.legs;
    && 1 <= |legs| <= 2 && !legs[|legs| - 1].partial && (|legs| == 2 ==> legs[0].partial)
    && SumOf(Qty(), legs) == e.qty && SumOf(EntryFee(), legs) == e.entryFee
    && Accounted(e, legs)
    && (EntryRisk(e) == 0.0 ==> |legs| == 1 && legs[0].r == 0.0)
  }

  /** The trip under way: what is booked and what is still open add up to the entry. */
  ghost predicate UnderWay(l: Ledger, o: OpenTrade, t: Trip) {
    var e, legs := t.entry, t.legs;
    && |legs| == (if l.partialDone then 1 else 0) && (l.partialDone ==> legs[0].partial)
    && o == e.(qty := o.qty, entryFee := o.entryFee, stop := o.stop) && o.qty > 0.0
    && SumOf(Qty(), legs) + o.qty == e.qty && SumOf(EntryFee(), legs) + o.entryFee == e.entryFee
    && Accounted(e, legs)
    && l.riskPerUnit == EntryRisk(e)
    && (EntryRisk(e) == 0.0 ==> legs == [] && o.stop == e.stop)
  }

  /** What holds of the ledger after every event. */
  ghost predicate Sound(l: Ledger) {
    && !(l.pending.Some? && l.open.Some?)
    && (l.pending.Some? ==> l.pending.value.qty > 0.0)
    && |l.log.accepted| == Finals(l.trades) + (if l.open.Some? then 1 else 0) + (if l.pending.Some? then 1 else 0)
    && (l.open.Some? <==> l.log.current.Some?)
    && (l.open.Some? ==> UnderWay(l, l.open.value, l.log.current.value))
    && (forall t :: t in l.log.trips ==> Balanced(t))
    && l.trades == LegsOf(l.log.trips) + (if l.open.Some? then l.log.current.value.legs else [])
  }

  // ---- events and their guards

  /** What the engine may do to its ledger; fills are whatever a broker chooses to report. */
  datatype Event =
    | Entered(plan: Plan)
    | Reported(fill: Fill)
    | PartClosed(fill: Fill, qty: real)
    | StopToEntry
    | Tick

  function Apply(l: Ledger, e: Event): Ledger {
    match e
    case Entered(p) => if l.pending.None? && l.open.None? && p.qty > 0.0 then Accept(l, p) else l
    case Reported(x) => OnFill(l, x)
    case PartClosed(x, qty) =>
      if l.open.Some? && RiskOf(l) > 0.0 && !l.partialDone && 0.0 < qty < l.open.value.qty
      then OnPartial(l, x, qty) else l
    case StopToEntry =>
      if l.open.Some? && RiskOf(l) > 0.0 && !l.breakevenDone then OnBreakeven(l) else l
    case Tick => if l.open.Some? then l.(barsHeld := l.barsHeld + 1) else l
  }

  function Run(events: seq<Event>): Ledger {
    if events == [] then Empty() else Apply(Run(events[..|events| - 1]), events[|events| - 1])
  }

  // ---- proofs

  lemma InRTimesRisk(pnl: real, risk: real, qty: real)
    requires risk > 0.0 && qty > 0.0
    ensures InR(pnl, risk, qty) * qty * risk == pnl
  {
    var d := risk * qty;
    assert d > 0.0;
    assert pnl / d * d == pnl;
  }

  /** Booking one more leg keeps the account of the trip. */
  lemma LegIsAccounted(e: OpenTrade, legs: seq<Trade>, t: Trade, risk: real)
    requires Accounted(e, legs) && risk == EntryRisk(e)
    requires t.what.qty > 0.0 && t.what.side == e.side && t.what.entryPrice == e.entryPrice
    requires t.pnl == Gross(e.side, e.entryPrice, t.exitPrice, t.what.qty) - t.what.entryFee - t.exitFee
    requires t.r == InR(t.pnl, risk, t.what.qty)
    ensures Accounted(e, legs + [t])
  {
    LegFlows(e, legs, t);
    if risk > 0.0 { LegWeighsRisk(legs, t, risk); }
  }

  lemma LegFlows(e: OpenTrade, legs: seq<Trade>, t: Trade)
    requires PnlIsFlow(e, legs)
    requires t.pnl == Gross(e.side, e.entryPrice, t.exitPrice, t.what.qty) - t.what.entryFee - t.exitFee
    ensures PnlIsFlow(e, legs + [t])
  {
    SumSnoc(Pnl(), legs, t);
    SumSnoc(Proceeds(), legs, t);
    SumSnoc(Qty(), legs, t);
    SumSnoc(EntryFee(), legs, t);
    SumSnoc(ExitFee(), legs, t);
    FlowOfLeg(e.side, e.entryPrice, t.exitPrice, t.what.qty, SumOf(Proceeds(), legs), SumOf(Qty(), legs));
  }

  lemma LegWeighsRisk(legs: seq<Trade>, t: Trade, risk: real)
    requires SumOf(Risked(), legs) * risk == SumOf(Pnl(), legs) && risk > 0.0
    requires t.what.qty > 0.0 && t.r == InR(t.pnl, risk, t.what.qty)
    ensures SumOf(Risked(), legs + [t]) * risk == SumOf(Pnl(), legs + [t])
  {
    SumSnoc(Pnl(), legs, t);
    SumSnoc(Risked(), legs, t);
    InRTimesRisk(t.pnl, risk, t.what.qty);
    Distribute(SumOf(Risked(), legs), t.r * t.what.qty, risk);
  }

  lemma Distribute(x: real, y: real, z: real)
    ensures (x + y) * z == x * z + y * z
  {
  }

  lemma FlowOfLeg(side: Side, entry: real, exit: real, qty: real, proceeds: real, closed: real)
    ensures side.Of(proceeds + qty * exit - entry * (closed + qty))
         == side.Of(proceeds - entry * closed) + Gross(side, entry, exit, qty)
  {
    assert entry * (closed + qty) == entry * closed + entry * qty;
  }

  lemma EntryKeeps(l: Ledger, x: Fill)
    requires Sound(l)
    ensures Sound(OnEntry(l, x))
  {
  }

  lemma LastLegBalances(l: Ledger, x: Fill)
    requires l.open.Some? && l.log.current.Some? && UnderWay(l, l.open.value, l.log.current.value)
    ensures Balanced(WithLeg(l.log.current, ClosedBy(l, x)).value)
  {
    var o, trip, t := l.open.value, l.log.current.value, ClosedBy(l, x);
    LegIsAccounted(trip.entry, trip.legs, t, RiskOf(l));
    SumSnoc(Qty(), trip.legs, t);
    SumSnoc(EntryFee(), trip.legs, t);
  }

  lemma LegsSnoc(trips: seq<Trip>, t: Trip)
    ensures LegsOf(trips + [t]) == LegsOf(trips) + t.legs
  {
    assert (trips + [t])[..|trips|] == trips;
  }

  lemma FinalsSnoc(ts: seq<Trade>, t: Trade)
    ensures Finals(ts + [t]) == Finals(ts) + if t.partial then 0 else 1
  {
    assert (ts + [t])[..|ts|] == ts;
  }

  lemma TripsStayBalanced(l: Ledger, x: Fill)
    requires Sound(l) && l.open.Some?
    ensures forall t :: t in OnExit(l, x).log.trips ==> Balanced(t)
  {
    LastLegBalances(l, x);
  }

  lemma ExitKeeps(l: Ledger, x: Fill)
    requires Sound(l)
    ensures Sound(OnExit(l, x))
  {
    if l.open.Some? {
      var t := ClosedBy(l, x);
      TripsStayBalanced(l, x);
      LegsSnoc(l.log.trips, WithLeg(l.log.current, t).value);
      FinalsSnoc(l.trades, t);
    }
  }

  lemma PartStaysUnderWay(l: Ledger, x: Fill, qty: real)
    requires l.open.Some? && l.log.current.Some? && UnderWay(l, l.open.value, l.log.current.value)
    requires RiskOf(l) > 0.0 && !l.partialDone && 0.0 < qty < l.open.value.qty
    ensures var m := OnPartial(l, x, qty); UnderWay(m, m.open.value, m.log.current.value)
  {
    var trip, t := l.log.current.value, PartOf(l, x, qty);
    LegIsAccounted(trip.entry, trip.legs, t, RiskOf(l));
    SumSnoc(Qty(), trip.legs, t);
    SumSnoc(EntryFee(), trip.legs, t);
  }

  lemma PartKeeps(l: Ledger, x: Fill, qty: real)
    requires Sound(l) && l.open.Some? && RiskOf(l) > 0.0 && !l.partialDone && 0.0 < qty < l.open.value.qty
    ensures Sound(OnPartial(l, x, qty))
  {
    PartStaysUnderWay(l, x, qty);
    FinalsSnoc(l.trades, PartOf(l, x, qty));
  }

  lemma StopKeeps(l: Ledger)
    requires Sound(l) && l.open.Some? && RiskOf(l) > 0.0
    ensures Sound(OnBreakeven(l))
  {
  }

  lemma FillKeeps(l: Ledger, x: Fill)
    requires Sound(l)
    ensures Sound(OnFill(l, x))
  {
    match x.role
    case PartialExit =>
    case Entry => EntryKeeps(l, x);
    case Exit => ExitKeeps(l, x);
  }

  lemma ApplyKeeps(l: Ledger, e: Event)
    requires Sound(l)
    ensures Sound(Apply(l, e))
  {
    match e
    case Entered(p) => AcceptKeeps(l, p);
    case Reported(x) => FillKeeps(l, x);
    case PartClosed(x, qty) => PartClosedKeeps(l, x, qty);
    case StopToEntry => if l.open.Some? && RiskOf(l) > 0.0 { StopKeeps(l); }
    case Tick => TickKeeps(l);
  }

  lemma PartClosedKeeps(l: Ledger, x: Fill, qty: real)
    requires Sound(l)
    ensures Sound(Apply(l, PartClosed(x, qty)))
  {
    if l.open.Some? && RiskOf(l) > 0.0 && !l.partialDone && 0.0 < qty < l.open.value.qty {
      PartKeeps(l, x, qty);
    }
  }

  lemma AcceptKeeps(l: Ledger, p: Plan)
    requires Sound(l)
    ensures Sound(Apply(l, Entered(p)))
  {
  }

  lemma TickKeeps(l: Ledger)
    requires Sound(l)
    ensures Sound(Apply(l, Tick))
  {
  }

  /** Whatever fills are reported, in whatever order: pending and open never coexist, every accepted entry order is
      pending, open or closed by exactly one final trade, and every finished trip is balanced. */
  lemma {:induction false} EveryLedgerIsSound(events: seq<Event>)
    ensures Sound(Run(events))
  {
    if events != [] {
      EveryLedgerIsSound(events[..|events| - 1]);
      ApplyKeeps(Run(events[..|events| - 1]), events[|events| - 1]);
    }
  }
}
