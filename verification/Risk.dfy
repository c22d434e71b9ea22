/** Position sizing (tradexa/risk/position_sizing.py) and the risk manager (bot/risk.py). */
module Risk {
  import opened Types

  datatype SizingMode = FixedQuantity | FixedStartingEquityPercent | DynamicCurrentEquityPercent | Unsupported

  datatype RiskConfig = RiskConfig(
    riskPct: real, maxOpen: int, maxDailyLoss: real, maxPositionPct: real, cooldownBars: int,
    atrMult: real, atrPeriod: int, mode: SizingMode, fixedQuantity: real, startingEquity: Option<real>,
    reinvest: bool, maxRiskAmount: Option<real>, minEquity: Option<real>)
  {
    /** What the constructor accepts. */
    predicate Valid() {
      && 0.0 < riskPct <= 1.0 && maxOpen >= 1 && 0.0 < maxDailyLoss <= 1.0 && 0.0 < maxPositionPct <= 1.0
      && cooldownBars >= 0 && atrMult >= 0.0 && atrPeriod >= 1
    }
  }

  // ---- sizing, for an instrument without steps or limits

  /** The equity that a trade's risk is a percentage of. */
  function Basis(c: RiskConfig, starting: real, realized: real): real {
    match c.mode
    case FixedStartingEquityPercent => starting
    case DynamicCurrentEquityPercent => if c.reinvest then realized else Min(starting, realized)
    case _ => realized
  }

  function Budget(c: RiskConfig, starting: real, realized: real): real {
    var amount := Max(0.0, Basis(c, starting, realized) * c.riskPct);
    if c.maxRiskAmount.Some? && c.maxRiskAmount.value > 0.0 then Min(amount, c.maxRiskAmount.value) else amount
  }

  /** The quantity, or None when sizing refuses. */
  function Size(c: RiskConfig, starting: real, realized: real, entry: real, stop: real): Option<real> {
    var distance := Abs(entry - stop);
    if c.mode.Unsupported? || starting <= 0.0 || realized <= 0.0 then None
    else if c.minEquity.Some? && realized < c.minEquity.value then None
    else if entry <= 0.0 || stop <= 0.0 || distance <= 0.0 then None
    else if c.mode.FixedQuantity? then
      if c.maxRiskAmount.Some? && c.maxRiskAmount.value > 0.0
         && c.fixedQuantity * distance > c.maxRiskAmount.value + 0.000000000001 then None
      else if c.fixedQuantity <= 0.0 then None else Some(c.fixedQuantity)
    else
      var budget := Budget(c, starting, realized);
      if !(0.0 < c.riskPct <= 1.0) || budget <= 0.0 then None else Some(budget / distance)
  }

  // ---- the manager

  datatype RiskState = RiskState(
    day: Option<int>, anchor: real, realizedToday: real, lastLoss: Option<int>, cooldown: int,
    atr: real, starting: Option<real>, realized: Option<real>)

  function Fresh(c: RiskConfig): RiskState {
    RiskState(None, 0.0, 0.0, None, 0, 0.0, c.startingEquity, c.startingEquity)
  }

  /** Roll the day over when it changed, then count the cooldown down by one bar. */
  function BarUpdate(s: RiskState, equity: real, time: int): RiskState {
    var today := DayOf(time);
    var t :=
      if s.day.None? then
        s.(day := Some(today), anchor := equity,
           starting := if s.starting.None? then Some(equity) else s.starting,
           realized := if s.starting.None? then Some(equity) else s.realized)
      else if s.day.value != today then
        s.(day := Some(today), anchor := equity, realizedToday := 0.0, lastLoss := None, cooldown := 0)
      else s;
    t.(cooldown := if t.cooldown > 0 then t.cooldown - 1 else t.cooldown)
  }

  function CloseUpdate(c: RiskConfig, s: RiskState, pnl: real, now: int): RiskState {
    var t := s.(realizedToday := s.realizedToday + pnl,
                realized := if s.realized.Some? then Some(s.realized.value + pnl) else None);
    if pnl < 0.0 then t.(lastLoss := Some(now), cooldown := c.cooldownBars) else t
  }

  datatype Verdict = DailyLoss | Cooldown | TooManyOpen | NoStopDistance | NotSized | NoQuantity | Allow(qty: real)

  /** A caller that skipped the bar hook is anchored on its first request. */
  function Anchored(s: RiskState, equity: real, now: int): RiskState {
    if s.day.None? then s.(day := Some(DayOf(now)), anchor := equity) else s
  }

  /** The stop distance used for sizing: the signal's own, or the wider ATR stop. */
  function SizingDistance(c: RiskConfig, s: RiskState, signal: Signal): real {
    var own := Abs(signal.entry - signal.stopLoss);
    if c.atrMult > 0.0 && s.atr > 0.0 then Max(own, c.atrMult * s.atr) else own
  }

  /** The quantity, cut to what `cap` buys. */
  function Capped(qty: real, entry: real, cap: real): real {
    if entry > 0.0 && qty * entry > cap then cap / entry else qty
  }

  function SizeEntry(c: RiskConfig, starting: real, realized: real, entry: real, distance: real,
                     equity: real): Verdict {
    var sized := Size(c, starting, realized, entry, entry - distance);
    if sized.None? then NotSized else
      var qty := Capped(sized.value, entry, equity * c.maxPositionPct);
      if qty <= 0.0 then NoQuantity else Allow(qty)
  }

  predicate DownForTheDay(c: RiskConfig, anchor: real, equity: real) {
    anchor > 0.0 && (equity - anchor) / anchor <= -c.maxDailyLoss
  }

  function OrElse(x: Option<real>, default: real): real { if x.None? then default else x.value }

  function Judge(c: RiskConfig, s: RiskState, signal: Signal, account: Account): Verdict {
    if DownForTheDay(c, s.anchor, account.equity) then DailyLoss
    else if s.cooldown > 0 then Cooldown
    else if account.positionCount >= c.maxOpen then TooManyOpen
    else if Abs(signal.entry - signal.stopLoss) <= 0.0 then NoStopDistance
    else SizeEntry(c, OrElse(s.starting, account.equity), OrElse(s.realized, account.equity),
                   signal.entry, SizingDistance(c, s, signal), account.equity)
  }

  class RiskManager {
    const cfg: RiskConfig
    var day: Option<int>
    var anchor: real
    var realizedToday: real
    var lastLoss: Option<int>
    var cooldown: int
    var atr: real
    var starting: Option<real>
    var realized: Option<real>

    function View(): RiskState
      reads this
    {
      RiskState(day, anchor, realizedToday, lastLoss, cooldown, atr, starting, realized)
    }

    constructor (cfg: RiskConfig)
      ensures this.cfg == cfg && View() == Fresh(cfg)
    {
      this.cfg := cfg;
      day, anchor, realizedToday, lastLoss, cooldown, atr := None, 0.0, 0.0, None, 0, 0.0;
      starting, realized := cfg.startingEquity, cfg.startingEquity;
    }

    method UpdateAtr(value: real)
      modifies this
      ensures View() == old(View()).(atr := value)
    {
      atr := value;
    }

    method OnBar(equity: real, time: int)
      modifies this
      ensures View() == BarUpdate(old(View()), equity, time)
    {
      var today := DayOf(time);
      if day.None? {
        day, anchor := Some(today), equity;
        if starting.None? {
          starting, realized := Some(equity), Some(equity);
        }
      } else if day.value != today {
        day, anchor, realizedToday, lastLoss, cooldown := Some(today), equity, 0.0, None, 0;
      }
      if cooldown > 0 {
        cooldown := cooldown - 1;
      }
    }

    method Evaluate(signal: Signal, account: Account, now: int) returns (v: Verdict)
      modifies this
      ensures View() == Anchored(old(View()), account.equity, now)
      ensures v == Judge(cfg, View(), signal, account)
    {
      if day.None? {
        day, anchor := Some(DayOf(now)), account.equity;
      }
      if DownForTheDay(cfg, anchor, account.equity) { return DailyLoss; }
      if cooldown > 0 { return Cooldown; }
      if account.positionCount >= cfg.maxOpen { return TooManyOpen; }
      if Abs(signal.entry - signal.stopLoss) <= 0.0 { return NoStopDistance; }
      v := SizeEntry(cfg, OrElse(starting, account.equity), OrElse(realized, account.equity),
                     signal.entry, SizingDistance(cfg, View(), signal), account.equity);
    }

    method OnTradeClosed(pnl: real, now: int)
      modifies this
      ensures View() == CloseUpdate(cfg, old(View()), pnl, now)
    {
      realizedToday := realizedToday + pnl;
      if realized.Some? { realized := Some(realized.value + pnl); }
      if pnl < 0.0 {
        lastLoss, cooldown := Some(now), cfg.cooldownBars;
      }
    }
  }

  // ---- what an approval guarantees

  lemma Product(x: real, y: real, c: real)
    requires x <= y && c >= 0.0
    ensures x * c <= y * c
  {
  }

  lemma QuotientTimes(x: real, y: real)
    requires y > 0.0
    ensures x / y * y == x
  {
  }

  /** A percentage-sized quantity puts the whole budget at risk between entry and stop, and no more than
      the configured share of the basis. */
  lemma SizedRisksTheBudget(c: RiskConfig, starting: real, realized: real, entry: real, stop: real)
    requires !c.mode.FixedQuantity? && Size(c, starting, realized, entry, stop).Some?
    ensures var q := Size(c, starting, realized, entry, stop).value;
            q > 0.0 && q * Abs(entry - stop) == Budget(c, starting, realized) &&
            q * Abs(entry - stop) <= Basis(c, starting, realized) * c.riskPct
  {
    var budget, distance := Budget(c, starting, realized), Abs(entry - stop);
    QuotientTimes(budget, distance);
    var q := budget / distance;
    if q <= 0.0 { Product(q, 0.0, distance); }
  }

  /** At equity e with anchor a, the loss gate opens exactly above a * (1 - limit). */
  lemma DailyLossGate(e: real, a: real, limit: real)
    requires a > 0.0
    ensures (e - a) / a <= -limit <==> e <= a * (1.0 - limit)
  {
    var dd := (e - a) / a;
    QuotientTimes(e - a, a);
    assert a * (1.0 - limit) == a - a * limit && -limit * a == -(a * limit);
    if dd <= -limit { Product(dd, -limit, a); }
    if dd > -limit {
      var gap := dd + limit;
      assert gap * a > 0.0;
      assert gap * a == dd * a + limit * a;
    }
  }

  lemma CapShrinks(sized: real, entry: real, cap: real)
    requires entry > 0.0
    ensures Capped(sized, entry, cap) <= sized && Capped(sized, entry, cap) * entry <= cap
  {
    QuotientTimes(cap, entry);
    if sized * entry > cap { Larger(cap / entry, sized, entry); }
  }

  lemma Larger(x: real, y: real, c: real)
    requires c > 0.0 && x * c < y * c
    ensures x < y
  {
  }

  /** Cutting to the cap and widening the stop only ever reduce what is at risk. */
  lemma SizedEntryIsWithinLimits(c: RiskConfig, starting: real, realized: real, entry: real, distance: real,
                                 equity: real, own: real)
    requires 0.0 <= own <= distance
    requires SizeEntry(c, starting, realized, entry, distance, equity).Allow?
    ensures var q := SizeEntry(c, starting, realized, entry, distance, equity).qty;
            && q > 0.0 && q * entry <= equity * c.maxPositionPct
            && (!c.mode.FixedQuantity? ==> q * own <= Basis(c, starting, realized) * c.riskPct)
  {
    var sized := Size(c, starting, realized, entry, entry - distance).value;
    var q := SizeEntry(c, starting, realized, entry, distance, equity).qty;
    CapShrinks(sized, entry, equity * c.maxPositionPct);
    if !c.mode.FixedQuantity? {
      SizedRisksTheBudget(c, starting, realized, entry, entry - distance);
      RiskShrinks(q, sized, own, distance);
    }
  }

  /** An approved entry passed every gate; its loss at the signal's stop stays within the risk share of the basis
      unless the quantity is fixed, and its notional within the position cap. */
  lemma ApprovedIsWithinLimits(c: RiskConfig, s: RiskState, signal: Signal, account: Account)
    requires Judge(c, s, signal, account).Allow?
    ensures var q := Judge(c, s, signal, account).qty;
            && q > 0.0 && s.cooldown <= 0 && account.positionCount < c.maxOpen
            && (s.anchor > 0.0 ==> account.equity > s.anchor * (1.0 - c.maxDailyLoss))
            && q * signal.entry <= account.equity * c.maxPositionPct
            && (!c.mode.FixedQuantity? ==>
                  q * Abs(signal.entry - signal.stopLoss)
                    <= Basis(c, OrElse(s.starting, account.equity), OrElse(s.realized, account.equity)) * c.riskPct)
  {
    if s.anchor > 0.0 { DailyLossGate(account.equity, s.anchor, c.maxDailyLoss); }
    SizedEntryIsWithinLimits(c, OrElse(s.starting, account.equity), OrElse(s.realized, account.equity), signal.entry,
                             SizingDistance(c, s, signal), account.equity, Abs(signal.entry - signal.stopLoss));
  }

  lemma RiskShrinks(q: real, sized: real, own: real, distance: real)
    requires 0.0 < q <= sized && 0.0 <= own <= distance
    ensures q * own <= sized * distance
  {
    Product(q, sized, own);
    Product(own, distance, sized);
  }

  // ---- cooldown and anchor as functions of the run's history

  datatype Event =
    | BarSeen(equity: real, time: int)
    | Asked(equity: real, time: int)
    | TradeClosed(pnl: real, time: int)

  function After(c: RiskConfig, s: RiskState, e: Event): RiskState {
    match e
    case BarSeen(equity, time) => BarUpdate(s, equity, time)
    case Asked(equity, time) => Anchored(s, equity, time)
    case TradeClosed(pnl, time) => CloseUpdate(c, s, pnl, time)
  }

  function Replay(c: RiskConfig, events: seq<Event>): RiskState {
    if events == [] then Fresh(c) else After(c, Replay(c, events[..|events| - 1]), events[|events| - 1])
  }

  lemma ReplayNext(c: RiskConfig, events: seq<Event>, e: Event)
    ensures Replay(c, events + [e]) == After(c, Replay(c, events), e)
  {
    assert (events + [e])[..|events|] == events;
  }

  /** The day of the latest bar, or before any bar that of the first request. */
  function LastDay(events: seq<Event>): Option<int> {
    if events == [] then None else
      var e, before := events[|events| - 1], LastDay(events[..|events| - 1]);
      if e.BarSeen? || (e.Asked? && before.None?) then Some(DayOf(e.time)) else before
  }

  /** The last event is a bar on another day than the one under way. */
  predicate RollsOver(events: seq<Event>)
    requires events != []
  {
    var e, day := events[|events| - 1], LastDay(events[..|events| - 1]);
    e.BarSeen? && day.Some? && day.value != DayOf(e.time)
  }

  /** Reading backwards: the configured bars less the bars since the last losing close, but nothing from
      before the last rollover; `bars` counts the bars already passed. */
  function CooldownLeft(c: RiskConfig, events: seq<Event>, bars: nat): int {
    if events == [] || RollsOver(events) then 0 else
      var e, earlier := events[|events| - 1], events[..|events| - 1];
      if e.BarSeen? then CooldownLeft(c, earlier, bars + 1)
      else if e.Asked? || e.pnl >= 0.0 then CooldownLeft(c, earlier, bars)
      else if c.cooldownBars > bars then c.cooldownBars - bars else 0
  }

  /** The equity that opened the day under way: that of its first bar, or of a first request before any bar. */
  function DayOpenEquity(events: seq<Event>): real {
    if events == [] then 0.0 else
      var e, earlier := events[|events| - 1], events[..|events| - 1];
      if !e.TradeClosed? && (RollsOver(events) || LastDay(earlier).None?) then e.equity else DayOpenEquity(earlier)
  }

  lemma {:induction false} CooldownIsHistory(c: RiskConfig, events: seq<Event>, bars: nat)
    requires c.cooldownBars >= 0
    ensures var s := Replay(c, events);
            s.cooldown >= 0 && s.day == LastDay(events) &&
            CooldownLeft(c, events, bars) == if s.cooldown > bars then s.cooldown - bars else 0
  {
    if events != [] {
      CooldownIsHistory(c, events[..|events| - 1], bars + 1);
      CooldownIsHistory(c, events[..|events| - 1], bars);
    }
  }

  lemma {:induction false} AnchorIsHistory(c: RiskConfig, events: seq<Event>)
    requires c.cooldownBars >= 0
    ensures Replay(c, events).anchor == DayOpenEquity(events)
  {
    if events != [] {
      AnchorIsHistory(c, events[..|events| - 1]);
      CooldownIsHistory(c, events[..|events| - 1], 0);
    }
  }

  /** What the trades closed since the latest rollover brought. */
  function DayResult(events: seq<Event>): real {
    if events == [] || RollsOver(events) then 0.0 else
      var e := events[|events| - 1];
      DayResult(events[..|events| - 1]) + if e.TradeClosed? then e.pnl else 0.0
  }

  /** When a trade last lost since the latest rollover. */
  function LatestLoss(events: seq<Event>): Option<int> {
    if events == [] || RollsOver(events) then None else
      var e := events[|events| - 1];
      if e.TradeClosed? && e.pnl < 0.0 then Some(e.time) else LatestLoss(events[..|events| - 1])
  }

  /** The configured starting equity, or else that of the first bar unless a request came before it. */
  function FirstBasis(c: RiskConfig, events: seq<Event>): Option<real> {
    if events == [] then c.startingEquity else
      var e, earlier := events[|events| - 1], events[..|events| - 1];
      if FirstBasis(c, earlier).None? && LastDay(earlier).None? && e.BarSeen? then Some(e.equity)
      else FirstBasis(c, earlier)
  }

  /** What the trades closed since there is a basis brought. */
  function ClosedSince(c: RiskConfig, events: seq<Event>): real {
    if events == [] then 0.0 else
      var e, earlier := events[|events| - 1], events[..|events| - 1];
      ClosedSince(c, earlier) + if e.TradeClosed? && FirstBasis(c, earlier).Some? then e.pnl else 0.0
  }

  /** The day's result, the latest loss and the basis that trades are sized by are what the history says. */
  lemma {:induction false} DayAndBasisAreHistory(c: RiskConfig, events: seq<Event>)
    requires c.cooldownBars >= 0
    ensures var s := Replay(c, events);
            && s.realizedToday == DayResult(events) && s.lastLoss == LatestLoss(events)
            && s.starting == FirstBasis(c, events) && (s.starting.None? <==> s.realized.None?)
            && (s.realized.Some? ==> s.realized.value == s.starting.value + ClosedSince(c, events))
            && (s.starting.None? ==> ClosedSince(c, events) == 0.0)
  {
    if events != [] {
      DayAndBasisAreHistory(c, events[..|events| - 1]);
      CooldownIsHistory(c, events[..|events| - 1], 0);
    }
  }

  /** No losing close of the day is fewer than the configured bars ago, and equity is not down by the daily limit from
      what opened the day. */
  ghost predicate Unblocked(c: RiskConfig, events: seq<Event>, equity: real) {
    && CooldownLeft(c, events, 0) == 0
    && (DayOpenEquity(events) > 0.0 ==> equity > DayOpenEquity(events) * (1.0 - c.maxDailyLoss))
  }

  lemma ApprovedIsUnblocked(c: RiskConfig, events: seq<Event>, atr: real, signal: Signal, account: Account)
    requires c.Valid() && Judge(c, Replay(c, events).(atr := atr), signal, account).Allow?
    ensures Unblocked(c, events, account.equity)
  {
    CooldownIsHistory(c, events, 0);
    AnchorIsHistory(c, events);
    ApprovedIsWithinLimits(c, Replay(c, events).(atr := atr), signal, account);
  }

  /** Over every history, with or without a bar before the first request, and whatever range was last measured: a
      request that is approved is unblocked. */
  lemma NoEntryWhileBlocked(c: RiskConfig, events: seq<Event>, atr: real, signal: Signal, account: Account, now: int)
    requires c.Valid()
    ensures var s := Replay(c, events).(atr := atr);
            Judge(c, Anchored(s, account.equity, now), signal, account).Allow? ==>
              Unblocked(c, events + [Asked(account.equity, now)], account.equity)
  {
    var asked := events + [Asked(account.equity, now)];
    ReplayNext(c, events, Asked(account.equity, now));
    assert Anchored(Replay(c, events).(atr := atr), account.equity, now) == Replay(c, asked).(atr := atr);
    if Judge(c, Replay(c, asked).(atr := atr), signal, account).Allow? {
      ApprovedIsUnblocked(c, asked, atr, signal, account);
    }
  }
}
