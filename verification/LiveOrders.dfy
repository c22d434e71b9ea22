/** The live runner (bot/live.py) against an arbitrary venue: submit an entry, confirm its fill, resolve what did not
    fill, protect what did, or stop. */
module LiveOrders {
  import opened Types
  import opened Risk

  type Id = string

  /** What the venue says of an entry it was asked to cancel; Failed is a call that raised. */
  datatype Resolution = Accepted(filled: real) | Cancelled | Unresolved | Failed

  /** A call to the venue with its answer; None is a call that raised. */
  datatype Call =
    | Balance(account: Option<Account>)
    | ReadPosition(held: Option<Option<real>>)
    | Submit(order: Order, id: Option<Id>)
    | Fills(fills: Option<seq<(Id, real)>>)
    | Resolve(entry: Id, resolution: Resolution)
    | Protect(filled: Id, qty: real, accepted: bool)

  type Trace = seq<Call>

  /** Any venue at all: every answer may depend on all calls made before. A venue need not offer to resolve
      unfilled entries or to protect filled ones. */
  datatype Venue = Venue(
    account: Trace -> Option<Account>, position: Trace -> Option<Option<real>>, submit: (Trace, Order) -> Option<Id>,
    fills: Trace -> Option<seq<(Id, real)>>, resolve: (Trace, Id) -> Resolution, protect: (Trace, Id, real) -> bool,
    resolves: bool, protects: bool)

  type Strategy = seq<Bar> -> Option<Signal>

  datatype Config = Config(risk: RiskConfig, dryRun: bool)

  /** The runner believes `inPosition`; it is no longer alive once an exception has ended its loop. */
  datatype Live = Live(inPosition: bool, risk: RiskState, seen: seq<Bar>, trace: Trace, alive: bool)
  {
    function Log(call: Call): Live { this.(trace := trace + [call]) }
  }

  predicate Holding(held: Option<real>) { held.Some? && held.value != 0.0 }

  function FilledQty(fills: seq<(Id, real)>, id: Id): real {
    if fills == [] then 0.0 else
      FilledQty(fills[..|fills| - 1], id) + if fills[|fills| - 1].0 == id then fills[|fills| - 1].1 else 0.0
  }

  function Confirmed(fills: Option<seq<(Id, real)>>, id: Id): real {
    if fills.None? then 0.0 else FilledQty(fills.value, id)
  }

  function OrderFor(s: Signal, qty: real): Order {
    Order(s.symbol, if s.kind.Long? then Buy else Sell, qty, s.stopLoss, s.takeProfit)
  }

  // ---- one bar

  function Guard(v: Venue, s: Live, id: Id, qty: real): Live {
    if !v.protects then s.(inPosition := true) else
      var ok := v.protect(s.trace, id, qty);
      var t := s.Log(Protect(id, qty, ok));
      if ok then t.(inPosition := true) else t.(alive := false)
  }

  function Settle(v: Venue, s: Live, id: Id): Live {
    var fills := v.fills(s.trace);
    var t := s.Log(Fills(fills));
    if Confirmed(fills, id) > 0.0 then Guard(v, t, id, Confirmed(fills, id))
    else if !v.resolves then t
    else
      var r := v.resolve(t.trace, id);
      var u := t.Log(Resolve(id, r));
      match r
      case Accepted(qty) => Guard(v, u, id, qty)
      case Cancelled => u
      case _ => u.(alive := false)
  }

  function Send(v: Venue, s: Live, o: Order): Live {
    var id := v.submit(s.trace, o);
    var t := s.Log(Submit(o, id));
    if id.None? then t else Settle(v, t, id.value)
  }

  function Request(c: Config, v: Venue, s: Live, account: Account, signal: Signal, now: int): Live {
    var risk := Anchored(s.risk, account.equity, now);
    var verdict := Judge(c.risk, risk, signal, account);
    var t := s.(risk := risk);
    if !verdict.Allow? || c.dryRun then t else Send(v, t, OrderFor(signal, verdict.qty))
  }

  function Consider(c: Config, v: Venue, s: Live, account: Account, signal: Signal, now: int): Live {
    var held := v.position(s.trace);
    var t := s.Log(ReadPosition(held));
    if held.None? then t.(alive := false)
    else if Holding(held.value) != s.inPosition then t.(inPosition := Holding(held.value))
    else if held.value.Some? then t
    else Request(c, v, t, account, signal, now)
  }

  /** A bar whose account cannot be fetched is not shown to the strategy. */
  function OnBar(c: Config, v: Venue, strategy: Strategy, s: Live, bar: Bar): Live {
    var account := v.account(s.trace);
    var t := s.Log(Balance(account));
    if account.None? then t else
      var u := t.(risk := BarUpdate(t.risk, account.value.equity, bar.timestamp), seen := t.seen + [bar]);
      var signal := strategy(u.seen);
      if signal.None? || signal.value.kind.Flat? then u
      else Consider(c, v, u, account.value, signal.value, bar.timestamp)
  }

  function Start(c: Config, warmup: seq<Bar>): Live { Live(false, Fresh(c.risk), warmup, [], true) }

  function Run(c: Config, v: Venue, strategy: Strategy, warmup: seq<Bar>, bars: seq<Bar>): Live {
    if bars == [] then Start(c, warmup) else
      var s := Run(c, v, strategy, warmup, bars[..|bars| - 1]);
      if s.alive then OnBar(c, v, strategy, s, bars[|bars| - 1]) else s
  }

  // ---- the runner object

  class LiveRunner {
    const cfg: Config
    const venue: Venue
    const strategy: Strategy
    const risk: RiskManager
    var inPosition: bool
    var seen: seq<Bar>
    var trace: Trace

    predicate Wired() { risk.cfg == cfg.risk }

    function View(alive: bool): Live
      reads this, risk
    {
      Live(inPosition, risk.View(), seen, trace, alive)
    }

    constructor (cfg: Config, venue: Venue, strategy: Strategy, warmup: seq<Bar>)
      ensures Wired() && fresh(risk) && this.cfg == cfg && this.venue == venue && this.strategy == strategy
      ensures View(true) == Start(cfg, warmup)
    {
      this.cfg, this.venue, this.strategy := cfg, venue, strategy;
      risk := new RiskManager(cfg.risk);
      inPosition, seen, trace := false, warmup, [];
    }

    /** Refresh the venue's position and compare it with the mirror, which follows the venue. */
    method Reconcile() returns (alive: bool, consistent: bool, held: Option<real>)
      modifies this
      ensures seen == old(seen) && trace == old(trace) + [ReadPosition(venue.position(old(trace)))]
      ensures var answer := venue.position(old(trace));
              if answer.None? then !alive && inPosition == old(inPosition)
              else alive && held == answer.value && inPosition == Holding(held)
                   && (consistent <==> inPosition == old(inPosition))
    {
      var answer := venue.position(trace);
      trace := trace + [ReadPosition(answer)];
      if answer.None? { return false, false, None; }
      held := answer.value;
      if Holding(held) != inPosition {
        inPosition := Holding(held);
        return true, false, held;
      }
      return true, true, held;
    }

    method VerifyFill(id: Id) returns (total: real)
      modifies this`trace
      ensures trace == old(trace) + [Fills(venue.fills(old(trace)))]
      ensures total == Confirmed(venue.fills(old(trace)), id)
    {
      var fills := venue.fills(trace);
      trace := trace + [Fills(fills)];
      if fills.None? { return 0.0; }
      total := 0.0;
      for i := 0 to |fills.value|
        invariant total == FilledQty(fills.value[..i], id)
      {
        assert fills.value[..i + 1][..i] == fills.value[..i];
        if fills.value[i].0 == id { total := total + fills.value[i].1; }
      }
      assert fills.value[..|fills.value|] == fills.value;
    }

    method GuardEntry(id: Id, qty: real) returns (alive: bool)
      modifies this
      ensures View(alive) == Guard(venue, old(View(true)), id, qty)
    {
      if venue.protects {
        var ok := venue.protect(trace, id, qty);
        trace := trace + [Protect(id, qty, ok)];
        if !ok { return false; }
      }
      inPosition := true;
      return true;
    }

    method SettleEntry(id: Id) returns (alive: bool)
      modifies this
      ensures View(alive) == Settle(venue, old(View(true)), id)
    {
      var filled := VerifyFill(id);
      if filled <= 0.0 {
        if !venue.resolves { return true; }
        var r := venue.resolve(trace, id);
        trace := trace + [Resolve(id, r)];
        match r
        case Accepted(qty) => filled := qty;
        case Cancelled => return true;
        case _ => return false;
      }
      alive := GuardEntry(id, filled);
    }

    method HandleBar(bar: Bar) returns (alive: bool)
      requires Wired()
      modifies this, risk
      ensures View(alive) == OnBar(cfg, venue, strategy, old(View(true)), bar)
    {
      var account := venue.account(trace);
      trace := trace + [Balance(account)];
      if account.None? { return true; }
      risk.OnBar(account.value.equity, bar.timestamp);
      seen := seen + [bar];
      var signal := strategy(seen);
      if signal.None? || signal.value.kind.Flat? { return true; }
      alive := ActOn(account.value, signal.value, bar.timestamp);
    }

    method ActOn(account: Account, signal: Signal, now: int) returns (alive: bool)
      requires Wired()
      modifies this, risk
      ensures View(alive) == Consider(cfg, venue, old(View(true)), account, signal, now)
    {
      var consistent, held;
      alive, consistent, held := Reconcile();
      if !alive || !consistent || held.Some? { return; }
      var verdict := risk.Evaluate(signal, account, now);
      if !verdict.Allow? || cfg.dryRun { return; }
      var o := OrderFor(signal, verdict.qty);
      var id := venue.submit(trace, o);
      trace := trace + [Submit(o, id)];
      if id.None? { return; }
      alive := SettleEntry(id.value);
    }

    method RunLoop(bars: seq<Bar>, ghost warmup: seq<Bar>) returns (alive: bool)
      requires Wired() && View(true) == Start(cfg, warmup)
      modifies this, risk
      ensures View(alive) == Run(cfg, venue, strategy, warmup, bars)
    {
      alive := true;
      for i := 0 to |bars|
        invariant View(alive) == Run(cfg, venue, strategy, warmup, bars[..i])
      {
        assert bars[..i + 1][..i] == bars[..i];
        if alive { alive := HandleBar(bars[i]); }
      }
      assert bars[..|bars|] == bars;
    }
  }

  // ---- safety of the trace

  predicate Returned(trace: Trace, i: nat) { i < |trace| && trace[i].Submit? && trace[i].id.Some? }

  /** The call protects the filled quantity of the entry, or confirms that it was cancelled without a fill. */
  predicate Settles(call: Call, id: Id) {
    (call.Protect? && call.filled == id && call.accepted)
    || (call.Resolve? && call.entry == id && call.resolution.Cancelled?)
  }

  ghost predicate Settled(trace: Trace, i: nat)
    requires Returned(trace, i)
  {
    exists k :: i < k < |trace| && Settles(trace[k], trace[i].id.value)
  }

  /** Every entry the venue took is settled. */
  ghost predicate Clear(trace: Trace) { forall i: nat :: Returned(trace, i) ==> Settled(trace, i) }

  /** The runner's belief, as the venue's answers imply it: the latest of an accepted protection and a position read. */
  function Mirror(trace: Trace): bool {
    if trace == [] then false else
      match trace[|trace| - 1]
      case Protect(_, _, true) => true
      case ReadPosition(Some(held)) => Holding(held)
      case _ => Mirror(trace[..|trace| - 1])
  }

  /** An entry may be submitted after these calls: the venue's position was just read as none while the runner believed
      so too, and every earlier entry is settled. */
  ghost predicate MaySubmit(before: Trace) {
    && before != [] && before[|before| - 1] == ReadPosition(Some(None)) && !Mirror(before[..|before| - 1])
    && Clear(before)
  }

  /** What is protected is what the fills of the entry add up to, or what the venue said it filled when none was seen.
      */
  predicate ProtectsFill(before: Trace, id: Id, qty: real) {
    var n := |before|;
    || (n >= 1 && before[n - 1].Fills? && qty == Confirmed(before[n - 1].fills, id) > 0.0)
    || (n >= 2 && before[n - 1] == Resolve(id, Accepted(qty)) && before[n - 2].Fills?
          && Confirmed(before[n - 2].fills, id) <= 0.0)
  }

  ghost predicate Safe(trace: Trace) {
    && (forall j :: 0 <= j < |trace| && trace[j].Submit? ==> MaySubmit(trace[..j]))
    && (forall j :: 0 <= j < |trace| && trace[j].Protect? ==> ProtectsFill(trace[..j], trace[j].filled, trace[j].qty))
  }

  ghost predicate Ok(s: Live) {
    Safe(s.trace) && s.inPosition == Mirror(s.trace) && (s.alive ==> Clear(s.trace))
  }

  /** Entry number n is the only one that may be unsettled. */
  ghost predicate ClearBut(trace: Trace, n: nat) {
    Returned(trace, n) && forall i: nat :: Returned(trace, i) && i != n ==> Settled(trace, i)
  }

  lemma SafeNext(trace: Trace, call: Call)
    requires Safe(trace) && (call.Submit? ==> MaySubmit(trace))
    requires call.Protect? ==> ProtectsFill(trace, call.filled, call.qty)
    ensures Safe(trace + [call])
  {
    var next := trace + [call];
    assert next[..|trace|] == trace;
    forall j | 0 <= j < |trace| ensures next[j] == trace[j] && next[..j] == trace[..j] {}
  }

  lemma StaysSettled(trace: Trace, call: Call, i: nat)
    requires Returned(trace, i) && Settled(trace, i)
    ensures Returned(trace + [call], i) && Settled(trace + [call], i)
  {
    var k :| i < k < |trace| && Settles(trace[k], trace[i].id.value);
    assert (trace + [call])[k] == trace[k];
  }

  lemma ClearNext(trace: Trace, call: Call)
    requires Clear(trace)
    ensures !call.Submit? || call.id.None? ==> Clear(trace + [call])
    ensures call.Submit? && call.id.Some? ==> ClearBut(trace + [call], |trace|)
  {
    forall i: nat | Returned(trace + [call], i) && i < |trace| ensures Settled(trace + [call], i) {
      assert Returned(trace, i);
      StaysSettled(trace, call, i);
    }
  }

  lemma ClearButNext(trace: Trace, n: nat, call: Call)
    requires ClearBut(trace, n) && !call.Submit?
    ensures ClearBut(trace + [call], n)
    ensures Settles(call, trace[n].id.value) ==> Clear(trace + [call])
  {
    var next := trace + [call];
    forall i: nat | Returned(next, i) && i != n ensures Settled(next, i) {
      assert Returned(trace, i);
      StaysSettled(trace, call, i);
    }
    assert next[|trace|] == call;
  }

  lemma MirrorNext(trace: Trace, call: Call)
    ensures Mirror(trace + [call]) ==
      match call
      case Protect(_, _, true) => true
      case ReadPosition(Some(held)) => Holding(held)
      case _ => Mirror(trace)
  {
    assert (trace + [call])[..|trace|] == trace;
  }

  lemma GuardKeeps(v: Venue, s: Live, id: Id, qty: real, n: nat)
    requires v.protects && s.alive && Safe(s.trace) && s.inPosition == Mirror(s.trace)
    requires ClearBut(s.trace, n) && s.trace[n].id.value == id && ProtectsFill(s.trace, id, qty)
    ensures Ok(Guard(v, s, id, qty))
  {
    var call := Protect(id, qty, v.protect(s.trace, id, qty));
    SafeNext(s.trace, call);
    MirrorNext(s.trace, call);
    ClearButNext(s.trace, n, call);
  }

  lemma SettleKeeps(v: Venue, s: Live, id: Id, n: nat)
    requires v.protects && v.resolves && s.alive && Safe(s.trace) && s.inPosition == Mirror(s.trace)
    requires ClearBut(s.trace, n) && s.trace[n].id.value == id
    ensures Ok(Settle(v, s, id))
  {
    var fills := v.fills(s.trace);
    var t := s.Log(Fills(fills));
    SafeNext(s.trace, Fills(fills));
    MirrorNext(s.trace, Fills(fills));
    ClearButNext(s.trace, n, Fills(fills));
    if Confirmed(fills, id) > 0.0 {
      GuardKeeps(v, t, id, Confirmed(fills, id), n);
    } else {
      var r := v.resolve(t.trace, id);
      SafeNext(t.trace, Resolve(id, r));
      MirrorNext(t.trace, Resolve(id, r));
      ClearButNext(t.trace, n, Resolve(id, r));
      if r.Accepted? { GuardKeeps(v, t.Log(Resolve(id, r)), id, r.filled, n); }
    }
  }

  lemma SendKeeps(v: Venue, s: Live, o: Order)
    requires v.protects && v.resolves && s.alive && Ok(s) && MaySubmit(s.trace)
    ensures Ok(Send(v, s, o))
  {
    var call := Submit(o, v.submit(s.trace, o));
    SafeNext(s.trace, call);
    MirrorNext(s.trace, call);
    ClearNext(s.trace, call);
    if call.id.Some? { SettleKeeps(v, s.Log(call), call.id.value, |s.trace|); }
  }

  lemma ConsiderKeeps(c: Config, v: Venue, s: Live, account: Account, signal: Signal, now: int)
    requires v.protects && v.resolves && s.alive && Ok(s)
    ensures Ok(Consider(c, v, s, account, signal, now))
  {
    var held := v.position(s.trace);
    var t := s.Log(ReadPosition(held));
    SafeNext(s.trace, ReadPosition(held));
    MirrorNext(s.trace, ReadPosition(held));
    ClearNext(s.trace, ReadPosition(held));
    assert t.trace[..|t.trace| - 1] == s.trace;
    if held.Some? && Holding(held.value) == s.inPosition && held.value.None? {
      RequestKeeps(c, v, t, account, signal, now);
    }
  }

  lemma RequestKeeps(c: Config, v: Venue, s: Live, account: Account, signal: Signal, now: int)
    requires v.protects && v.resolves && s.alive && Ok(s) && MaySubmit(s.trace)
    ensures Ok(Request(c, v, s, account, signal, now))
  {
    var risk := Anchored(s.risk, account.equity, now);
    var verdict := Judge(c.risk, risk, signal, account);
    if verdict.Allow? && !c.dryRun { SendKeeps(v, s.(risk := risk), OrderFor(signal, verdict.qty)); }
  }

  lemma OnBarKeeps(c: Config, v: Venue, strategy: Strategy, s: Live, bar: Bar)
    requires v.protects && v.resolves && s.alive && Ok(s)
    ensures Ok(OnBar(c, v, strategy, s, bar))
  {
    var account := v.account(s.trace);
    SafeNext(s.trace, Balance(account));
    MirrorNext(s.trace, Balance(account));
    ClearNext(s.trace, Balance(account));
    if account.Some? {
      var t := s.Log(Balance(account));
      var u := t.(risk := BarUpdate(t.risk, account.value.equity, bar.timestamp), seen := t.seen + [bar]);
      var signal := strategy(u.seen);
      if signal.Some? { ConsiderKeeps(c, v, u, account.value, signal.value, bar.timestamp); }
    }
  }

  /** Over every run against every venue that offers both to resolve and to protect: an entry is only ever submitted
      when the position was just read as none, the mirror agreed and every earlier entry was protected or cancelled;
      what is protected is what filled; and the loop goes on only with nothing unsettled. */
  lemma {:induction false} EveryRunIsSafe(c: Config, v: Venue, strategy: Strategy, warmup: seq<Bar>, bars: seq<Bar>)
    requires v.protects && v.resolves
    ensures Ok(Run(c, v, strategy, warmup, bars))
  {
    if bars != [] {
      EveryRunIsSafe(c, v, strategy, warmup, bars[..|bars| - 1]);
      var s := Run(c, v, strategy, warmup, bars[..|bars| - 1]);
      if s.alive { OnBarKeeps(c, v, strategy, s, bars[|bars| - 1]); }
    }
  }

  /** The venue was read flat at m, although the runner had believed it was in a position. */
  ghost predicate FoundFlat(trace: Trace, m: nat) {
    m < |trace| && trace[m].ReadPosition? && trace[m].held.Some? && !Holding(trace[m].held.value) && Mirror(trace[..m])
  }

  lemma {:induction false} MirrorFalls(trace: Trace, k: nat)
    requires k < |trace| && trace[k].Protect? && trace[k].accepted && !Mirror(trace)
    ensures exists m :: k < m && FoundFlat(trace, m)
  {
    var n := |trace| - 1;
    if Mirror(trace[..n]) {
      assert FoundFlat(trace, n);
    } else {
      MirrorFalls(trace[..n], k);
      var m :| k < m && FoundFlat(trace[..n], m);
      assert trace[..n][..m] == trace[..m];
      assert FoundFlat(trace, m);
    }
  }

  /** Between a filled and protected entry and the next one lies a signal bar on which the venue was already flat but no
      entry was submitted: the runner first had to notice that its position was gone. */
  lemma RefusalBetweenEntries(c: Config, v: Venue, strategy: Strategy, warmup: seq<Bar>, bars: seq<Bar>, k: nat, j: nat)
    requires v.protects && v.resolves
    requires var t := Run(c, v, strategy, warmup, bars).trace;
             k < j < |t| && t[k].Protect? && t[k].accepted && t[j].Submit?
    ensures var t := Run(c, v, strategy, warmup, bars).trace;
            exists m :: k < m < j - 1 && FoundFlat(t, m) && !t[m + 1].Submit?
  {
    EveryRunIsSafe(c, v, strategy, warmup, bars);
    RefusedOnce(Run(c, v, strategy, warmup, bars).trace, k, j);
  }

  lemma RefusedOnce(t: Trace, k: nat, j: nat)
    requires Safe(t) && k < j < |t| && t[k].Protect? && t[k].accepted && t[j].Submit?
    ensures exists m :: k < m < j - 1 && FoundFlat(t, m) && !t[m + 1].Submit?
  {
    assert MaySubmit(t[..j]);
    var before := t[..j - 1];
    assert t[..j][..j - 1] == before;
    assert t[j - 1] == t[..j][j - 1] == ReadPosition(Some(None));
    assert before[k] == t[k];
    MirrorFalls(before, k);
    var m :| k < m && FoundFlat(before, m);
    assert before[..m] == t[..m];
    assert FoundFlat(t, m);
    var upTo := t[..m + 1];
    assert upTo[..|upTo| - 1] == t[..m];
    assert !MaySubmit(upTo);
  }

  // ---- when the loop ends

  /** The position could not be read, an entry stayed unresolved, or a filled entry could not be protected. */
  predicate Stopping(call: Call) {
    match call
    case ReadPosition(held) => held.None?
    case Resolve(_, resolution) => resolution.Unresolved? || resolution.Failed?
    case Protect(_, _, accepted) => !accepted
    case _ => false
  }

  /** The loop is over exactly when the last call was a stopping one, and no call follows it. */
  ghost predicate EndsRightly(s: Live) {
    && (!s.alive <==> s.trace != [] && Stopping(s.trace[|s.trace| - 1]))
    && (forall i :: 0 <= i < |s.trace| - 1 ==> !Stopping(s.trace[i]))
  }

  lemma CallGoesOn(s: Live, call: Call)
    requires s.alive && EndsRightly(s)
    ensures EndsRightly(if Stopping(call) then s.Log(call).(alive := false) else s.Log(call))
  {
    assert forall i :: 0 <= i < |s.trace| ==> !Stopping(s.trace[i]);
  }

  lemma GuardEndsRightly(v: Venue, s: Live, id: Id, qty: real)
    requires s.alive && EndsRightly(s)
    ensures EndsRightly(Guard(v, s, id, qty))
  {
    CallGoesOn(s, Protect(id, qty, v.protect(s.trace, id, qty)));
  }

  lemma SettleEndsRightly(v: Venue, s: Live, id: Id)
    requires s.alive && EndsRightly(s)
    ensures EndsRightly(Settle(v, s, id))
  {
    var fills := v.fills(s.trace);
    var t := s.Log(Fills(fills));
    CallGoesOn(s, Fills(fills));
    var r := v.resolve(t.trace, id);
    CallGoesOn(t, Resolve(id, r));
    GuardEndsRightly(v, t, id, Confirmed(fills, id));
    if r.Accepted? { GuardEndsRightly(v, t.Log(Resolve(id, r)), id, r.filled); }
  }

  lemma ConsiderEndsRightly(c: Config, v: Venue, s: Live, account: Account, signal: Signal, now: int)
    requires s.alive && EndsRightly(s)
    ensures EndsRightly(Consider(c, v, s, account, signal, now))
  {
    var held := v.position(s.trace);
    var t := s.Log(ReadPosition(held));
    CallGoesOn(s, ReadPosition(held));
    var risk := Anchored(t.risk, account.equity, now);
    var verdict := Judge(c.risk, risk, signal, account);
    if held.Some? && verdict.Allow? {
      var u, o := t.(risk := risk), OrderFor(signal, verdict.qty);
      var id := v.submit(u.trace, o);
      CallGoesOn(u, Submit(o, id));
      if id.Some? { SettleEndsRightly(v, u.Log(Submit(o, id)), id.value); }
    }
  }

  lemma BarEndsRightly(c: Config, v: Venue, strategy: Strategy, s: Live, bar: Bar)
    requires s.alive && EndsRightly(s)
    ensures EndsRightly(OnBar(c, v, strategy, s, bar))
  {
    var account := v.account(s.trace);
    CallGoesOn(s, Balance(account));
    if account.Some? {
      var t := s.Log(Balance(account));
      var u := t.(risk := BarUpdate(t.risk, account.value.equity, bar.timestamp), seen := t.seen + [bar]);
      var signal := strategy(u.seen);
      if signal.Some? { ConsiderEndsRightly(c, v, u, account.value, signal.value, bar.timestamp); }
    }
  }

  /** Against every venue: a bar is the last one exactly when one of its calls left the venue's state unknown. */
  lemma {:induction false} RunEndsRightly(c: Config, v: Venue, strategy: Strategy, warmup: seq<Bar>, bars: seq<Bar>)
    ensures EndsRightly(Run(c, v, strategy, warmup, bars))
  {
    if bars != [] {
      RunEndsRightly(c, v, strategy, warmup, bars[..|bars| - 1]);
      var s := Run(c, v, strategy, warmup, bars[..|bars| - 1]);
      if s.alive { BarEndsRightly(c, v, strategy, s, bars[|bars| - 1]); }
    }
  }

  // ---- what a dry run and the cooldown amount to

  ghost predicate OnlyReads(trace: Trace) {
    forall i :: 0 <= i < |trace| ==> trace[i].Balance? || trace[i].ReadPosition?
  }

  /** A dry run only reads from the venue. And in every run, dry or not, the cooldown never blocks: the runner reports
      no closed trade to its risk manager. */
  lemma {:induction false} DryRunOnlyReads(c: Config, v: Venue, strategy: Strategy, warmup: seq<Bar>, bars: seq<Bar>)
    ensures var s := Run(c, v, strategy, warmup, bars);
            (c.dryRun ==> OnlyReads(s.trace)) && s.risk.cooldown == 0 && s.risk.realizedToday == 0.0
  {
    if bars != [] {
      DryRunOnlyReads(c, v, strategy, warmup, bars[..|bars| - 1]);
      var s := Run(c, v, strategy, warmup, bars[..|bars| - 1]);
      if s.alive { BarOnlyReads(c, v, strategy, s, bars[|bars| - 1]); }
    }
  }

  lemma BarOnlyReads(c: Config, v: Venue, strategy: Strategy, s: Live, bar: Bar)
    requires s.risk.cooldown == 0 && s.risk.realizedToday == 0.0 && (c.dryRun ==> OnlyReads(s.trace))
    ensures var t := OnBar(c, v, strategy, s, bar);
            (c.dryRun ==> OnlyReads(t.trace)) && t.risk.cooldown == 0 && t.risk.realizedToday == 0.0
  {
  }

  // ---- both calls are needed

  /** A venue that is always flat, takes every order as "x" and reports the given quantity filled for it. */
  function Stub(filled: real, resolves: bool, protects: bool): Venue {
    Venue(_ => Some(Account(100.0, 100.0, 0)), _ => Some(None), (_, _) => Some("x"), _ => Some([("x", filled)]),
          (_, _) => Cancelled, (_, _, _) => true, resolves, protects)
  }

  const EVERY_BAR: Signal := Signal("s", Long, 10.0, 9.0, 0.0)

  const ONE_UNIT: Config := Config(
    RiskConfig(0.5, 1, 0.5, 1.0, 0, 0.0, 1, FixedQuantity, 1.0, None, false, None, None), false)

  function Always(): Strategy { (seen: seq<Bar>) => Some(EVERY_BAR) }

  function Hundred(): Account { Account(100.0, 100.0, 0) }

  predicate AnchoredAtHundred(risk: RiskState) {
    risk.day.Some? && risk.anchor == 100.0 && risk.cooldown == 0
    && risk.starting == Some(100.0) && risk.realized == Some(100.0)
  }

  lemma OneUnitIsAllowed(risk: RiskState)
    requires AnchoredAtHundred(risk)
    ensures Judge(ONE_UNIT.risk, risk, EVERY_BAR, Hundred()) == Allow(1.0)
  {
  }

  lemma BarAnchors(risk: RiskState, bar: Bar)
    requires risk == Fresh(ONE_UNIT.risk) || AnchoredAtHundred(risk)
    ensures AnchoredAtHundred(BarUpdate(risk, 100.0, bar.timestamp))
  {
  }

  /** On a bar on which it believes itself flat, the runner enters; without the call it needs, it settles nothing. */
  lemma StubEnters(v: Venue, s: Live, filled: real, bar: Bar)
    requires v == Stub(filled, v.resolves, v.protects) && (if filled > 0.0 then !v.protects else !v.resolves)
    requires s.alive && !s.inPosition && (s.risk == Fresh(ONE_UNIT.risk) || AnchoredAtHundred(s.risk))
    ensures var t := OnBar(ONE_UNIT, v, Always(), s, bar);
            t.alive && t.inPosition == (filled > 0.0) && AnchoredAtHundred(t.risk) &&
            t.trace == s.trace + [Balance(Some(Hundred())), ReadPosition(Some(None)),
                                  Submit(OrderFor(EVERY_BAR, 1.0), Some("x")), Fills(Some([("x", filled)]))]
  {
    BarAnchors(s.risk, bar);
    OneUnitIsAllowed(BarUpdate(s.risk, 100.0, bar.timestamp));
    assert FilledQty([("x", filled)], "x") == filled by { assert [("x", filled)][..0] == []; }
  }

  lemma StubNoticesFlat(v: Venue, s: Live, filled: real, bar: Bar)
    requires v == Stub(filled, v.resolves, v.protects)
    requires s.alive && s.inPosition && AnchoredAtHundred(s.risk)
    ensures var t := OnBar(ONE_UNIT, v, Always(), s, bar);
            t.alive && !t.inPosition && AnchoredAtHundred(t.risk) &&
            t.trace == s.trace + [Balance(Some(Hundred())), ReadPosition(Some(None))]
  {
    BarAnchors(s.risk, bar);
  }

  lemma RunNext(c: Config, v: Venue, strategy: Strategy, bars: seq<Bar>, bar: Bar)
    requires Run(c, v, strategy, [], bars).alive
    ensures Run(c, v, strategy, [], bars + [bar]) == OnBar(c, v, strategy, Run(c, v, strategy, [], bars), bar)
  {
    assert (bars + [bar])[..|bars|] == bars;
  }

  /** Two entries of which the first was neither protected nor cancelled. */
  lemma UnsettledEntry(t: Trace, i: nat, j: nat)
    requires i < j < |t| && Returned(t, i) && t[j].Submit?
    requires forall k :: i < k < j ==> !Settles(t[k], t[i].id.value)
    ensures !Safe(t)
  {
    var before := t[..j];
    assert Returned(before, i);
    assert forall k :: i < k < |before| ==> before[k] == t[k];
    assert !Settled(before, i);
  }

  lemma ThreeBars(v: Venue, bar: Bar)
    ensures var run := (bars: seq<Bar>) => Run(ONE_UNIT, v, Always(), [], bars);
            && (run([]).alive ==> run([bar]) == OnBar(ONE_UNIT, v, Always(), run([]), bar))
            && (run([bar]).alive ==> run([bar, bar]) == OnBar(ONE_UNIT, v, Always(), run([bar]), bar))
            && (run([bar, bar]).alive ==> run([bar, bar, bar]) == OnBar(ONE_UNIT, v, Always(), run([bar, bar]), bar))
  {
    assert [] + [bar] == [bar] && [bar] + [bar] == [bar, bar] && [bar, bar] + [bar] == [bar, bar, bar];
    var run := (bars: seq<Bar>) => Run(ONE_UNIT, v, Always(), [], bars);
    if run([]).alive { RunNext(ONE_UNIT, v, Always(), [], bar); }
    if run([bar]).alive { RunNext(ONE_UNIT, v, Always(), [bar], bar); }
    if run([bar, bar]).alive { RunNext(ONE_UNIT, v, Always(), [bar, bar], bar); }
  }

  /** A venue that cannot resolve: the first entry does not fill and the next one is submitted all the same. */
  lemma WithoutResolveUnsafe(protects: bool, bar: Bar)
    ensures !Safe(Run(ONE_UNIT, Stub(0.0, false, protects), Always(), [], [bar, bar]).trace)
  {
    var v := Stub(0.0, false, protects);
    ThreeBars(v, bar);
    StubEnters(v, Run(ONE_UNIT, v, Always(), [], []), 0.0, bar);
    StubEnters(v, Run(ONE_UNIT, v, Always(), [], [bar]), 0.0, bar);
    UnsettledEntry(Run(ONE_UNIT, v, Always(), [], [bar, bar]).trace, 2, 6);
  }

  /** A venue that cannot protect: the first entry fills unprotected, its position disappears, and after one refused bar
      the next entry is submitted. */
  lemma WithoutProtectUnsafe(resolves: bool, bar: Bar)
    ensures !Safe(Run(ONE_UNIT, Stub(1.0, resolves, false), Always(), [], [bar, bar, bar]).trace)
  {
    var v := Stub(1.0, resolves, false);
    ThreeBars(v, bar);
    StubEnters(v, Run(ONE_UNIT, v, Always(), [], []), 1.0, bar);
    StubNoticesFlat(v, Run(ONE_UNIT, v, Always(), [], [bar]), 1.0, bar);
    StubEnters(v, Run(ONE_UNIT, v, Always(), [], [bar, bar]), 1.0, bar);
    UnsettledEntry(Run(ONE_UNIT, v, Always(), [], [bar, bar, bar]).trace, 2, 8);
  }

  /** The protocol is safe on every run of every venue exactly when venues offer both calls. */
  lemma SafeExactlyWithBothCalls(resolves: bool, protects: bool)
    ensures resolves && protects <==>
            forall c, v: Venue, strategy, warmup, bars ::
              v.resolves == resolves && v.protects == protects ==> Safe(Run(c, v, strategy, warmup, bars).trace)
  {
    if resolves && protects {
      forall c, v: Venue, strategy, warmup, bars | v.resolves == resolves && v.protects == protects
        ensures Safe(Run(c, v, strategy, warmup, bars).trace)
      {
        EveryRunIsSafe(c, v, strategy, warmup, bars);
      }
    } else {
      var bar := Bar(0, 10.0, 10.0, 10.0, 10.0, 1.0);
      if resolves {
        WithoutProtectUnsafe(resolves, bar);
        assert Stub(1.0, resolves, false).protects == protects;
      } else {
        WithoutResolveUnsafe(protects, bar);
        assert Stub(0.0, false, protects).resolves == resolves;
      }
    }
  }
}
