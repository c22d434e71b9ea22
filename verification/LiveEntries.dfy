/** Which orders the live runner sends to the venue (bot/live.py), and when. */
module LiveEntries {
  import opened Types
  import opened Risk
  import opened LiveOrders
  import Sizing

  /** The order is the signal's: its symbol, bought when it is long and sold when it is short, its stop and its
      target, and a positive quantity that the account's cap allows at the planned price. */
  predicate OrderOfSignal(c: RiskConfig, account: Account, signal: Option<Signal>, o: Order) {
    signal.Some? &&
    var s := signal.value;
    && !s.kind.Flat? && o.symbol == s.symbol && (o.side.Buy? <==> s.kind.Long?)
    && o.stopLoss == s.stopLoss && o.takeProfit == s.takeProfit
    && o.qty > 0.0 && o.qty * s.entry <= account.equity * c.maxPositionPct
  }

  /** Right before the order the account was read and then no position was found, and some time after the warm-up the
      strategy gave the signal of the order. */
  ghost predicate Decided(c: RiskConfig, strategy: Strategy, warm: nat, seen: seq<Bar>, before: Trace, o: Order) {
    var n := |before|;
    && n >= 2 && before[n - 1] == ReadPosition(Some(None)) && before[n - 2].Balance? && before[n - 2].account.Some?
    && exists k :: warm < k <= |seen| && OrderOfSignal(c, before[n - 2].account.value, strategy(seen[..k]), o)
  }

  ghost predicate AllDecided(c: RiskConfig, strategy: Strategy, warm: nat, seen: seq<Bar>, trace: Trace) {
    forall j :: 0 <= j < |trace| && trace[j].Submit? ==> Decided(c, strategy, warm, seen, trace[..j], trace[j].order)
  }

  lemma DecidedNext(c: RiskConfig, strategy: Strategy, warm: nat, seen: seq<Bar>, trace: Trace, call: Call)
    requires AllDecided(c, strategy, warm, seen, trace)
    requires call.Submit? ==> Decided(c, strategy, warm, seen, trace, call.order)
    ensures AllDecided(c, strategy, warm, seen, trace + [call])
  {
    var next := trace + [call];
    forall j | 0 <= j < |next| && next[j].Submit? ensures Decided(c, strategy, warm, seen, next[..j], next[j].order) {
      if j < |trace| { assert next[..j] == trace[..j]; } else { assert next[..j] == trace; }
    }
  }

  lemma DecidedStays(c: RiskConfig, strategy: Strategy, warm: nat, seen: seq<Bar>, bar: Bar, before: Trace, o: Order)
    requires Decided(c, strategy, warm, seen, before, o)
    ensures Decided(c, strategy, warm, seen + [bar], before, o)
  {
    var account := before[|before| - 2].account.value;
    var k :| warm < k <= |seen| && OrderOfSignal(c, account, strategy(seen[..k]), o);
    assert (seen + [bar])[..k] == seen[..k];
  }

  lemma ShownStaysDecided(c: RiskConfig, strategy: Strategy, warm: nat, seen: seq<Bar>, bar: Bar, trace: Trace)
    requires AllDecided(c, strategy, warm, seen, trace)
    ensures AllDecided(c, strategy, warm, seen + [bar], trace)
  {
    forall j | 0 <= j < |trace| && trace[j].Submit?
      ensures Decided(c, strategy, warm, seen + [bar], trace[..j], trace[j].order)
    {
      DecidedStays(c, strategy, warm, seen, bar, trace[..j], trace[j].order);
    }
  }

  // ---- one bar

  /** The calls after an order submit nothing and show the strategy nothing. */
  ghost predicate NoMoreOrders(s: Live, t: Live) {
    t.seen == s.seen && s.trace <= t.trace && forall j :: |s.trace| <= j < |t.trace| ==> !t.trace[j].Submit?
  }

  lemma SettleSubmitsNothing(v: Venue, s: Live, id: Id)
    ensures NoMoreOrders(s, Settle(v, s, id))
  {
  }

  lemma NoMoreStaysDecided(c: RiskConfig, strategy: Strategy, warm: nat, s: Live, t: Live)
    requires NoMoreOrders(s, t) && AllDecided(c, strategy, warm, s.seen, s.trace)
    ensures AllDecided(c, strategy, warm, t.seen, t.trace)
  {
    forall j | 0 <= j < |t.trace| && t.trace[j].Submit?
      ensures Decided(c, strategy, warm, t.seen, t.trace[..j], t.trace[j].order)
    {
      assert t.trace[..j] == s.trace[..j];
    }
  }

  lemma SendIsDecided(c: RiskConfig, v: Venue, strategy: Strategy, warm: nat, s: Live, o: Order)
    requires AllDecided(c, strategy, warm, s.seen, s.trace) && Decided(c, strategy, warm, s.seen, s.trace, o)
    ensures AllDecided(c, strategy, warm, Send(v, s, o).seen, Send(v, s, o).trace) && Send(v, s, o).seen == s.seen
  {
    var call := Submit(o, v.submit(s.trace, o));
    DecidedNext(c, strategy, warm, s.seen, s.trace, call);
    if call.id.Some? {
      SettleSubmitsNothing(v, s.Log(call), call.id.value);
      NoMoreStaysDecided(c, strategy, warm, s.Log(call), Settle(v, s.Log(call), call.id.value));
    }
  }

  lemma AllowedOrderIsOfSignal(c: RiskConfig, risk: RiskState, signal: Signal, account: Account)
    requires !signal.kind.Flat? && Judge(c, risk, signal, account).Allow?
    ensures OrderOfSignal(c, account, Some(signal), OrderFor(signal, Judge(c, risk, signal, account).qty))
  {
    ApprovedIsWithinLimits(c, risk, signal, account);
  }

  lemma RequestIsDecided(c: Config, v: Venue, strategy: Strategy, warm: nat, s: Live, account: Account, signal: Signal,
                         now: int)
    requires AllDecided(c.risk, strategy, warm, s.seen, s.trace) && warm < |s.seen|
    requires strategy(s.seen) == Some(signal) && !signal.kind.Flat?
    requires |s.trace| >= 2 && s.trace[|s.trace| - 1] == ReadPosition(Some(None))
    requires s.trace[|s.trace| - 2] == Balance(Some(account))
    ensures var t := Request(c, v, s, account, signal, now);
            AllDecided(c.risk, strategy, warm, t.seen, t.trace) && t.seen == s.seen
  {
    var risk := Anchored(s.risk, account.equity, now);
    var verdict := Judge(c.risk, risk, signal, account);
    if verdict.Allow? && !c.dryRun {
      AllowedOrderIsOfSignal(c.risk, risk, signal, account);
      assert s.seen[..|s.seen|] == s.seen;
      SendIsDecided(c.risk, v, strategy, warm, s.(risk := risk), OrderFor(signal, verdict.qty));
    }
  }

  lemma ConsiderIsDecided(c: Config, v: Venue, strategy: Strategy, warm: nat, s: Live, account: Account, signal: Signal,
                          now: int)
    requires AllDecided(c.risk, strategy, warm, s.seen, s.trace) && warm < |s.seen|
    requires strategy(s.seen) == Some(signal) && !signal.kind.Flat?
    requires s.trace != [] && s.trace[|s.trace| - 1] == Balance(Some(account))
    ensures var t := Consider(c, v, s, account, signal, now);
            AllDecided(c.risk, strategy, warm, t.seen, t.trace) && t.seen == s.seen
  {
    var held := v.position(s.trace);
    var t := s.Log(ReadPosition(held));
    DecidedNext(c.risk, strategy, warm, s.seen, s.trace, ReadPosition(held));
    if held == Some(None) && !s.inPosition { RequestIsDecided(c, v, strategy, warm, t, account, signal, now); }
  }

  lemma BarIsDecided(c: Config, v: Venue, strategy: Strategy, warm: nat, s: Live, bar: Bar)
    requires AllDecided(c.risk, strategy, warm, s.seen, s.trace) && warm <= |s.seen|
    ensures var t := OnBar(c, v, strategy, s, bar);
            AllDecided(c.risk, strategy, warm, t.seen, t.trace) && warm <= |t.seen|
  {
    var account := v.account(s.trace);
    var t := s.Log(Balance(account));
    DecidedNext(c.risk, strategy, warm, s.seen, s.trace, Balance(account));
    if account.Some? {
      var u := t.(risk := BarUpdate(t.risk, account.value.equity, bar.timestamp), seen := t.seen + [bar]);
      var signal := strategy(u.seen);
      ShownStaysDecided(c.risk, strategy, warm, t.seen, bar, t.trace);
      if signal.Some? && !signal.value.kind.Flat? {
        ConsiderIsDecided(c, v, strategy, warm, u, account.value, signal.value, bar.timestamp);
      }
    }
  }

  // ---- whole runs

  /** The strategy has been shown the warm-up and then, in order, the bars on which the account could be read. */
  ghost predicate ShownInOrder(warmup: seq<Bar>, bars: seq<Bar>, seen: seq<Bar>) {
    if bars == [] then seen == warmup else
      var n := |bars| - 1;
      || ShownInOrder(warmup, bars[..n], seen)
      || (seen != [] && seen[|seen| - 1] == bars[n] && ShownInOrder(warmup, bars[..n], seen[..|seen| - 1]))
  }

  lemma BarShows(c: Config, v: Venue, strategy: Strategy, s: Live, bar: Bar)
    ensures var t := OnBar(c, v, strategy, s, bar);
            t.seen == (if v.account(s.trace).Some? then s.seen + [bar] else s.seen)
  {
  }

  /** Over every run against every venue: each order sent is that of a signal the strategy gave on bars already shown.
      */
  lemma {:induction false} EveryOrderFollowsASignal(c: Config, v: Venue, strategy: Strategy, warmup: seq<Bar>,
                                                    bars: seq<Bar>)
    ensures var s := Run(c, v, strategy, warmup, bars);
            && AllDecided(c.risk, strategy, |warmup|, s.seen, s.trace) && |warmup| <= |s.seen|
            && ShownInOrder(warmup, bars, s.seen)
  {
    if bars != [] {
      var n := |bars| - 1;
      var s := Run(c, v, strategy, warmup, bars[..n]);
      EveryOrderFollowsASignal(c, v, strategy, warmup, bars[..n]);
      if s.alive {
        BarIsDecided(c, v, strategy, |warmup|, s, bars[n]);
        BarShows(c, v, strategy, s, bars[n]);
        assert (s.seen + [bars[n]])[..|s.seen|] == s.seen;
      }
    }
  }

  // ---- when an order is sent

  ghost predicate Sends(s: Live, t: Live) { exists j :: |s.trace| <= j < |t.trace| && t.trace[j].Submit? }

  /** A bar sends an order exactly when the account and the position can be read, the strategy gives a long or short
      signal, neither the venue nor the runner holds a position, the risk manager allows it, and it is no dry run. */
  lemma BarSendsExactly(c: Config, v: Venue, strategy: Strategy, s: Live, bar: Bar)
    ensures var account, signal := v.account(s.trace), strategy(s.seen + [bar]);
            var read := s.trace + [Balance(account)];
            Sends(s, OnBar(c, v, strategy, s, bar)) <==>
              && account.Some? && signal.Some? && !signal.value.kind.Flat? && v.position(read) == Some(None)
              && !s.inPosition && !c.dryRun
              && Judge(c.risk, BarUpdate(s.risk, account.value.equity, bar.timestamp), signal.value,
                       account.value).Allow?
  {
    var account := v.account(s.trace);
    if account.Some? {
      var risk := BarUpdate(s.risk, account.value.equity, bar.timestamp);
      var t := s.Log(Balance(account)).(risk := risk, seen := s.seen + [bar]);
      var signal := strategy(t.seen);
      if signal.Some? && !signal.value.kind.Flat? {
        var u := t.Log(ReadPosition(v.position(t.trace)));
        assert Anchored(risk, account.value.equity, bar.timestamp) == risk;
        if u.trace[|u.trace| - 1] == ReadPosition(Some(None)) && !s.inPosition {
          RequestSendsExactly(c, v, u, account.value, signal.value, bar.timestamp);
        }
      }
    }
  }

  lemma RequestSendsExactly(c: Config, v: Venue, s: Live, account: Account, signal: Signal, now: int)
    requires s.risk.day.Some?
    ensures Sends(s, Request(c, v, s, account, signal, now)) <==>
              Judge(c.risk, s.risk, signal, account).Allow? && !c.dryRun
    ensures s.trace <= Request(c, v, s, account, signal, now).trace
  {
    var verdict := Judge(c.risk, s.risk, signal, account);
    if verdict.Allow? && !c.dryRun {
      var o := OrderFor(signal, verdict.qty);
      var t := Send(v, s, o);
      assert t.trace[|s.trace|].Submit?;
    }
  }

  /** A signal bar that reads the position and sends nothing leaves the runner believing what the venue says: it is in
      the market exactly when the venue holds a quantity other than zero, long or short. */
  lemma BeliefFollowsVenue(c: Config, v: Venue, strategy: Strategy, s: Live, bar: Bar, held: Option<real>)
    requires v.account(s.trace).Some? && strategy(s.seen + [bar]).Some? && !strategy(s.seen + [bar]).value.kind.Flat?
    requires v.position(s.trace + [Balance(v.account(s.trace))]) == Some(held)
    ensures var t := OnBar(c, v, strategy, s, bar);
            !Sends(s, t) ==>
              t.alive == s.alive && (t.inPosition <==> held.Some? && (held.value > 0.0 || held.value < 0.0))
  {
    var account := v.account(s.trace).value;
    var risk := BarUpdate(s.risk, account.equity, bar.timestamp);
    var t := s.Log(Balance(Some(account))).(risk := risk, seen := s.seen + [bar]);
    var u := t.Log(ReadPosition(Some(held)));
    assert Anchored(risk, account.equity, bar.timestamp) == risk;
    if held.None? && !s.inPosition {
      RequestSendsExactly(c, v, u, account, strategy(t.seen).value, bar.timestamp);
    }
  }

  /** The call number j of a bar is its order: there is one at most, behind the reads of account and position. */
  lemma OrderIsThird(c: Config, v: Venue, strategy: Strategy, s: Live, bar: Bar, j: nat)
    requires var t := OnBar(c, v, strategy, s, bar); |s.trace| <= j < |t.trace| && t.trace[j].Submit?
    ensures v.account(s.trace).Some? && strategy(s.seen + [bar]).Some? && j == |s.trace| + 2
    ensures var account, signal := v.account(s.trace).value, strategy(s.seen + [bar]).value;
            var verdict := Judge(c.risk, BarUpdate(s.risk, account.equity, bar.timestamp), signal, account);
            verdict.Allow? && OnBar(c, v, strategy, s, bar).trace[j].order.qty == verdict.qty
  {
    var account := v.account(s.trace).value;
    var signal := strategy(s.seen + [bar]).value;
    var risk := BarUpdate(s.risk, account.equity, bar.timestamp);
    var t := s.Log(Balance(Some(account))).(risk := risk, seen := s.seen + [bar]);
    var u := t.Log(ReadPosition(v.position(t.trace)));
    assert Anchored(risk, account.equity, bar.timestamp) == risk;
    if v.position(t.trace) == Some(None) && !s.inPosition {
      RequestOrders(c, v, u, account, signal, bar.timestamp, j);
    }
  }

  lemma RequestOrders(c: Config, v: Venue, s: Live, account: Account, signal: Signal, now: int, j: nat)
    requires s.risk.day.Some? && forall i :: 0 <= i < |s.trace| && i >= j ==> !s.trace[i].Submit?
    requires var t := Request(c, v, s, account, signal, now); j < |t.trace| && t.trace[j].Submit?
    requires j >= |s.trace| - 2
    ensures var verdict := Judge(c.risk, s.risk, signal, account);
            j == |s.trace| && verdict.Allow? && Request(c, v, s, account, signal, now).trace[j].order.qty == verdict.qty
  {
    var verdict := Judge(c.risk, s.risk, signal, account);
    if verdict.Allow? && !c.dryRun {
      var o := OrderFor(signal, verdict.qty);
      var call := Submit(o, v.submit(s.trace, o));
      if call.id.Some? { SettleSubmitsNothing(v, s.Log(call), call.id.value); }
    }
  }

  /** The order of a bar is for the largest quantity that every bound of sizing allows. */
  lemma OrderIsLargest(c: Config, v: Venue, strategy: Strategy, s: Live, bar: Bar, j: nat, r: Sizing.Request)
    requires c.risk.Valid()
    requires var t := OnBar(c, v, strategy, s, bar); |s.trace| <= j < |t.trace| && t.trace[j].Submit?
    requires var account, signal := v.account(s.trace), strategy(s.seen + [bar]);
             account.Some? && signal.Some? ==>
               Sizing.IsRequest(c.risk, BarUpdate(s.risk, account.value.equity, bar.timestamp), signal.value,
                                account.value, r)
    ensures Sizing.Largest(c.risk, r, OnBar(c, v, strategy, s, bar).trace[j].order.qty)
  {
    OrderIsThird(c, v, strategy, s, bar, j);
    var account, signal := v.account(s.trace).value, strategy(s.seen + [bar]).value;
    Sizing.ApprovedExactly(c.risk, BarUpdate(s.risk, account.equity, bar.timestamp), signal, account, r);
  }
}
