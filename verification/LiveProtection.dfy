/** What the live runner does about the entries it sends (bot/live.py): it asks for their fills, resolves what did not
    fill, and protects exactly what the venue says was filled. */
module LiveProtection {
  import opened Types
  import opened Folds
  import opened LiveOrders
  import Risk

  /** What these fills hold of the order. */
  function FilledFor(fills: seq<(Id, real)>, id: Id): real {
    Sum(seq(|fills|, i requires 0 <= i < |fills| => if fills[i].0 == id then fills[i].1 else 0.0))
  }

  function ReportedFor(fills: Option<seq<(Id, real)>>, id: Id): real {
    if fills.None? then 0.0 else FilledFor(fills.value, id)
  }

  lemma {:induction false} FilledAgrees(fills: seq<(Id, real)>, id: Id)
    ensures FilledQty(fills, id) == FilledFor(fills, id)
  {
    if fills != [] {
      var n := |fills| - 1;
      FilledAgrees(fills[..n], id);
      var amounts := seq(|fills|, i requires 0 <= i < |fills| => if fills[i].0 == id then fills[i].1 else 0.0);
      assert amounts[..n] == seq(n, i requires 0 <= i < n => if fills[..n][i].0 == id then fills[..n][i].1 else 0.0);
    }
  }

  lemma ReportAgrees(fills: Option<seq<(Id, real)>>, id: Id)
    ensures Confirmed(fills, id) == ReportedFor(fills, id)
  {
    if fills.Some? { FilledAgrees(fills.value, id); }
  }

  predicate IsProtect(trace: Trace, k: nat, id: Id, qty: real) {
    k < |trace| && trace[k].Protect? && trace[k].filled == id && trace[k].qty == qty
  }

  predicate IsEntry(trace: Trace, j: nat, id: Id) { j < |trace| && trace[j].Submit? && trace[j].id == Some(id) }

  /** Right after the entry number j its fills are asked for. What they hold of it is protected; if that is nothing,
      the entry is resolved, and what the venue then accepts as filled is protected. */
  predicate Handled(v: Venue, trace: Trace, j: nat, id: Id) {
    && j + 1 < |trace| && trace[j + 1].Fills?
    && var filled := ReportedFor(trace[j + 1].fills, id);
       if filled > 0.0 then v.protects ==> IsProtect(trace, j + 2, id, filled)
       else v.resolves ==>
         && j + 2 < |trace| && trace[j + 2].Resolve? && trace[j + 2].entry == id
         && (trace[j + 2].resolution.Accepted? && v.protects ==>
               IsProtect(trace, j + 3, id, trace[j + 2].resolution.filled))
  }

  /** The protection number k covers what the venue has just reported of the entry sent right before. */
  predicate Reported(trace: Trace, k: nat, id: Id, qty: real)
    requires k < |trace|
  {
    || (k >= 2 && IsEntry(trace, k - 2, id) && trace[k - 1].Fills? && qty == ReportedFor(trace[k - 1].fills, id) > 0.0)
    || (k >= 3 && IsEntry(trace, k - 3, id) && trace[k - 2].Fills? && ReportedFor(trace[k - 2].fills, id) <= 0.0
        && trace[k - 1] == Resolve(id, Accepted(qty)))
  }

  predicate CallIsRight(v: Venue, trace: Trace, j: nat)
    requires j < |trace|
  {
    && (trace[j].Submit? && trace[j].id.Some? ==> Handled(v, trace, j, trace[j].id.value))
    && (trace[j].Protect? ==> Reported(trace, j, trace[j].filled, trace[j].qty))
  }

  ghost predicate AllRight(v: Venue, trace: Trace) { forall j :: 0 <= j < |trace| ==> CallIsRight(v, trace, j) }

  lemma MoreIsRight(v: Venue, trace: Trace, more: Trace)
    requires AllRight(v, trace) && trace <= more
    requires forall j :: |trace| <= j < |more| ==> CallIsRight(v, more, j)
    ensures AllRight(v, more)
  {
    forall j | 0 <= j < |trace| ensures CallIsRight(v, more, j) { assert CallIsRight(v, trace, j); }
  }

  /** Neither an entry nor a protection. */
  predicate Quiet(call: Call) { !call.Submit? && !call.Protect? }

  lemma QuietIsRight(v: Venue, trace: Trace, call: Call)
    requires AllRight(v, trace) && Quiet(call)
    ensures AllRight(v, trace + [call])
  {
    MoreIsRight(v, trace, trace + [call]);
  }

  lemma SendIsRight(v: Venue, s: Live, o: Order)
    requires AllRight(v, s.trace)
    ensures AllRight(v, Send(v, s, o).trace)
  {
    var id := v.submit(s.trace, o);
    var sent := s.trace + [Submit(o, id)];
    if id.Some? {
      SettleIsRight(v, s, s.Log(Submit(o, id)), id.value);
    } else {
      MoreIsRight(v, s.trace, sent);
    }
  }

  lemma GuardAdds(v: Venue, s: Live, id: Id, qty: real)
    ensures Guard(v, s, id, qty).trace ==
              if v.protects then s.trace + [Protect(id, qty, v.protect(s.trace, id, qty))] else s.trace
  {
  }

  lemma FilledIsRight(v: Venue, before: Trace, t: Trace, id: Id, fills: Option<seq<(Id, real)>>, more: Trace)
    requires AllRight(v, before) && |t| == |before| + 1 && before <= t && IsEntry(t, |before|, id)
    requires ReportedFor(fills, id) > 0.0
    requires if v.protects
             then |more| == |t| + 2 && t + [Fills(fills)] <= more &&
                  IsProtect(more, |t| + 1, id, ReportedFor(fills, id))
             else more == t + [Fills(fills)]
    ensures AllRight(v, more)
  {
    assert more[|t|] == Fills(fills);
    forall j | |before| <= j < |more| ensures CallIsRight(v, more, j) {}
    MoreIsRight(v, before, more);
  }

  lemma UnfilledIsRight(v: Venue, before: Trace, t: Trace, id: Id, fills: Option<seq<(Id, real)>>, r: Resolution,
                        more: Trace)
    requires AllRight(v, before) && |t| == |before| + 1 && before <= t && IsEntry(t, |before|, id)
    requires ReportedFor(fills, id) <= 0.0
    requires if !v.resolves then more == t + [Fills(fills)]
             else if r.Accepted? && v.protects
             then |more| == |t| + 3 && t + [Fills(fills), Resolve(id, r)] <= more &&
                  IsProtect(more, |t| + 2, id, r.filled)
             else more == t + [Fills(fills), Resolve(id, r)]
    ensures AllRight(v, more)
  {
    assert more[|t|] == Fills(fills);
    assert v.resolves ==> more[|t| + 1] == Resolve(id, r);
    forall j | |before| <= j < |more| ensures CallIsRight(v, more, j) {}
    MoreIsRight(v, before, more);
  }

  lemma SettleIsRight(v: Venue, s: Live, t: Live, id: Id)
    requires AllRight(v, s.trace) && |t.trace| == |s.trace| + 1 && s.trace <= t.trace && IsEntry(t.trace, |s.trace|, id)
    ensures AllRight(v, Settle(v, t, id).trace)
  {
    var fills := v.fills(t.trace);
    var asked := t.Log(Fills(fills));
    ReportAgrees(fills, id);
    if Confirmed(fills, id) > 0.0 {
      GuardAdds(v, asked, id, Confirmed(fills, id));
      FilledIsRight(v, s.trace, t.trace, id, fills, Settle(v, t, id).trace);
    } else {
      var r := v.resolve(asked.trace, id);
      if v.resolves && r.Accepted? { GuardAdds(v, asked.Log(Resolve(id, r)), id, r.filled); }
      assert asked.trace + [Resolve(id, r)] == t.trace + [Fills(fills), Resolve(id, r)];
      UnfilledIsRight(v, s.trace, t.trace, id, fills, r, Settle(v, t, id).trace);
    }
  }

  lemma BarIsRight(c: Config, v: Venue, strategy: Strategy, s: Live, bar: Bar)
    requires AllRight(v, s.trace)
    ensures AllRight(v, OnBar(c, v, strategy, s, bar).trace)
  {
    var account := v.account(s.trace);
    QuietIsRight(v, s.trace, Balance(account));
    if account.Some? {
      var risk := Risk.BarUpdate(s.risk, account.value.equity, bar.timestamp);
      var t := s.Log(Balance(account)).(risk := risk, seen := s.seen + [bar]);
      var signal := strategy(t.seen);
      if signal.Some? && !signal.value.kind.Flat? {
        ConsiderIsRight(c, v, t, account.value, signal.value, bar.timestamp);
      }
    }
  }

  lemma ConsiderIsRight(c: Config, v: Venue, s: Live, account: Account, signal: Signal, now: int)
    requires AllRight(v, s.trace)
    ensures AllRight(v, Consider(c, v, s, account, signal, now).trace)
  {
    var held := v.position(s.trace);
    QuietIsRight(v, s.trace, ReadPosition(held));
    var t := s.Log(ReadPosition(held));
    if held == Some(None) && !s.inPosition {
      var risk := Risk.Anchored(t.risk, account.equity, now);
      var verdict := Risk.Judge(c.risk, risk, signal, account);
      if verdict.Allow? && !c.dryRun { SendIsRight(v, t.(risk := risk), OrderFor(signal, verdict.qty)); }
    }
  }

  /** Over every run against every venue: each entry the venue has taken is followed up at once, and protections cover
      the reported quantity of the entry just sent and nothing else. */
  lemma {:induction false} EveryEntryIsFollowedUp(c: Config, v: Venue, strategy: Strategy, warmup: seq<Bar>,
                                                  bars: seq<Bar>)
    ensures AllRight(v, Run(c, v, strategy, warmup, bars).trace)
  {
    if bars != [] {
      var n := |bars| - 1;
      var s := Run(c, v, strategy, warmup, bars[..n]);
      EveryEntryIsFollowedUp(c, v, strategy, warmup, bars[..n]);
      if s.alive { BarIsRight(c, v, strategy, s, bars[n]); }
    }
  }
}
