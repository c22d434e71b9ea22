/** The one-position research simulator (automation-hub/backtest.py, _run_window). */
module WindowSim {
  import opened Types

  /** A strategy, as its answer to the bars it has been shown so far. */
  type Brain = seq<Bar> -> Option<Signal>

  datatype Pos = Pos(long: bool, entry: real, stop: real, target: real, risk: real, index: nat)

  /** A closed trade: the index of its entry bar and its result in R. */
  datatype Closed = Closed(index: nat, r: real)

  /** `entries` and `exits` record, for the statements below, the position of each closed trade and the bar on which it
      closed. */
  datatype Sim = Sim(seen: seq<Bar>, pos: Option<Pos>, out: seq<Closed>, entries: seq<Pos>, exits: seq<nat>)

  datatype Setup = Setup(brain: Brain, rr: real, cost: real)

  /** Round-trip cost in R: a zero or negative risk costs nothing. */
  function CostR(entry: real, risk: real, cost: real): real {
    if risk <= 0.0 then 0.0 else (cost + cost) * Abs(entry) / risk
  }

  /** The stop is looked at before the target. */
  function ExitR(pos: Pos, b: Bar, rr: real): Option<real> {
    if pos.long then
      if b.low <= pos.stop then Some(-1.0) else if b.high >= pos.target then Some(rr) else None
    else
      if b.high >= pos.stop then Some(-1.0) else if b.low <= pos.target then Some(rr) else None
  }

  /** Every signal that is not long opens a short; a signal without risk opens nothing. */
  function EnterOn(sig: Option<Signal>, i: nat): Option<Pos> {
    if sig.None? then None else
      var s := sig.value;
      var risk := Abs(s.entry - s.stopLoss);
      if risk > 0.0 then Some(Pos(s.kind.Long?, s.entry, s.stopLoss, s.takeProfit, risk, i)) else None
  }

  function Step(u: Setup, s: Sim, b: Bar, i: nat): Sim {
    var seen := s.seen + [b];
    var exit := if s.pos.None? then None else ExitR(s.pos.value, b, u.rr);
    if exit.Some? then
      var r := exit.value - CostR(s.pos.value.entry, s.pos.value.risk, u.cost);
      Sim(seen, EnterOn(u.brain(seen), i), s.out + [Closed(s.pos.value.index, r)], s.entries + [s.pos.value],
          s.exits + [i])
    else if s.pos.None? then
      s.(seen := seen, pos := EnterOn(u.brain(seen), i))
    else
      s.(seen := seen)
  }

  function NonNeg(x: int): nat { if x < 0 then 0 else x }

  /** bars[max(0, lo):max(0, hi)], clipped to the list as slicing does. */
  function Stretch(bars: seq<Bar>, lo: int, hi: int): seq<Bar> {
    var end := if NonNeg(hi) < |bars| then NonNeg(hi) else |bars|;
    if NonNeg(lo) < end then bars[NonNeg(lo)..end] else []
  }

  /** What the strategy has been shown before the window begins. */
  function WarmUp(bars: seq<Bar>, warm: int, start: int): seq<Bar> { Stretch(bars, warm, start) }

  /** The simulator just before bar min(end, |bars|). */
  function Window(u: Setup, bars: seq<Bar>, warm: int, start: int, end: int): Sim
    decreases NonNeg(end)
  {
    if end <= NonNeg(start) then Sim(WarmUp(bars, warm, start), None, [], [], [])
    else
      var s := Window(u, bars, warm, start, end - 1);
      if end - 1 < |bars| then Step(u, s, bars[end - 1], end - 1) else s
  }

  method RunWindow(u: Setup, bars: seq<Bar>, warm: int, start: int, end: int) returns (out: seq<Closed>)
    ensures out == Window(u, bars, warm, start, end).out
  {
    var seen := WarmUp(bars, warm, start);
    var pos: Option<Pos> := None;
    ghost var entries: seq<Pos> := [];
    ghost var exits: seq<nat> := [];
    out := [];
    var i, hi := NonNeg(start), if end < |bars| then end else |bars|;
    while i < hi
      invariant Sim(seen, pos, out, entries, exits) == Window(u, bars, warm, start, i)
      invariant NonNeg(start) <= i && (i <= hi || i == NonNeg(start))
    {
      var b := bars[i];
      if pos.Some? {
        var exit := ExitR(pos.value, b, u.rr);
        if exit.Some? {
          var r := exit.value - CostR(pos.value.entry, pos.value.risk, u.cost);
          out := out + [Closed(pos.value.index, r)];
          entries, exits := entries + [pos.value], exits + [i];
          pos := None;
        }
      }
      seen := seen + [b];
      if pos.None? {
        pos := EnterOn(u.brain(seen), i);
      }
      i := i + 1;
    }
    NothingPastTheData(u, bars, warm, start, i, end);
  }

  lemma {:induction false} NothingPastTheData(u: Setup, bars: seq<Bar>, warm: int, start: int, i: int, end: int)
    requires NonNeg(start) <= i && (i >= |bars| || i >= end)
    ensures Window(u, bars, warm, start, end).out == Window(u, bars, warm, start, if i < end then i else end).out
    decreases NonNeg(end)
  {
    if i < end {
      NothingPastTheData(u, bars, warm, start, i, end - 1);
    }
  }

  // ---- causality

  /** Extending the window only appends results. */
  lemma {:induction false} LaterBarsOnlyAppend(u: Setup, bars: seq<Bar>, warm: int, start: int, end: int, later: int)
    requires end <= later
    ensures Window(u, bars, warm, start, end).out <= Window(u, bars, warm, start, later).out
    ensures Window(u, bars, warm, start, end).exits <= Window(u, bars, warm, start, later).exits
    decreases later - end
  {
    if end < later {
      LaterBarsOnlyAppend(u, bars, warm, start, end, later - 1);
    }
  }

  /** The two series hold the same bars at the positions in [lo, hi). */
  ghost predicate Agree(x: seq<Bar>, y: seq<Bar>, lo: int, hi: int) {
    forall i: nat :: lo <= i < hi ==> SameAt(x, y, i)
  }

  predicate SameAt(x: seq<Bar>, y: seq<Bar>, i: nat) {
    (i < |x| <==> i < |y|) && (i < |x| && i < |y| ==> x[i] == y[i])
  }

  /** The first bar that warm-up or window can reach. */
  function Reach(warm: int, start: int): nat { if NonNeg(warm) < NonNeg(start) then NonNeg(warm) else NonNeg(start) }

  /** Results depend on nothing but the bars of warm-up and window: those from the earlier of the two starts to the
      end. */
  lemma {:induction false} OnlyTheWindowMatters(u: Setup, x: seq<Bar>, y: seq<Bar>, warm: int, start: int, end: int)
    requires Agree(x, y, Reach(warm, start), end)
    ensures Window(u, x, warm, start, end).out == Window(u, y, warm, start, end).out
    ensures end >= NonNeg(start) ==> Window(u, x, warm, start, end) == Window(u, y, warm, start, end)
    decreases NonNeg(end)
  {
    if end > NonNeg(start) {
      OnlyTheWindowMatters(u, x, y, warm, start, end - 1);
      assert SameAt(x, y, end - 1);
    } else if end == NonNeg(start) {
      SameWarmUp(x, y, warm, start);
    }
  }

  lemma SameWarmUp(x: seq<Bar>, y: seq<Bar>, warm: int, start: int)
    requires Agree(x, y, Reach(warm, start), NonNeg(start))
    ensures WarmUp(x, warm, start) == WarmUp(y, warm, start)
  {
    var p, q, lo := WarmUp(x, warm, start), WarmUp(y, warm, start), NonNeg(warm);
    if lo < NonNeg(start) {
      if |p| < NonNeg(start) - lo { assert SameAt(x, y, lo + |p|); }
      if |q| < NonNeg(start) - lo { assert SameAt(x, y, lo + |q|); }
      forall i | 0 <= i < |p| && i < |q| ensures p[i] == q[i] {
        assert SameAt(x, y, lo + i);
      }
    }
  }

  lemma {:induction false} SeenIsBothStretches(u: Setup, bars: seq<Bar>, warm: int, start: int, end: int)
    ensures Window(u, bars, warm, start, end).seen == WarmUp(bars, warm, start) + Stretch(bars, start, end)
    decreases NonNeg(end)
  {
    if end > NonNeg(start) {
      SeenIsBothStretches(u, bars, warm, start, end - 1);
      StepShows(u, bars, warm, start, end);
      StretchGrows(bars, start, end);
      AppendLast(WarmUp(bars, warm, start), Stretch(bars, start, end - 1),
                 if end - 1 < |bars| then [bars[end - 1]] else []);
    }
  }

  lemma StepShows(u: Setup, bars: seq<Bar>, warm: int, start: int, end: int)
    requires end > NonNeg(start)
    ensures Window(u, bars, warm, start, end).seen
         == Window(u, bars, warm, start, end - 1).seen + if end - 1 < |bars| then [bars[end - 1]] else []
  {
  }

  lemma AppendLast(xs: seq<Bar>, ys: seq<Bar>, zs: seq<Bar>)
    ensures xs + (ys + zs) == xs + ys + zs
  {
  }

  /** The strategy is shown every bar of warm-up and window exactly once and in order, in a position or not: for a
      warm-up that comes first and a window that begins before it ends, one stretch of the list. */
  lemma EveryBarSeenOnce(u: Setup, bars: seq<Bar>, warm: int, start: int, end: int)
    ensures Window(u, bars, warm, start, end).seen == WarmUp(bars, warm, start) + Stretch(bars, start, end)
    ensures warm <= start <= end ==> Window(u, bars, warm, start, end).seen == Stretch(bars, warm, end)
  {
    SeenIsBothStretches(u, bars, warm, start, end);
    if warm <= start <= end { StretchesJoin(bars, warm, start, end); }
  }

  lemma StretchGrows(bars: seq<Bar>, lo: int, hi: int)
    requires NonNeg(lo) < hi
    ensures Stretch(bars, lo, hi) == Stretch(bars, lo, hi - 1) + if hi - 1 < |bars| then [bars[hi - 1]] else []
  {
  }

  lemma StretchesJoin(bars: seq<Bar>, lo: int, mid: int, hi: int)
    requires lo <= mid <= hi
    ensures Stretch(bars, lo, mid) + Stretch(bars, mid, hi) == Stretch(bars, lo, hi)
  {
  }

  /** Every trade lies inside the window and opens no earlier than the exit bar of each trade before it. */
  ghost predicate Orderly(s: Sim, lo: int, hi: int) {
    && |s.exits| == |s.entries| == |s.out|
    && (forall k :: 0 <= k < |s.out| ==> lo <= s.out[k].index < s.exits[k] < hi)
    && (forall j, k :: 0 <= j < k < |s.out| ==> s.exits[j] <= s.out[k].index)
    && (s.pos.Some? ==> lo <= s.pos.value.index < hi && s.pos.value.risk > 0.0)
    && (s.pos.Some? ==> forall k :: 0 <= k < |s.out| ==> s.exits[k] <= s.pos.value.index)
  }

  lemma StepIsOrderly(u: Setup, s: Sim, b: Bar, i: nat, lo: int)
    requires lo <= i && Orderly(s, lo, i)
    ensures Orderly(Step(u, s, b, i), lo, i + 1)
  {
    var t := Step(u, s, b, i);
    forall k | 0 <= k < |t.out| ensures lo <= t.out[k].index < t.exits[k] < i + 1 {
      if k < |s.out| { assert t.out[k] == s.out[k] && t.exits[k] == s.exits[k]; }
    }
  }

  lemma {:induction false} TradesAreOrderly(u: Setup, bars: seq<Bar>, warm: int, start: int, end: int)
    ensures Orderly(Window(u, bars, warm, start, end), NonNeg(start), end)
    ensures var out := Window(u, bars, warm, start, end).out;
            forall j, k :: 0 <= j < k < |out| ==> out[j].index < out[k].index
    decreases NonNeg(end)
  {
    if end > NonNeg(start) {
      TradesAreOrderly(u, bars, warm, start, end - 1);
      if end - 1 < |bars| {
        StepIsOrderly(u, Window(u, bars, warm, start, end - 1), bars[end - 1], end - 1, NonNeg(start));
      }
    }
  }

  // ---- what a trade is

  predicate HitsStop(p: Pos, b: Bar) { if p.long then b.low <= p.stop else b.high >= p.stop }

  predicate HitsTarget(p: Pos, b: Bar) { if p.long then b.high >= p.target else b.low <= p.target }

  /** Neither level is reached by the bars after the entry and before `end`. */
  ghost predicate Untouched(bars: seq<Bar>, p: Pos, end: int) {
    forall j :: p.index < j < end && j < |bars| ==> !HitsStop(p, bars[j]) && !HitsTarget(p, bars[j])
  }

  /** It closed on the first later bar that reaches a level: at -1 if that bar reaches the stop and else at the
      reward, less what entering and leaving cost in units of the risk. */
  ghost predicate ClosedAtLevel(u: Setup, bars: seq<Bar>, p: Pos, x: Closed, exit: nat) {
    && x.index == p.index < exit < |bars| && Untouched(bars, p, exit)
    && (HitsStop(p, bars[exit]) || HitsTarget(p, bars[exit])) && p.risk > 0.0
    && ((if HitsStop(p, bars[exit]) then -1.0 else u.rr) - x.r) * p.risk == 2.0 * u.cost * Abs(p.entry)
  }

  /** What the strategy answers to warm-up and window up to bar i. */
  function AnswerAt(u: Setup, bars: seq<Bar>, warm: int, start: int, i: int): Option<Signal> {
    u.brain(WarmUp(bars, warm, start) + Stretch(bars, start, i + 1))
  }

  /** The position is the signal given on its bar. */
  ghost predicate FollowsSignal(u: Setup, bars: seq<Bar>, warm: int, start: int, p: Pos) {
    var s := AnswerAt(u, bars, warm, start, p.index);
    s.Some? && (p.long <==> s.value.kind.Long?) && p.entry == s.value.entry && p.stop == s.value.stopLoss
      && p.target == s.value.takeProfit && p.risk == Abs(s.value.entry - s.value.stopLoss) > 0.0
  }

  predicate Risky(s: Option<Signal>) { s.Some? && s.value.entry != s.value.stopLoss }

  /** A position was entered on bar i, or one was held through it. */
  ghost predicate TakenAt(s: Sim, i: int) {
    || (s.pos.Some? && s.pos.value.index <= i)
    || (exists k :: 0 <= k < |s.entries| && k < |s.exits| &&
          (s.entries[k].index == i || s.entries[k].index < i < s.exits[k]))
  }

  /** Every closed trade and the open position follow a signal and its levels, and no signal that takes a risk goes
      unanswered while nothing is held. */
  ghost predicate Explained(u: Setup, bars: seq<Bar>, warm: int, start: int, end: int, s: Sim) {
    && |s.out| == |s.entries| == |s.exits|
    && (forall k :: 0 <= k < |s.out| ==>
          && ClosedAtLevel(u, bars, s.entries[k], s.out[k], s.exits[k])
          && FollowsSignal(u, bars, warm, start, s.entries[k]))
    && (s.pos.Some? ==> s.pos.value.index < end && Untouched(bars, s.pos.value, end))
    && (s.pos.Some? ==> FollowsSignal(u, bars, warm, start, s.pos.value))
    && (forall i :: NonNeg(start) <= i < end && i < |bars| && Risky(AnswerAt(u, bars, warm, start, i)) ==>
          TakenAt(s, i))
  }

  lemma ExitIsAtLevel(u: Setup, bars: seq<Bar>, p: Pos, i: nat)
    requires p.index < i < |bars| && Untouched(bars, p, i) && p.risk > 0.0
    ensures var r := ExitR(p, bars[i], u.rr);
            r.Some? ==> ClosedAtLevel(u, bars, p, Closed(p.index, r.value - CostR(p.entry, p.risk, u.cost)), i)
    ensures ExitR(p, bars[i], u.rr).None? ==> Untouched(bars, p, i + 1)
  {
    var cost := CostR(p.entry, p.risk, u.cost);
    assert cost * p.risk == (u.cost + u.cost) * Abs(p.entry);
  }

  lemma EntryFollowsSignal(u: Setup, bars: seq<Bar>, warm: int, start: int, i: nat, seen: seq<Bar>)
    requires seen == WarmUp(bars, warm, start) + Stretch(bars, start, i + 1)
    ensures var p := EnterOn(u.brain(seen), i);
            (p.Some? <==> Risky(AnswerAt(u, bars, warm, start, i))) &&
            (p.Some? ==> p.value.index == i && FollowsSignal(u, bars, warm, start, p.value))
  {
  }

  lemma StaysTaken(u: Setup, s: Sim, b: Bar, now: nat, i: int)
    requires TakenAt(s, i) && i < now && |s.entries| == |s.exits|
    ensures TakenAt(Step(u, s, b, now), i)
  {
    var t := Step(u, s, b, now);
    if k :| 0 <= k < |s.entries| && (s.entries[k].index == i || s.entries[k].index < i < s.exits[k]) {
      assert t.entries[k] == s.entries[k] && t.exits[k] == s.exits[k];
    } else if t.entries != s.entries {
      assert t.entries[|s.entries|] == s.pos.value && t.exits[|s.entries|] == now;
    }
  }

  lemma StepTakes(u: Setup, bars: seq<Bar>, warm: int, start: int, i: nat, s: Sim)
    requires i < |bars| && s.seen + [bars[i]] == WarmUp(bars, warm, start) + Stretch(bars, start, i + 1)
    requires s.pos.Some? ==> s.pos.value.index < i
    requires Risky(AnswerAt(u, bars, warm, start, i))
    ensures TakenAt(Step(u, s, bars[i], i), i)
  {
    EntryFollowsSignal(u, bars, warm, start, i, s.seen + [bars[i]]);
  }

  lemma StepExplainsTrades(u: Setup, bars: seq<Bar>, warm: int, start: int, i: nat, s: Sim, k: nat)
    requires i < |bars| && Explained(u, bars, warm, start, i, s) && k < |Step(u, s, bars[i], i).out|
    ensures var t := Step(u, s, bars[i], i);
            && |t.out| == |t.entries| == |t.exits| && FollowsSignal(u, bars, warm, start, t.entries[k])
            && ClosedAtLevel(u, bars, t.entries[k], t.out[k], t.exits[k])
  {
    if s.pos.Some? { ExitIsAtLevel(u, bars, s.pos.value, i); }
  }

  lemma StepExplainsPos(u: Setup, bars: seq<Bar>, warm: int, start: int, i: nat, s: Sim)
    requires i < |bars| && s.seen + [bars[i]] == WarmUp(bars, warm, start) + Stretch(bars, start, i + 1)
    requires Explained(u, bars, warm, start, i, s)
    ensures var p := Step(u, s, bars[i], i).pos;
            p.Some? ==> p.value.index < i + 1 && Untouched(bars, p.value, i + 1) &&
                        FollowsSignal(u, bars, warm, start, p.value)
  {
    EntryFollowsSignal(u, bars, warm, start, i, s.seen + [bars[i]]);
    if s.pos.Some? { ExitIsAtLevel(u, bars, s.pos.value, i); }
  }

  lemma StepIsExplained(u: Setup, bars: seq<Bar>, warm: int, start: int, i: nat, s: Sim)
    requires i < |bars| && s.seen + [bars[i]] == WarmUp(bars, warm, start) + Stretch(bars, start, i + 1)
    requires Explained(u, bars, warm, start, i, s)
    ensures Explained(u, bars, warm, start, i + 1, Step(u, s, bars[i], i))
  {
    var t := Step(u, s, bars[i], i);
    StepExplainsPos(u, bars, warm, start, i, s);
    forall k | 0 <= k < |t.out|
      ensures ClosedAtLevel(u, bars, t.entries[k], t.out[k], t.exits[k])
      ensures FollowsSignal(u, bars, warm, start, t.entries[k])
    {
      StepExplainsTrades(u, bars, warm, start, i, s, k);
    }
    forall j | NonNeg(start) <= j < i + 1 && j < |bars| && Risky(AnswerAt(u, bars, warm, start, j))
      ensures TakenAt(t, j)
    {
      if j < i { StaysTaken(u, s, bars[i], i, j); } else { StepTakes(u, bars, warm, start, i, s); }
    }
  }

  /** What the trades of every window are: each follows the strategy's answer on its entry bar, is held while neither
      level is reached, and closes on the first bar that reaches one, the stop first, at -1 or at the reward less its
      cost; and whenever nothing is held, an answer that takes a risk is entered. */
  lemma {:induction false} TradesAreExplained(u: Setup, bars: seq<Bar>, warm: int, start: int, end: int)
    ensures Explained(u, bars, warm, start, if end > NonNeg(start) then end else NonNeg(start),
                      Window(u, bars, warm, start, end))
    decreases NonNeg(end)
  {
    if end > NonNeg(start) {
      var s := Window(u, bars, warm, start, end - 1);
      TradesAreExplained(u, bars, warm, start, end - 1);
      if end - 1 < |bars| {
        SeenIsBothStretches(u, bars, warm, start, end - 1);
        SeenIsBothStretches(u, bars, warm, start, end);
        StepShows(u, bars, warm, start, end);
        StepIsExplained(u, bars, warm, start, end - 1, s);
      } else {
        NothingMore(u, bars, warm, start, end - 1, s);
      }
    }
  }

  lemma NothingMore(u: Setup, bars: seq<Bar>, warm: int, start: int, end: int, s: Sim)
    requires Explained(u, bars, warm, start, end, s) && end >= |bars|
    ensures Explained(u, bars, warm, start, end + 1, s)
  {
  }

  // ---- long and short are mirror images

  function MirrorBars(bars: seq<Bar>): seq<Bar> { seq(|bars|, i requires 0 <= i < |bars| => MirrorBar(bars[i])) }

  function MirrorSignal(s: Option<Signal>): Option<Signal> {
    if s.None? then None else
      Some(Signal(s.value.symbol, if s.value.kind.Long? then Short else Long,
                  -s.value.entry, -s.value.stopLoss, -s.value.takeProfit))
  }

  /** What the strategy would answer if it were shown every price with its sign changed. */
  function MirrorSetup(u: Setup): Setup {
    u.(brain := seen => MirrorSignal(u.brain(MirrorBars(seen))))
  }

  function MirrorPos(p: Option<Pos>): Option<Pos> {
    if p.None? then None else
      Some(p.value.(long := !p.value.long, entry := -p.value.entry, stop := -p.value.stop, target := -p.value.target))
  }

  lemma StepMirrors(u: Setup, s: Sim, m: Sim, b: Bar, i: nat)
    requires m.out == s.out && m.exits == s.exits && m.pos == MirrorPos(s.pos) && m.seen == MirrorBars(s.seen)
    ensures var t, n := Step(u, s, b, i), Step(MirrorSetup(u), m, MirrorBar(b), i);
            n.out == t.out && n.exits == t.exits && n.pos == MirrorPos(t.pos) && n.seen == MirrorBars(t.seen)
  {
    var seen := s.seen + [b];
    assert m.seen + [MirrorBar(b)] == MirrorBars(seen);
    assert MirrorBars(MirrorBars(seen)) == seen;
    assert MirrorSetup(u).brain(MirrorBars(seen)) == MirrorSignal(u.brain(seen));
    assert EnterOn(MirrorSignal(u.brain(seen)), i) == MirrorPos(EnterOn(u.brain(seen), i));
    if s.pos.Some? {
      var p := s.pos.value;
      assert ExitR(MirrorPos(s.pos).value, MirrorBar(b), u.rr) == ExitR(p, b, u.rr);
      assert CostR(-p.entry, p.risk, u.cost) == CostR(p.entry, p.risk, u.cost);
    }
  }

  /** Changing the sign of every price and swapping long for short changes no result. */
  lemma {:induction false} LongAndShortMirror(u: Setup, bars: seq<Bar>, warm: int, start: int, end: int)
    ensures var s, m := Window(u, bars, warm, start, end), Window(MirrorSetup(u), MirrorBars(bars), warm, start, end);
            m.out == s.out && m.exits == s.exits && m.pos == MirrorPos(s.pos) && m.seen == MirrorBars(s.seen)
    decreases NonNeg(end)
  {
    if end > NonNeg(start) {
      LongAndShortMirror(u, bars, warm, start, end - 1);
      if end - 1 < |bars| {
        StepMirrors(u, Window(u, bars, warm, start, end - 1),
                    Window(MirrorSetup(u), MirrorBars(bars), warm, start, end - 1), bars[end - 1], end - 1);
      }
    } else {
      assert WarmUp(MirrorBars(bars), warm, start) == MirrorBars(WarmUp(bars, warm, start));
    }
  }
}
