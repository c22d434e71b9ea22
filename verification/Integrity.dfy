/** The check of a cached series (automation-hub/data/integrity.py): repeated times, broken candles, gaps. */
module Integrity {
  import opened Types
  import opened Folds
  import opened Candles

  datatype Gap = Gap(after: int, before: int, missing: int)

  datatype Verdict = Empty | Fine | Warning | Bad

  datatype Report = Report(candles: nat, duplicates: nat, bad: nat, gaps: seq<Gap>, missing: int, verdict: Verdict)

  /** Quotient and remainder. */
  function DivMod(num: nat, den: nat): (nat, nat)
    requires den > 0
  {
    if num < den then (0, num) else
      var (q, r) := DivMod(num - den, den);
      (q + 1, r)
  }

  /** num / den to the nearest integer, halves to the even one. */
  function RoundHalfEven(num: nat, den: nat): nat
    requires den > 0
  {
    var (q, r) := DivMod(num, den);
    if 2 * r < den then q else if 2 * r > den then q + 1 else if q % 2 == 0 then q else q + 1
  }

  predicate Broken(b: Bar) {
    !(b.low <= b.open <= b.high && b.low <= b.close <= b.high) || b.low <= 0.0
  }

  /** A distance of more than one and a half steps is a gap. */
  function GapBetween(a: Bar, b: Bar, step: Option<int>): Option<Gap>
    requires step.Some? ==> step.value > 0
  {
    var dt := b.timestamp - a.timestamp;
    if dt == 0 || step.None? || 2 * dt <= 3 * step.value then None
    else Some(Gap(a.timestamp, b.timestamp, RoundHalfEven(dt, step.value) - 1))
  }

  function AllGaps(bars: seq<Bar>, step: Option<int>): seq<Gap>
    requires step.Some? ==> step.value > 0
  {
    if |bars| < 2 then [] else
      var n := |bars| - 1;
      var gap := GapBetween(bars[n - 1], bars[n], step);
      if gap.Some? then AllGaps(bars[..n], step) + [gap.value] else AllGaps(bars[..n], step)
  }

  function MissingIn(gaps: seq<Gap>): int {
    if gaps == [] then 0 else MissingIn(gaps[..|gaps| - 1]) + gaps[|gaps| - 1].missing
  }

  function Repeats(bars: seq<Bar>): nat {
    if |bars| < 2 then 0 else
      var n := |bars| - 1;
      Repeats(bars[..n]) + if bars[n].timestamp == bars[n - 1].timestamp then 1 else 0
  }

  function BrokenIn(bars: seq<Bar>): nat {
    if bars == [] then 0 else BrokenIn(bars[..|bars| - 1]) + if Broken(bars[|bars| - 1]) then 1 else 0
  }

  /** Bad when anything repeats or is broken, or when more than one per cent, rounded to two digits, is missing. */
  function VerdictOn(candles: nat, duplicates: nat, bad: nat, missing: int): Verdict
    requires candles > 0 && missing >= 0
  {
    if duplicates > 0 || bad > 0 || RoundHalfEven(10_000 * missing, candles + missing) > 100 then Bad
    else if missing > 0 then Warning else Fine
  }

  function FirstOf(gaps: seq<Gap>, limit: nat): seq<Gap> { if |gaps| <= limit then gaps else gaps[..limit] }

  lemma GapMissesSome(a: Bar, b: Bar, step: Option<int>)
    requires (step.Some? ==> step.value > 0) && GapBetween(a, b, step).Some?
    ensures GapBetween(a, b, step).value.missing >= 1
  {
    var dt, s := b.timestamp - a.timestamp, step.value;
    assert DivMod(dt, s).0 == DivMod(dt - s, s).0 + 1;
    if dt < 2 * s {
      assert DivMod(dt, s) == (1, dt - s);
    } else {
      assert DivMod(dt - s, s).0 == DivMod(dt - 2 * s, s).0 + 1;
    }
  }

  lemma {:induction false} GapsMissSome(bars: seq<Bar>, step: Option<int>)
    requires step.Some? ==> step.value > 0
    ensures MissingIn(AllGaps(bars, step)) >= |AllGaps(bars, step)|
  {
    if |bars| >= 2 {
      var n := |bars| - 1;
      GapsMissSome(bars[..n], step);
      var gap := GapBetween(bars[n - 1], bars[n], step);
      if gap.Some? {
        GapMissesSome(bars[n - 1], bars[n], step);
        MissingSnoc(AllGaps(bars[..n], step), gap.value);
      }
    }
  }

  /** The counters and the first gaps. */
  ghost predicate IsReport(bars: seq<Bar>, step: Option<int>, limit: nat, r: Report)
    requires step.Some? ==> step.value > 0
  {
    && r.candles == |bars| && r.duplicates == Repeats(bars) && r.bad == BrokenIn(bars)
    && r.gaps == FirstOf(AllGaps(bars, step), limit) && r.missing == MissingIn(AllGaps(bars, step)) >= 0
  }

  predicate Judged(r: Report) {
    r.missing >= 0 &&
    r.verdict == if r.candles == 0 then Empty else VerdictOn(r.candles, r.duplicates, r.bad, r.missing)
  }

  method Verify(bars: seq<Bar>, step: Option<int>, limit: nat) returns (r: Report)
    requires step.Some? ==> step.value > 0
    ensures IsReport(bars, step, limit, r) && Judged(r)
  {
    if bars == [] { return Report(0, 0, 0, [], 0, Empty); }
    var duplicates, bad, missing := 0, 0, 0;
    var gaps: seq<Gap> := [];
    for i := 0 to |bars|
      invariant duplicates == Repeats(bars[..i]) && bad == BrokenIn(bars[..i])
      invariant gaps == FirstOf(AllGaps(bars[..i], step), limit) && missing == MissingIn(AllGaps(bars[..i], step))
    {
      assert bars[..i + 1][..i] == bars[..i];
      if Broken(bars[i]) { bad := bad + 1; }
      if i > 0 {
        var dt := bars[i].timestamp - bars[i - 1].timestamp;
        if dt == 0 {
          duplicates := duplicates + 1;
        } else {
          var gap := GapBetween(bars[i - 1], bars[i], step);
          if gap.Some? {
            MissingSnoc(AllGaps(bars[..i], step), gap.value);
            missing := missing + gap.value.missing;
            if |gaps| < limit { gaps := gaps + [gap.value]; }
          }
        }
      }
    }
    assert bars[..|bars|] == bars;
    GapsMissSome(bars, step);
    return Report(|bars|, duplicates, bad, gaps, missing, VerdictOn(|bars|, duplicates, bad, missing));
  }

  // ---- what the counters mean

  function TimesIn(bars: seq<Bar>): set<int> { set b | b in bars :: b.timestamp }

  lemma TimesSnoc(bars: seq<Bar>, b: Bar)
    ensures TimesIn(bars + [b]) == TimesIn(bars) + {b.timestamp}
  {
    assert b in bars + [b];
    forall t | t in TimesIn(bars) ensures t in TimesIn(bars + [b]) {
      var x :| x in bars && x.timestamp == t;
      assert x in bars + [b];
    }
  }

  /** In order, a time has been seen before exactly when it is that of the candle before. */
  lemma SeenBefore(bars: seq<Bar>, b: Bar)
    requires InTimeOrder(bars + [b])
    ensures b.timestamp in TimesIn(bars) <==> bars != [] && bars[|bars| - 1].timestamp == b.timestamp
  {
    if bars != [] {
      var all, n := bars + [b], |bars| - 1;
      assert bars[n] in bars && all[n].timestamp <= all[n + 1].timestamp;
      if b.timestamp in TimesIn(bars) {
        var x :| x in bars && x.timestamp == b.timestamp;
        var i :| 0 <= i <= n && bars[i] == x;
        assert i < n ==> all[i].timestamp <= all[n].timestamp;
      }
    }
  }

  /** In a chronological series the repeat counter is the number of candles beyond one per distinct time. */
  lemma {:induction false} RepeatsAreDuplicates(bars: seq<Bar>)
    requires InTimeOrder(bars)
    ensures Repeats(bars) == |bars| - |TimesIn(bars)|
  {
    if bars != [] {
      var n := |bars| - 1;
      RepeatsAreDuplicates(bars[..n]);
      assert bars == bars[..n] + [bars[n]];
      TimesSnoc(bars[..n], bars[n]);
      SeenBefore(bars[..n], bars[n]);
    } else {
      assert TimesIn(bars) == {};
    }
  }

  /** A series passes without reservation exactly when it has no repeat, no broken candle and no gap. */
  lemma FineMeansWhole(bars: seq<Bar>, step: Option<int>, limit: nat, r: Report)
    requires (step.Some? ==> step.value > 0) && IsReport(bars, step, limit, r) && Judged(r)
    ensures r.verdict == Fine <==> bars != [] && Repeats(bars) == 0 && BrokenIn(bars) == 0 && AllGaps(bars, step) == []
  {
    GapsMissSome(bars, step);
    if bars != [] && r.missing == 0 { assert 10_000 * r.missing == 0; }
  }

  // ---- the verifier and the slicer agree

  /** The i-th candle sits on grid point idx[i], counted from the first. */
  ghost predicate OnPoints(bars: seq<Bar>, idx: seq<int>, step: int) {
    && |idx| == |bars| && (bars != [] ==> idx[0] == 0)
    && (forall i :: 0 <= i < |bars| ==> bars[i].timestamp == bars[0].timestamp + idx[i] * step)
    && (forall i, j :: 0 <= i < j < |idx| ==> idx[i] < idx[j])
  }

  lemma Scaled(i: int, j: int, step: int)
    requires step > 0 && i <= j
    ensures i * step <= j * step && (i < j ==> i * step + step <= j * step)
  {
    Difference(i, j, step);
    AtLeast(j - i, step);
  }

  lemma Difference(i: int, j: int, step: int)
    ensures (j - i) * step == j * step - i * step
  {
  }

  lemma AtLeast(k: nat, step: nat)
    ensures k * step >= 0 && (k > 0 ==> k * step >= step)
  {
    if k > 0 { Difference(1, k, step); }
  }

  lemma Quotient(x: int, k: int, step: int)
    requires step > 0 && x == k * step
    ensures x / step == k && x % step == 0
  {
    var q := x / step;
    assert x == q * step + x % step;
    if k < q { Scaled(k, q, step); }
    if q < k { Scaled(q, k, step); }
  }

  /** Between candles k steps apart, k - 1 are missing. */
  lemma StepsMissing(a: Bar, b: Bar, k: int, step: int)
    requires step > 0 && k >= 1 && b.timestamp - a.timestamp == k * step
    ensures var gap := GapBetween(a, b, Some(step));
            if k == 1 then gap.None? else gap.Some? && gap.value.missing == k - 1
  {
    Scaled(1, k, step);
    if k >= 2 { Scaled(2, k, step); }
    MultipleDivides(b.timestamp - a.timestamp, k, step);
  }

  lemma {:induction false} MultipleDivides(x: nat, k: nat, step: nat)
    requires step > 0 && x == k * step
    ensures DivMod(x, step) == (k, 0)
    decreases k
  {
    if k > 0 {
      Difference(1, k, step);
      AtLeast(k, step);
      MultipleDivides(x - step, k - 1, step);
    }
  }

  lemma MissingSnoc(gaps: seq<Gap>, gap: Gap)
    ensures MissingIn(gaps + [gap]) == MissingIn(gaps) + gap.missing
  {
    assert (gaps + [gap])[..|gaps|] == gaps;
  }

  /** On the grid, what the gap counter adds up is the number of grid points without a candle. */
  lemma {:induction false} MissingIsGridLessCandles(bars: seq<Bar>, idx: seq<int>, step: int)
    requires step > 0 && bars != [] && OnPoints(bars, idx, step)
    ensures |bars| + MissingIn(AllGaps(bars, Some(step))) == idx[|bars| - 1] + 1
  {
    var n := |bars| - 1;
    if n > 0 {
      MissingIsGridLessCandles(bars[..n], idx[..n], step);
      var k := idx[n] - idx[n - 1];
      Difference(idx[n - 1], idx[n], step);
      StepsMissing(bars[n - 1], bars[n], k, step);
      var gap := GapBetween(bars[n - 1], bars[n], Some(step));
      if gap.Some? { MissingSnoc(AllGaps(bars[..n], Some(step)), gap.value); }
    }
  }

  function Present(times: set<int>, start: int, step: int, n: nat): set<int> {
    set i | 0 <= i < n && start + i * step in times
  }

  lemma {:induction false} AbsentAndPresent(times: set<int>, start: int, step: int, n: nat)
    ensures Absent(times, start, step, n) + |Present(times, start, step, n)| == n
  {
    if n > 0 {
      AbsentAndPresent(times, start, step, n - 1);
      PresentNext(times, start, step, n - 1, start + (n - 1) * step);
    }
  }

  lemma PresentNext(times: set<int>, start: int, step: int, n: nat, t: int)
    requires t == start + n * step
    ensures Present(times, start, step, n + 1) == Present(times, start, step, n) + if t in times then {n} else {}
  {
    var before, now := Present(times, start, step, n), Present(times, start, step, n + 1);
    forall i ensures i in now <==> i in before || (t in times && i == n) {}
  }

  lemma {:induction false} IncreasingSize(idx: seq<int>)
    requires Increasing(idx)
    ensures |set i | i in idx| == |idx|
  {
    if idx == [] {
      assert (set i | i in idx) == {};
    } else {
      var n := |idx| - 1;
      IncreasingSize(idx[..n]);
      assert idx == idx[..n] + [idx[n]];
      assert (set i | i in idx) == (set i | i in idx[..n]) + {idx[n]};
    }
  }

  lemma SameMultiple(i: int, j: int, step: int)
    requires step > 0 && i * step == j * step
    ensures i == j
  {
    if i < j { Scaled(i, j, step); }
    if j < i { Scaled(j, i, step); }
  }

  lemma PresentAreCandles(bars: seq<Bar>, idx: seq<int>, step: int)
    requires step > 0 && bars != [] && OnPoints(bars, idx, step)
    ensures Present(TimesIn(bars), bars[0].timestamp, step, idx[|bars| - 1] + 1) == set i | i in idx
  {
    var start, n := bars[0].timestamp, idx[|bars| - 1] + 1;
    var a, b := Present(TimesIn(bars), start, step, n), set i | i in idx;
    forall i | i in a ensures i in b {
      var c :| c in bars && c.timestamp == start + i * step;
      var k :| 0 <= k < |bars| && bars[k] == c;
      SameMultiple(idx[k], i, step);
    }
    forall i | i in b ensures i in a {
      var k :| 0 <= k < |idx| && idx[k] == i;
      assert bars[k] in bars;
    }
  }

  /** The slicer misses exactly the grid points the gap counter counts. */
  lemma AbsentIsMissing(bars: seq<Bar>, idx: seq<int>, step: int)
    requires step > 0 && bars != [] && OnPoints(bars, idx, step)
    ensures Absent(TimesIn(bars), bars[0].timestamp, step, idx[|bars| - 1] + 1) == MissingIn(AllGaps(bars, Some(step)))
  {
    MissingIsGridLessCandles(bars, idx, step);
    AbsentAndPresent(TimesIn(bars), bars[0].timestamp, step, idx[|bars| - 1] + 1);
    PresentAreCandles(bars, idx, step);
    IncreasingSize(idx);
  }

  ghost predicate AllAligned(bars: seq<Bar>, timeframe: string) {
    IncreasingBy(TimeOf(), bars) && forall b :: b in bars ==> Canonical(AsRow(b), timeframe) == Ok(b)
  }

  function GridIndex(bars: seq<Bar>, step: int): seq<int>
    requires step > 0
  {
    seq(|bars|, i requires 0 <= i < |bars| => (bars[i].timestamp - bars[0].timestamp) / step)
  }

  lemma MultipleOf(x: int, y: int, step: int)
    requires step > 0 && x % step == 0 && y % step == 0
    ensures (x - y) / step * step == x - y
  {
    var p, q := x / step, y / step;
    assert x == p * step && y == q * step;
    assert x - y == (p - q) * step;
    Quotient(x - y, p - q, step);
  }

  /** Strictly increasing multiples of the step. */
  ghost predicate OnStep(bars: seq<Bar>, step: int)
    requires step > 0
  {
    IncreasingBy(TimeOf(), bars) && forall i :: 0 <= i < |bars| ==> bars[i].timestamp % step == 0
  }

  lemma AlignedOnStep(bars: seq<Bar>, timeframe: string, step: int)
    requires TimeframeMs(timeframe) == Some(step) && AllAligned(bars, timeframe)
    ensures step > 0 && OnStep(bars, step)
  {
    forall i | 0 <= i < |bars| ensures bars[i].timestamp % step == 0 { assert bars[i] in bars; }
  }

  lemma {:induction false} StepsOnPoints(bars: seq<Bar>, step: int)
    requires step > 0 && bars != [] && OnStep(bars, step)
    ensures OnPoints(bars, GridIndex(bars, step), step)
  {
    var idx := GridIndex(bars, step);
    forall i | 0 <= i < |bars| ensures bars[i].timestamp == bars[0].timestamp + idx[i] * step {
      MultipleOf(bars[i].timestamp, bars[0].timestamp, step);
    }
    forall i, j | 0 <= i < j < |idx| ensures idx[i] < idx[j] {
      assert TimeOf()(bars[i]) < TimeOf()(bars[j]);
      GridBefore(idx[i], idx[j], step, bars[0].timestamp);
    }
  }

  lemma SeriesIsClean(bars: seq<Bar>, timeframe: string)
    requires AllAligned(bars, timeframe)
    ensures Normalized(AsRows(bars), timeframe) == Ok(bars) && !Conflict(bars)
  {
    var rows := AsRows(bars);
    forall row | row in rows ensures Canonical(row, timeframe).Ok? {
      var i :| 0 <= i < |rows| && rows[i] == row;
      assert bars[i] in bars;
    }
    NormalizedInOrder(rows, timeframe);
    forall i | 0 <= i < |bars| ensures Normalized(rows, timeframe).value[i] == bars[i] { assert bars[i] in bars; }
    assert Normalized(rows, timeframe).value == bars;
    NoConflict(bars, bars);
  }

  lemma TimesOfRows(bars: seq<Bar>)
    ensures Times(AsRows(bars)) == TimesIn(bars)
  {
    var rows := AsRows(bars);
    forall t | t in TimesIn(bars) ensures t in Times(rows) {
      var b :| b in bars && b.timestamp == t;
      var i :| 0 <= i < |bars| && bars[i] == b;
      assert rows[i] in rows;
    }
    forall t | t in Times(rows) ensures t in TimesIn(bars) {
      var row :| row in rows && row.time == Some(t);
      var i :| 0 <= i < |rows| && rows[i] == row;
      assert bars[i] in bars;
    }
  }

  lemma {:induction false} NoRepeats(bars: seq<Bar>)
    requires IncreasingBy(TimeOf(), bars)
    ensures Repeats(bars) == 0 && InTimeOrder(bars)
  {
    forall i, j | 0 <= i < j < |bars| ensures bars[i].timestamp < bars[j].timestamp {
      assert TimeOf()(bars[i]) < TimeOf()(bars[j]);
    }
    if |bars| >= 2 { NoRepeats(bars[..|bars| - 1]); }
  }

  lemma {:induction false} IndexGrows(idx: seq<int>, i: nat, j: nat)
    requires Increasing(idx) && i <= j < |idx|
    ensures idx[j] - idx[i] >= j - i
    decreases j - i
  {
    if i < j { IndexGrows(idx, i, j - 1); }
  }

  /** A slice of as many points as there are candles is the series itself. */
  lemma SliceIsSeries(bars: seq<Bar>, idx: seq<int>, step: int, evaluation: seq<Row>)
    requires step > 0 && bars != [] && OnPoints(bars, idx, step) && idx[|bars| - 1] + 1 == |bars| == |evaluation|
    requires Covers(AsRows(bars), evaluation, bars[0].timestamp, step)
    ensures evaluation == AsRows(bars)
  {
    var rows := AsRows(bars);
    forall i | 0 <= i < |rows| ensures idx[i] == i {
      IndexGrows(idx, 0, i);
      IndexGrows(idx, i, |idx| - 1);
    }
    forall i | 0 <= i < |rows| ensures evaluation[i] == rows[i] {
      assert evaluation[i] in rows;
      var k :| 0 <= k < |rows| && rows[k] == evaluation[i];
      SameMultiple(idx[k], i, step);
    }
  }

  /** The two on grid points: what the verifier counts and what the slicer of the whole range answers. */
  ghost predicate Agree(bars: seq<Bar>, step: int, missing: int, r: Result<Slice, Error>)
    requires step > 0 && bars != [] && missing >= 0
  {
    && |bars| + missing == (bars[|bars| - 1].timestamp - bars[0].timestamp) / step + 1
    && (r.Ok? <==> missing == 0)
    && (r.Err? ==> r == Err(Missing(missing)))
    && (r.Ok? ==> r.value.evaluation == AsRows(bars) && r.value.duplicates == 0)
  }

  /** On every aligned, strictly increasing, well-formed series, candles and missing candles add up to the grid points
      from the first to the last, and slicing exactly that range succeeds if and only if nothing is missing: otherwise
      the slicer reports the number the verifier counts, and on success it returns the whole series. */
  lemma VerifierAndSlicerAgree(bars: seq<Bar>, timeframe: string, step: int, warmup: int, limit: nat, report: Report,
                               r: Result<Slice, Error>)
    requires TimeframeMs(timeframe) == Some(step) && AllAligned(bars, timeframe) && bars != [] && step > 0
    requires IsReport(bars, Some(step), limit, report)
    requires IsSlice(AsRows(bars), timeframe, bars[0].timestamp, bars[|bars| - 1].timestamp + step, warmup, r)
    ensures Agree(bars, step, report.missing, r)
  {
    AlignedOnStep(bars, timeframe, step);
    SeriesIsClean(bars, timeframe);
    AgreeAt(bars, step, warmup, r);
  }

  lemma {:induction false} RangeIsWhole(bars: seq<Bar>, step: int)
    requires step > 0 && bars != [] && OnStep(bars, step)
    ensures var first, end := bars[0].timestamp, bars[|bars| - 1].timestamp + step;
            WholePeriod(first, end, step)
  {
    StepsOnPoints(bars, step);
    GridLength(bars, GridIndex(bars, step), step);
  }

  /** The timeframe no longer matters once the rows are known to be clean. */
  lemma {:induction false} AgreeAt(bars: seq<Bar>, step: int, warmup: int, r: Result<Slice, Error>)
    requires step > 0 && bars != [] && OnStep(bars, step) && !Conflict(bars)
    requires MissingIn(AllGaps(bars, Some(step))) >= 0
    requires IsSliceAt(AsRows(bars), Some(step), Ok(bars), bars[0].timestamp,
                       bars[|bars| - 1].timestamp + step, warmup, r)
    ensures Agree(bars, step, MissingIn(AllGaps(bars, Some(step))), r)
  {
    RangeIsWhole(bars, step);
    AgreeOnStep(bars, step, warmup, r);
  }

  lemma {:induction false} AgreeOnStep(bars: seq<Bar>, step: int, warmup: int, r: Result<Slice, Error>)
    requires step > 0 && bars != [] && OnStep(bars, step) && !Conflict(bars)
    requires bars[0].timestamp < bars[|bars| - 1].timestamp + step && MissingIn(AllGaps(bars, Some(step))) >= 0
    requires IsSliceOf(AsRows(bars), bars, step, bars[0].timestamp, bars[|bars| - 1].timestamp + step, warmup, r)
    ensures Agree(bars, step, MissingIn(AllGaps(bars, Some(step))), r)
  {
    var idx := GridIndex(bars, step);
    StepsOnPoints(bars, step);
    GridLength(bars, idx, step);
    SliceOfGrid(bars, idx, step, idx[|bars| - 1] + 1, bars[|bars| - 1].timestamp + step, warmup, r);
  }

  lemma {:induction false} GridLength(bars: seq<Bar>, idx: seq<int>, step: int)
    requires step > 0 && bars != [] && OnPoints(bars, idx, step)
    ensures var first, end, n := bars[0].timestamp, bars[|bars| - 1].timestamp + step, idx[|bars| - 1] + 1;
            first < end && end - first == n * step && (end - first) % step == 0 &&
            n == |bars| + MissingIn(AllGaps(bars, Some(step))) == (bars[|bars| - 1].timestamp - first) / step + 1
  {
    var n := idx[|bars| - 1] + 1;
    MissingIsGridLessCandles(bars, idx, step);
    Difference(1, n, step);
    Quotient(bars[|bars| - 1].timestamp + step - bars[0].timestamp, n, step);
    Quotient(bars[|bars| - 1].timestamp - bars[0].timestamp, n - 1, step);
    IndexGrows(idx, 0, |idx| - 1);
    AtLeast(n - 1, step);
  }

  /** The slice of all n grid points of a clean series. */
  lemma {:induction false} SliceOfGrid(bars: seq<Bar>, idx: seq<int>, step: int, n: int, end: int, warmup: int,
                    r: Result<Slice, Error>)
    requires step > 0 && bars != [] && OnPoints(bars, idx, step) && IncreasingBy(TimeOf(), bars) && !Conflict(bars)
    requires n == idx[|bars| - 1] + 1
    requires bars[0].timestamp < end && end - bars[0].timestamp == n * step
    requires IsSliceOf(AsRows(bars), bars, step, bars[0].timestamp, end, warmup, r)
    ensures var missing := MissingIn(AllGaps(bars, Some(step)));
            && (r.Ok? <==> missing == 0)
            && (r.Err? ==> r.error.Missing? && r.error.count == missing)
            && (r.Ok? ==> r.value.evaluation == AsRows(bars) && r.value.duplicates == 0)
  {
    Quotient(end - bars[0].timestamp, n, step);
    AbsentIsMissing(bars, idx, step);
    TimesOfRows(bars);
    if r.Ok? {
      MissingIsGridLessCandles(bars, idx, step);
      SliceIsSeries(bars, idx, step, r.value.evaluation);
      NoRepeats(bars);
      RepeatsAreDuplicates(bars);
    }
  }
}
