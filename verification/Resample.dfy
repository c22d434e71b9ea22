/** Epoch-aligned candle aggregation (automation-hub/backtest.py, resample). */
module Resample {
  import opened Types
  import opened Folds

  datatype InputError = NotIncreasing | Irregular

  predicate StrictlyIncreasing(bars: seq<Bar>) {
    forall i :: 0 < i < |bars| ==> bars[i - 1].timestamp < bars[i].timestamp
  }

  /** Every interval equals `delta`; this is when all intervals equal their median. */
  predicate Regular(bars: seq<Bar>, delta: int) {
    forall i :: 0 < i < |bars| ==> bars[i].timestamp - bars[i - 1].timestamp == delta
  }

  /** First open, highest high, lowest low, last close, summed volume. */
  function Join(x: Bar, y: Bar): Bar {
    Bar(x.timestamp, x.open, Max(x.high, y.high), Min(x.low, y.low), y.close, x.volume + y.volume)
  }

  function Aggregate(rows: seq<Bar>, stamp: int): Bar
    requires rows != []
  {
    var last := rows[|rows| - 1];
    if |rows| == 1 then last.(timestamp := stamp) else Join(Aggregate(rows[..|rows| - 1], stamp), last)
  }

  /** The rows whose timestamp lies in the left-closed bucket number `k`. */
  function InBucket(bars: seq<Bar>, rule: int, k: int): seq<Bar>
    requires rule > 0
  {
    if bars == [] then [] else
      var rows := InBucket(bars[..|bars| - 1], rule, k);
      var last := bars[|bars| - 1];
      if last.timestamp / rule == k then rows + [last] else rows
  }

  /** The aggregated bars of the complete buckets numbered from `lo` up to but not including `hi`. */
  function CompleteBuckets(bars: seq<Bar>, rule: int, group: int, forming: int, lo: int, hi: int): seq<Bar>
    requires rule > 0 && group > 0
    decreases hi - lo
  {
    if hi <= lo then [] else
      var earlier := CompleteBuckets(bars, rule, group, forming, lo, hi - 1);
      var rows := InBucket(bars, rule, hi - 1);
      if (hi - 1) * rule < forming && |rows| == group
      then earlier + [Aggregate(rows, (hi - 1) * rule)]
      else earlier
  }

  function FormingBucket(bars: seq<Bar>, delta: int, rule: int): int
    requires bars != [] && rule > 0
  {
    (bars[|bars| - 1].timestamp + delta) / rule * rule
  }

  function Resample(bars: seq<Bar>, group: int): Result<seq<Bar>, InputError> {
    if group <= 1 then Ok(bars)
    else if |bars| < 2 then Ok([])
    else if !StrictlyIncreasing(bars) then Err(NotIncreasing)
    else
      var delta := bars[1].timestamp - bars[0].timestamp;
      if !Regular(bars, delta) then Err(Irregular)
      else
        var rule := delta * group;
        Ok(CompleteBuckets(bars, rule, group, FormingBucket(bars, delta, rule),
                           bars[0].timestamp / rule, bars[|bars| - 1].timestamp / rule + 1))
  }

  // ---- arithmetic of nested buckets

  lemma MulMono(x: int, y: int, c: int)
    requires x <= y && c > 0
    ensures x * c <= y * c
  {
  }

  /** The defining property of floor division. */
  lemma QuotientGe(x: int, y: int, k: int)
    requires y > 0
    ensures k <= x / y <==> k * y <= x
  {
    var z := x / y;
    assert z * y <= x < z * y + y;
    if k <= z { MulMono(k, z, y); } else { MulMono(z + 1, k, y); }
  }

  lemma QuotientIs(x: int, y: int, k: int)
    requires y > 0 && k * y <= x < (k + 1) * y
    ensures x / y == k
  {
    QuotientGe(x, y, k);
    QuotientGe(x, y, k + 1);
  }

  lemma QuotientBounds(x: int, y: int)
    requires y > 0
    ensures x / y * y <= x < (x / y + 1) * y
  {
  }

  lemma Reassociate(x: int, y: int, z: int)
    ensures x * y * z == x * (z * y)
  {
  }

  lemma ProductIsPositive(x: int, y: int)
    requires x > 0 && y > 0
    ensures x * y > 0
  {
  }

  /** Bounds in units of g, stretched by d. */
  lemma StretchBounds(k: int, g: int, q: int, d: int)
    requires d > 0 && k * g <= q < (k + 1) * g
    ensures k * (d * g) <= q * d && (q + 1) * d <= (k + 1) * (d * g)
  {
    MulMono(k * g, q, d);
    Reassociate(k, g, d);
    MulMono(q + 1, (k + 1) * g, d);
    Reassociate(k + 1, g, d);
  }

  /** Dividing by a product is dividing twice. */
  lemma NestedQuotient(x: int, d: int, g: int)
    requires d > 0 && g > 0
    ensures d * g > 0 && x / (d * g) == x / d / g
  {
    var q := x / d;
    var k := q / g;
    ProductIsPositive(d, g);
    QuotientBounds(x, d);
    QuotientBounds(q, g);
    StretchBounds(k, g, q, d);
    QuotientIs(x, d * g, k);
  }

  /** The bars sit on the grid first, first + delta, first + 2 * delta, ... */
  ghost predicate OnGrid(bars: seq<Bar>, first: int, delta: int) {
    forall i :: 0 <= i < |bars| ==> bars[i].timestamp == first + i * delta
  }

  lemma {:induction false} RegularIsGrid(bars: seq<Bar>, delta: int, n: nat)
    requires Regular(bars, delta) && 0 < n <= |bars|
    ensures OnGrid(bars[..n], bars[0].timestamp, delta)
    decreases n
  {
    if n > 1 {
      RegularIsGrid(bars, delta, n - 1);
      assert bars[..n - 1][n - 2] == bars[n - 2];
      forall i | 0 <= i < n ensures bars[..n][i].timestamp == bars[0].timestamp + i * delta {
        if i < n - 1 { assert bars[..n][i] == bars[..n - 1][i]; }
      }
    }
  }

  lemma GridBucket(first: int, delta: int, group: int, i: int)
    requires delta > 0 && group > 0
    ensures delta * group > 0 && (first + i * delta) / (delta * group) == (first / delta + i) / group
  {
    NestedQuotient(first + i * delta, delta, group);
    QuotientBounds(first, delta);
    assert (first / delta + i) * delta == first / delta * delta + i * delta;
    assert (first / delta + i + 1) * delta == (first / delta + 1) * delta + i * delta;
    QuotientIs(first + i * delta, delta, first / delta + i);
  }

  // ---- what a resampled regular series consists of

  function Clamp(x: int, n: nat): nat { if x < 0 then 0 else if x > n then n else x }

  lemma BucketOf(q: int, n: int, group: int, k: int)
    requires group > 0
    ensures (q + n) / group == k <==> k * group - q <= n < k * group - q + group
  {
    QuotientBounds(q + n, group);
    if k * group - q <= n < k * group - q + group { QuotientIs(q + n, group, k); }
  }

  /** On a regular series, bucket k holds a consecutive slice. */
  lemma {:induction false} BucketIsSlice(bars: seq<Bar>, first: int, delta: int, group: int, k: int)
    requires delta > 0 && group > 0 && OnGrid(bars, first, delta)
    ensures delta * group > 0
    ensures var at := k * group - first / delta;
            Clamp(at, |bars|) <= Clamp(at + group, |bars|) &&
            InBucket(bars, delta * group, k) == bars[Clamp(at, |bars|)..Clamp(at + group, |bars|)]
    decreases |bars|
  {
    assert delta * group > 0;
    if bars != [] {
      var n := |bars| - 1;
      var q, at := first / delta, k * group - first / delta;
      BucketIsSlice(bars[..n], first, delta, group, k);
      GridBucket(first, delta, group, n);
      BucketOf(q, n, group, k);
      assert bars[..n][Clamp(at, n)..Clamp(at + group, n)] == bars[Clamp(at, n)..Clamp(at + group, n)];
    }
  }

  /** The first and the one-past-last complete bucket of n bars whose first has index q on the grid. */
  function FirstComplete(q: int, group: int): int
    requires group > 0
  { (q + group - 1) / group }

  function EndComplete(q: int, n: nat, group: int): int
    requires group > 0
  { (q + n) / group }

  /** What the two bounds say, without division. */
  ghost predicate CompleteRange(q: int, n: nat, group: int, lo: int, end: int) {
    lo * group - group < q <= lo * group && end * group <= q + n < end * group + group
  }

  lemma BoundsAreRange(q: int, n: nat, group: int)
    requires group > 0
    ensures CompleteRange(q, n, group, FirstComplete(q, group), EndComplete(q, n, group))
  {
    QuotientBounds(q + group - 1, group);
    QuotientBounds(q + n, group);
  }

  lemma InRange(q: int, n: nat, group: int, lo: int, end: int, k: int)
    requires group > 0 && CompleteRange(q, n, group, lo, end)
    ensures lo <= k <==> q <= k * group
    ensures k < end <==> k * group + group <= q + n
  {
    if lo <= k { MulMono(lo, k, group); } else { MulMono(k + 1, lo, group); }
    if k < end { MulMono(k + 1, end, group); } else { MulMono(end, k, group); }
  }

  /** Buckets lo..hi, each aggregated from exactly `group` consecutive bars. */
  ghost function Groups(bars: seq<Bar>, q: int, delta: int, group: int, lo: int, hi: int): (out: seq<Bar>)
    requires group > 0 && (lo < hi ==> q <= lo * group && hi * group <= q + |bars|)
    ensures |out| == if hi <= lo then 0 else hi - lo
    decreases hi - lo
  {
    if hi <= lo then [] else
      assert lo * group <= (hi - 1) * group;
      Groups(bars, q, delta, group, lo, hi - 1)
        + [Aggregate(bars[(hi - 1) * group - q..hi * group - q], (hi - 1) * (delta * group))]
  }

  lemma {:induction false} GroupAt(bars: seq<Bar>, q: int, delta: int, group: int, lo: int, hi: int, j: nat)
    requires group > 0 && q <= lo * group && hi * group <= q + |bars| && j < hi - lo
    ensures 0 <= (lo + j) * group - q < (lo + j + 1) * group - q <= |bars|
    ensures Groups(bars, q, delta, group, lo, hi)[j]
         == Aggregate(bars[(lo + j) * group - q..(lo + j + 1) * group - q], (lo + j) * (delta * group))
    decreases hi - lo
  {
    assert lo * group <= (lo + j) * group && (lo + j + 1) * group <= hi * group;
    assert lo * group <= (hi - 1) * group;
    if j < hi - 1 - lo {
      GroupAt(bars, q, delta, group, lo, hi - 1, j);
    }
  }

  /** A bucket is full exactly when it lies between the two bounds. */
  lemma FullBuckets(bars: seq<Bar>, first: int, delta: int, group: int, lo: int, end: int, k: int)
    requires delta > 0 && group > 0 && delta * group > 0 && OnGrid(bars, first, delta)
    requires CompleteRange(first / delta, |bars|, group, lo, end)
    ensures |InBucket(bars, delta * group, k)| == group <==> lo <= k < end
    ensures lo <= k < end ==> var q := first / delta;
              0 <= k * group - q && (k + 1) * group - q <= |bars| &&
              InBucket(bars, delta * group, k) == bars[k * group - q..(k + 1) * group - q]
  {
    var q := first / delta;
    InRange(q, |bars|, group, lo, end, k);
    BucketIsSlice(bars, first, delta, group, k);
    assert (k + 1) * group == k * group + group;
  }

  lemma {:induction false} CompleteBucketsAreGroups(bars: seq<Bar>, first: int, delta: int, group: int, forming: int,
                                                    q: int, lo: int, end: int, start: int, hi: int)
    requires delta > 0 && group > 0 && delta * group > 0 && OnGrid(bars, first, delta)
    requires q == first / delta && CompleteRange(q, |bars|, group, lo, end)
    requires forall k :: k < end ==> k * (delta * group) < forming
    requires start <= lo && start <= hi <= end
    ensures lo < hi ==> q <= lo * group && hi * group <= q + |bars|
    ensures CompleteBuckets(bars, delta * group, group, forming, start, hi) == Groups(bars, q, delta, group, lo, hi)
    decreases hi - start
  {
    MulMono(hi, end, group);
    if hi > start {
      CompleteBucketsAreGroups(bars, first, delta, group, forming, q, lo, end, start, hi - 1);
      FullBuckets(bars, first, delta, group, lo, end, hi - 1);
    }
  }

  /** Buckets past the last full one contribute nothing. */
  lemma {:induction false} NothingAfterEnd(bars: seq<Bar>, first: int, delta: int, group: int, forming: int,
                                           lo: int, end: int, start: int, hi: int)
    requires delta > 0 && group > 0 && delta * group > 0 && OnGrid(bars, first, delta)
    requires CompleteRange(first / delta, |bars|, group, lo, end)
    requires end <= hi
    ensures CompleteBuckets(bars, delta * group, group, forming, start, hi)
         == CompleteBuckets(bars, delta * group, group, forming, start, end)
    decreases hi - end
  {
    if hi > end {
      NothingAfterEnd(bars, first, delta, group, forming, lo, end, start, hi - 1);
      FullBuckets(bars, first, delta, group, lo, end, hi - 1);
    }
  }

  /** A full bucket always lies before the forming one, so that filter never removes it. */
  lemma FullBucketIsClosed(bars: seq<Bar>, first: int, delta: int, group: int, k: int)
    requires delta > 0 && group > 0 && bars != [] && OnGrid(bars, first, delta)
    requires delta * group > 0
    ensures |InBucket(bars, delta * group, k)| == group ==>
              k * (delta * group) < FormingBucket(bars, delta, delta * group)
    ensures k < EndComplete(first / delta, |bars|, group) ==>
              k * (delta * group) < FormingBucket(bars, delta, delta * group)
  {
    var q, n, rule := first / delta, |bars|, delta * group;
    BucketIsSlice(bars, first, delta, group, k);
    GridBucket(first, delta, group, n);
    assert bars[n - 1].timestamp + delta == first + n * delta;
    var end := EndComplete(q, n, group);
    BoundsAreRange(q, n, group);
    InRange(q, n, group, FirstComplete(q, group), end, k);
    assert FormingBucket(bars, delta, rule) == end * rule;
    if k < end {
      MulMono(k + 1, end, rule);
      assert (k + 1) * rule == k * rule + rule;
    }
  }

  lemma BucketsCoverRange(q: int, n: nat, group: int, lo: int, end: int, start: int, hi: int)
    requires group > 0 && n > 0 && CompleteRange(q, n, group, lo, end)
    requires start == q / group && hi == (q + n - 1) / group + 1
    ensures start <= lo && start <= hi && end <= hi
  {
    QuotientGe(q, group, lo);
    QuotientGe(q, group, lo + 1);
    QuotientGe(q, group, start);
    QuotientGe(q + n - 1, group, start);
    QuotientGe(q + n - 1, group, end - 1);
    assert (lo + 1) * group == lo * group + group && (end - 1) * group == end * group - group;
  }

  lemma GridGroups(bars: seq<Bar>, first: int, delta: int, group: int, lo: int, end: int, start: int, hi: int)
    requires delta > 0 && group > 0 && delta * group > 0 && bars != [] && OnGrid(bars, first, delta)
    requires lo == FirstComplete(first / delta, group) && end == EndComplete(first / delta, |bars|, group)
    requires start == first / (delta * group) && hi == bars[|bars| - 1].timestamp / (delta * group) + 1
    ensures lo < end ==> first / delta <= lo * group && end * group <= first / delta + |bars|
    ensures CompleteBuckets(bars, delta * group, group, FormingBucket(bars, delta, delta * group), start, hi)
         == Groups(bars, first / delta, delta, group, lo, end)
  {
    var q, n, rule := first / delta, |bars|, delta * group;
    GridBucket(first, delta, group, 0);
    GridBucket(first, delta, group, n - 1);
    BoundsAreRange(q, n, group);
    BucketsCoverRange(q, n, group, lo, end, start, hi);
    var forming := FormingBucket(bars, delta, rule);
    forall k | k < end ensures k * rule < forming { FullBucketIsClosed(bars, first, delta, group, k); }
    NothingAfterEnd(bars, first, delta, group, forming, lo, end, start, hi);
    if start <= end {
      CompleteBucketsAreGroups(bars, first, delta, group, forming, q, lo, end, start, end);
    }
  }

  /** On a regular series of at least two bars, resampling yields the consecutive groups of `group` bars
      that start on a bucket boundary, and drops fewer than `group` bars at each end. */
  lemma ResampleGroupsConsecutively(bars: seq<Bar>, group: int, delta: int)
    requires group > 1 && |bars| >= 2 && delta > 0 && Regular(bars, delta)
    ensures var q := bars[0].timestamp / delta;
            var lo, hi := FirstComplete(q, group), EndComplete(q, |bars|, group);
            (lo < hi ==> q <= lo * group && hi * group <= q + |bars|) &&
            Resample(bars, group) == Ok(Groups(bars, q, delta, group, lo, hi)) &&
            0 <= lo * group - q < group && 0 <= q + |bars| - hi * group < group
  {
    var first, n, rule := bars[0].timestamp, |bars|, delta * group;
    assert bars[1].timestamp - first == delta;
    RegularIsGrid(bars, delta, n);
    assert bars[..n] == bars;
    GridBucket(first, delta, group, 0);
    var q := first / delta;
    var lo, end := FirstComplete(q, group), EndComplete(q, n, group);
    GridGroups(bars, first, delta, group, lo, end, first / rule, bars[n - 1].timestamp / rule + 1);
    BoundsAreRange(q, n, group);
  }

  // ---- what an aggregated bar holds

  function Volumes(rows: seq<Bar>): seq<real> { seq(|rows|, i requires 0 <= i < |rows| => rows[i].volume) }

  /** First open, last close, the highest high, the lowest low and the whole volume of the rows. */
  ghost predicate Summarises(b: Bar, rows: seq<Bar>) {
    && rows != [] && b.open == rows[0].open && b.close == rows[|rows| - 1].close
    && (forall i :: 0 <= i < |rows| ==> b.low <= rows[i].low && rows[i].high <= b.high)
    && (exists i :: 0 <= i < |rows| && rows[i].high == b.high)
    && (exists i :: 0 <= i < |rows| && rows[i].low == b.low)
    && b.volume == Sum(Volumes(rows))
  }

  lemma {:induction false} AggregateSummarises(rows: seq<Bar>, stamp: int)
    requires rows != []
    ensures Summarises(Aggregate(rows, stamp), rows)
  {
    var n, b := |rows| - 1, Aggregate(rows, stamp);
    if n == 0 {
      assert Volumes(rows)[..0] == [] && rows[0].high == b.high && rows[0].low == b.low;
    } else {
      var a := Aggregate(rows[..n], stamp);
      AggregateSummarises(rows[..n], stamp);
      assert Volumes(rows)[..n] == Volumes(rows[..n]);
      var h :| 0 <= h < n && rows[..n][h].high == a.high;
      var l :| 0 <= l < n && rows[..n][l].low == a.low;
      assert rows[if b.high == a.high then h else n].high == b.high;
      assert rows[if b.low == a.low then l else n].low == b.low;
      forall i | 0 <= i < |rows| ensures b.low <= rows[i].low && rows[i].high <= b.high {
        if i < n { assert rows[..n][i] == rows[i]; }
      }
    }
  }

  /** Every bar of the result opens a bucket of the epoch and summarises exactly the source bars of that bucket. */
  lemma ResampledBarsSummarise(bars: seq<Bar>, group: int, delta: int, out: seq<Bar>, j: nat)
    requires group > 1 && |bars| >= 2 && delta > 0 && Regular(bars, delta)
    requires Resample(bars, group) == Ok(out) && j < |out|
    ensures var q := bars[0].timestamp / delta;
            var at := (FirstComplete(q, group) + j) * group - q;
            && 0 <= at && at + group <= |bars| && Summarises(out[j], bars[at..at + group])
            && out[j].timestamp == (FirstComplete(q, group) + j) * (delta * group)
  {
    var q := bars[0].timestamp / delta;
    var lo, hi := FirstComplete(q, group), EndComplete(q, |bars|, group);
    ResampleGroupsConsecutively(bars, group, delta);
    GroupAt(bars, q, delta, group, lo, hi, j);
    assert (lo + j + 1) * group == (lo + j) * group + group;
    var at := (lo + j) * group - q;
    AggregateSummarises(bars[at..at + group], (lo + j) * (delta * group));
    StampOf(bars[at..at + group], (lo + j) * (delta * group));
  }

  // ---- composition

  lemma {:induction false} AggregateConcat(xs: seq<Bar>, ys: seq<Bar>, stamp: int, other: int)
    requires xs != [] && ys != []
    ensures Aggregate(xs + ys, stamp) == Join(Aggregate(xs, stamp), Aggregate(ys, other))
    decreases |ys|
  {
    var n := |ys| - 1;
    assert (xs + ys)[..|xs + ys| - 1] == xs + ys[..n];
    if n == 0 {
      assert xs + ys[..n] == xs;
    } else {
      AggregateConcat(xs, ys[..n], stamp, other);
    }
  }

  /** Aggregating v - u neighbouring groups is aggregating their bars at once. */
  lemma {:induction false} AggregateOfGroups(bars: seq<Bar>, q: int, delta: int, group: int, lo: int, hi: int,
                                             u: nat, v: nat, stamp: int)
    requires group > 0 && q <= lo * group && hi * group <= q + |bars| && u < v <= hi - lo
    ensures 0 <= (lo + u) * group - q < (lo + v) * group - q <= |bars|
    ensures Aggregate(Groups(bars, q, delta, group, lo, hi)[u..v], stamp)
         == Aggregate(bars[(lo + u) * group - q..(lo + v) * group - q], stamp)
    decreases v
  {
    var out := Groups(bars, q, delta, group, lo, hi);
    GroupAt(bars, q, delta, group, lo, hi, v - 1);
    var rows := bars[(lo + v - 1) * group - q..(lo + v) * group - q];
    var tag := (lo + v - 1) * (delta * group);
    assert out[v - 1] == Aggregate(rows, tag);
    if v == u + 1 {
      assert out[u..v] == [out[u]];
      Relabel(rows, tag, stamp);
    } else {
      AggregateOfGroups(bars, q, delta, group, lo, hi, u, v - 1, stamp);
      assert out[u..v][..v - u - 1] == out[u..v - 1];
      var before := bars[(lo + u) * group - q..(lo + v - 1) * group - q];
      assert before + rows == bars[(lo + u) * group - q..(lo + v) * group - q];
      AggregateConcat(before, rows, stamp, tag);
    }
  }

  lemma {:induction false} Relabel(rows: seq<Bar>, stamp: int, other: int)
    requires rows != []
    ensures Aggregate(rows, stamp).(timestamp := other) == Aggregate(rows, other)
    decreases |rows|
  {
    if |rows| > 1 {
      Relabel(rows[..|rows| - 1], stamp, other);
    }
  }

  lemma {:induction false} GroupsOnGrid(bars: seq<Bar>, q: int, delta: int, group: int, lo: int, hi: int)
    requires group > 0 && q <= lo * group && hi * group <= q + |bars|
    ensures OnGrid(Groups(bars, q, delta, group, lo, hi), lo * (delta * group), delta * group)
  {
    var out := Groups(bars, q, delta, group, lo, hi);
    forall j | 0 <= j < |out| ensures out[j].timestamp == lo * (delta * group) + j * (delta * group) {
      GroupAt(bars, q, delta, group, lo, hi, j);
      StampOf(bars[(lo + j) * group - q..(lo + j + 1) * group - q], (lo + j) * (delta * group));
    }
  }

  lemma {:induction false} StampOf(rows: seq<Bar>, stamp: int)
    requires rows != []
    ensures Aggregate(rows, stamp).timestamp == stamp
    decreases |rows|
  {
    if |rows| > 1 {
      StampOf(rows[..|rows| - 1], stamp);
    }
  }

  lemma RangeIsUnique(q: int, n: nat, group: int, lo: int, end: int)
    requires group > 0 && CompleteRange(q, n, group, lo, end)
    ensures lo == FirstComplete(q, group) && end == EndComplete(q, n, group)
  {
    var f, e := FirstComplete(q, group), EndComplete(q, n, group);
    BoundsAreRange(q, n, group);
    InRange(q, n, group, lo, end, f);
    InRange(q, n, group, f, e, lo);
    InRange(q, n, group, lo, end, e - 1);
    InRange(q, n, group, f, e, end - 1);
    assert (e - 1) * group == e * group - group && (end - 1) * group == end * group - group;
  }

  /** The range of complete buckets of the coarse grid, reached directly or through the finer grid. */
  lemma NestedRange(q: int, n: nat, g1: int, g2: int, lo1: int, end1: int, lo2: int, end2: int)
    requires g1 > 0 && g2 > 0 && g1 * g2 > 0
    requires CompleteRange(q, n, g1, lo1, end1)
    requires (lo2 - 1) * g2 < lo1 <= lo2 * g2 && end2 * g2 <= end1 < (end2 + 1) * g2
    ensures CompleteRange(q, n, g1 * g2, lo2, end2)
  {
    MulMono((lo2 - 1) * g2, lo1 - 1, g1);
    MulMono(lo1, lo2 * g2, g1);
    MulMono(end2 * g2, end1, g1);
    MulMono(end1 + 1, (end2 + 1) * g2, g1);
    Reassociate(lo2 - 1, g2, g1);
    Reassociate(lo2, g2, g1);
    Reassociate(end2, g2, g1);
    Reassociate(end2 + 1, g2, g1);
    assert (lo1 - 1) * g1 == lo1 * g1 - g1 && (end1 + 1) * g1 == end1 * g1 + g1;
    assert (lo2 - 1) * (g1 * g2) == lo2 * (g1 * g2) - g1 * g2;
    assert (end2 + 1) * (g1 * g2) == end2 * (g1 * g2) + g1 * g2;
  }

  lemma GroupOfGroups(bars: seq<Bar>, q: int, delta: int, g1: int, g2: int, lo1: int, end1: int, k: int)
    requires g1 > 0 && g2 > 0 && q <= lo1 * g1 && end1 * g1 <= q + |bars|
    requires lo1 <= k * g2 && (k + 1) * g2 <= end1
    ensures 0 <= k * (g1 * g2) - q < (k + 1) * (g1 * g2) - q <= |bars|
    ensures 0 <= k * g2 - lo1 < (k + 1) * g2 - lo1 <= end1 - lo1
    ensures Aggregate(Groups(bars, q, delta, g1, lo1, end1)[k * g2 - lo1..(k + 1) * g2 - lo1], k * (delta * g1 * g2))
         == Aggregate(bars[k * (g1 * g2) - q..(k + 1) * (g1 * g2) - q], k * (delta * (g1 * g2)))
  {
    Reassociate(k, g2, g1);
    Reassociate(k + 1, g2, g1);
    assert (k + 1) * g2 == k * g2 + g2;
    AggregateOfGroups(bars, q, delta, g1, lo1, end1, k * g2 - lo1, (k + 1) * g2 - lo1, k * (delta * g1 * g2));
    Reassociate(delta, g1, g2);
    assert delta * g1 * g2 == delta * (g1 * g2);
  }

  lemma GroupedRange(q: int, n: nat, g1: int, g2: int, lo1: int, end1: int, lo: int, end: int)
    requires g1 > 0 && q <= lo1 * g1 && end1 * g1 <= q + n && lo1 <= lo * g2 && end * g2 <= end1
    ensures q <= lo * (g1 * g2) && end * (g1 * g2) <= q + n
  {
    MulMono(lo1, lo * g2, g1);
    MulMono(end * g2, end1, g1);
    Reassociate(lo, g2, g1);
    Reassociate(end, g2, g1);
  }

  /** Grouping the groups is grouping the bars. */
  lemma {:induction false} GroupsOfGroups(bars: seq<Bar>, q: int, delta: int, g1: int, g2: int, lo1: int,
                                          end1: int, lo: int, end: int)
    requires g1 > 0 && g2 > 0 && g1 * g2 > 0
    requires q <= lo1 * g1 && end1 * g1 <= q + |bars|
    requires lo1 <= lo * g2 && end * g2 <= end1 && lo1 <= end1
    ensures lo < end ==> q <= lo * (g1 * g2) && end * (g1 * g2) <= q + |bars|
    ensures Groups(Groups(bars, q, delta, g1, lo1, end1), lo1, delta * g1, g2, lo, end)
         == Groups(bars, q, delta, g1 * g2, lo, end)
    decreases end - lo
  {
    if lo < end {
      MulMono(end - 1, end, g2);
      MulMono(lo, end - 1, g2);
      GroupedRange(q, |bars|, g1, g2, lo1, end1, lo, end);
      GroupOfGroups(bars, q, delta, g1, g2, lo1, end1, end - 1);
      GroupsOfGroups(bars, q, delta, g1, g2, lo1, end1, lo, end - 1);
    }
  }

  /** The bounds of the coarse groups, found through the bounds of the fine ones. */
  lemma RangesCompose(q: int, n: nat, g1: int, g2: int, lo1: int, end1: int)
    requires g1 > 0 && g2 > 0 && g1 * g2 > 0 && lo1 == FirstComplete(q, g1) && end1 == EndComplete(q, n, g1)
    ensures FirstComplete(q, g1 * g2) == FirstComplete(lo1, g2) && EndComplete(q, n, g1 * g2) == end1 / g2
    ensures lo1 <= FirstComplete(lo1, g2) * g2 && end1 / g2 * g2 <= end1
  {
    var lo2, end2 := FirstComplete(lo1, g2), end1 / g2;
    BoundsAreRange(q, n, g1);
    QuotientBounds(lo1 + g2 - 1, g2);
    QuotientBounds(end1, g2);
    NestedRange(q, n, g1, g2, lo1, end1, lo2, end2);
    RangeIsUnique(q, n, g1 * g2, lo2, end2);
  }

  lemma ComposesOnRegular(bars: seq<Bar>, delta: int, g1: int, g2: int)
    requires g1 > 1 && g2 > 1 && |bars| >= 2 && delta > 0 && Regular(bars, delta)
    ensures g1 * g2 > 1 && Resample(bars, g1).Ok?
    ensures Resample(Resample(bars, g1).value, g2) == Resample(bars, g1 * g2)
  {
    MulMono(2, g1, g2);
    var q, n := bars[0].timestamp / delta, |bars|;
    var lo1, end1 := FirstComplete(q, g1), EndComplete(q, n, g1);
    ResampleGroupsConsecutively(bars, g1, delta);
    ResampleGroupsConsecutively(bars, g1 * g2, delta);
    RangesCompose(q, n, g1, g2, lo1, end1);
    GroupsCompose(bars, q, delta, g1, g2, lo1, end1, FirstComplete(lo1, g2), end1 / g2);
  }

  /** Resampling the fine groups gives the coarse groups. */
  lemma GroupsCompose(bars: seq<Bar>, q: int, delta: int, g1: int, g2: int, lo1: int, end1: int, lo2: int, end2: int)
    requires delta > 0 && g1 > 1 && g2 > 1 && g1 * g2 > 0 && (lo1 < end1 ==> q <= lo1 * g1 && end1 * g1 <= q + |bars|)
    requires lo2 == FirstComplete(lo1, g2) && end2 == end1 / g2 && lo1 <= lo2 * g2 && end2 * g2 <= end1
    ensures lo2 < end2 ==> q <= lo2 * (g1 * g2) && end2 * (g1 * g2) <= q + |bars|
    ensures Resample(Groups(bars, q, delta, g1, lo1, end1), g2) == Ok(Groups(bars, q, delta, g1 * g2, lo2, end2))
  {
    var inner, step := Groups(bars, q, delta, g1, lo1, end1), delta * g1;
    if lo2 < end2 { TwoOrMore(lo1, end1, g2, lo2, end2); }
    if |inner| >= 2 {
      InnerIsRegular(bars, q, delta, g1, lo1, end1);
      ResampleGroupsConsecutively(inner, g2, step);
      assert EndComplete(lo1, |inner|, g2) == end2;
      assert Resample(inner, g2) == Ok(Groups(inner, lo1, step, g2, lo2, end2));
      if lo2 < end2 { GroupsOfGroups(bars, q, delta, g1, g2, lo1, end1, lo2, end2); }
    }
  }

  /** A coarse group takes at least g2 fine ones. */
  lemma TwoOrMore(lo1: int, end1: int, g2: int, lo2: int, end2: int)
    requires g2 > 0 && lo2 < end2 && lo1 <= lo2 * g2 && end2 * g2 <= end1
    ensures end1 - lo1 >= g2
  {
    MulMono(lo2 + 1, end2, g2);
    assert (lo2 + 1) * g2 == lo2 * g2 + g2;
  }

  lemma InnerIsRegular(bars: seq<Bar>, q: int, delta: int, group: int, lo: int, hi: int)
    requires delta > 0 && group > 0 && q <= lo * group && hi * group <= q + |bars| && lo < hi
    ensures delta * group > 0
    ensures var out := Groups(bars, q, delta, group, lo, hi);
            Regular(out, delta * group) && out[0].timestamp / (delta * group) == lo
  {
    var out, step := Groups(bars, q, delta, group, lo, hi), delta * group;
    GroupsOnGrid(bars, q, delta, group, lo, hi);
    forall i | 0 < i < |out| ensures out[i].timestamp - out[i - 1].timestamp == step {
      assert i * step - (i - 1) * step == step;
    }
    assert (lo + 1) * step == lo * step + step;
    QuotientIs(out[0].timestamp, step, lo);
  }

  /** At least two bars, all one positive interval apart. */
  predicate Accepted(bars: seq<Bar>) {
    |bars| >= 2 && StrictlyIncreasing(bars) && Regular(bars, bars[1].timestamp - bars[0].timestamp)
  }

  /** Bars that cannot be grouped are refused, or give nothing, whatever the group. */
  lemma RefusedAlike(bars: seq<Bar>, g: int, h: int)
    requires g > 1 && h > 1 && !Accepted(bars)
    ensures Resample(bars, g) == Resample(bars, h) && (Resample(bars, g).Ok? ==> Resample(bars, g).value == [])
  {
  }

  /** Regrouping the result of the first grouping gives the direct grouping, or both are refused for one reason. */
  predicate Composes(first: Result<seq<Bar>, InputError>, g2: int, direct: Result<seq<Bar>, InputError>) {
    match first
    case Ok(inner) => Resample(inner, g2) == direct
    case Err(e) => direct == Err(e)
  }

  lemma ComposesBeyondOne(bars: seq<Bar>, g1: int, g2: int)
    requires g1 > 1 && g2 > 1
    ensures Composes(Resample(bars, g1), g2, Resample(bars, g1 * g2))
  {
    MulMono(2, g1, g2);
    if Accepted(bars) {
      ComposesOnRegular(bars, bars[1].timestamp - bars[0].timestamp, g1, g2);
    } else {
      RefusedAlike(bars, g1, g1 * g2);
    }
  }

  lemma ComposesWithOne(bars: seq<Bar>, g: int)
    ensures Composes(Resample(bars, 1), g, Resample(bars, g)) && Composes(Resample(bars, g), 1, Resample(bars, g))
  {
  }

  /** Resampling by g1 and then by g2 is resampling by g1 * g2, on every input, accepted or refused. */
  lemma ResampleComposes(bars: seq<Bar>, g1: int, g2: int)
    requires g1 >= 1 && g2 >= 1
    ensures Composes(Resample(bars, g1), g2, Resample(bars, g1 * g2))
  {
    if g1 > 1 && g2 > 1 {
      ComposesBeyondOne(bars, g1, g2);
    } else if g1 == 1 {
      ComposesWithOne(bars, g2);
    } else {
      ComposesWithOne(bars, g1);
    }
  }

  /** Some bar does not come after the one before it. */
  ghost predicate StandsStill(bars: seq<Bar>) {
    exists i, j :: 0 <= i && j == i + 1 < |bars| && bars[j].timestamp <= bars[i].timestamp
  }

  /** Some step differs from the first one. */
  ghost predicate Uneven(bars: seq<Bar>) {
    exists i, j :: 0 <= i && j == i + 1 < |bars| &&
      bars[j].timestamp - bars[i].timestamp != bars[1].timestamp - bars[0].timestamp
  }

  /** Only two bars or more can be refused, and only when they are to be grouped: for standing still, or else for uneven
      steps. */
  lemma ResampleRefusesExactly(bars: seq<Bar>, group: int)
    ensures var r, asked := Resample(bars, group), group > 1 && |bars| >= 2;
            && (r == Err(NotIncreasing) <==> asked && StandsStill(bars))
            && (r == Err(Irregular) <==> asked && !StandsStill(bars) && Uneven(bars))
            && (r.Ok? <==> !asked || (!StandsStill(bars) && !Uneven(bars)))
            && (group <= 1 ==> r == Ok(bars)) && (group > 1 && |bars| < 2 ==> r == Ok([]))
  {
    if |bars| >= 2 {
      var delta := bars[1].timestamp - bars[0].timestamp;
      StillExactly(bars);
      UnevenExactly(bars, delta);
    }
  }

  lemma StillExactly(bars: seq<Bar>)
    ensures StrictlyIncreasing(bars) <==> !StandsStill(bars)
  {
    if !StrictlyIncreasing(bars) {
      var i :| 0 < i < |bars| && bars[i - 1].timestamp >= bars[i].timestamp;
      assert bars[i].timestamp <= bars[i - 1].timestamp && i == i - 1 + 1;
    }
  }

  lemma UnevenExactly(bars: seq<Bar>, delta: int)
    requires |bars| >= 2 && delta == bars[1].timestamp - bars[0].timestamp
    ensures Regular(bars, delta) <==> !Uneven(bars)
  {
    if !Regular(bars, delta) {
      var i :| 0 < i < |bars| && bars[i].timestamp - bars[i - 1].timestamp != delta;
      assert i == i - 1 + 1;
    }
  }
}
