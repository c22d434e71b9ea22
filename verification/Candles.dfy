/** Canonical candles (automation-hub/data/historical.py): the manifest of a dataset and the slicing of an
    evaluation period with its warm-up. */
module Candles {
  import opened Types
  import opened Folds

  /** A candle as a caller hands it in: no timestamp unless it is an aware one, no value unless it is finite. */
  datatype Row = Row(
    time: Option<int>, open: Option<real>, high: Option<real>, low: Option<real>, close: Option<real>,
    volume: Option<real>)

  datatype Error = NoTimestamp | NotFinite | HighLow | Unsupported | Misaligned | Conflicting
    | BadPeriod | Missing(count: nat)

  /** The supported timeframes in milliseconds. */
  function TimeframeMs(timeframe: string): (r: Option<int>)
    ensures r.Some? ==> r.value > 0
  {
    match timeframe
    case "5m" => Some(300_000)
    case "15m" => Some(900_000)
    case "30m" => Some(1_800_000)
    case "1h" => Some(3_600_000)
    case "4h" => Some(14_400_000)
    case "1d" => Some(86_400_000)
    case "1w" => Some(604_800_000)
    case _ => None
  }

  predicate Finite(row: Row) {
    row.open.Some? && row.high.Some? && row.low.Some? && row.close.Some? && row.volume.Some?
  }

  function Canonical(row: Row, timeframe: string): Result<Bar, Error> {
    if row.time.None? then Err(NoTimestamp)
    else if !Finite(row) then Err(NotFinite)
    else if row.high.value < Max(row.open.value, row.close.value)
       || row.low.value > Min(row.open.value, row.close.value)
    then Err(HighLow)
    else if TimeframeMs(timeframe).None? then Err(Unsupported)
    else if row.time.value % TimeframeMs(timeframe).value != 0 then Err(Misaligned)
    else Ok(Bar(row.time.value, row.open.value, row.high.value, row.low.value, row.close.value, row.volume.value))
  }

  /** All rows made canonical, or the error of the first that cannot be. */
  function Normalized(rows: seq<Row>, timeframe: string): Result<seq<Bar>, Error> {
    if rows == [] then Ok([]) else
      var n := |rows| - 1;
      var rest := Normalized(rows[..n], timeframe);
      if rest.Err? then rest
      else if Canonical(rows[n], timeframe).Err? then Err(Canonical(rows[n], timeframe).error)
      else Ok(rest.value + [Canonical(rows[n], timeframe).value])
  }

  ghost predicate AllCanonical(rows: seq<Row>, timeframe: string) {
    forall row :: row in rows ==> Canonical(row, timeframe).Ok?
  }

  /** Two candles of the same time differ. */
  ghost predicate Conflict(cs: seq<Bar>) {
    exists i, j :: 0 <= i < |cs| && 0 <= j < |cs| && cs[i].timestamp == cs[j].timestamp && cs[i] != cs[j]
  }

  lemma {:induction false} NormalizedInOrder(rows: seq<Row>, timeframe: string)
    ensures Normalized(rows, timeframe).Ok? <==> AllCanonical(rows, timeframe)
    ensures Normalized(rows, timeframe).Ok? ==>
              |Normalized(rows, timeframe).value| == |rows| &&
              forall i :: 0 <= i < |rows| ==> Canonical(rows[i], timeframe) == Ok(Normalized(rows, timeframe).value[i])
  {
    if rows != [] {
      var n := |rows| - 1;
      NormalizedInOrder(rows[..n], timeframe);
      assert rows == rows[..n] + [rows[n]];
    }
  }

  method Normalize(rows: seq<Row>, timeframe: string) returns (r: Result<seq<Bar>, Error>)
    ensures r == Normalized(rows, timeframe)
  {
    var out: seq<Bar> := [];
    for i := 0 to |rows|
      invariant Normalized(rows[..i], timeframe) == Ok(out)
    {
      assert rows[..i + 1][..i] == rows[..i];
      var c := Canonical(rows[i], timeframe);
      if c.Err? {
        ErrorStays(rows, timeframe, i + 1);
        return Err(c.error);
      }
      out := out + [c.value];
    }
    assert rows[..|rows|] == rows;
    return Ok(out);
  }

  lemma {:induction false} ErrorStays(rows: seq<Row>, timeframe: string, i: nat)
    requires i <= |rows| && Normalized(rows[..i], timeframe).Err?
    ensures Normalized(rows, timeframe) == Normalized(rows[..i], timeframe)
    decreases |rows| - i
  {
    if i == |rows| {
      assert rows[..i] == rows;
    } else {
      assert rows[..i + 1][..i] == rows[..i];
      ErrorStays(rows, timeframe, i + 1);
    }
  }

  // ---- the manifest

  /** The candles a manifest is taken over, or the reason there is none. */
  ghost predicate IsManifest(rows: seq<Row>, timeframe: string, r: Result<seq<Bar>, Error>) {
    var cs := Normalized(rows, timeframe);
    if cs.Err? then r == Err(cs.error)
    else if Conflict(cs.value) then r == Err(Conflicting)
    else r.Ok? && IncreasingBy(TimeOf(), r.value) && forall c :: c in r.value <==> c in cs.value
  }

  /** The candles without repetition, so far. */
  ghost predicate Deduplicated(cs: seq<Bar>, unique: seq<Bar>) {
    && IncreasingBy(TimeOf(), unique) && (cs == [] <==> unique == [])
    && (cs != [] ==> unique[|unique| - 1] == cs[|cs| - 1]) && forall c :: c in unique <==> c in cs
  }

  lemma DeduplicatedNext(cs: seq<Bar>, unique: seq<Bar>, c: Bar)
    requires Deduplicated(cs, unique) && InTimeOrder(cs + [c])
    ensures cs != [] && cs[|cs| - 1] == c ==> Deduplicated(cs + [c], unique)
    ensures cs == [] || cs[|cs| - 1].timestamp != c.timestamp ==> Deduplicated(cs + [c], unique + [c])
  {
    var all := cs + [c];
    if cs != [] {
      var m, n := |unique| - 1, |cs| - 1;
      assert all[n].timestamp <= all[n + 1].timestamp;
      forall i | 0 <= i <= m ensures unique[i].timestamp <= cs[n].timestamp {
        if i < m { assert TimeOf()(unique[i]) < TimeOf()(unique[m]); }
      }
    }
  }

  /** Normalize, sort, and drop repeated candles; a repeated time with other values is an error. */
  method Manifest(rows: seq<Row>, timeframe: string) returns (r: Result<seq<Bar>, Error>)
    ensures IsManifest(rows, timeframe, r)
  {
    var cs := Normalize(rows, timeframe);
    if cs.Err? { return cs; }
    var unique := Deduplicate(cs.value);
    if unique.None? { return Err(Conflicting); }
    return Ok(unique.value);
  }

  lemma InOrderUpTo(cs: seq<Bar>, i: nat)
    requires OrderedBy(TimeOf(), cs) && i < |cs|
    ensures cs[..i + 1] == cs[..i] + [cs[i]] && InTimeOrder(cs[..i] + [cs[i]])
  {
    var upTo := cs[..i + 1];
    assert upTo == cs[..i] + [cs[i]];
    forall j, k | 0 <= j < k < |upTo| ensures upTo[j].timestamp <= upTo[k].timestamp {
      assert TimeOf()(cs[j]) <= TimeOf()(cs[k]);
    }
  }

  method Deduplicate(cs: seq<Bar>) returns (r: Option<seq<Bar>>)
    ensures r.None? <==> Conflict(cs)
    ensures r.Some? ==> IncreasingBy(TimeOf(), r.value) && forall c :: c in r.value <==> c in cs
  {
    var sorted := SortBy(TimeOf(), cs);
    SortedHolds(TimeOf(), cs);
    var unique: seq<Bar> := [];
    for i := 0 to |sorted|
      invariant Deduplicated(sorted[..i], unique)
    {
      var item := sorted[i];
      InOrderUpTo(sorted, i);
      DeduplicatedNext(sorted[..i], unique, item);
      if unique != [] && unique[|unique| - 1].timestamp == item.timestamp {
        if unique[|unique| - 1] != item {
          Conflicts(cs, sorted[i - 1], item);
          return None;
        }
      } else {
        unique := unique + [item];
      }
    }
    assert sorted[..|sorted|] == sorted;
    NoConflict(cs, unique);
    return Some(unique);
  }

  lemma Conflicts(cs: seq<Bar>, a: Bar, b: Bar)
    requires a in cs && b in cs && a.timestamp == b.timestamp && a != b
    ensures Conflict(cs)
  {
    var i :| 0 <= i < |cs| && cs[i] == a;
    var j :| 0 <= j < |cs| && cs[j] == b;
  }

  lemma NoConflict(cs: seq<Bar>, unique: seq<Bar>)
    requires IncreasingBy(TimeOf(), unique) && forall c :: c in cs ==> c in unique
    ensures !Conflict(cs)
  {
    forall i, j | 0 <= i < |cs| && 0 <= j < |cs| && cs[i].timestamp == cs[j].timestamp ensures cs[i] == cs[j] {
      assert cs[i] in unique && cs[j] in unique;
      var p :| 0 <= p < |unique| && unique[p] == cs[i];
      var q :| 0 <= q < |unique| && unique[q] == cs[j];
      assert !(TimeOf()(unique[p]) < TimeOf()(unique[q])) && !(TimeOf()(unique[q]) < TimeOf()(unique[p]));
    }
  }

  /** Two rows of the same time with different candles. */
  ghost predicate Contradict(rows: seq<Row>, timeframe: string) {
    exists x, y :: x in rows && y in rows && x.time == y.time && Canonical(x, timeframe) != Canonical(y, timeframe)
  }

  ghost predicate Normal(rows: seq<Row>, timeframe: string, cs: seq<Bar>) {
    |cs| == |rows| && forall i :: 0 <= i < |rows| ==> Canonical(rows[i], timeframe) == Ok(cs[i])
  }

  lemma ConflictContradicts(rows: seq<Row>, timeframe: string, cs: seq<Bar>)
    requires Normal(rows, timeframe, cs) && Conflict(cs)
    ensures Contradict(rows, timeframe)
  {
    var i, j :| 0 <= i < |cs| && 0 <= j < |cs| && cs[i].timestamp == cs[j].timestamp && cs[i] != cs[j];
    TimeOfCanonical(rows[i], timeframe);
    TimeOfCanonical(rows[j], timeframe);
    assert rows[i] in rows && rows[j] in rows;
  }

  lemma ContradictionConflicts(rows: seq<Row>, timeframe: string, cs: seq<Bar>)
    requires Normal(rows, timeframe, cs) && Contradict(rows, timeframe)
    ensures Conflict(cs)
  {
    var x, y :| x in rows && y in rows && x.time == y.time && Canonical(x, timeframe) != Canonical(y, timeframe);
    var i :| 0 <= i < |rows| && rows[i] == x;
    var j :| 0 <= j < |rows| && rows[j] == y;
    TimeOfCanonical(x, timeframe);
    TimeOfCanonical(y, timeframe);
  }

  lemma TimeOfCanonical(row: Row, timeframe: string)
    requires Canonical(row, timeframe).Ok?
    ensures row.time == Some(Canonical(row, timeframe).value.timestamp)
  {
  }

  lemma ConflictIsBetweenRows(rows: seq<Row>, timeframe: string)
    requires AllCanonical(rows, timeframe)
    ensures Normalized(rows, timeframe).Ok? &&
        (Conflict(Normalized(rows, timeframe).value) <==> Contradict(rows, timeframe))
  {
    NormalizedInOrder(rows, timeframe);
    var cs := Normalized(rows, timeframe).value;
    if Conflict(cs) { ConflictContradicts(rows, timeframe, cs); }
    if Contradict(rows, timeframe) { ContradictionConflicts(rows, timeframe, cs); }
  }

  lemma NormalizedElements(rows: seq<Row>, timeframe: string, c: Bar)
    requires AllCanonical(rows, timeframe)
    ensures Normalized(rows, timeframe).Ok?
    ensures c in Normalized(rows, timeframe).value <==> exists row :: row in rows && Canonical(row, timeframe) == Ok(c)
  {
    NormalizedInOrder(rows, timeframe);
    var cs := Normalized(rows, timeframe).value;
    if c in cs {
      var i :| 0 <= i < |cs| && cs[i] == c;
      assert rows[i] in rows;
    }
    if row :| row in rows && Canonical(row, timeframe) == Ok(c) {
      var i :| 0 <= i < |rows| && rows[i] == row;
    }
  }

  /** The manifest depends on the set of rows alone: any reordering and any repetition of rows leaves the candles as
      they are. It is refused exactly when a row is malformed or two rows of the same time differ. */
  lemma ManifestIsCanonical(rows: seq<Row>, others: seq<Row>, timeframe: string,
                            r: Result<seq<Bar>, Error>, q: Result<seq<Bar>, Error>)
    requires forall row :: row in rows <==> row in others
    requires IsManifest(rows, timeframe, r) && IsManifest(others, timeframe, q)
    ensures r.Err? <==> !AllCanonical(rows, timeframe) || Contradict(rows, timeframe)
    ensures r.Ok? ==> q == r
    ensures r.Err? ==> q.Err?
  {
    NormalizedInOrder(rows, timeframe);
    NormalizedInOrder(others, timeframe);
    if AllCanonical(rows, timeframe) {
      ConflictIsBetweenRows(rows, timeframe);
      ConflictIsBetweenRows(others, timeframe);
      if r.Ok? {
        assert q.Ok?;
        forall c ensures c in r.value <==> c in q.value {
          NormalizedElements(rows, timeframe, c);
          NormalizedElements(others, timeframe, c);
        }
        IncreasingIsUnique(TimeOf(), r.value, q.value);
      }
    }
  }

  /** Candles of weeks that open on Monday are never canonical: the grid of 1w starts on the epoch's Thursday. */
  lemma MondayWeeksAreRefused(rows: seq<Row>, r: Result<seq<Bar>, Error>)
    requires rows != [] && IsManifest(rows, "1w", r)
    requires forall row :: row in rows && row.time.Some? ==> (row.time.value - 4 * MS_PER_DAY) % 604_800_000 == 0
    ensures r.Err?
  {
    NormalizedInOrder(rows, "1w");
    assert rows[0] in rows;
    assert Canonical(rows[0], "1w").Err?;
  }

  function AsRow(c: Bar): Row {
    Row(Some(c.timestamp), Some(c.open), Some(c.high), Some(c.low), Some(c.close), Some(c.volume))
  }

  function AsRows(cs: seq<Bar>): seq<Row> { seq(|cs|, i requires 0 <= i < |cs| => AsRow(cs[i])) }

  /** The manifest of a manifest's own candles is the same manifest. */
  lemma ManifestOfManifest(rows: seq<Row>, timeframe: string, r: Result<seq<Bar>, Error>)
    requires IsManifest(rows, timeframe, r) && r.Ok?
    ensures IsManifest(AsRows(r.value), timeframe, r)
  {
    var cs, again := r.value, AsRows(r.value);
    NormalizedInOrder(rows, timeframe);
    forall i | 0 <= i < |cs| ensures Canonical(again[i], timeframe) == Ok(cs[i]) {
      assert cs[i] in cs;
      NormalizedElements(rows, timeframe, cs[i]);
    }
    NormalizedInOrder(again, timeframe);
    assert Normalized(again, timeframe).Ok? by {
      forall row | row in again ensures Canonical(row, timeframe).Ok? {
        var i :| 0 <= i < |again| && again[i] == row;
      }
    }
    assert Normalized(again, timeframe).value == cs;
    NoConflict(cs, cs);
  }

  // ---- slicing

  datatype Slice = Slice(warmup: seq<Row>, evaluation: seq<Row>, duplicates: int)

  /** How many of the first n grid points from start have no candle. */
  function Absent(times: set<int>, start: int, interval: int, n: nat): nat {
    if n == 0 then 0 else
      Absent(times, start, interval, n - 1) + if start + (n - 1) * interval in times then 0 else 1
  }

  function Times(rows: seq<Row>): set<int> { set row | row in rows && row.time.Some? :: row.time.value }

  predicate InWindow(row: Row, from: int, to: int) { row.time.Some? && from <= row.time.value < to }

  /** The rows inside the window, in the order given. */
  function Within(rows: seq<Row>, from: int, to: int): seq<Row> {
    if rows == [] then [] else
      var n := |rows| - 1;
      Within(rows[..n], from, to) + if InWindow(rows[n], from, to) then [rows[n]] else []
  }

  function WarmupStart(start: int, interval: int, warmup: int): int {
    start - interval * if warmup > 0 then warmup else 0
  }

  ghost predicate Covers(rows: seq<Row>, evaluation: seq<Row>, start: int, interval: int) {
    forall i :: 0 <= i < |evaluation| ==> evaluation[i] in rows && evaluation[i].time == Some(start + i * interval)
  }

  ghost predicate IsSliceOf(rows: seq<Row>, cs: seq<Bar>, interval: int, start: int, end: int, warmup: int,
                            r: Result<Slice, Error>)
    requires interval > 0 && start < end
  {
    if Conflict(cs) then r == Err(Conflicting) else
      var n := (end - start) / interval;
      var absent := Absent(Times(rows), start, interval, n);
      if absent > 0 then r == Err(Missing(absent))
      else r.Ok? && |r.value.evaluation| == n && Covers(rows, r.value.evaluation, start, interval)
           && r.value.warmup == Within(rows, WarmupStart(start, interval, warmup), start)
           && r.value.duplicates == |rows| - |Times(rows)|
  }

  /** A positive number of whole intervals. */
  predicate WholePeriod(start: int, end: int, interval: int)
    requires interval > 0
  {
    start < end && (end - start) % interval == 0
  }

  /** The slice of [start, end) for the given interval and canonical candles, or why there is none. */
  ghost predicate IsSliceAt(rows: seq<Row>, interval: Option<int>, cs: Result<seq<Bar>, Error>, start: int, end: int,
                            warmup: int, r: Result<Slice, Error>)
    requires interval.Some? ==> interval.value > 0
  {
    if interval.None? then r == Err(Unsupported)
    else if !WholePeriod(start, end, interval.value) then r == Err(BadPeriod)
    else if cs.Err? then r == Err(cs.error)
    else IsSliceOf(rows, cs.value, interval.value, start, end, warmup, r)
  }

  /** The slice of [start, end) with its warm-up, or why there is none. */
  ghost predicate IsSlice(rows: seq<Row>, timeframe: string, start: int, end: int, warmup: int, r: Result<Slice,
                          Error>) {
    IsSliceAt(rows, TimeframeMs(timeframe), Normalized(rows, timeframe), start, end, warmup, r)
  }

  /** What has been indexed from the first rows: their candles by time, and for each time one of the rows. */
  ghost predicate Indexed(rows: seq<Row>, cs: seq<Bar>, byTime: map<int, Bar>, raw: map<int, Row>) {
    && byTime.Keys == raw.Keys == Times(rows) && |cs| == |rows|
    && (forall i :: 0 <= i < |rows| ==> cs[i].timestamp in byTime && byTime[cs[i].timestamp] == cs[i])
    && (forall t :: t in raw ==>
          byTime[t] in cs && raw[t] in rows && raw[t] == AsRow(byTime[t]) && byTime[t].timestamp == t)
  }

  lemma TimesSnoc(rows: seq<Row>, row: Row)
    ensures Times(rows + [row]) == Times(rows) + if row.time.Some? then {row.time.value} else {}
  {
    var all := rows + [row];
    if row.time.Some? { assert row in all; }
    forall t | t in Times(rows) ensures t in Times(all) {
      var x :| x in rows && x.time == Some(t);
      assert x in all;
    }
  }

  lemma IndexedNext(rows: seq<Row>, cs: seq<Bar>, byTime: map<int, Bar>, raw: map<int, Row>, c: Bar)
    requires Indexed(rows, cs, byTime, raw) && (c.timestamp in byTime ==> byTime[c.timestamp] == c)
    ensures Indexed(rows + [AsRow(c)], cs + [c], byTime[c.timestamp := c],
                    if c.timestamp in raw then raw else raw[c.timestamp := AsRow(c)])
  {
    TimesSnoc(rows, AsRow(c));
  }

  method IndexRows(rows: seq<Row>, cs: seq<Bar>) returns (byTime: map<int, Bar>, raw: map<int, Row>, conflict: bool)
    requires |cs| == |rows| && forall i :: 0 <= i < |rows| ==> rows[i] == AsRow(cs[i])
    ensures conflict <==> Conflict(cs)
    ensures !conflict ==> Indexed(rows, cs, byTime, raw)
  {
    byTime, raw := map[], map[];
    for i := 0 to |rows|
      invariant Indexed(rows[..i], cs[..i], byTime, raw)
    {
      var t := cs[i].timestamp;
      assert rows[..i + 1] == rows[..i] + [rows[i]] && cs[..i + 1] == cs[..i] + [cs[i]];
      if t in byTime && byTime[t] != cs[i] {
        assert byTime[t] in cs[..i];
        Conflicts(cs, byTime[t], cs[i]);
        return byTime, raw, true;
      }
      IndexedNext(rows[..i], cs[..i], byTime, raw, cs[i]);
      byTime := byTime[t := cs[i]];
      if t !in raw { raw := raw[t := rows[i]]; }
    }
    assert rows[..|rows|] == rows && cs[..|rows|] == cs;
    IndexedNoConflict(rows, cs, byTime, raw);
    return byTime, raw, false;
  }

  lemma IndexedNoConflict(rows: seq<Row>, cs: seq<Bar>, byTime: map<int, Bar>, raw: map<int, Row>)
    requires Indexed(rows, cs, byTime, raw)
    ensures !Conflict(cs)
  {
  }

  ghost predicate OnGrid(raw: map<int, Row>, evaluation: seq<Row>, start: int, interval: int) {
    forall i :: 0 <= i < |evaluation| ==> start + i * interval in raw && evaluation[i] == raw[start + i * interval]
  }

  lemma GridRowsCover(rows: seq<Row>, cs: seq<Bar>, byTime: map<int, Bar>, raw: map<int, Row>, evaluation: seq<Row>,
                      start: int, interval: int)
    requires Indexed(rows, cs, byTime, raw) && OnGrid(raw, evaluation, start, interval)
    ensures Covers(rows, evaluation, start, interval)
  {
    forall i | 0 <= i < |evaluation|
      ensures evaluation[i] in rows && evaluation[i].time == Some(start + i * interval)
    {
      assert start + i * interval in raw;
    }
  }

  lemma IndexedRowsAgree(rows: seq<Row>, cs: seq<Bar>, byTime: map<int, Bar>, raw: map<int, Row>)
    requires Indexed(rows, cs, byTime, raw) && forall i :: 0 <= i < |rows| ==> rows[i] == AsRow(cs[i])
    ensures RowsIn(rows, cs, raw)
  {
  }

  ghost predicate RowsIn(rows: seq<Row>, cs: seq<Bar>, raw: map<int, Row>) {
    |cs| == |rows| && forall i :: 0 <= i < |rows| ==>
      rows[i].time == Some(cs[i].timestamp) && cs[i].timestamp in raw && raw[cs[i].timestamp] == rows[i]
  }

  /** Walk the grid from start to end, collecting the candles and counting the gaps. */
  method Evaluate(raw: map<int, Row>, start: int, end: int, interval: int) returns (evaluation: seq<Row>, absent: nat)
    requires interval > 0 && start < end && (end - start) % interval == 0
    ensures absent == Absent(raw.Keys, start, interval, (end - start) / interval)
    ensures absent == 0 ==> |evaluation| == (end - start) / interval && OnGrid(raw, evaluation, start, interval)
  {
    evaluation, absent := [], 0;
    var cursor := start;
    ghost var n, i := (end - start) / interval, 0;
    assert start + n * interval == end;
    while cursor < end
      invariant 0 <= i <= n && cursor == start + i * interval
      invariant absent == Absent(raw.Keys, start, interval, i)
      invariant absent == 0 ==> |evaluation| == i && OnGrid(raw, evaluation, start, interval)
      decreases n - i
    {
      GridBefore(i, n, interval, start);
      if cursor !in raw {
        absent := absent + 1;
      } else {
        evaluation := evaluation + [raw[cursor]];
      }
      cursor, i := cursor + interval, i + 1;
      GridNext(i - 1, interval, start);
    }
    GridBefore(n, i, interval, start);
  }

  lemma GridNext(i: int, interval: int, start: int)
    ensures start + (i + 1) * interval == start + i * interval + interval
  {
  }

  lemma GridBefore(i: int, n: int, interval: int, start: int)
    requires interval > 0
    ensures start + i * interval < start + n * interval <==> i < n
  {
    if i < n { assert (n - i) * interval > 0; }
    if n <= i { assert (i - n) * interval >= 0; }
  }

  method WarmupRows(rows: seq<Row>, cs: seq<Bar>, raw: map<int, Row>, from: int, to: int) returns (out: seq<Row>)
    requires RowsIn(rows, cs, raw)
    ensures out == Within(rows, from, to)
  {
    out := [];
    for i := 0 to |rows|
      invariant out == Within(rows[..i], from, to)
    {
      assert rows[..i + 1][..i] == rows[..i];
      if from <= cs[i].timestamp < to { out := out + [raw[cs[i].timestamp]]; }
    }
    assert rows[..|rows|] == rows;
  }

  lemma CanonicalIsRow(rows: seq<Row>, timeframe: string)
    requires Normalized(rows, timeframe).Ok?
    ensures var cs := Normalized(rows, timeframe).value;
            |cs| == |rows| && forall i :: 0 <= i < |rows| ==> rows[i] == AsRow(cs[i])
  {
    NormalizedInOrder(rows, timeframe);
  }

  method SliceCandles(rows: seq<Row>, timeframe: string, start: int, end: int, warmup: int)
      returns (r: Result<Slice, Error>)
    ensures IsSlice(rows, timeframe, start, end, warmup, r)
  {
    var ms := TimeframeMs(timeframe);
    if ms.None? { return Err(Unsupported); }
    var interval := ms.value;
    if end <= start || (end - start) % interval != 0 { return Err(BadPeriod); }
    var cs := Normalize(rows, timeframe);
    if cs.Err? { return Err(cs.error); }
    CanonicalIsRow(rows, timeframe);
    r := SliceRows(rows, cs.value, interval, start, end, warmup);
  }

  method SliceRows(rows: seq<Row>, cs: seq<Bar>, interval: int, start: int, end: int, warmup: int)
      returns (r: Result<Slice, Error>)
    requires |cs| == |rows| && forall i :: 0 <= i < |rows| ==> rows[i] == AsRow(cs[i])
    requires interval > 0 && start < end && (end - start) % interval == 0
    ensures IsSliceOf(rows, cs, interval, start, end, warmup, r)
  {
    var byTime, raw, conflict := IndexRows(rows, cs);
    if conflict { return Err(Conflicting); }
    var evaluation, absent := Evaluate(raw, start, end, interval);
    if absent > 0 { return Err(Missing(absent)); }
    GridRowsCover(rows, cs, byTime, raw, evaluation, start, interval);
    IndexedRowsAgree(rows, cs, byTime, raw);
    var warmupRows := WarmupRows(rows, cs, raw, WarmupStart(start, interval, warmup), start);
    assert |byTime| == |byTime.Keys|;
    return Ok(Slice(warmupRows, evaluation, |rows| - |byTime|));
  }

  lemma {:induction false} WithinIsInside(rows: seq<Row>, from: int, to: int)
    ensures forall row :: row in Within(rows, from, to) <==> row in rows && InWindow(row, from, to)
  {
    if rows != [] {
      var n := |rows| - 1;
      WithinIsInside(rows[..n], from, to);
      assert rows == rows[..n] + [rows[n]];
    }
  }

  lemma StartsAligned(row: Row, timeframe: string, start: int)
    requires Canonical(row, timeframe).Ok? && row.time == Some(start)
    ensures start % TimeframeMs(timeframe).value == 0
  {
  }

  /** A slice that succeeds starts on the grid, although that is never checked, and none of its warm-up reaches into
      it. */
  lemma SliceIsAligned(rows: seq<Row>, timeframe: string, start: int, end: int, warmup: int, r: Result<Slice, Error>)
    requires IsSlice(rows, timeframe, start, end, warmup, r) && r.Ok?
    ensures var interval := TimeframeMs(timeframe).value;
            && start % interval == 0 && |r.value.evaluation| * interval == end - start
            && (forall row :: row in r.value.warmup <==>
                  row in rows && InWindow(row, WarmupStart(start, interval, warmup), start))
            && (forall row :: row in r.value.warmup ==> row !in r.value.evaluation)
  {
    var interval, first := TimeframeMs(timeframe).value, r.value.evaluation[0];
    NormalizedInOrder(rows, timeframe);
    assert first in rows && first.time == Some(start + 0 * interval);
    StartsAligned(first, timeframe, start);
    WithinIsInside(rows, WarmupStart(start, interval, warmup), start);
    EvaluationIsNotBefore(rows, r.value.evaluation, start, interval);
  }

  lemma EvaluationIsNotBefore(rows: seq<Row>, evaluation: seq<Row>, start: int, interval: int)
    requires interval > 0 && Covers(rows, evaluation, start, interval)
    ensures forall row :: row in evaluation ==> row.time.Some? && row.time.value >= start
  {
    forall row | row in evaluation ensures row.time.Some? && row.time.value >= start {
      var i :| 0 <= i < |evaluation| && evaluation[i] == row;
      GridBefore(i, 0, interval, start);
    }
  }
}
