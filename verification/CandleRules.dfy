/** One notion of a candle (automation-hub/data/historical.py, automation-hub/data/forward_market_data.py,
    automation-hub/data/integrity.py): what the cache, the manifest, the forward filter and the integrity check each
    take for one, stated once and independently of how each of them decides. */
module CandleRules {
  import opened Types
  import opened Folds
  import C = Candles
  import H = History
  import F = ClosedBars
  import I = Integrity

  const MINUTE := 60_000

  /** Open and close lie between low and high. */
  predicate Shaped(b: Bar) { b.low <= b.open <= b.high && b.low <= b.close <= b.high }

  /** The timeframe and its length in minutes. */
  predicate Lasts(timeframe: string, minutes: int) {
    || (timeframe == "5m" && minutes == 5) || (timeframe == "15m" && minutes == 15)
    || (timeframe == "30m" && minutes == 30)
    || (timeframe == "1h" && minutes == 60) || (timeframe == "4h" && minutes == 240)
    || (timeframe == "1d" && minutes == 1440) || (timeframe == "1w" && minutes == 10080)
  }

  ghost predicate OnGrid(time: int, timeframe: string) {
    exists minutes :: Lasts(timeframe, minutes) && time % (minutes * MINUTE) == 0
  }

  function RowOf(b: Bar): C.Row {
    C.Row(Some(b.timestamp), Some(b.open), Some(b.high), Some(b.low), Some(b.close), Some(b.volume))
  }

  function KlineOf(b: Bar, closeTime: Option<int>): H.Kline {
    H.Kline(b.timestamp, Some(b.open), Some(b.high), Some(b.low), Some(b.close), Some(b.volume), closeTime)
  }

  function QuoteOf(b: Bar): F.Quote {
    F.Quote(Some(b.timestamp), Some(b.open), Some(b.high), Some(b.low), Some(b.close), Some(b.volume))
  }

  lemma LastsIsLength(timeframe: string, minutes: int)
    ensures C.TimeframeMs(timeframe) == Some(minutes * MINUTE) <==> Lasts(timeframe, minutes)
  {
  }

  lemma GridIsAligned(timeframe: string, time: int)
    ensures OnGrid(time, timeframe) <==>
              C.TimeframeMs(timeframe).Some? && time % C.TimeframeMs(timeframe).value == 0
  {
    if C.TimeframeMs(timeframe).Some? {
      var minutes := C.TimeframeMs(timeframe).value / MINUTE;
      assert C.TimeframeMs(timeframe) == Some(minutes * MINUTE);
      LastsIsLength(timeframe, minutes);
    }
    if minutes :| Lasts(timeframe, minutes) && time % (minutes * MINUTE) == 0 { LastsIsLength(timeframe, minutes); }
  }

  /** A manifest row: the candle's own values, shaped, and on the timeframe's grid. */
  lemma CanonicalExactly(row: C.Row, timeframe: string, b: Bar)
    ensures C.Canonical(row, timeframe) == Ok(b) <==> row == RowOf(b) && Shaped(b) && OnGrid(b.timestamp, timeframe)
  {
    GridIsAligned(timeframe, b.timestamp);
  }

  /** A cached row: the candle's own values, shaped. */
  lemma CachedExactly(k: H.Kline, b: Bar)
    requires k.openTime == b.timestamp
    ensures (H.CandleOf(k).Some? && H.BarAt(k.openTime, H.CandleOf(k).value) == b) <==>
              k == KlineOf(b, k.closeTime) && Shaped(b)
  {
  }

  /** A candle to trade on: over, and also of positive prices and no negative volume. */
  lemma ForwardExactly(q: F.Quote, length: int, now: int, b: Bar)
    ensures F.Valid(q, length, now) == Some(b) <==>
              q == QuoteOf(b) && Shaped(b) && b.low > 0.0 && b.volume >= 0.0 && b.timestamp + length <= now
  {
  }

  /** Given the same values they agree: what passes the integrity check is what the cache takes at positive prices; of
      that the manifest takes what is on the grid and the forward filter what is over and has no negative volume. */
  lemma OneNotionOfACandle(b: Bar, timeframe: string, closeTime: Option<int>, length: int, now: int)
    ensures I.Broken(b) <==> !(H.CandleOf(KlineOf(b, closeTime)).Some? && b.low > 0.0)
    ensures C.Canonical(RowOf(b), timeframe).Ok? <==>
              H.CandleOf(KlineOf(b, closeTime)).Some? && OnGrid(b.timestamp, timeframe)
    ensures F.Valid(QuoteOf(b), length, now).Some? <==>
              !I.Broken(b) && b.volume >= 0.0 && b.timestamp + length <= now
  {
    GridIsAligned(timeframe, b.timestamp);
  }

  /** A batch in time order, written to an empty cache, is read back value by value. */
  lemma ReadIsGiven(symbol: Symbol, timeframe: string, rows: seq<H.Kline>, all: seq<Bar>)
    requires H.AllGood(rows) && H.StrictlyLater(rows)
    requires H.IsQuery(H.Put(map[], symbol, timeframe, rows), symbol, timeframe, None, None, all)
    ensures |all| == |rows|
    ensures forall i :: 0 <= i < |rows| ==> rows[i] == KlineOf(all[i], rows[i].closeTime) && Shaped(all[i])
  {
    H.WrittenIsRead(symbol, timeframe, rows, all);
    forall i | 0 <= i < |rows| ensures rows[i] == KlineOf(all[i], rows[i].closeTime) && Shaped(all[i]) {
      assert rows[i] in rows && all[i] == H.BarOf(rows[i]);
      CachedExactly(rows[i], all[i]);
    }
  }

  /** The candle is cached for its time. */
  predicate CachedAs(m: H.Store, symbol: Symbol, timeframe: string, b: Bar) {
    var key := H.Key(symbol, timeframe, b.timestamp);
    key in m && m[key] == H.Candle(b.open, b.high, b.low, b.close, b.volume)
  }

  predicate InRange(t: int, from: Option<int>, to: Option<int>) {
    (from.Some? ==> t >= from.value) && (to.Some? ==> t <= to.value)
  }

  /** How many of all the candles are returned: the last n of them, but without n or for zero all, and for a negative
      n all but the first -n. */
  predicate IsCount(count: int, all: nat, n: Option<int>) {
    match n
    case None => count == all
    case Some(k) =>
      if k == 0 then count == all
      else if k > 0 then count <= k && count <= all && (count == k || count == all)
      else count >= 0 && count >= all + k && (count == 0 || count == all + k)
  }

  /** A query returns, in strictly increasing time, the latest of the candles cached in its range, both ends included.
      */
  lemma QueryExactly(m: H.Store, symbol: Symbol, timeframe: string, n: Option<int>, from: Option<int>, to: Option<int>,
                     all: seq<Bar>, bars: seq<Bar>)
    requires H.IsQuery(m, symbol, timeframe, from, to, all) && bars == H.Tail(all, n)
    ensures IncreasingBy(TimeOf(), all) && IsCount(|bars|, |all|, n) && bars == all[|all| - |bars|..]
    ensures forall b :: b in all <==> CachedAs(m, symbol, timeframe, b) && InRange(b.timestamp, from, to)
  {
    forall b | CachedAs(m, symbol, timeframe, b) && InRange(b.timestamp, from, to) ensures b in all {
      var key := H.Key(symbol, timeframe, b.timestamp);
      assert H.Selected(key, symbol, timeframe, from, to) && H.BarAt(key.openTime, m[key]) == b;
    }
  }

  // ---- the manifest

  /** Each row is a shaped candle on the grid, and no two rows of one time differ. */
  ghost predicate Consistent(rows: seq<C.Row>, timeframe: string) {
    && (forall row :: row in rows ==> exists b :: row == RowOf(b) && Shaped(b) && OnGrid(b.timestamp, timeframe))
    && forall x, y :: x in rows && y in rows && x.time == y.time ==> x == y
  }

  lemma RowsAreCanonical(rows: seq<C.Row>, timeframe: string)
    ensures C.AllCanonical(rows, timeframe) <==>
              forall row :: row in rows ==> exists b :: row == RowOf(b) && Shaped(b) && OnGrid(b.timestamp, timeframe)
  {
    forall row | row in rows
      ensures C.Canonical(row, timeframe).Ok? <==>
                exists b :: row == RowOf(b) && Shaped(b) && OnGrid(b.timestamp, timeframe)
    {
      RowIsCanonical(row, timeframe);
    }
  }

  lemma RowIsCanonical(row: C.Row, timeframe: string)
    ensures C.Canonical(row, timeframe).Ok? <==>
              exists b :: row == RowOf(b) && Shaped(b) && OnGrid(b.timestamp, timeframe)
  {
    if C.Canonical(row, timeframe).Ok? { CanonicalExactly(row, timeframe, C.Canonical(row, timeframe).value); }
    if b :| row == RowOf(b) && Shaped(b) && OnGrid(b.timestamp, timeframe) { CanonicalExactly(row, timeframe, b); }
  }

  lemma DifferentRows(x: C.Row, y: C.Row, timeframe: string)
    requires C.Canonical(x, timeframe).Ok? && C.Canonical(y, timeframe).Ok?
    ensures C.Canonical(x, timeframe) == C.Canonical(y, timeframe) <==> x == y
  {
    CanonicalExactly(x, timeframe, C.Canonical(x, timeframe).value);
    CanonicalExactly(y, timeframe, C.Canonical(y, timeframe).value);
  }

  lemma ConsistentExactly(rows: seq<C.Row>, timeframe: string)
    ensures Consistent(rows, timeframe) <==> C.AllCanonical(rows, timeframe) && !C.Contradict(rows, timeframe)
  {
    RowsAreCanonical(rows, timeframe);
    if C.AllCanonical(rows, timeframe) {
      forall x, y | x in rows && y in rows
        ensures C.Canonical(x, timeframe) == C.Canonical(y, timeframe) <==> x == y
      {
        DifferentRows(x, y, timeframe);
      }
    }
  }

  /** There is a manifest if and only if the rows are consistent; it lists in strictly increasing time exactly the
      candles that the rows spell out. */
  lemma ManifestExactly(rows: seq<C.Row>, timeframe: string, r: Result<seq<Bar>, C.Error>)
    requires C.IsManifest(rows, timeframe, r)
    ensures r.Ok? <==> Consistent(rows, timeframe)
    ensures r.Ok? ==> IncreasingBy(TimeOf(), r.value) && forall b :: b in r.value <==> RowOf(b) in rows
  {
    ConsistentExactly(rows, timeframe);
    C.ManifestIsCanonical(rows, rows, timeframe, r, r);
    if r.Ok? {
      C.NormalizedInOrder(rows, timeframe);
      forall b ensures b in r.value <==> RowOf(b) in rows { ManifestLists(rows, timeframe, b); }
    }
  }

  lemma ManifestLists(rows: seq<C.Row>, timeframe: string, b: Bar)
    requires C.AllCanonical(rows, timeframe)
    ensures C.Normalized(rows, timeframe).Ok? && (b in C.Normalized(rows, timeframe).value <==> RowOf(b) in rows)
  {
    C.NormalizedElements(rows, timeframe, b);
    if row :| row in rows && C.Canonical(row, timeframe) == Ok(b) { CanonicalExactly(row, timeframe, b); }
    if RowOf(b) in rows {
      var c := C.Canonical(RowOf(b), timeframe).value;
      CanonicalExactly(RowOf(b), timeframe, c);
    }
  }

  // ---- the slice

  /** The picked elements are those at the listed places, which increase. */
  ghost predicate PickedAt<T>(all: seq<T>, picked: seq<T>, at: seq<int>) {
    && |picked| == |at| && Increasing(at)
    && forall k :: 0 <= k < |at| ==> 0 <= at[k] < |all| && picked[k] == all[at[k]]
  }

  predicate OpensIn(row: C.Row, from: int, to: int) { row.time.Some? && from <= row.time.value && row.time.value < to }

  /** The places of the rows that open in [from, to), and no others. */
  ghost predicate ArePlaces(rows: seq<C.Row>, from: int, to: int, at: seq<int>) {
    forall i :: 0 <= i < |rows| ==> (OpensIn(rows[i], from, to) <==> i in at)
  }

  /** All rows that open in [from, to), and no others, in the order given. */
  ghost predicate IsWindow(rows: seq<C.Row>, from: int, to: int, out: seq<C.Row>) {
    exists at :: PickedAt(rows, out, at) && ArePlaces(rows, from, to, at)
  }

  lemma PlacesNext(rows: seq<C.Row>, from: int, to: int, out: seq<C.Row>, at: seq<int>, row: C.Row)
    requires PickedAt(rows, out, at) && ArePlaces(rows, from, to, at)
    ensures OpensIn(row, from, to) ==>
              PickedAt(rows + [row], out + [row], at + [|rows|]) && ArePlaces(rows + [row], from, to, at + [|rows|])
    ensures !OpensIn(row, from, to) ==> PickedAt(rows + [row], out, at) && ArePlaces(rows + [row], from, to, at)
  {
    var all, n := rows + [row], |rows|;
    forall i | i in at ensures i < n {}
    if OpensIn(row, from, to) {
      forall i | 0 <= i < |all| ensures OpensIn(all[i], from, to) <==> i in at + [n] {}
    } else {
      forall i | 0 <= i < |all| ensures OpensIn(all[i], from, to) <==> i in at {}
    }
  }

  lemma WithinSnoc(rows: seq<C.Row>, from: int, to: int, row: C.Row)
    ensures C.Within(rows + [row], from, to) ==
              if OpensIn(row, from, to) then C.Within(rows, from, to) + [row] else C.Within(rows, from, to)
  {
    assert (rows + [row])[..|rows|] == rows;
  }

  /** The window and its places. */
  lemma {:induction false} WithinHasPlaces(rows: seq<C.Row>, from: int, to: int) returns (at: seq<int>)
    ensures PickedAt(rows, C.Within(rows, from, to), at) && ArePlaces(rows, from, to, at)
  {
    if rows == [] {
      at := [];
    } else {
      var before, row := rows[..|rows| - 1], rows[|rows| - 1];
      at := WithinHasPlaces(before, from, to);
      PlacesNext(before, from, to, C.Within(before, from, to), at, row);
      WithinSnoc(before, from, to, row);
      assert rows == before + [row];
      if OpensIn(row, from, to) { at := at + [|before|]; }
    }
  }

  lemma WithinIsWindow(rows: seq<C.Row>, from: int, to: int)
    ensures IsWindow(rows, from, to, C.Within(rows, from, to))
  {
    var at := WithinHasPlaces(rows, from, to);
  }

  /** The places whose row has the time of an earlier one. */
  function RepeatPlaces(rows: seq<C.Row>): set<int> {
    set i | 0 <= i < |rows| && exists j :: 0 <= j < i && rows[j].time == rows[i].time
  }

  lemma {:induction false} RepeatsCounted(rows: seq<C.Row>)
    requires forall row :: row in rows ==> row.time.Some?
    ensures |rows| - |C.Times(rows)| == |RepeatPlaces(rows)|
  {
    if rows == [] {
      assert C.Times(rows) == {} && RepeatPlaces(rows) == {};
    } else {
      var n := |rows| - 1;
      assert rows == rows[..n] + [rows[n]] && rows[n] in rows;
      RepeatsCounted(rows[..n]);
      C.TimesSnoc(rows[..n], rows[n]);
      RepeatsSnoc(rows, n);
    }
  }

  lemma RepeatsSnoc(rows: seq<C.Row>, n: nat)
    requires |rows| == n + 1 && rows[n].time.Some?
    ensures RepeatPlaces(rows) ==
              RepeatPlaces(rows[..n]) + if rows[n].time.value in C.Times(rows[..n]) then {n} else {}
  {
    var before, t := rows[..n], rows[n].time.value;
    if t in C.Times(before) {
      var row :| row in before && row.time == Some(t);
      var j :| 0 <= j < n && before[j] == row;
      assert rows[j].time == rows[n].time;
    }
    if n in RepeatPlaces(rows) {
      var j :| 0 <= j < n && rows[j].time == rows[n].time;
      assert before[j] in before;
    }
    forall i | 0 <= i < n ensures i in RepeatPlaces(rows) <==> i in RepeatPlaces(before) {
      if i in RepeatPlaces(rows) {
        var j :| 0 <= j < i && rows[j].time == rows[i].time;
        assert before[j].time == before[i].time;
      }
      if i in RepeatPlaces(before) {
        var j :| 0 <= j < i && before[j].time == before[i].time;
        assert rows[j].time == rows[i].time;
      }
    }
  }

  predicate HasRowAt(rows: seq<C.Row>, time: int) { exists row :: row in rows && row.time == Some(time) }

  /** The numbers of the grid points from start without a row. */
  function Holes(rows: seq<C.Row>, start: int, interval: int, n: nat): set<int> {
    set i | 0 <= i < n && !HasRowAt(rows, start + i * interval)
  }

  lemma {:induction false} AbsentAreHoles(rows: seq<C.Row>, start: int, interval: int, n: nat)
    ensures C.Absent(C.Times(rows), start, interval, n) == |Holes(rows, start, interval, n)|
  {
    if n == 0 {
      assert Holes(rows, start, interval, 0) == {};
    } else {
      AbsentAreHoles(rows, start, interval, n - 1);
      HolesNext(rows, start, interval, n - 1, start + (n - 1) * interval);
    }
  }

  lemma HolesNext(rows: seq<C.Row>, start: int, interval: int, n: nat, t: int)
    requires t == start + n * interval
    ensures Holes(rows, start, interval, n + 1) ==
              Holes(rows, start, interval, n) + if t in C.Times(rows) then {} else {n}
  {
    assert t in C.Times(rows) <==> HasRowAt(rows, t);
    var before, now := Holes(rows, start, interval, n), Holes(rows, start, interval, n + 1);
    forall i ensures i in now <==> i in before || (t !in C.Times(rows) && i == n) {}
  }

  /** The evaluation's i-th row is one of the given rows and opens on the i-th grid point from the start. */
  ghost predicate FillsPeriod(rows: seq<C.Row>, evaluation: seq<C.Row>, start: int, end: int, interval: int) {
    && |evaluation| * interval == end - start
    && forall i :: 0 <= i < |evaluation| ==> evaluation[i] in rows && evaluation[i].time == Some(start + i * interval)
  }

  /** A period of whole intervals in a known timeframe. */
  predicate AsksFor(timeframe: string, minutes: int, start: int, end: int) {
    Lasts(timeframe, minutes) && start < end && minutes > 0 && (end - start) % (minutes * MINUTE) == 0
  }

  lemma TimesAreGiven(rows: seq<C.Row>, timeframe: string)
    requires C.AllCanonical(rows, timeframe)
    ensures forall row :: row in rows ==> row.time.Some?
  {
    forall row | row in rows ensures row.time.Some? { C.TimeOfCanonical(row, timeframe); }
  }

  /** What the slicer has to work with. */
  lemma SliceTakes(rows: seq<C.Row>, timeframe: string, minutes: int, start: int, end: int, warmup: int,
                   r: Result<C.Slice, C.Error>)
    requires C.IsSlice(rows, timeframe, start, end, warmup, r)
    requires AsksFor(timeframe, minutes, start, end) && Consistent(rows, timeframe)
    ensures C.Normalized(rows, timeframe).Ok? && !C.Conflict(C.Normalized(rows, timeframe).value)
    ensures forall row :: row in rows ==> row.time.Some?
    ensures C.IsSliceOf(rows, C.Normalized(rows, timeframe).value, minutes * MINUTE, start, end, warmup, r)
  {
    LastsIsLength(timeframe, minutes);
    ConsistentExactly(rows, timeframe);
    C.NormalizedInOrder(rows, timeframe);
    C.ConflictIsBetweenRows(rows, timeframe);
    TimesAreGiven(rows, timeframe);
  }

  lemma WholeIntervals(x: int, interval: int)
    requires interval > 0 && x % interval == 0
    ensures x == x / interval * interval
  {
  }

  lemma HoleOrNone(holes: set<int>)
    ensures holes == {} <==> |holes| == 0
  {
  }

  lemma SliceOfExactly(rows: seq<C.Row>, cs: seq<Bar>, interval: int, start: int, end: int, warmup: int,
                       r: Result<C.Slice, C.Error>, n: nat)
    requires interval > 0 && start < end && end - start == n * interval && n == (end - start) / interval
    requires !C.Conflict(cs) && C.IsSliceOf(rows, cs, interval, start, end, warmup, r)
    requires forall row :: row in rows ==> row.time.Some?
    ensures SliceIs(rows, interval, start, end, r)
  {
    AbsentAreHoles(rows, start, interval, n);
    RepeatsCounted(rows);
    HoleOrNone(Holes(rows, start, interval, n));
  }

  /** It fails for the holes alone and counts them; otherwise it returns the row of each grid point and how many rows
      repeat an earlier time. */
  ghost predicate SliceIs(rows: seq<C.Row>, interval: int, start: int, end: int, r: Result<C.Slice, C.Error>)
    requires interval > 0 && start < end
  {
    var holes := Holes(rows, start, interval, (end - start) / interval);
    match r
    case Err(e) => holes != {} && e == C.Missing(|holes|)
    case Ok(slice) =>
      && holes == {} && FillsPeriod(rows, slice.evaluation, start, end, interval)
      && slice.duplicates == |RepeatPlaces(rows)|
  }

  /** Slicing a period of whole intervals from consistent rows. */
  lemma SliceExactly(rows: seq<C.Row>, timeframe: string, minutes: int, start: int, end: int, warmup: int,
                     r: Result<C.Slice, C.Error>)
    requires C.IsSlice(rows, timeframe, start, end, warmup, r)
    requires AsksFor(timeframe, minutes, start, end) && Consistent(rows, timeframe)
    ensures SliceIs(rows, minutes * MINUTE, start, end, r)
  {
    SliceTakes(rows, timeframe, minutes, start, end, warmup, r);
    WholeIntervals(end - start, minutes * MINUTE);
    SliceOfExactly(rows, C.Normalized(rows, timeframe).value, minutes * MINUTE, start, end, warmup, r,
                   (end - start) / (minutes * MINUTE));
  }

  /** The warm-up of a slice is every row that opens in the given number of intervals before it, in the order given. */
  lemma WarmupExactly(rows: seq<C.Row>, timeframe: string, minutes: int, start: int, end: int, warmup: int,
                      r: Result<C.Slice, C.Error>)
    requires C.IsSlice(rows, timeframe, start, end, warmup, r) && r.Ok? && AsksFor(timeframe, minutes, start, end)
    ensures IsWindow(rows, if warmup > 0 then start - warmup * (minutes * MINUTE) else start, start, r.value.warmup)
  {
    var interval := minutes * MINUTE;
    LastsIsLength(timeframe, minutes);
    assert r.value.warmup == C.Within(rows, C.WarmupStart(start, interval, warmup), start);
    Commutes(interval, warmup);
    WithinIsWindow(rows, C.WarmupStart(start, interval, warmup), start);
  }

  lemma Commutes(x: int, y: int)
    ensures x * y == y * x
  {
  }

  /** Anything else is refused. */
  lemma SliceRefusesExactly(rows: seq<C.Row>, timeframe: string, start: int, end: int, warmup: int,
                            r: Result<C.Slice, C.Error>)
    requires C.IsSlice(rows, timeframe, start, end, warmup, r)
    ensures r.Ok? ==> Consistent(rows, timeframe) && exists minutes :: AsksFor(timeframe, minutes, start, end)
  {
    if r.Ok? {
      var minutes := C.TimeframeMs(timeframe).value / MINUTE;
      assert C.TimeframeMs(timeframe) == Some(minutes * MINUTE);
      LastsIsLength(timeframe, minutes);
      assert AsksFor(timeframe, minutes, start, end);
      ConsistentExactly(rows, timeframe);
      C.NormalizedInOrder(rows, timeframe);
      C.ConflictIsBetweenRows(rows, timeframe);
    }
  }

  // ---- the integrity report

  lemma {:induction false} DivModIs(num: nat, den: nat)
    requires den > 0
    ensures var (q, r) := I.DivMod(num, den); num == q * den + r && r < den
  {
    if num >= den {
      DivModIs(num - den, den);
      var (q, r) := I.DivMod(num - den, den);
      assert (q + 1) * den == q * den + den;
    }
  }

  /** The nearest whole number, and of two equally near the even one. */
  lemma RoundsToNearest(num: nat, den: nat)
    requires den > 0
    ensures IsNearest(num, den, I.RoundHalfEven(num, den))
  {
    DivModIs(num, den);
    var (q, r) := I.DivMod(num, den);
    NextMultiple(q, den);
    NearestOf(num, den, q, q * den, r);
  }

  predicate IsNearest(num: int, den: int, q: int) {
    && 2 * (num - q * den) <= den && 2 * (q * den - num) <= den
    && (2 * (num - q * den) == den || 2 * (q * den - num) == den ==> q % 2 == 0)
  }

  lemma NearestOf(num: nat, den: nat, q: nat, whole: int, r: nat)
    requires den > 0 && whole == q * den && num == whole + r && r < den && (q + 1) * den == whole + den
    ensures 2 * r < den ==> IsNearest(num, den, q)
    ensures 2 * r > den ==> IsNearest(num, den, q + 1)
    ensures 2 * r == den ==> IsNearest(num, den, if q % 2 == 0 then q else q + 1)
  {
  }

  lemma NextMultiple(q: int, den: int)
    ensures (q + 1) * den == q * den + den
  {
  }

  /** Two neighbours more than one and a half steps apart make a gap, of which the nearest number of steps less one is
      missing. */
  lemma GapExactly(a: Bar, b: Bar, step: int)
    requires step > 0
    ensures var gap, dt := I.GapBetween(a, b, Some(step)), b.timestamp - a.timestamp;
            && (gap.Some? <==> 2 * dt > 3 * step)
            && (gap.Some? ==> gap.value.after == a.timestamp && gap.value.before == b.timestamp &&
                              IsNearest(dt, step, gap.value.missing + 1))
  {
    var dt := b.timestamp - a.timestamp;
    if 2 * dt > 3 * step { RoundsToNearest(dt, step); }
  }

  lemma AboveOnePercent(m: nat, n: nat)
    requires n > 0
    ensures I.RoundHalfEven(10_000 * m, n) > 100 <==> 20_000 * m > 201 * n
  {
    var q := I.RoundHalfEven(10_000 * m, n);
    RoundsToNearest(10_000 * m, n);
    if q > 100 {
      I.Scaled(101, q, n);
      if q == 101 { assert q % 2 == 1; }
    } else {
      I.Scaled(q, 100, n);
    }
  }

  function BrokenPlaces(bars: seq<Bar>): set<int> {
    set i | 0 <= i < |bars| && !(Shaped(bars[i]) && bars[i].low > 0.0)
  }

  function RepeatedPlaces(bars: seq<Bar>): set<int> {
    set i | 0 <= i < |bars| && RepeatsAt(bars, i)
  }

  predicate RepeatsAt(bars: seq<Bar>, i: nat) { 0 < i < |bars| && bars[i].timestamp == bars[i - 1].timestamp }

  lemma {:induction false} BrokenCounted(bars: seq<Bar>)
    ensures I.BrokenIn(bars) == |BrokenPlaces(bars)|
  {
    if bars == [] {
      assert BrokenPlaces(bars) == {};
    } else {
      var n := |bars| - 1;
      BrokenCounted(bars[..n]);
      assert BrokenPlaces(bars) == BrokenPlaces(bars[..n]) + if I.Broken(bars[n]) then {n} else {};
    }
  }

  lemma {:induction false} RepeatedCounted(bars: seq<Bar>)
    ensures I.Repeats(bars) == |RepeatedPlaces(bars)|
  {
    if |bars| < 2 {
      assert forall i: nat :: !RepeatsAt(bars, i);
      assert RepeatedPlaces(bars) == {};
    } else {
      var n := |bars| - 1;
      RepeatedCounted(bars[..n]);
      assert forall i: nat :: i < n ==> (RepeatsAt(bars, i) <==> RepeatsAt(bars[..n], i));
      assert RepeatedPlaces(bars) == RepeatedPlaces(bars[..n]) + if RepeatsAt(bars, n) then {n} else {};
    }
  }

  /** Between place i and the one before it lies this gap. */
  predicate IsGapAt(bars: seq<Bar>, step: int, i: int, gap: I.Gap) {
    && 0 < i < |bars| && 2 * (bars[i].timestamp - bars[i - 1].timestamp) > 3 * step
    && gap.after == bars[i - 1].timestamp && gap.before == bars[i].timestamp
    && IsNearest(bars[i].timestamp - bars[i - 1].timestamp, step, gap.missing + 1)
  }

  predicate TooFar(bars: seq<Bar>, step: int, i: int) {
    0 < i < |bars| && 2 * (bars[i].timestamp - bars[i - 1].timestamp) > 3 * step
  }

  /** The gaps at these places, which are all there are, in order. */
  ghost predicate AreGaps(bars: seq<Bar>, step: int, gaps: seq<I.Gap>, at: seq<int>) {
    && |gaps| == |at| && Increasing(at) && (forall k :: 0 <= k < |at| ==> IsGapAt(bars, step, at[k], gaps[k]))
    && forall i :: TooFar(bars, step, i) ==> i in at
  }

  lemma GapsNext(bars: seq<Bar>, step: int, gaps: seq<I.Gap>, at: seq<int>, b: Bar)
    requires step > 0 && bars != [] && AreGaps(bars, step, gaps, at)
    ensures var gap, all := I.GapBetween(bars[|bars| - 1], b, Some(step)), bars + [b];
            if gap.Some? then AreGaps(all, step, gaps + [gap.value], at + [|bars|]) else AreGaps(all, step, gaps, at)
  {
    var n, all := |bars|, bars + [b];
    GapExactly(bars[n - 1], b, step);
    forall i | i in at ensures i < n {
      var k :| 0 <= k < |at| && at[k] == i;
      assert IsGapAt(bars, step, at[k], gaps[k]);
    }
    forall k | 0 <= k < |at| ensures IsGapAt(all, step, at[k], gaps[k]) { assert IsGapAt(bars, step, at[k], gaps[k]); }
    forall i | TooFar(all, step, i) && i < n ensures i in at { assert TooFar(bars, step, i); }
  }

  lemma {:induction false} GapsFound(bars: seq<Bar>, step: int) returns (at: seq<int>)
    requires step > 0
    ensures AreGaps(bars, step, I.AllGaps(bars, Some(step)), at)
  {
    at := [];
    if |bars| >= 2 {
      var n := |bars| - 1;
      at := GapsFound(bars[..n], step);
      GapsNext(bars[..n], step, I.AllGaps(bars[..n], Some(step)), at, bars[n]);
      assert bars == bars[..n] + [bars[n]];
      if I.GapBetween(bars[n - 1], bars[n], Some(step)).Some? { at := at + [n]; }
    }
  }

  lemma {:induction false} MissingIsSum(gaps: seq<I.Gap>, parts: seq<int>)
    requires |parts| == |gaps| && forall k :: 0 <= k < |gaps| ==> parts[k] == gaps[k].missing
    ensures I.MissingIn(gaps) == Total(parts)
  {
    if gaps != [] { MissingIsSum(gaps[..|gaps| - 1], parts[..|parts| - 1]); }
  }

  function Total(parts: seq<int>): int { if parts == [] then 0 else Total(parts[..|parts| - 1]) + parts[|parts| - 1] }

  /** The report lists the first gaps of the series up to the limit and adds up what all of them miss. */
  lemma ReportListsGaps(bars: seq<Bar>, step: int, limit: nat, r: I.Report)
    requires step > 0 && I.IsReport(bars, Some(step), limit, r)
    ensures exists gaps: seq<I.Gap>, at :: AreGaps(bars, step, gaps, at) && r.gaps <= gaps
                               && |r.gaps| == (if |gaps| < limit then |gaps| else limit)
                               && r.missing == Total(seq(|gaps|, k requires 0 <= k < |gaps| => gaps[k].missing))
  {
    var gaps := I.AllGaps(bars, Some(step));
    var at := GapsFound(bars, step);
    MissingIsSum(gaps, seq(|gaps|, k requires 0 <= k < |gaps| => gaps[k].missing));
    assert AreGaps(bars, step, gaps, at);
  }

  /** The report counts the places where a candle repeats the time before it or is broken, and its verdict is bad for
      any of these or when more than 1.005 per cent of the whole series is missing, a warning for any smaller loss. */
  lemma ReportExactly(bars: seq<Bar>, step: Option<int>, limit: nat, r: I.Report)
    requires (step.Some? ==> step.value > 0) && I.IsReport(bars, step, limit, r) && I.Judged(r)
    ensures r.duplicates == |RepeatedPlaces(bars)| && r.bad == |BrokenPlaces(bars)|
    ensures bars == [] <==> r.verdict == I.Empty
    ensures bars != [] ==>
              (r.verdict == I.Bad <==>
                 || RepeatedPlaces(bars) != {} || BrokenPlaces(bars) != {}
                 || 20_000 * r.missing > 201 * (|bars| + r.missing))
              && (r.verdict == I.Fine <==> RepeatedPlaces(bars) == {} && BrokenPlaces(bars) == {} && r.missing == 0)
  {
    BrokenCounted(bars);
    RepeatedCounted(bars);
    if bars != [] {
      AboveOnePercent(r.missing, |bars| + r.missing);
      if r.missing == 0 { assert I.RoundHalfEven(0, |bars|) <= 100; }
    }
  }
}
