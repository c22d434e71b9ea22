/** The candle cache and its backward pager (automation-hub/data/historical.py). The database is a map from symbol,
    timeframe and open time. */
module History {
  import opened Types
  import opened Folds

  datatype Candle = Candle(open: real, high: real, low: real, close: real, volume: real)

  /** A provider row; a value that is not finite is None, and so is a close time the row does not carry. */
  datatype Kline = Kline(
    openTime: int, open: Option<real>, high: Option<real>, low: Option<real>, close: Option<real>, volume: Option<real>,
    closeTime: Option<int>)

  datatype Key = Key(symbol: Symbol, timeframe: string, openTime: int)

  type Store = map<Key, Candle>

  datatype StoreError = BadValues | Conflicting

  function CandleOf(k: Kline): Option<Candle> {
    if k.open.Some? && k.high.Some? && k.low.Some? && k.close.Some? && k.volume.Some?
       && !(k.high.value < Max(k.open.value, k.close.value) || k.low.value > Min(k.open.value, k.close.value))
    then Some(Candle(k.open.value, k.high.value, k.low.value, k.close.value, k.volume.value)) else None
  }

  predicate AllGood(rows: seq<Kline>) { forall k :: k in rows ==> CandleOf(k).Some? }

  /** Insert or replace the rows in order. */
  function Put(m: Store, symbol: Symbol, timeframe: string, rows: seq<Kline>): Store
    requires AllGood(rows)
  {
    if rows == [] then m else
      var k := rows[|rows| - 1];
      Put(m, symbol, timeframe, rows[..|rows| - 1])[Key(symbol, timeframe, k.openTime) := CandleOf(k).value]
  }

  /** A row differs from the candle cached before the batch. */
  predicate Clashes(m: Store, symbol: Symbol, timeframe: string, rows: seq<Kline>) {
    exists k :: k in rows && Key(symbol, timeframe, k.openTime) in m &&
        Some(m[Key(symbol, timeframe, k.openTime)]) != CandleOf(k)
  }

  function BarAt(t: int, c: Candle): Bar { Bar(t, c.open, c.high, c.low, c.close, c.volume) }

  predicate Selected(key: Key, symbol: Symbol, timeframe: string, from: Option<int>, to: Option<int>) {
    key.symbol == symbol && key.timeframe == timeframe
    && (from.Some? ==> key.openTime >= from.value) && (to.Some? ==> key.openTime <= to.value)
  }

  /** The cached bars of the range, each once, in time order. */
  ghost predicate IsQuery(m: Store, symbol: Symbol, timeframe: string, from: Option<int>, to: Option<int>,
                          bars: seq<Bar>) {
    && IncreasingBy(TimeOf(), bars)
    && (forall b :: b in bars ==> var key := Key(symbol, timeframe, b.timestamp);
                                  Selected(key, symbol, timeframe, from, to) && key in m &&
                                  b == BarAt(b.timestamp, m[key]))
    && (forall key :: key in m && Selected(key, symbol, timeframe, from, to) ==> BarAt(key.openTime, m[key]) in bars)
  }

  /** Python's bars[-n:] when there are more than n: the last n, but all of them for 0, and for negative n all but the
      first -n. */
  function Tail(bars: seq<Bar>, n: Option<int>): seq<Bar> {
    if n.None? || |bars| <= n.value || n.value == 0 then bars
    else if n.value > 0 then bars[|bars| - n.value..]
    else if -n.value <= |bars| then bars[-n.value..] else []
  }

  /** The newest cached open time of the series, if it has any candle. */
  ghost predicate IsLast(m: Store, symbol: Symbol, timeframe: string, last: Option<int>) {
    && (last.Some? ==> Key(symbol, timeframe, last.value) in m)
    && (forall key :: key in m && key.symbol == symbol && key.timeframe == timeframe ==>
          last.Some? && key.openTime <= last.value)
  }

  function OpensAt(): Key -> int { (key: Key) => key.openTime }

  /** The bars of the wanted keys, which are of one series, in time order. */
  method BarsAt(m: Store, wanted: set<Key>) returns (found: seq<Bar>)
    requires wanted <= m.Keys
    requires forall j, k :: j in wanted && k in wanted && j.openTime == k.openTime ==> j == k
    ensures IncreasingBy(TimeOf(), found)
    ensures forall key :: key in wanted ==> BarAt(key.openTime, m[key]) in found
    ensures forall b :: b in found ==> exists key :: key in wanted && b == BarAt(key.openTime, m[key])
  {
    var order := InKeyOrder(OpensAt(), wanted);
    found := seq(|order|, i requires 0 <= i < |order| => assert order[i] in order;
             BarAt(order[i].openTime, m[order[i]]));
    forall i, j | 0 <= i < j < |found| ensures TimeOf()(found[i]) < TimeOf()(found[j]) {
      assert OpensAt()(order[i]) < OpensAt()(order[j]);
    }
    forall key | key in wanted ensures BarAt(key.openTime, m[key]) in found {
      var i :| 0 <= i < |order| && order[i] == key;
      assert found[i] == BarAt(key.openTime, m[key]);
    }
    forall b | b in found ensures exists key :: key in wanted && b == BarAt(key.openTime, m[key]) {
      var i :| 0 <= i < |found| && found[i] == b;
      assert order[i] in order;
    }
  }

  class HistoricalStore {
    var candles: Store

    constructor ()
      ensures candles == map[]
    {
      candles := map[];
    }

    method Upsert(symbol: Symbol, timeframe: string, rows: seq<Kline>, strict: bool)
        returns (r: Result<nat, StoreError>)
      modifies this
      ensures r == if !AllGood(rows) then Err(BadValues)
                   else if strict && Clashes(old(candles), symbol, timeframe, rows) then Err(Conflicting)
                  else Ok(|rows|)
      ensures candles == if r.Ok? then Put(old(candles), symbol, timeframe, rows) else old(candles)
    {
      var normalized: seq<(Key, Candle)> := [];
      for i := 0 to |rows|
        invariant AllGood(rows[..i]) && |normalized| == i
        invariant forall j :: 0 <= j < i ==>
          normalized[j].0 == Key(symbol, timeframe, rows[j].openTime) && Some(normalized[j].1) == CandleOf(rows[j])
      {
        assert rows[..i + 1] == rows[..i] + [rows[i]];
        var c := CandleOf(rows[i]);
        if c.None? { return Err(BadValues); }
        normalized := normalized + [(Key(symbol, timeframe, rows[i].openTime), c.value)];
      }
      assert rows[..|rows|] == rows;
      for i := 0 to |normalized|
        invariant strict ==> !Clashes(candles, symbol, timeframe, rows[..i])
      {
        assert rows[..i + 1] == rows[..i] + [rows[i]];
        var key := normalized[i].0;
        if strict && key in candles && candles[key] != normalized[i].1 {
          assert rows[i] in rows;
          return Err(Conflicting);
        }
      }
      ghost var before := candles;
      for i := 0 to |normalized|
        invariant AllGood(rows[..i]) && candles == Put(before, symbol, timeframe, rows[..i])
      {
        assert rows[..i + 1][..i] == rows[..i] && rows[i] in rows;
        candles := candles[normalized[i].0 := normalized[i].1];
      }
      return Ok(|rows|);
    }

    method GetBars(symbol: Symbol, timeframe: string, n: Option<int>, from: Option<int>, to: Option<int>)
      returns (bars: seq<Bar>)
      ensures exists all :: IsQuery(candles, symbol, timeframe, from, to, all) && bars == Tail(all, n)
    {
      var wanted := set key | key in candles && Selected(key, symbol, timeframe, from, to);
      var found := BarsAt(candles, wanted);
      assert IsQuery(candles, symbol, timeframe, from, to, found);
      bars := Tail(found, n);
    }

    method LastOpenTime(symbol: Symbol, timeframe: string) returns (last: Option<int>)
      ensures IsLast(candles, symbol, timeframe, last)
    {
      last := None;
      var rest := set key | key in candles && key.symbol == symbol && key.timeframe == timeframe;
      ghost var all := rest;
      while rest != {}
        invariant rest <= all
        invariant last.None? <==> rest == all
        invariant last.Some? ==> Key(symbol, timeframe, last.value) in all
        invariant forall key :: key in all - rest ==> last.Some? && key.openTime <= last.value
        decreases |rest|
      {
        var key :| key in rest;
        if last.None? || key.openTime > last.value { last := Some(key.openTime); }
        rest := rest - {key};
      }
      assert all - rest == all;
    }
  }

  // ---- what the cache keeps

  lemma {:induction false} PutKeys(m: Store, symbol: Symbol, timeframe: string, rows: seq<Kline>)
    requires AllGood(rows)
    ensures forall key :: key in Put(m, symbol, timeframe, rows) <==>
              key in m || exists k :: k in rows && key == Key(symbol, timeframe, k.openTime)
    ensures forall key :: key in m && (forall k :: k in rows ==> key != Key(symbol, timeframe, k.openTime)) ==>
              Put(m, symbol, timeframe, rows)[key] == m[key]
  {
    if rows != [] {
      var n := |rows| - 1;
      PutKeys(m, symbol, timeframe, rows[..n]);
      assert rows == rows[..n] + [rows[n]];
    }
  }

  /** What is stored for a time comes from one of the batch's rows of that time, if it has any. */
  lemma {:induction false} PutComesFromRow(m: Store, symbol: Symbol, timeframe: string, rows: seq<Kline>, k: Kline)
    requires AllGood(rows) && k in rows
    ensures var key := Key(symbol, timeframe, k.openTime);
            key in Put(m, symbol, timeframe, rows) &&
            exists j :: j in rows && j.openTime == k.openTime &&
              Some(Put(m, symbol, timeframe, rows)[key]) == CandleOf(j)
  {
    var n := |rows| - 1;
    assert rows == rows[..n] + [rows[n]];
    if rows[n].openTime != k.openTime {
      PutComesFromRow(m, symbol, timeframe, rows[..n], k);
    } else {
      assert rows[n] in rows;
    }
  }

  /** Every candle cached before is cached still. */
  ghost predicate Extends(m: Store, after: Store) { forall key :: key in m ==> key in after && after[key] == m[key] }

  /** A strict write that is not refused changes no candle already cached. */
  lemma StrictNeverChanges(m: Store, symbol: Symbol, timeframe: string, rows: seq<Kline>)
    requires AllGood(rows) && !Clashes(m, symbol, timeframe, rows)
    ensures Extends(m, Put(m, symbol, timeframe, rows))
  {
    var after := Put(m, symbol, timeframe, rows);
    PutKeys(m, symbol, timeframe, rows);
    forall key | key in m ensures key in after && after[key] == m[key] {
      if k :| k in rows && key == Key(symbol, timeframe, k.openTime) {
        PutComesFromRow(m, symbol, timeframe, rows, k);
      }
    }
  }

  /** Two rows of one batch hold different candles for the same time; only the last of them is kept. */
  ghost predicate SelfConflict(rows: seq<Kline>) {
    exists j, k :: j in rows && k in rows && j.openTime == k.openTime && CandleOf(j) != CandleOf(k)
  }

  /** Writing the same batch again is accepted if and only if the batch does not contradict itself. */
  lemma StrictWriteTwice(m: Store, symbol: Symbol, timeframe: string, rows: seq<Kline>)
    requires AllGood(rows)
    ensures Clashes(Put(m, symbol, timeframe, rows), symbol, timeframe, rows) <==> SelfConflict(rows)
  {
    var after := Put(m, symbol, timeframe, rows);
    if Clashes(after, symbol, timeframe, rows) {
      var k :| k in rows && Key(symbol, timeframe, k.openTime) in after &&
        Some(after[Key(symbol, timeframe, k.openTime)]) != CandleOf(k);
      PutComesFromRow(m, symbol, timeframe, rows, k);
    }
    if SelfConflict(rows) {
      var j, k :| j in rows && k in rows && j.openTime == k.openTime && CandleOf(j) != CandleOf(k);
      PutComesFromRow(m, symbol, timeframe, rows, k);
    }
  }

  /** What a batch stores for one of its times does not depend on the cache before. */
  lemma {:induction false} PutOverwrites(m: Store, n: Store, symbol: Symbol, timeframe: string, rows: seq<Kline>,
                                         k: Kline)
    requires AllGood(rows) && k in rows
    ensures var key := Key(symbol, timeframe, k.openTime);
            key in Put(m, symbol, timeframe, rows) && key in Put(n, symbol, timeframe, rows) &&
            Put(m, symbol, timeframe, rows)[key] == Put(n, symbol, timeframe, rows)[key]
  {
    var last := |rows| - 1;
    assert rows == rows[..last] + [rows[last]];
    if rows[last].openTime != k.openTime { PutOverwrites(m, n, symbol, timeframe, rows[..last], k); }
  }

  /** Storing the same batch again changes nothing. */
  lemma PutTwice(m: Store, symbol: Symbol, timeframe: string, rows: seq<Kline>)
    requires AllGood(rows)
    ensures Put(Put(m, symbol, timeframe, rows), symbol, timeframe, rows) == Put(m, symbol, timeframe, rows)
  {
    var once := Put(m, symbol, timeframe, rows);
    var twice := Put(once, symbol, timeframe, rows);
    PutKeys(m, symbol, timeframe, rows);
    PutKeys(once, symbol, timeframe, rows);
    forall key | key in once ensures twice[key] == once[key] {
      if k :| k in rows && key == Key(symbol, timeframe, k.openTime) {
        PutOverwrites(m, once, symbol, timeframe, rows, k);
      }
    }
    assert twice.Keys == once.Keys;
  }

  ghost predicate StrictlyLater(rows: seq<Kline>) {
    forall i, j :: 0 <= i < j < |rows| ==> rows[i].openTime < rows[j].openTime
  }

  function BarOf(k: Kline): Bar
    requires CandleOf(k).Some?
  { BarAt(k.openTime, CandleOf(k).value) }

  function BarsOf(rows: seq<Kline>): seq<Bar>
    requires AllGood(rows)
  { seq(|rows|, i requires 0 <= i < |rows| => assert rows[i] in rows; BarOf(rows[i])) }

  /** What is written to an empty cache is read back: the same candles, in the same order. */
  lemma WrittenIsRead(symbol: Symbol, timeframe: string, rows: seq<Kline>, all: seq<Bar>)
    requires AllGood(rows) && StrictlyLater(rows)
    requires IsQuery(Put(map[], symbol, timeframe, rows), symbol, timeframe, None, None, all)
    ensures all == BarsOf(rows)
  {
    var m, bars := Put(map[], symbol, timeframe, rows), BarsOf(rows);
    forall i, j | 0 <= i < j < |bars| ensures TimeOf()(bars[i]) < TimeOf()(bars[j]) {
      assert rows[i].openTime < rows[j].openTime;
    }
    PutStores(symbol, timeframe, rows);
    forall b ensures b in all <==> b in bars {
      if b in bars { BarIsStored(symbol, timeframe, rows, m, b); }
      if b in all { StoredIsRow(symbol, timeframe, rows, m, b); }
    }
    IncreasingIsUnique(TimeOf(), all, bars);
  }

  /** The store holds each row's candle, and nothing else. */
  ghost predicate Stores(m: Store, symbol: Symbol, timeframe: string, rows: seq<Kline>) {
    && (forall key :: key in m ==> exists k :: k in rows && key == Key(symbol, timeframe, k.openTime))
    && (forall k :: k in rows ==>
          Key(symbol, timeframe, k.openTime) in m && Some(m[Key(symbol, timeframe, k.openTime)]) == CandleOf(k))
  }

  lemma PutStores(symbol: Symbol, timeframe: string, rows: seq<Kline>)
    requires AllGood(rows) && StrictlyLater(rows)
    ensures Stores(Put(map[], symbol, timeframe, rows), symbol, timeframe, rows)
  {
    var m := Put(map[], symbol, timeframe, rows);
    PutKeys(map[], symbol, timeframe, rows);
    forall k | k in rows
      ensures Key(symbol, timeframe, k.openTime) in m && Some(m[Key(symbol, timeframe, k.openTime)]) == CandleOf(k)
    {
      PutComesFromRow(map[], symbol, timeframe, rows, k);
      var j :| j in rows && j.openTime == k.openTime && Some(m[Key(symbol, timeframe, k.openTime)]) == CandleOf(j);
      SameTimeSameRow(rows, j, k);
    }
  }

  lemma BarIsStored(symbol: Symbol, timeframe: string, rows: seq<Kline>, m: Store, b: Bar)
    requires AllGood(rows) && Stores(m, symbol, timeframe, rows) && b in BarsOf(rows)
    ensures var key := Key(symbol, timeframe, b.timestamp); key in m && BarAt(b.timestamp, m[key]) == b
  {
    var i :| 0 <= i < |rows| && BarsOf(rows)[i] == b;
    assert rows[i] in rows;
  }

  lemma StoredIsRow(symbol: Symbol, timeframe: string, rows: seq<Kline>, m: Store, b: Bar)
    requires AllGood(rows) && Stores(m, symbol, timeframe, rows)
    requires var key := Key(symbol, timeframe, b.timestamp); key in m && BarAt(b.timestamp, m[key]) == b
    ensures b in BarsOf(rows)
  {
    var k :| k in rows && Key(symbol, timeframe, b.timestamp) == Key(symbol, timeframe, k.openTime);
    var i :| 0 <= i < |rows| && rows[i] == k;
    assert BarsOf(rows)[i] == b;
  }

  lemma SameTimeSameRow(rows: seq<Kline>, j: Kline, k: Kline)
    requires StrictlyLater(rows) && j in rows && k in rows && j.openTime == k.openTime
    ensures j == k
  {
    var a :| 0 <= a < |rows| && rows[a] == j;
    var b :| 0 <= b < |rows| && rows[b] == k;
  }
}
