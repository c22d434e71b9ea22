/** What a sync may write (automation-hub/data/historical.py, sync): closed rows of the pages it was given, and
    nothing unless all of them are candles that agree with the cache. */
module PagerRules {
  import opened Types
  import opened History
  import opened Pager
  import opened CandleRules

  /** Its close time is unknown or lies before the moment it was looked at. */
  ghost predicate OverAt(k: Kline, now: int) { k.closeTime == None || exists t :: k.closeTime == Some(t) && t < now }

  /** A row of the answer to some call that was over when that answer came. */
  ghost predicate IsGivenClosed(fetch: Fetcher, now: Clock, k: Kline) {
    exists call, end :: fetch(call, end).Some? && k in fetch(call, end).value && OverAt(k, now(call))
  }

  /** Of a page exactly the rows that are over are kept. */
  lemma {:induction false} FinalizedExactly(rows: seq<Kline>, now: int, k: Kline)
    ensures k in Finalized(rows, now) <==> k in rows && OverAt(k, now)
  {
    if rows != [] {
      var n := |rows| - 1;
      FinalizedExactly(rows[..n], now, k);
      assert rows == rows[..n] + [rows[n]];
      assert OverAt(rows[n], now) <==> Closed(rows[n], now) by {
        if Closed(rows[n], now) && rows[n].closeTime.Some? {
          assert rows[n].closeTime == Some(rows[n].closeTime.value);
        }
      }
    }
  }

  lemma PageGivesClosed(fetch: Fetcher, now: Clock, call: nat, end: Option<int>, rows: seq<Kline>)
    requires fetch(call, end).Some? && forall k :: k in rows ==> IsGivenClosed(fetch, now, k)
    ensures forall k :: k in Finalized(fetch(call, end).value, now(call)) + rows ==> IsGivenClosed(fetch, now, k)
  {
    forall k | k in Finalized(fetch(call, end).value, now(call)) ensures IsGivenClosed(fetch, now, k) {
      FinalizedExactly(fetch(call, end).value, now(call), k);
    }
  }

  /** Whatever the venue answers, every row collected was given by it and was over when it was given. */
  lemma {:induction false} CollectedAreClosed(fetch: Fetcher, now: Clock, target: int, call: nat, rows: seq<Kline>,
                                              end: Option<int>)
    requires forall k :: k in rows ==> IsGivenClosed(fetch, now, k)
    ensures forall k :: k in Collect(fetch, now, target, call, rows, end).rows ==> IsGivenClosed(fetch, now, k)
    decreases target - |rows|
  {
    if |rows| < target && fetch(call, end).Some? {
      var batch := Finalized(fetch(call, end).value, now(call));
      PageGivesClosed(fetch, now, call, end, rows);
      if |batch| >= PAGE {
        CollectedAreClosed(fetch, now, target, call + 1, batch + rows, Some(batch[0].openTime - 1));
      }
    }
  }

  /** The row spells out a shaped candle, and if the cache has a candle of that time it is this one. */
  ghost predicate Fits(m: Store, symbol: Symbol, timeframe: string, k: Kline) {
    exists b :: k == KlineOf(b, k.closeTime) && Shaped(b) && Agrees(m, Key(symbol, timeframe, k.openTime), b)
  }

  predicate Agrees(m: Store, key: Key, b: Bar) { key in m ==> BarAt(key.openTime, m[key]) == b }

  lemma FitsExactly(m: Store, symbol: Symbol, timeframe: string, k: Kline)
    ensures var key := Key(symbol, timeframe, k.openTime);
            Fits(m, symbol, timeframe, k) <==> CandleOf(k).Some? && (key in m ==> Some(m[key]) == CandleOf(k))
  {
    var key := Key(symbol, timeframe, k.openTime);
    if CandleOf(k).Some? {
      var b := BarAt(k.openTime, CandleOf(k).value);
      CachedExactly(k, b);
      if key in m && Some(m[key]) == CandleOf(k) { assert Agrees(m, key, b); }
    }
    if b :| k == KlineOf(b, k.closeTime) && Shaped(b) && Agrees(m, key, b) { CachedExactly(k, b); }
  }

  /** A supported sync is refused in exactly two cases: the first call raised, or some collected row is no candle or
      differs from the cached one of its time. A call that raises after rows were collected does not undo them. */
  lemma SyncAnswersExactly(m: Store, symbol: Symbol, timeframe: string, c: Collected)
    ensures var r := SyncAnswer(m, symbol, timeframe, c);
            && (r == Err(FetchFailed) <==> c.raised && c.rows == [])
            && (r.Ok? <==> !(c.raised && c.rows == []) && forall k :: k in c.rows ==> Fits(m, symbol, timeframe, k))
            && (r.Ok? ==> r.value == |c.rows|)
  {
    forall k | k in c.rows { FitsExactly(m, symbol, timeframe, k); }
  }

  /** Once accepted, each time that was written reads as the last of its rows, and all else as before. */
  lemma WrittenExactly(m: Store, symbol: Symbol, timeframe: string, rows: seq<Kline>, i: nat)
    requires AllGood(rows) && i < |rows| && forall j :: i < j < |rows| ==> rows[j].openTime != rows[i].openTime
    ensures var key := Key(symbol, timeframe, rows[i].openTime);
            && key in Put(m, symbol, timeframe, rows)
            && rows[i] == KlineOf(BarAt(key.openTime, Put(m, symbol, timeframe, rows)[key]), rows[i].closeTime)
    decreases |rows|
  {
    var n := |rows| - 1;
    if i < n {
      assert rows == rows[..n] + [rows[n]];
      WrittenExactly(m, symbol, timeframe, rows[..n], i);
    } else {
      assert rows[n] in rows;
      CachedExactly(rows[n], BarAt(rows[n].openTime, CandleOf(rows[n]).value));
    }
  }
}
