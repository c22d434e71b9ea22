/** Filling the candle cache (automation-hub/data/historical.py, sync and update): paging backward from the newest
    candle, and forward from the newest one cached. */
module Pager {
  import opened Types
  import opened History
  import Candles
  import Integrity

  const PAGE: nat := 1000

  const SYMBOLS: seq<string> := [
    "BTCUSDT", "ETHUSDT", "SOLUSDT", "XRPUSDT", "BNBUSDT", "DOGEUSDT", "ADAUSDT", "LINKUSDT"]

  /** Its close time, if it has one, has passed. */
  predicate Closed(k: Kline, now: int) { k.closeTime.None? || k.closeTime.value < now }

  function Finalized(rows: seq<Kline>, now: int): seq<Kline> {
    if rows == [] then [] else
      var n := |rows| - 1;
      if Closed(rows[n], now) then Finalized(rows[..n], now) + [rows[n]] else Finalized(rows[..n], now)
  }

  /** Answers by the number of the call and the latest open time asked for; None is a call that raised. */
  type Fetcher = (nat, Option<int>) -> Option<seq<Kline>>

  /** The time at which the answer to each call is looked at. */
  type Clock = nat -> int

  datatype Collected = Collected(rows: seq<Kline>, raised: bool)

  function Collect(fetch: Fetcher, now: Clock, target: int, call: nat, rows: seq<Kline>, end: Option<int>): Collected
    decreases target - |rows|
  {
    if |rows| >= target then Collected(rows, false) else
      var page := fetch(call, end);
      if page.None? then Collected(rows, true) else
        var batch := Finalized(page.value, now(call));
        if batch == [] then Collected(rows, false)
        else if |batch| < PAGE then Collected(batch + rows, false)
        else Collect(fetch, now, target, call + 1, batch + rows, Some(batch[0].openTime - 1))
  }

  datatype SyncError = UnsupportedSymbol | UnsupportedTimeframe | FetchFailed | Refused(error: StoreError)

  method Finalize(rows: seq<Kline>, now: int) returns (out: seq<Kline>)
    ensures out == Finalized(rows, now)
  {
    out := [];
    for i := 0 to |rows|
      invariant out == Finalized(rows[..i], now)
    {
      assert rows[..i + 1][..i] == rows[..i];
      if Closed(rows[i], now) { out := out + [rows[i]]; }
    }
    assert rows[..|rows|] == rows;
  }

  /** What a sync answers once the rows are collected, given the cache before. */
  function SyncAnswer(m: Store, symbol: Symbol, timeframe: string, c: Collected): Result<nat, SyncError> {
    if c.raised && c.rows == [] then Err(FetchFailed)
    else if !AllGood(c.rows) then Err(Refused(BadValues))
    else if Clashes(m, symbol, timeframe, c.rows) then Err(Refused(Conflicting))
    else Ok(|c.rows|)
  }

  function Supported(symbol: Symbol, timeframe: string): Option<SyncError> {
    if symbol !in SYMBOLS then Some(UnsupportedSymbol)
    else if Candles.TimeframeMs(timeframe).None? then Some(UnsupportedTimeframe) else None
  }

  /** Whatever the fetcher answers, the loop ends: every page that does not end it adds a thousand rows. */
  method Sync(store: HistoricalStore, symbol: Symbol, timeframe: string, target: int, fetch: Fetcher, now: Clock)
    returns (r: Result<nat, SyncError>, ghost c: Collected)
    modifies store
    ensures c == Collect(fetch, now, target, 0, [], None)
    ensures r == if Supported(symbol, timeframe).Some? then Err(Supported(symbol, timeframe).value)
                 else SyncAnswer(old(store.candles), symbol, timeframe, c)
    ensures store.candles == if r.Ok? then Put(old(store.candles), symbol, timeframe, c.rows) else old(store.candles)
  {
    c := Collect(fetch, now, target, 0, [], None);
    if Supported(symbol, timeframe).Some? { return Err(Supported(symbol, timeframe).value), c; }
    var collected: seq<Kline> := [];
    var end: Option<int> := None;
    var call, raised := 0, false;
    while |collected| < target
      invariant store.candles == old(store.candles)
      invariant Collect(fetch, now, target, call, collected, end) == c && !raised
      decreases target - |collected|
    {
      var page := fetch(call, end);
      if page.None? { raised := true; break; }
      var batch := Finalize(page.value, now(call));
      if batch == [] { break; }
      collected := batch + collected;
      end := Some(batch[0].openTime - 1);
      call := call + 1;
      if |batch| < PAGE { break; }
    }
    assert c == Collected(collected, raised);
    if raised && collected == [] { return Err(FetchFailed), c; }
    var written := store.Upsert(symbol, timeframe, collected, true);
    if written.Err? { return Err(Refused(written.error)), c; }
    return Ok(written.value), c;
  }

  // ---- a venue that keeps its candles

  function CountUpTo(h: seq<Kline>, end: int): nat {
    if h == [] then 0 else CountUpTo(h[..|h| - 1], end) + if h[|h| - 1].openTime <= end then 1 else 0
  }

  function Back(i: nat): nat { if i >= PAGE then i - PAGE else 0 }

  /** The latest thousand rows that open no later than `end`. */
  function PageOf(h: seq<Kline>, end: Option<int>): seq<Kline> {
    var m := if end.None? then |h| else Upto(h, end.value);
    h[Back(m)..m]
  }

  function Upto(h: seq<Kline>, end: int): (m: nat)
    ensures m <= |h|
  {
    CountIsBounded(h, end);
    CountUpTo(h, end)
  }

  lemma {:induction false} CountIsBounded(h: seq<Kline>, end: int)
    ensures CountUpTo(h, end) <= |h|
  {
    if h != [] { CountIsBounded(h[..|h| - 1], end); }
  }

  function Serving(h: seq<Kline>, fails: nat -> bool): Fetcher {
    (call: nat, end: Option<int>) => if fails(call) then None else Some(PageOf(h, end))
  }

  /** Open times increase, only the newest candle may still be forming, and time does not run back. */
  ghost predicate IsHistory(h: seq<Kline>, now: Clock) {
    && StrictlyLater(h) && (forall i, call :: 0 <= i < |h| - 1 ==> Closed(h[i], now(call)))
    && (forall call :: now(0) <= now(call))
  }

  predicate Forming(h: seq<Kline>, now: Clock) { h != [] && !Closed(h[|h| - 1], now(0)) }

  /** How many candles were closed when the first page was looked at. */
  function ClosedCount(h: seq<Kline>, now: Clock): nat { if Forming(h, now) then |h| - 1 else |h| }

  lemma {:induction false} CountBefore(h: seq<Kline>, i: nat)
    requires StrictlyLater(h) && i < |h|
    ensures CountUpTo(h, h[i].openTime - 1) == i
  {
    var n := |h| - 1;
    assert h == h[..n] + [h[n]];
    if i < n {
      CountBefore(h[..n], i);
      assert h[..n][i] == h[i];
    } else {
      AllBefore(h[..n], h[n].openTime - 1);
    }
  }

  lemma {:induction false} AllBefore(h: seq<Kline>, end: int)
    requires forall i :: 0 <= i < |h| ==> h[i].openTime <= end
    ensures CountUpTo(h, end) == |h|
  {
    if h != [] { AllBefore(h[..|h| - 1], end); }
  }

  lemma {:induction false} AllClosed(rows: seq<Kline>, now: int)
    requires forall i :: 0 <= i < |rows| ==> Closed(rows[i], now)
    ensures Finalized(rows, now) == rows
  {
    if rows != [] {
      AllClosed(rows[..|rows| - 1], now);
      assert rows == rows[..|rows| - 1] + [rows[|rows| - 1]];
    }
  }

  /** x rounded up to whole pages. */
  function Pages(x: int): int { if x <= 0 then 0 else PAGE + Pages(x - PAGE) }

  lemma {:induction false} PagesCover(x: int)
    ensures x <= Pages(x) && 0 <= Pages(x) && (x > 0 ==> Pages(x) >= PAGE)
  {
    if x > 0 { PagesCover(x - PAGE); }
  }

  function Least(x: int, y: int): int { if x <= y then x else y }

  lemma ClosedStretch(h: seq<Kline>, a: nat, b: nat, time: int)
    requires a <= b <= |h| && forall j :: a <= j < b ==> Closed(h[j], time)
    ensures Finalized(h[a..b], time) == h[a..b]
  {
    AllClosed(h[a..b], time);
  }

  lemma FormingIsDropped(rows: seq<Kline>, k: Kline, time: int)
    requires !Closed(k, time)
    ensures Finalized(rows + [k], time) == Finalized(rows, time)
  {
    assert (rows + [k])[..|rows|] == rows;
  }

  /** The fetcher answers from h unless the call fails; known only where a page of h is looked at. */
  ghost predicate Serves(fetch: Fetcher, h: seq<Kline>, fails: nat -> bool) {
    forall call, end {:trigger PageOf(h, end), fails(call)} ::
      fetch(call, end) == if fails(call) then None else Some(PageOf(h, end))
  }

  /** One call, with the rows from i to n collected and the next page ending before i. */
  lemma CollectStep(fetch: Fetcher, h: seq<Kline>, now: Clock, fails: nat -> bool, target: int, call: nat, i: nat,
                    n: nat, end: Option<int>)
    requires Serves(fetch, h, fails) && i <= n <= |h| && PageOf(h, end) == h[Back(i)..i]
    requires forall j :: 0 <= j < i ==> Closed(h[j], now(call))
    ensures Collect(fetch, now, target, call, h[i..n], end) ==
              if n - i >= target then Collected(h[i..n], false)
              else if fails(call) then Collected(h[i..n], true)
              else if i < PAGE then Collected(h[..n], false)
              else Collect(fetch, now, target, call + 1, h[i - PAGE..n], Some(h[i - PAGE].openTime - 1))
  {
    var page, rows := h[Back(i)..i], h[i..n];
    ClosedStretch(h, Back(i), i, now(call));
    StretchesMeet(h, Back(i), i, n);
    if n - i < target && !fails(call) {
      assert fetch(call, end) == Some(page);
      CollectPage(fetch, now, target, call, rows, end, page);
    }
  }

  lemma CollectPage(fetch: Fetcher, now: Clock, target: int, call: nat, rows: seq<Kline>, end: Option<int>,
                    page: seq<Kline>)
    requires |rows| < target && fetch(call, end) == Some(page) && Finalized(page, now(call)) == page
    ensures Collect(fetch, now, target, call, rows, end) ==
              if |page| < PAGE then Collected(page + rows, false)
              else Collect(fetch, now, target, call + 1, page + rows, Some(page[0].openTime - 1))
  {
    assert page == [] ==> page + rows == rows;
  }

  lemma StretchesMeet(h: seq<Kline>, a: nat, i: nat, n: nat)
    requires a <= i <= n <= |h|
    ensures h[a..i] + h[i..n] == h[a..n]
  {
  }

  /** A suffix of the n closed candles from i or before; whole pages of it when no call from this one on fails. */
  ghost predicate Reached(h: seq<Kline>, r: Collected, i: nat, n: nat, target: int, answered: bool) {
    && i <= n <= |h| && n - i <= |r.rows| <= n && r.rows == h[n - |r.rows|..n]
    && (answered ==> !r.raised && |r.rows| == Least(n, n - i + Pages(target - (n - i))))
  }

  /** With the rows from i to n collected and the next page ending before i: paging ends with a longer suffix of the n
      closed candles, and when no call fails with whole pages until the target is met or the history ends. */
  lemma {:induction false} PagesBack(fetch: Fetcher, h: seq<Kline>, now: Clock, fails: nat -> bool, target: int,
                                     call: nat, i: nat, n: nat, end: Option<int>)
    requires Serves(fetch, h, fails) && StrictlyLater(h) && i <= n <= |h| && PageOf(h, end) == h[Back(i)..i]
    requires forall j, k :: 0 <= j < i && call <= k ==> Closed(h[j], now(k))
    ensures Reached(h, Collect(fetch, now, target, call, h[i..n], end), i, n, target, Answered(fails, call))
    decreases i
  {
    if n - i >= target || fails(call) || i < PAGE {
      LastPage(fetch, h, now, fails, target, call, i, n, end);
    } else {
      var next := i - PAGE;
      PageBefore(h, next);
      PagesBack(fetch, h, now, fails, target, call + 1, next, n, Some(h[next].openTime - 1));
      OnePageBack(fetch, h, now, fails, target, call, i, n, end);
    }
  }

  lemma LastPage(fetch: Fetcher, h: seq<Kline>, now: Clock, fails: nat -> bool, target: int, call: nat, i: nat, n: nat,
                 end: Option<int>)
    requires Serves(fetch, h, fails) && i <= n <= |h| && PageOf(h, end) == h[Back(i)..i]
    requires forall j :: 0 <= j < i ==> Closed(h[j], now(call))
    requires n - i >= target || fails(call) || i < PAGE
    ensures Reached(h, Collect(fetch, now, target, call, h[i..n], end), i, n, target, Answered(fails, call))
  {
    CollectStep(fetch, h, now, fails, target, call, i, n, end);
    if n - i >= target || fails(call) {
      ReachedHere(h, i, n, target, n - i < target, Answered(fails, call));
    } else {
      ReachedAll(h, i, n, target, Answered(fails, call));
    }
  }

  lemma OnePageBack(fetch: Fetcher, h: seq<Kline>, now: Clock, fails: nat -> bool, target: int, call: nat, i: nat,
                    n: nat, end: Option<int>)
    requires Serves(fetch, h, fails) && PAGE <= i <= n <= |h| && PageOf(h, end) == h[Back(i)..i]
    requires forall j :: 0 <= j < i ==> Closed(h[j], now(call))
    requires n - i < target && !fails(call)
    requires Reached(h, Collect(fetch, now, target, call + 1, h[i - PAGE..n], Some(h[i - PAGE].openTime - 1)),
                     i - PAGE, n, target, Answered(fails, call + 1))
    ensures Reached(h, Collect(fetch, now, target, call, h[i..n], end), i, n, target, Answered(fails, call))
  {
    CollectStep(fetch, h, now, fails, target, call, i, n, end);
    ReachedEarlier(h, Collect(fetch, now, target, call, h[i..n], end), i, n, target, fails, call);
  }

  lemma PageBefore(h: seq<Kline>, i: nat)
    requires StrictlyLater(h) && i < |h|
    ensures PageOf(h, Some(h[i].openTime - 1)) == h[Back(i)..i]
  {
    CountBefore(h, i);
  }

  lemma ReachedHere(h: seq<Kline>, i: nat, n: nat, target: int, raised: bool, answered: bool)
    requires i <= n <= |h| && (if raised then !answered else n - i >= target)
    ensures Reached(h, Collected(h[i..n], raised), i, n, target, answered)
  {
  }

  lemma ReachedAll(h: seq<Kline>, i: nat, n: nat, target: int, answered: bool)
    requires i <= n <= |h| && i < PAGE && n - i < target
    ensures Reached(h, Collected(h[..n], false), i, n, target, answered)
  {
    PagesCover(target - (n - i) - PAGE);
    assert h[..n] == h[n - n..n];
  }

  ghost predicate Answered(fails: nat -> bool, call: nat) { forall k :: call <= k ==> !fails(k) }

  lemma ReachedEarlier(h: seq<Kline>, r: Collected, i: nat, n: nat, target: int, fails: nat -> bool, call: nat)
    requires PAGE <= i <= n && n - i < target && Reached(h, r, i - PAGE, n, target, Answered(fails, call + 1))
    ensures Reached(h, r, i, n, target, Answered(fails, call))
  {
  }

  /** Looking at a stretch of the history drops the forming candle and nothing else. */
  lemma FinalizedStretch(h: seq<Kline>, now: Clock, a: nat, b: nat)
    requires IsHistory(h, now) && a <= ClosedCount(h, now) && a <= b <= |h|
    ensures Finalized(h[a..b], now(0)) == h[a..Least(b, ClosedCount(h, now))]
  {
    var n := ClosedCount(h, now);
    if b <= n {
      ClosedStretch(h, a, b, now(0));
    } else {
      ClosedStretch(h, a, n, now(0));
      FormingIsDropped(h[a..n], h[n], now(0));
      assert h[a..b] == h[a..n] + [h[n]];
    }
  }

  /** The number of candles collected when no call fails. */
  function Expected(closed: nat, forming: bool, target: int): int {
    if target <= 0 then 0 else if forming then Least(closed, PAGE - 1) else Least(closed, Pages(target))
  }

  /** Whatever calls fail, the rows collected are a gapless block of the venue's candles that ends at the newest closed
      one. When no call fails, they are the target in whole pages or the whole history, unless the first page held the
      forming candle: then that page is the only one. */
  lemma SyncCollectsBlock(h: seq<Kline>, now: Clock, fails: nat -> bool, target: int)
    requires IsHistory(h, now)
    ensures var n, c := ClosedCount(h, now), Collect(Serving(h, fails), now, target, 0, [], None);
            && |c.rows| <= n && c.rows == h[n - |c.rows|..n]
            && ((forall k :: !fails(k)) ==> !c.raised && |c.rows| == Expected(n, Forming(h, now), target))
  {
    var n := ClosedCount(h, now);
    var fetch := Serving(h, fails);
    assert h[n..n] == [];
    if Forming(h, now) {
      FormingPageIsLast(fetch, h, now, fails, target);
    } else {
      PagesBack(fetch, h, now, fails, target, 0, n, n, None);
    }
  }

  /** The page with the forming candle falls short of a thousand closed ones, and paging stops. */
  lemma FormingPageIsLast(fetch: Fetcher, h: seq<Kline>, now: Clock, fails: nat -> bool, target: int)
    requires Serves(fetch, h, fails) && IsHistory(h, now) && Forming(h, now)
    ensures var n := |h| - 1;
            Collect(fetch, now, target, 0, [], None) ==
              if target <= 0 then Collected([], false) else if fails(0) then Collected([], true)
              else Collected(h[n - Least(n, PAGE - 1)..n], false)
  {
    FinalizedStretch(h, now, Back(|h|), |h|);
    var n := |h| - 1;
    var batch := h[Back(|h|)..n];
    assert PageOf(h, None) == h[Back(|h|)..|h|];
    assert batch + [] == batch;
    assert batch == h[n - Least(n, PAGE - 1)..n];
  }

  /** With every call answered, sync collects what was asked for, as far as closed candles exist, if and only if it is
      not the case that a candle is forming while more than 999 closed ones exist and more than 999 are wanted. */
  lemma SyncKeepsItsPromise(h: seq<Kline>, now: Clock, target: int)
    requires IsHistory(h, now)
    ensures var n, c := ClosedCount(h, now), Collect(Serving(h, _ => false), now, target, 0, [], None);
            |c.rows| >= Least(target, n) <==> !(Forming(h, now) && n > 999 && target > 999)
  {
    SyncCollectsBlock(h, now, _ => false, target);
    PagesCover(target);
  }

  /** A candle per minute that closes a millisecond before the next one opens. */
  function Minute(i: nat): Kline { Kline(i * 60_000, Some(1.0), Some(1.0), Some(1.0), Some(1.0), Some(1.0),
                  Some(i * 60_000 + 59_999)) }

  /** 1000 closed candles and one forming: a thousand are wanted and exist, 999 are collected. */
  lemma FormingCandleEndsPaging()
    ensures var h, now := seq(1001, (i: nat) => Minute(i)), (_: nat) => 60_000_000;
            IsHistory(h, now) && ClosedCount(h, now) == 1000 &&
            |Collect(Serving(h, _ => false), now, 1000, 0, [], None).rows| == 999
  {
    var h, now := seq(1001, (i: nat) => Minute(i)), (_: nat) => 60_000_000;
    assert h[1000] == Minute(1000);
    SyncCollectsBlock(h, now, _ => false, 1000);
  }

  // ---- syncing again

  /** A page with two good candles of one time. */
  function TwoOfOneTime(): seq<Kline> {
    [Kline(0, Some(1.0), Some(1.0), Some(1.0), Some(1.0), Some(1.0), None),
     Kline(0, Some(2.0), Some(2.0), Some(2.0), Some(2.0), Some(2.0), None)]
  }

  /** Once accepted, the same answers are accepted again if and only if no two of the rows hold different candles for
      one time, and otherwise refused as a conflict; either way the second sync changes no cached candle. */
  lemma SameAnswersAgain(m: Store, symbol: Symbol, timeframe: string, c: Collected)
    requires SyncAnswer(m, symbol, timeframe, c).Ok?
    ensures var after := Put(m, symbol, timeframe, c.rows);
            && SyncAnswer(after, symbol, timeframe, c) ==
                 (if SelfConflict(c.rows) then Err(Refused(Conflicting)) else Ok(|c.rows|))
            && Put(after, symbol, timeframe, c.rows) == after
  {
    StrictWriteTwice(m, symbol, timeframe, c.rows);
    PutTwice(m, symbol, timeframe, c.rows);
  }

  /** The promise of idempotence fails: a fetcher whose one page holds two candles of one time is accepted into the
      empty cache and refused when it answers the same again. */
  lemma SecondSyncIsRefused(now: Clock, target: int, symbol: Symbol, timeframe: string)
    requires target > 0
    ensures var c := Collect((_, _) => Some(TwoOfOneTime()), now, target, 0, [], None);
            && SyncAnswer(map[], symbol, timeframe, c) == Ok(2)
            && SyncAnswer(Put(map[], symbol, timeframe, c.rows), symbol, timeframe, c) == Err(Refused(Conflicting))
  {
    var page := TwoOfOneTime();
    ClosedStretch(page, 0, 2, now(0));
    assert page[0..2] == page && page + [] == page;
    assert page[0] in page && page[1] in page && CandleOf(page[0]) != CandleOf(page[1]);
    SameAnswersAgain(map[], symbol, timeframe, Collected(page, false));
  }

  /** From a venue that keeps its candles, a second sync that reaches no further back writes nothing new. */
  lemma SyncAgainChangesNothing(h: seq<Kline>, now: Clock, fails: nat -> bool, target: int, again: nat -> bool,
                                aim: int, m: Store, symbol: Symbol, timeframe: string)
    requires IsHistory(h, now)
    requires SyncAnswer(m, symbol, timeframe, Collect(Serving(h, fails), now, target, 0, [], None)).Ok?
    requires |Collect(Serving(h, again), now, aim, 0, [], None).rows|
          <= |Collect(Serving(h, fails), now, target, 0, [], None).rows|
    ensures var c, d := Collect(Serving(h, fails), now, target, 0, [], None),
                        Collect(Serving(h, again), now, aim, 0, [], None);
            var after := Put(m, symbol, timeframe, c.rows);
            && SyncAnswer(after, symbol, timeframe, d) ==
                 (if d.raised && d.rows == [] then Err(FetchFailed) else Ok(|d.rows|))
            && Put(after, symbol, timeframe, d.rows) == after
  {
    var n := ClosedCount(h, now);
    var c, d := Collect(Serving(h, fails), now, target, 0, [], None), Collect(Serving(h, again), now, aim, 0, [], None);
    SyncCollectsBlock(h, now, fails, target);
    SyncCollectsBlock(h, now, again, aim);
    StretchIsLater(h, n, c.rows);
    assert d.rows == c.rows[|c.rows| - |d.rows|..];
    PartAgain(m, symbol, timeframe, c.rows, |c.rows| - |d.rows|);
  }

  /** Part of a batch in time order, written again, agrees with what is stored. */
  lemma PartAgain(m: Store, symbol: Symbol, timeframe: string, rows: seq<Kline>, from: nat)
    requires AllGood(rows) && StrictlyLater(rows) && from <= |rows|
    ensures var after, part := Put(m, symbol, timeframe, rows), rows[from..];
            AllGood(part) && !Clashes(after, symbol, timeframe, part) && Put(after, symbol, timeframe, part) == after
  {
    var after, part := Put(m, symbol, timeframe, rows), rows[from..];
    forall k | k in part ensures k in rows && Key(symbol, timeframe, k.openTime) in after {
      PutComesFromRow(m, symbol, timeframe, rows, k);
    }
    NoSelfConflict(rows);
    StrictWriteTwice(m, symbol, timeframe, rows);
    KnownRowsChangeNothing(after, symbol, timeframe, part);
  }

  lemma NoSelfConflict(rows: seq<Kline>)
    requires StrictlyLater(rows)
    ensures !SelfConflict(rows)
  {
    forall j, k | j in rows && k in rows && j.openTime == k.openTime ensures j == k { SameTimeSameRow(rows, j, k); }
  }

  lemma KnownRowsChangeNothing(m: Store, symbol: Symbol, timeframe: string, rows: seq<Kline>)
    requires AllGood(rows) && !Clashes(m, symbol, timeframe, rows)
    requires forall k :: k in rows ==> Key(symbol, timeframe, k.openTime) in m
    ensures Put(m, symbol, timeframe, rows) == m
  {
    PutKeys(m, symbol, timeframe, rows);
    StrictNeverChanges(m, symbol, timeframe, rows);
    assert Put(m, symbol, timeframe, rows).Keys == m.Keys;
  }

  /** Collected by paging back through h, whatever the target and whatever calls failed. */
  ghost predicate CameFrom(c: Collected, h: seq<Kline>, now: Clock) {
    exists fails, target :: c == Collect(Serving(h, fails), now, target, 0, [], None)
  }

  lemma CameFromStretch(c: Collected, h: seq<Kline>, now: Clock)
    requires IsHistory(h, now) && CameFrom(c, h, now)
    ensures var n := ClosedCount(h, now); |c.rows| <= n && c.rows == h[n - |c.rows|..n] && StrictlyLater(c.rows)
  {
    var fails, target :| c == Collect(Serving(h, fails), now, target, 0, [], None);
    SyncCollectsBlock(h, now, fails, target);
    StretchIsLater(h, ClosedCount(h, now), c.rows);
  }

  lemma CommonCandlesAgree(g: seq<Kline>, rows: seq<Kline>, more: seq<Kline>, symbol: Symbol, timeframe: string)
    requires StrictlyLater(g) && StrictlyLater(rows) && AllGood(rows) && AllGood(more)
    requires (forall k :: k in rows ==> k in g) && forall k :: k in more ==> k in g
    ensures !Clashes(Put(map[], symbol, timeframe, rows), symbol, timeframe, more)
  {
    PutStores(symbol, timeframe, rows);
    forall j, k | j in rows && k in more && j.openTime == k.openTime ensures j == k { SameTimeSameRow(g, j, k); }
  }

  /** After a sync of an empty cache the venue may close more candles: the next sync is accepted and keeps every candle
      cached. */
  lemma SyncAgainExtends(h: seq<Kline>, now: Clock, c: Collected, g: seq<Kline>, later: Clock, d: Collected,
                         symbol: Symbol, timeframe: string)
    requires IsHistory(h, now) && IsHistory(g, later) && h[..ClosedCount(h, now)] <= g
    requires CameFrom(c, h, now) && CameFrom(d, g, later) && AllGood(c.rows) && AllGood(d.rows)
    ensures var after := Put(map[], symbol, timeframe, c.rows);
            && SyncAnswer(after, symbol, timeframe, d) ==
                 (if d.raised && d.rows == [] then Err(FetchFailed) else Ok(|d.rows|))
            && Extends(after, Put(after, symbol, timeframe, d.rows))
  {
    CameFromStretch(c, h, now);
    CameFromStretch(d, g, later);
    var closed := h[..ClosedCount(h, now)];
    assert forall k :: k in c.rows ==> k in closed;
    assert forall k :: k in closed ==> k in g;
    CommonCandlesAgree(g, c.rows, d.rows, symbol, timeframe);
    StrictNeverChanges(Put(map[], symbol, timeframe, c.rows), symbol, timeframe, d.rows);
  }

  // ---- the incremental update

  /** The first thousand rows that open at `start` or later. */
  function PageFrom(h: seq<Kline>, start: int): seq<Kline> {
    var m := Upto(h, start - 1);
    h[m..if m + PAGE < |h| then m + PAGE else |h|]
  }

  /** One page of candles newer than the newest one cached; an empty cache is synced instead. */
  method Update(store: HistoricalStore, symbol: Symbol, timeframe: string, fetch: Fetcher,
                fetchFrom: int -> Option<seq<Kline>>,
                now: Clock)
    returns (r: Result<nat, SyncError>, ghost last: Option<int>, ghost c: Collected)
    modifies store
    ensures IsLast(old(store.candles), symbol, timeframe, last)
    ensures last.None? ==>
              c == Collect(fetch, now, 3000, 0, [], None) &&
              r == if Supported(symbol, timeframe).Some? then Err(Supported(symbol, timeframe).value)
                   else SyncAnswer(old(store.candles), symbol, timeframe, c)
    ensures last.Some? ==>
              c == UpdateRows(fetchFrom, last.value + OrZero(Candles.TimeframeMs(timeframe)), now(0)) &&
              r == SyncAnswer(old(store.candles), symbol, timeframe, c)
    ensures store.candles == if r.Ok? then Put(old(store.candles), symbol, timeframe, c.rows) else old(store.candles)
  {
    var newest := store.LastOpenTime(symbol, timeframe);
    last := newest;
    if newest.None? {
      r, c := Sync(store, symbol, timeframe, 3000, fetch, now);
      return;
    }
    var start := newest.value + OrZero(Candles.TimeframeMs(timeframe));
    c := UpdateRows(fetchFrom, start, now(0));
    var page := fetchFrom(start);
    if page.None? { return Err(FetchFailed), last, c; }
    var rows := Finalize(page.value, now(0));
    var written := store.Upsert(symbol, timeframe, rows, true);
    if written.Err? { return Err(Refused(written.error)), last, c; }
    return Ok(written.value), last, c;
  }

  function OrZero(x: Option<int>): int { if x.Some? then x.value else 0 }

  function UpdateRows(fetchFrom: int -> Option<seq<Kline>>, start: int, now: int): Collected {
    var page := fetchFrom(start);
    if page.None? then Collected([], true) else Collected(Finalized(page.value, now), false)
  }

  /** The rows an update writes: one page after the newest candle cached, without the forming one, continues the
      cached block without a gap. */
  lemma UpdateContinues(h: seq<Kline>, now: Clock, j: nat, start: int)
    requires IsHistory(h, now) && j < |h| && h[j].openTime < start
    requires j + 1 < |h| ==> start <= h[j + 1].openTime
    ensures var n, rows := ClosedCount(h, now), Finalized(PageFrom(h, start), now(0));
            rows == h[Least(j + 1, n)..Least(n, j + 1 + PAGE)]
  {
    CountAt(h, j, start - 1);
    if j + 1 <= ClosedCount(h, now) {
      FinalizedStretch(h, now, j + 1, if j + 1 + PAGE < |h| then j + 1 + PAGE else |h|);
    }
  }

  lemma {:induction false} CountAt(h: seq<Kline>, j: nat, end: int)
    requires StrictlyLater(h) && j < |h| && h[j].openTime <= end && (j + 1 < |h| ==> end < h[j + 1].openTime)
    ensures CountUpTo(h, end) == j + 1
  {
    var n := |h| - 1;
    assert h == h[..n] + [h[n]];
    if j < n {
      CountAt(h[..n], j, end);
    } else {
      AllBefore(h, end);
    }
  }

  // ---- from the venue through the cache to the integrity check

  ghost predicate Steps(times: seq<int>, step: int) {
    forall i, j :: 0 <= i && j == i + 1 < |times| ==> times[j] - times[i] == step
  }

  function OpenTimes(h: seq<Kline>): seq<int> { seq(|h|, i requires 0 <= i < |h| => h[i].openTime) }
  function Stamps(bars: seq<Bar>): seq<int> { seq(|bars|, i requires 0 <= i < |bars| => bars[i].timestamp) }

  lemma {:induction false} SteppedHasNoGap(bars: seq<Bar>, step: int)
    requires step > 0 && Steps(Stamps(bars), step)
    ensures Integrity.AllGaps(bars, Some(step)) == [] && Integrity.Repeats(bars) == 0
  {
    if |bars| >= 2 {
      var n := |bars| - 1;
      assert Stamps(bars[..n]) == Stamps(bars)[..n];
      SteppedHasNoGap(bars[..n], step);
      assert Stamps(bars)[n] - Stamps(bars)[n - 1] == step;
    }
  }

  /** Syncing an empty cache from a venue whose candles follow each other without a gap, whatever calls fail: what is
      read back has as many bars as were collected, ends at the newest closed candle, and passes the check of gaps and
      repeats. */
  lemma SyncedSeriesIsWhole(h: seq<Kline>, now: Clock, fails: nat -> bool, target: int, step: int,
                            symbol: Symbol, timeframe: string, rows: seq<Kline>, bars: seq<Bar>)
    requires IsHistory(h, now) && step > 0 && Steps(OpenTimes(h), step)
    requires rows == Collect(Serving(h, fails), now, target, 0, [], None).rows && AllGood(rows)
    requires IsQuery(Put(map[], symbol, timeframe, rows), symbol, timeframe, None, None, bars)
    ensures IsWhole(h, ClosedCount(h, now), step, rows, bars)
  {
    SyncCollectsBlock(h, now, fails, target);
    StretchIsLater(h, ClosedCount(h, now), rows);
    WrittenIsRead(symbol, timeframe, rows, bars);
    StretchIsWhole(h, ClosedCount(h, now), step, rows);
  }

  ghost predicate IsWhole(h: seq<Kline>, n: nat, step: int, rows: seq<Kline>, bars: seq<Bar>)
    requires step > 0
  {
    && |bars| == |rows| && Integrity.AllGaps(bars, Some(step)) == [] && Integrity.Repeats(bars) == 0
    && (bars != [] ==> 0 < n <= |h| && bars[|bars| - 1].timestamp == h[n - 1].openTime)
  }

  lemma StretchIsLater(h: seq<Kline>, n: nat, rows: seq<Kline>)
    requires StrictlyLater(h) && |rows| <= n <= |h| && rows == h[n - |rows|..n]
    ensures StrictlyLater(rows)
  {
    assert forall i :: 0 <= i < |rows| ==> rows[i] == h[n - |rows| + i];
  }

  lemma StretchIsWhole(h: seq<Kline>, n: nat, step: int, rows: seq<Kline>)
    requires step > 0 && Steps(OpenTimes(h), step) && |rows| <= n <= |h| && rows == h[n - |rows|..n] && AllGood(rows)
    ensures IsWhole(h, n, step, rows, BarsOf(rows))
  {
    var bars, first := BarsOf(rows), n - |rows|;
    assert forall i :: 0 <= i < |rows| ==> rows[i] == h[first + i];
    forall i, j | 0 <= i && j == i + 1 < |bars| ensures Stamps(bars)[j] - Stamps(bars)[i] == step {
      assert OpenTimes(h)[first + j] - OpenTimes(h)[first + i] == step;
    }
    SteppedHasNoGap(bars, step);
  }
}
