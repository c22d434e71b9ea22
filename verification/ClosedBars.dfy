/** The filter of provider candles for forward execution (automation-hub/data/forward_market_data.py). */
module ClosedBars {
  import opened Types
  import opened Folds

  /** A provider candle: no stamp unless it is a time, no value unless it is a finite number. */
  datatype Quote = Quote(
    stamp: Option<int>, open: Option<real>, high: Option<real>, low: Option<real>, close: Option<real>,
    volume: Option<real>)

  predicate Complete(q: Quote) {
    q.stamp.Some? && q.open.Some? && q.high.Some? && q.low.Some? && q.close.Some? && q.volume.Some?
  }

  predicate Sane(q: Quote)
    requires Complete(q)
  {
    var o, h, low, c := q.open.value, q.high.value, q.low.value, q.close.value;
    && !(Min(Min(o, h), Min(low, c)) <= 0.0) && !(q.volume.value < 0.0)
    && !(h < Max(Max(o, c), low)) && !(low > Min(Min(o, c), h))
  }

  /** The candle is over. */
  predicate Over(t: int, length: int, now: int) { t + length <= now }

  function Valid(q: Quote, length: int, now: int): Option<Bar> {
    if !Complete(q) || !Sane(q) || !Over(q.stamp.value, length, now) then None
    else Some(Bar(q.stamp.value, q.open.value, q.high.value, q.low.value, q.close.value, q.volume.value))
  }

  /** The last valid candle of the given time. */
  function LastValid(qs: seq<Quote>, length: int, now: int, t: int): Option<Bar> {
    if qs == [] then None else
      var b := Valid(qs[|qs| - 1], length, now);
      if b.Some? && b.value.timestamp == t then b else LastValid(qs[..|qs| - 1], length, now, t)
  }

  ghost predicate IsClosedBars(qs: seq<Quote>, length: int, now: int, out: seq<Bar>) {
    IncreasingBy(TimeOf(), out) && forall b :: b in out <==> LastValid(qs, length, now, b.timestamp) == Some(b)
  }

  method ValidClosedBars(qs: seq<Quote>, length: int, now: int) returns (out: seq<Bar>)
    ensures IsClosedBars(qs, length, now, out)
  {
    var unique: map<int, Bar> := map[];
    for i := 0 to |qs|
      invariant forall t :: (t in unique <==> LastValid(qs[..i], length, now, t).Some?)
      invariant forall t :: t in unique ==>
        LastValid(qs[..i], length, now, t) == Some(unique[t]) && unique[t].timestamp == t
    {
      assert qs[..i + 1][..i] == qs[..i];
      var b := Valid(qs[i], length, now);
      if b.None? { continue; }
      unique := unique[b.value.timestamp := b.value];
    }
    assert qs[..|qs|] == qs;
    out := InKeyOrder(TimeOf(), set t | t in unique :: unique[t]);
    forall b ensures b in out <==> LastValid(qs, length, now, b.timestamp) == Some(b) {
      assert b.timestamp in unique <==> LastValid(qs, length, now, b.timestamp).Some?;
    }
  }

  // ---- what the filter promises

  /** A result is a stretch of candles that are complete, sane and over, and the last valid one given for their time. */
  lemma {:induction false} LastValidIsGiven(qs: seq<Quote>, length: int, now: int, t: int)
    ensures var r := LastValid(qs, length, now, t);
            if r.None? then forall q :: q in qs ==> Valid(q, length, now) == None || q.stamp != Some(t)
            else exists i :: 0 <= i < |qs| && Valid(qs[i], length, now) == r && r.value.timestamp == t &&
                   forall j :: i < j < |qs| ==> Valid(qs[j], length, now) == None || qs[j].stamp != Some(t)
  {
    if qs != [] {
      var n := |qs| - 1;
      assert qs == qs[..n] + [qs[n]];
      LastValidIsGiven(qs[..n], length, now, t);
      var b := Valid(qs[n], length, now);
      if b.Some? && b.value.timestamp == t {
        assert Valid(qs[n], length, now) == LastValid(qs, length, now, t);
      } else if LastValid(qs[..n], length, now, t).Some? {
        var i :| 0 <= i < n && Valid(qs[..n][i], length, now) == LastValid(qs[..n], length, now, t) &&
          forall j :: i < j < n ==> Valid(qs[..n][j], length, now) == None || qs[..n][j].stamp != Some(t);
        assert qs[i] == qs[..n][i];
        forall j | i < j < |qs| ensures Valid(qs[j], length, now) == None || qs[j].stamp != Some(t) {
          if j < n { assert qs[..n][j] == qs[j]; }
        }
      }
    }
  }

  function AsQuote(b: Bar): Quote {
    Quote(Some(b.timestamp), Some(b.open), Some(b.high), Some(b.low), Some(b.close), Some(b.volume))
  }

  function AsQuotes(bars: seq<Bar>): seq<Quote> { seq(|bars|, i requires 0 <= i < |bars| => AsQuote(bars[i])) }

  ghost predicate AllValid(bars: seq<Bar>, length: int, now: int) {
    forall i :: 0 <= i < |bars| ==> Valid(AsQuote(bars[i]), length, now) == Some(bars[i])
  }

  lemma {:induction false} LastValidOfBars(bars: seq<Bar>, length: int, now: int, t: int)
    requires AllValid(bars, length, now)
    ensures LastValid(AsQuotes(bars), length, now, t).Some? ==> LastValid(AsQuotes(bars), length, now, t).value in bars
  {
    if bars != [] {
      var n := |bars| - 1;
      assert AsQuotes(bars)[..n] == AsQuotes(bars[..n]);
      LastValidOfBars(bars[..n], length, now, t);
    }
  }

  lemma {:induction false} BarIsLastValid(bars: seq<Bar>, length: int, now: int, i: nat)
    requires AllValid(bars, length, now) && IncreasingBy(TimeOf(), bars) && i < |bars|
    ensures LastValid(AsQuotes(bars), length, now, bars[i].timestamp) == Some(bars[i])
  {
    var n := |bars| - 1;
    assert AsQuotes(bars)[..n] == AsQuotes(bars[..n]);
    assert AsQuotes(bars)[n] == AsQuote(bars[n]);
    if i < n {
      assert TimeOf()(bars[i]) < TimeOf()(bars[n]);
      BarIsLastValid(bars[..n], length, now, i);
    }
  }

  lemma {:induction false} LastValidIsValid(qs: seq<Quote>, length: int, now: int, t: int)
    requires LastValid(qs, length, now, t).Some?
    ensures var b := LastValid(qs, length, now, t).value; Valid(AsQuote(b), length, now) == Some(b) && b.timestamp == t
  {
    if !(Valid(qs[|qs| - 1], length, now).Some? && Valid(qs[|qs| - 1], length, now).value.timestamp == t) {
      LastValidIsValid(qs[..|qs| - 1], length, now, t);
    }
  }

  /** Filtering a result again, at the same time, returns it unchanged. */
  lemma FilterIsIdempotent(qs: seq<Quote>, length: int, now: int, out: seq<Bar>, again: seq<Bar>)
    requires IsClosedBars(qs, length, now, out) && IsClosedBars(AsQuotes(out), length, now, again)
    ensures again == out
  {
    forall i | 0 <= i < |out| ensures Valid(AsQuote(out[i]), length, now) == Some(out[i]) {
      assert out[i] in out;
      LastValidIsValid(qs, length, now, out[i].timestamp);
    }
    forall b ensures b in again <==> b in out {
      LastValidOfBars(out, length, now, b.timestamp);
      if b in out {
        var i :| 0 <= i < |out| && out[i] == b;
        BarIsLastValid(out, length, now, i);
      }
    }
    IncreasingIsUnique(TimeOf(), again, out);
  }

  lemma {:induction false} EarlierKnowsLess(qs: seq<Quote>, length: int, earlier: int, later: int, t: int)
    requires earlier <= later
    ensures LastValid(qs, length, earlier, t) ==
              if Over(t, length, earlier) then LastValid(qs, length, later, t) else None
  {
    if qs != [] { EarlierKnowsLess(qs[..|qs| - 1], length, earlier, later, t); }
  }

  lemma {:induction false} Cut(out: seq<Bar>, length: int, now: int) returns (k: nat)
    requires IncreasingBy(TimeOf(), out)
    ensures k <= |out| && forall i :: 0 <= i < |out| ==> (Over(out[i].timestamp, length, now) <==> i < k)
  {
    k := |out|;
    if out != [] && !Over(out[|out| - 1].timestamp, length, now) {
      k := Cut(out[..|out| - 1], length, now);
      assert forall i :: 0 <= i < |out| - 1 ==> out[..|out| - 1][i] == out[i];
    } else if out != [] {
      forall i | 0 <= i < |out| - 1 ensures out[i].timestamp < out[|out| - 1].timestamp {
        assert TimeOf()(out[i]) < TimeOf()(out[|out| - 1]);
      }
    }
  }

  /** What is returned at an earlier time is a prefix of what is returned at a later one: exactly the candles already
      over. */
  lemma FilterGrows(qs: seq<Quote>, length: int, earlier: int, later: int, before: seq<Bar>, after: seq<Bar>)
    requires earlier <= later && IsClosedBars(qs, length, earlier, before) && IsClosedBars(qs, length, later, after)
    ensures before <= after
    ensures forall b :: b in before <==> b in after && Over(b.timestamp, length, earlier)
  {
    forall b ensures b in before <==> b in after && Over(b.timestamp, length, earlier) {
      EarlierKnowsLess(qs, length, earlier, later, b.timestamp);
    }
    var k := Cut(after, length, earlier);
    forall b ensures b in after[..k] <==> b in before {
      if b in before {
        var i :| 0 <= i < |after| && after[i] == b;
        assert i < k && after[..k][i] == b;
      }
    }
    IncreasingIsUnique(TimeOf(), before, after[..k]);
  }
}
