/** Drawdown, computed three times in the repository: bot/metrics.py, bot/dashboard_report.py
    and, in units of R, automation-hub/backtest.py. */
module Drawdown {
  import opened Types
  import opened Folds

  // ---- peak-to-trough fraction of an equity curve

  /** The highest of the first n values. */
  function Peak(eq: seq<real>, n: nat): real
    requires 0 < n <= |eq|
  {
    if n == 1 then eq[0] else Max(Peak(eq, n - 1), eq[n - 1])
  }

  /** The fall of v below p as a fraction of p; none when p is not positive. */
  function Fall(v: real, p: real): real {
    if p > 0.0 then (v - p) / p else 0.0
  }

  /** x is the least element of xs, or 0 if none is negative. */
  ghost predicate IsLeast(x: real, xs: seq<real>) {
    && x <= 0.0
    && (forall i :: 0 <= i < |xs| ==> x <= xs[i])
    && (x == 0.0 || exists i :: 0 <= i < |xs| && xs[i] == x)
  }

  /** At every point, the fall below the highest value so far. */
  function Falls(eq: seq<real>): seq<real> {
    seq(|eq|, i requires 0 <= i < |eq| => Fall(eq[i], Peak(eq, i + 1)))
  }

  method DrawdownSeries(eq: seq<real>) returns (out: seq<real>)
    ensures out == Falls(eq)
  {
    out := [];
    var peak := if eq != [] then eq[0] else 0.0;
    for i := 0 to |eq|
      invariant |out| == i
      invariant i > 0 ==> peak == Peak(eq, i)
      invariant i == 0 && eq != [] ==> peak == eq[0]
      invariant forall k :: 0 <= k < i ==> out[k] == Fall(eq[k], Peak(eq, k + 1))
    {
      var v := eq[i];
      if v > peak { peak := v; }
      out := out + [if peak > 0.0 then (v - peak) / peak else 0.0];
    }
  }

  /** The worst fall below the running peak is the least point of the drawdown series. */
  method MaxDrawdown(eq: seq<real>) returns (worst: real)
    ensures IsLeast(worst, Falls(eq))
  {
    ghost var falls := Falls(eq);
    if eq == [] { return 0.0; }
    var peak := eq[0];
    worst := 0.0;
    for i := 0 to |eq|
      invariant peak == if i == 0 then eq[0] else Peak(eq, i)
      invariant IsLeast(worst, falls[..i])
    {
      var v := eq[i];
      ghost var before := worst;
      if v > peak { peak := v; }
      if peak > 0.0 {
        var dd := (v - peak) / peak;
        if dd < worst { worst := dd; }
      }
      assert falls[..i + 1] == falls[..i] + [falls[i]];
      assert worst == before || worst == falls[i];
      if worst == before && worst != 0.0 {
        var k :| 0 <= k < i && falls[..i][k] == worst;
        assert falls[..i + 1][k] == worst;
      } else if worst != 0.0 {
        assert falls[..i + 1][i] == worst;
      }
    }
    assert falls[..|eq|] == falls;
  }

  lemma {:induction false} PeakIsHighest(eq: seq<real>, n: nat)
    requires 0 < n <= |eq|
    ensures forall i :: 0 <= i < n ==> eq[i] <= Peak(eq, n)
    ensures exists i :: 0 <= i < n && eq[i] == Peak(eq, n)
    decreases n
  {
    if n > 1 {
      PeakIsHighest(eq, n - 1);
      var k :| 0 <= k < n - 1 && eq[k] == Peak(eq, n - 1);
      assert eq[if Peak(eq, n) == eq[n - 1] then n - 1 else k] == Peak(eq, n);
    } else {
      assert eq[0] == Peak(eq, n);
    }
  }

  lemma Scale(x: real, y: real, c: real)
    requires c > 0.0
    ensures x < y <==> x * c < y * c
  {
  }

  lemma LargerFactor(x: real, a: real, y: real, b: real)
    requires 0.0 < a <= b && x * a == y * b >= 0.0
    ensures y <= x
  {
    Scale(x, 0.0, a);
    assert x * a <= x * b by {
      if x > 0.0 { Scale(b, a, x); }
    }
    Scale(x, y, b);
  }

  lemma HigherBaseFallsDeeper(v: real, a: real, b: real)
    requires v >= 0.0 && 0.0 < a <= b
    ensures Fall(v, b) <= Fall(v, a)
  {
    assert (Fall(v, a) + 1.0) * a == v && (Fall(v, b) + 1.0) * b == v;
    LargerFactor(Fall(v, a) + 1.0, a, Fall(v, b) + 1.0, b);
  }

  /** The fraction lost from the value at i to the one at j. */
  function Loss(eq: seq<real>, i: nat, j: nat): real
    requires i < |eq| && j < |eq| && eq[i] > 0.0
  { (eq[j] - eq[i]) / eq[i] }

  /** x is the least (v_j - v_i) / v_i over all i <= j with v_i > 0, or 0 when there is no such pair. */
  ghost predicate IsPairLeast(x: real, eq: seq<real>) {
    && x <= 0.0
    && (forall i, j :: 0 <= i <= j < |eq| && eq[i] > 0.0 ==> x <= Loss(eq, i, j))
    && (x == 0.0 || exists i, j :: 0 <= i <= j < |eq| && eq[i] > 0.0 && x == Loss(eq, i, j))
  }

  lemma PairLeastIsUnique(x: real, y: real, eq: seq<real>)
    requires IsPairLeast(x, eq) && IsPairLeast(y, eq)
    ensures x == y
  {
  }

  /** The lowest positive one of the first n values, or 0 when none is positive. */
  function Floor(eq: seq<real>, n: nat): real
    requires n <= |eq|
  {
    if n == 0 then 0.0 else
      var floor := Floor(eq, n - 1);
      if eq[n - 1] > 0.0 && (floor == 0.0 || eq[n - 1] < floor) then eq[n - 1] else floor
  }

  lemma {:induction false} FloorIsLowest(eq: seq<real>, n: nat)
    requires n <= |eq|
    ensures Floor(eq, n) >= 0.0
    ensures forall i :: 0 <= i < n && eq[i] > 0.0 ==> 0.0 < Floor(eq, n) <= eq[i]
    ensures Floor(eq, n) > 0.0 ==> exists i :: 0 <= i < n && eq[i] == Floor(eq, n)
  {
    if n > 0 {
      FloorIsLowest(eq, n - 1);
      if Floor(eq, n) == eq[n - 1] {
      } else if Floor(eq, n) > 0.0 {
        var k :| 0 <= k < n - 1 && eq[k] == Floor(eq, n - 1);
        assert 0 <= k < n && eq[k] == Floor(eq, n);
      }
    }
  }

  /** The value below which a fall to v is the deepest: the highest so far, but the lowest positive one for a loss of
      more than everything. */
  function BaseFor(eq: seq<real>, j: nat): real
    requires j < |eq|
  { if eq[j] < 0.0 then Floor(eq, j + 1) else Peak(eq, j + 1) }

  /** At every point, the deepest fall from any value so far. */
  function Deepest(eq: seq<real>): seq<real> {
    seq(|eq|, j requires 0 <= j < |eq| => Fall(eq[j], BaseFor(eq, j)))
  }

  lemma LowerBaseFallsDeeper(v: real, a: real, b: real)
    requires v < 0.0 && 0.0 < a <= b
    ensures Fall(v, a) <= Fall(v, b)
    ensures Fall(v, a) == Fall(v, b) ==> a == b
  {
    var x, y := Fall(v, a) + 1.0, Fall(v, b) + 1.0;
    assert x * a == v && y * b == v;
    assert (-x) * a == (-y) * b;
    LargerFactor(-x, a, -y, b);
    if x == y { assert x * (a - b) == 0.0; }
  }

  lemma BaseIsDeepest(eq: seq<real>, i: nat, j: nat)
    requires i <= j < |eq| && eq[i] > 0.0
    ensures BaseFor(eq, j) > 0.0 && Fall(eq[j], BaseFor(eq, j)) <= Loss(eq, i, j)
  {
    PeakIsHighest(eq, j + 1);
    FloorIsLowest(eq, j + 1);
    if eq[j] < 0.0 {
      LowerBaseFallsDeeper(eq[j], Floor(eq, j + 1), eq[i]);
    } else {
      HigherBaseFallsDeeper(eq[j], eq[i], Peak(eq, j + 1));
    }
  }

  lemma BaseIsGiven(eq: seq<real>, j: nat)
    requires j < |eq| && BaseFor(eq, j) > 0.0
    ensures exists i :: 0 <= i <= j && eq[i] == BaseFor(eq, j)
  {
    PeakIsHighest(eq, j + 1);
    FloorIsLowest(eq, j + 1);
    if eq[j] < 0.0 {
      var i :| 0 <= i < j + 1 && eq[i] == Floor(eq, j + 1);
    } else {
      var i :| 0 <= i < j + 1 && eq[i] == Peak(eq, j + 1);
    }
  }

  /** On every curve the least loss of any pair is the least of the deepest falls. */
  lemma PairsOnEveryCurve(eq: seq<real>, x: real)
    requires IsLeast(x, Deepest(eq))
    ensures IsPairLeast(x, eq)
  {
    var falls := Deepest(eq);
    forall i, j | 0 <= i <= j < |eq| && eq[i] > 0.0 ensures x <= Loss(eq, i, j) {
      BaseIsDeepest(eq, i, j);
      assert x <= falls[j];
    }
    if x != 0.0 {
      var j :| 0 <= j < |falls| && falls[j] == x;
      BaseIsGiven(eq, j);
      var i :| 0 <= i <= j && eq[i] == BaseFor(eq, j);
      assert x == Loss(eq, i, j);
    }
  }

  lemma {:induction false} LeastExists(xs: seq<real>)
    ensures exists x :: IsLeast(x, xs)
  {
    if xs == [] {
      assert IsLeast(0.0, xs);
    } else {
      var n := |xs| - 1;
      LeastExists(xs[..n]);
      var x :| IsLeast(x, xs[..n]);
      var y := Min(x, xs[n]);
      if y != 0.0 && y != xs[n] {
        var i :| 0 <= i < n && xs[..n][i] == x;
        assert xs[i] == y;
      }
      assert IsLeast(y, xs);
    }
  }

  // ---- when the result is the least loss of any pair

  /** A negative value after a positive one. */
  predicate Overdrawn(eq: seq<real>, j: nat) { j < |eq| && eq[j] < 0.0 && Peak(eq, j + 1) > 0.0 }

  lemma FallsByBase(eq: seq<real>, j: nat)
    requires j < |eq|
    ensures !Overdrawn(eq, j) ==> Deepest(eq)[j] == Falls(eq)[j] >= -1.0
    ensures Overdrawn(eq, j) ==> Deepest(eq)[j] <= Falls(eq)[j] && Deepest(eq)[j] < -1.0
    ensures Overdrawn(eq, j) ==> (Deepest(eq)[j] == Falls(eq)[j] <==> Floor(eq, j + 1) == Peak(eq, j + 1))
  {
    var floor, peak := Floor(eq, j + 1), Peak(eq, j + 1);
    PeakIsHighest(eq, j + 1);
    FloorIsLowest(eq, j + 1);
    if Overdrawn(eq, j) {
      LowerBaseFallsDeeper(eq[j], floor, peak);
      NegativeFallsBelowAll(eq[j], floor);
    } else if peak > 0.0 {
      HigherBaseFallsDeeper(eq[j], peak, peak);
      FallIsAtMostAll(eq[j], peak);
    }
  }

  lemma NegativeFallsBelowAll(v: real, p: real)
    requires v < 0.0 < p
    ensures Fall(v, p) < -1.0
  {
    Scale(Fall(v, p), -1.0, p);
  }

  lemma FallIsAtMostAll(v: real, p: real)
    requires 0.0 <= v && 0.0 < p
    ensures Fall(v, p) >= -1.0
  {
    Scale(Fall(v, p), -1.0, p);
  }

  /** The least of the deepest falls stands on a negative value before which all positive values are equal. */
  ghost predicate DeepestIsFromPeak(eq: seq<real>) {
    exists j :: 0 <= j < |eq| && Overdrawn(eq, j) && Floor(eq, j + 1) == Peak(eq, j + 1)
      && IsLeast(Deepest(eq)[j], Deepest(eq))
  }

  /** The result is the least loss of any pair if and only if no value after a positive one is negative, or the deepest
      of all falls ends at a value before which all positive values are equal. */
  lemma PairsExactly(eq: seq<real>, worst: real)
    requires IsLeast(worst, Falls(eq))
    ensures IsPairLeast(worst, eq) <==> (forall j :: 0 <= j < |eq| ==> !Overdrawn(eq, j)) || DeepestIsFromPeak(eq)
  {
    LeastExists(Deepest(eq));
    var x :| IsLeast(x, Deepest(eq));
    PairsOnEveryCurve(eq, x);
    if IsPairLeast(worst, eq) { PairLeastIsUnique(x, worst, eq); }
    assert IsPairLeast(worst, eq) <==> worst == x;
    LeastsAgreeExactly(eq, worst, x);
  }

  lemma LeastsAgreeExactly(eq: seq<real>, worst: real, x: real)
    requires IsLeast(worst, Falls(eq)) && IsLeast(x, Deepest(eq))
    ensures worst == x <==> (forall j :: 0 <= j < |eq| ==> !Overdrawn(eq, j)) || DeepestIsFromPeak(eq)
  {
    var falls, deepest := Falls(eq), Deepest(eq);
    forall j | 0 <= j < |eq|
      ensures !Overdrawn(eq, j) ==> deepest[j] == falls[j] >= -1.0
      ensures Overdrawn(eq, j) ==> deepest[j] <= falls[j] && deepest[j] < -1.0
      ensures Overdrawn(eq, j) ==> (deepest[j] == falls[j] <==> Floor(eq, j + 1) == Peak(eq, j + 1))
    {
      FallsByBase(eq, j);
    }
    if k :| 0 <= k < |eq| && Overdrawn(eq, k) {
      assert x <= deepest[k] < -1.0;
      if worst == x {
        var j :| 0 <= j < |falls| && falls[j] == worst;
        assert Overdrawn(eq, j) && deepest[j] == x;
      }
      if j :| 0 <= j < |eq| && Overdrawn(eq, j) && Floor(eq, j + 1) == Peak(eq, j + 1) && IsLeast(deepest[j], deepest) {
        assert worst <= falls[j] == deepest[j] <= x;
        AboveDeepest(eq, worst, x);
      }
    } else {
      assert falls == deepest;
    }
  }

  lemma AboveDeepest(eq: seq<real>, worst: real, x: real)
    requires IsLeast(worst, Falls(eq)) && IsLeast(x, Deepest(eq))
    ensures x <= worst
  {
    if worst != 0.0 {
      var j :| 0 <= j < |eq| && Falls(eq)[j] == worst;
      FallsByBase(eq, j);
      assert x <= Deepest(eq)[j];
    }
  }

  /** For equity that never goes negative, the result is the least loss of any pair. */
  lemma WorstOverAllPairs(eq: seq<real>, worst: real)
    requires forall i :: 0 <= i < |eq| ==> eq[i] >= 0.0
    requires IsLeast(worst, Falls(eq))
    ensures IsPairLeast(worst, eq)
  {
    PairsExactly(eq, worst);
  }

  /** From 1 over 2 to -2 the result is a fall of twice the peak, yet three times the first value was lost. */
  lemma NegativeEquityBreaksPairs(worst: real)
    requires IsLeast(worst, Falls([1.0, 2.0, -2.0]))
    ensures worst == -2.0 && IsPairLeast(-3.0, [1.0, 2.0, -2.0]) && !IsPairLeast(worst, [1.0, 2.0, -2.0])
  {
    var eq := [1.0, 2.0, -2.0];
    assert Peak(eq, 1) == 1.0 && Peak(eq, 2) == 2.0 && Peak(eq, 3) == 2.0;
    assert Falls(eq) == [0.0, 0.0, -2.0];
    assert worst <= Falls(eq)[2];
    assert Loss(eq, 0, 2) == -3.0;
    assert Loss(eq, 1, 2) == -2.0 && Loss(eq, 0, 1) == 1.0;
  }

  // ---- drop of a running total, in R

  datatype Curve = Curve(eq: real, peak: real, drop: real)

  function Add(c: Curve, r: real): Curve {
    var eq := c.eq + r;
    var peak := Max(c.peak, eq);
    Curve(eq, peak, Max(c.drop, peak - eq))
  }

  function CurveOf(rs: seq<real>): Curve {
    if rs == [] then Curve(0.0, 0.0, 0.0) else Add(CurveOf(rs[..|rs| - 1]), rs[|rs| - 1])
  }

  /** The running totals of rs, from the starting zero to the sum of all of rs. */
  function Totals(rs: seq<real>): (ts: seq<real>)
    ensures |ts| == |rs| + 1
  {
    if rs == [] then [0.0] else
      var ts := Totals(rs[..|rs| - 1]);
      ts + [ts[|rs| - 1] + rs[|rs| - 1]]
  }

  /** `peak` is the highest total and `drop` the largest fall from a total to a later one. */
  ghost predicate Describes(c: Curve, ts: seq<real>)
    requires ts != []
  {
    && c.eq == ts[|ts| - 1]
    && (forall i :: 0 <= i < |ts| ==> ts[i] <= c.peak)
    && (exists i :: 0 <= i < |ts| && ts[i] == c.peak)
    && (forall i, j :: 0 <= i <= j < |ts| ==> ts[i] - ts[j] <= c.drop)
    && (exists i, j :: 0 <= i <= j < |ts| && ts[i] - ts[j] == c.drop)
  }

  lemma AddDescribes(c: Curve, ts: seq<real>, r: real)
    requires ts != [] && Describes(c, ts)
    ensures Describes(Add(c, r), ts + [ts[|ts| - 1] + r])
  {
    var n, us, d := |ts|, ts + [ts[|ts| - 1] + r], Add(c, r);
    var p :| 0 <= p < n && ts[p] == c.peak;
    var a, b :| 0 <= a <= b < n && ts[a] - ts[b] == c.drop;
    var top := if d.peak == c.peak then p else n;
    assert us[top] == d.peak;
    assert us[a] - us[b] == c.drop && us[top] - us[n] == d.peak - d.eq;
  }

  /** The drop is the largest fall between two points of the running total, the starting zero included. */
  lemma {:induction false} DropIsWorstFall(rs: seq<real>)
    ensures Describes(CurveOf(rs), Totals(rs)) && CurveOf(rs).eq == Sum(rs)
  {
    if rs == [] {
      assert Totals(rs)[0] - Totals(rs)[0] == 0.0;
    } else {
      DropIsWorstFall(rs[..|rs| - 1]);
      AddDescribes(CurveOf(rs[..|rs| - 1]), Totals(rs[..|rs| - 1]), rs[|rs| - 1]);
    }
  }
}
