/** Maximum drawdown: the backtest's one-pass form, the Teacher's, and what both compute. */
module Drawdown {
  import opened Trading

  /** How far `low` lies below `high`, as a fraction of `high`. */
  function Drop(high: real, low: real): real
    requires high > 0.0
  {
    (high - low) / high
  }

  /** The running peak and drawdown after a curve. */
  datatype Running = Running(peak: real, drawdown: real)

  function After(curve: seq<real>): (r: Running)
    requires |curve| > 0 && curve[0] > 0.0
    ensures r.peak >= curve[0]
  {
    if |curve| == 1 then Running(curve[0], 0.0)
    else
      var before, last := After(curve[..|curve| - 1]), curve[|curve| - 1];
      var peak := Max(before.peak, last);
      Running(peak, Max(before.drawdown, Drop(peak, last)))
  }

  /** The backtest's form over an equity curve; `ok` is false where the source raises. */
  method MaximumDrawdown(curve: seq<real>) returns (ok: bool, result: real)
    ensures ok <==> curve != [] && curve[0] > 0.0
    ensures ok ==> result == After(curve).drawdown
  {
    result := 0.0;
    if curve == [] || curve[0] <= 0.0 {
      return false, 0.0;
    }
    var peak := curve[0];
    for i := 0 to |curve|
      invariant i == 0 ==> peak == curve[0] && result == 0.0
      invariant i > 0 ==> After(curve[..i]) == Running(peak, result)
    {
      assert curve[..i + 1][..i] == curve[..i];
      peak := Max(peak, curve[i]);
      if peak <= 0.0 {
        return false, 0.0;
      }
      result := Max(result, (peak - curve[i]) / peak);
    }
    assert curve[..|curve|] == curve;
    return true, result;
  }

  function Grown(equity: real, gain: real): real { equity * (1.0 + gain) }

  /** One unit of equity, compounded. */
  function Compounded(gains: seq<real>): (curve: seq<real>)
    ensures |curve| == |gains| + 1 && curve[0] == 1.0
  {
    if gains == [] then [1.0]
    else
      var before := Compounded(gains[..|gains| - 1]);
      before + [Grown(before[|before| - 1], gains[|gains| - 1])]
  }

  /** The Teacher's form, straight from returns: the same number as the backtest's form on the
      compounded curve, whatever the returns. Its guard against a zero peak is never needed. */
  method DrawdownOfReturns(gains: seq<real>) returns (maximum: real)
    ensures maximum == After(Compounded(gains)).drawdown
  {
    hide After, Compounded, Drop, Grown;
    var equity, peak := 1.0, 1.0;
    maximum := 0.0;
    StartOfCurve();
    for i := 0 to |gains|
      invariant Compounded(gains[..i])[i] == equity
      invariant After(Compounded(gains[..i])) == Running(peak, maximum) && peak >= 1.0
    {
      OneMore(gains[..i], gains[i]);
      assert gains[..i] + [gains[i]] == gains[..i + 1];
      equity := Grown(equity, gains[i]);
      peak := Max(peak, equity);
      var fall := if peak == 0.0 then 0.0 else (peak - equity) / peak;
      assert fall == Drop(peak, equity) by { DropIs(peak, equity); }
      maximum := Max(maximum, fall);
    }
    assert gains[..|gains|] == gains;
  }

  lemma DropIs(peak: real, equity: real)
    requires peak > 0.0
    ensures Drop(peak, equity) == (peak - equity) / peak
  {
  }

  lemma StartOfCurve()
    ensures Compounded([]) == [1.0] && After([1.0]) == Running(1.0, 0.0)
  {
  }

  lemma OneMore(gains: seq<real>, gain: real)
    ensures var before, after := Compounded(gains), Compounded(gains + [gain]);
      var equity := Grown(before[|gains|], gain);
      var peak := Max(After(before).peak, equity);
      && after == before + [equity] && peak > 0.0
      && After(after) == Running(peak, Max(After(before).drawdown, Drop(peak, equity)))
  {
    hide After, Compounded, Drop, Grown;
    MoreCompounded(gains, gain);
    MorePeak(Compounded(gains), Grown(Compounded(gains)[|gains|], gain));
  }

  lemma MoreCompounded(gains: seq<real>, gain: real)
    ensures Compounded(gains + [gain]) == Compounded(gains) + [Grown(Compounded(gains)[|gains|], gain)]
  {
    hide Grown;
    assert (gains + [gain])[..|gains|] == gains;
    assert (gains + [gain])[|gains|] == gain;
  }

  lemma MorePeak(curve: seq<real>, equity: real)
    requires |curve| > 0 && curve[0] > 0.0
    ensures var peak := Max(After(curve).peak, equity);
      peak > 0.0 && After(curve + [equity]) == Running(peak, Max(After(curve).drawdown, Drop(peak, equity)))
  {
    assert (curve + [equity])[..|curve + [equity]| - 1] == curve;
  }

  /** The highest value so far. */
  lemma {:induction false} PeakIsHighest(curve: seq<real>)
    requires |curve| > 0 && curve[0] > 0.0
    ensures forall i :: 0 <= i < |curve| ==> curve[i] <= After(curve).peak
    ensures exists i :: 0 <= i < |curve| && curve[i] == After(curve).peak
  {
    var n := |curve| - 1;
    if n > 0 {
      PeakIsHighest(curve[..n]);
      var k :| 0 <= k < n && curve[..n][k] == After(curve[..n]).peak;
      assert curve[k] == curve[..n][k];
      assert forall i :: 0 <= i < n ==> curve[i] == curve[..n][i];
    }
  }

  lemma HigherPeakDropsMore(high: real, peak: real, low: real)
    requires 0.0 < high <= peak && low >= 0.0
    ensures Drop(high, low) <= Drop(peak, low)
  {
    var x, y := Drop(high, low), Drop(peak, low);
    assert x * high == high - low && y * peak == peak - low;
    var a, b := low / high, low / peak;
    assert a * high == low && b * peak == low;
    assert b > a ==> b * peak > a * peak;
    assert a >= 0.0 ==> a * (peak - high) >= 0.0;
  }

  predicate IsDrop(curve: seq<real>, i: int, j: int, value: real)
  {
    0 <= i <= j < |curve| && curve[i] > 0.0 && value == Drop(curve[i], curve[j])
  }

  ghost predicate SomeDrop(curve: seq<real>, value: real) { exists i, j :: IsDrop(curve, i, j, value) }

  /** On a non-negative curve the one-pass result is the largest fall between any two points in
      order: none is larger, and one is exactly as large. */
  lemma {:induction false} DrawdownIsLargestFall(curve: seq<real>)
    requires |curve| > 0 && curve[0] > 0.0 && forall i :: 0 <= i < |curve| ==> curve[i] >= 0.0
    ensures forall i, j :: 0 <= i <= j < |curve| && curve[i] > 0.0 ==> Drop(curve[i], curve[j]) <= After(curve).drawdown
    ensures SomeDrop(curve, After(curve).drawdown)
  {
    var n := |curve| - 1;
    if n == 0 {
      assert IsDrop(curve, 0, 0, After(curve).drawdown);
    } else {
      var rest, last := curve[..n], curve[n];
      DrawdownIsLargestFall(rest);
      PeakIsHighest(curve);
      var peak := After(curve).peak;
      forall i, j | 0 <= i <= j < |curve| && curve[i] > 0.0
        ensures Drop(curve[i], curve[j]) <= After(curve).drawdown
      {
        if j < n {
          assert rest[i] == curve[i] && rest[j] == curve[j];
        } else {
          HigherPeakDropsMore(curve[i], peak, last);
        }
      }
      LargestFallExists(curve);
    }
  }

  lemma LargestFallExists(curve: seq<real>)
    requires |curve| > 1 && curve[0] > 0.0
    requires SomeDrop(curve[..|curve| - 1], After(curve[..|curve| - 1]).drawdown)
    ensures SomeDrop(curve, After(curve).drawdown)
  {
    var n := |curve| - 1;
    var i, j :| IsDrop(curve[..n], i, j, After(curve[..n]).drawdown);
    assert IsDrop(curve, i, j, After(curve[..n]).drawdown);
    PeakIsHighest(curve);
    var k :| 0 <= k < |curve| && curve[k] == After(curve).peak;
    assert IsDrop(curve, k, n, Drop(After(curve).peak, curve[n]));
  }

  lemma DropAboveOne(peak: real, low: real)
    requires peak > 0.0
    ensures Drop(peak, low) <= 1.0 <==> low >= 0.0
  {
    var x := Drop(peak, low);
    assert x * peak == peak - low;
    assert x > 1.0 ==> (x - 1.0) * peak > 0.0;
    assert x <= 1.0 ==> (1.0 - x) * peak >= 0.0;
  }

  /** A drawdown is a fraction of the peak exactly when the curve never goes below zero. */
  lemma {:induction false} DrawdownIsAFraction(curve: seq<real>)
    requires |curve| > 0 && curve[0] > 0.0
    ensures After(curve).drawdown >= 0.0
    ensures After(curve).drawdown <= 1.0 <==> forall i :: 0 <= i < |curve| ==> curve[i] >= 0.0
  {
    hide Drop;
    var n := |curve| - 1;
    if n > 0 {
      DrawdownIsAFraction(curve[..n]);
      DropAboveOne(After(curve).peak, curve[n]);
      assert forall i :: 0 <= i < n ==> curve[..n][i] == curve[i];
    }
  }
}
