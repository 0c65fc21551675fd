/** Rolling indicators over one column of a bar series: pandas
    `rolling(window=w, min_periods=1)` followed by `mean()`, `min()` or
    `max()`. With `min_periods=1` the first `w - 1` positions aggregate the
    partial window of every value seen so far instead of yielding NaN. */
module Indicators {
  import opened Numeric

  /** A rolling window length; pandas refuses a window below 1. */
  type Window = w: int | w >= 1 witness 1

  /** First position inside the window that ends at position `i`. */
  function WindowStart(i: nat, w: Window): nat
  {
    if i + 1 >= w then i + 1 - w else 0
  }

  /** The values a rolling aggregate sees at position `i`: the last `w`
      values up to and including `i`, or all of them near the start. */
  function Trailing(xs: seq<real>, i: nat, w: Window): (r: seq<real>)
    requires i < |xs|
    ensures |r| == if i + 1 >= w then w else i + 1
    ensures r[|r| - 1] == xs[i]
  {
    seq(i + 1 - WindowStart(i, w), k requires 0 <= k < i + 1 - WindowStart(i, w) => xs[WindowStart(i, w) + k])
  }

  function RollingMean(xs: seq<real>, i: nat, w: Window): real
    requires i < |xs|
  {
    Mean(Trailing(xs, i, w))
  }

  /** The smallest of `xs[lo..hi]`, scanning left to right. */
  function WindowMin(xs: seq<real>, lo: nat, hi: nat): real
    requires lo < hi <= |xs|
    decreases hi - lo
  {
    if hi == lo + 1 then xs[lo]
    else
      var m := WindowMin(xs, lo, hi - 1);
      if xs[hi - 1] < m then xs[hi - 1] else m
  }

  /** The largest of `xs[lo..hi]`, scanning left to right. */
  function WindowMax(xs: seq<real>, lo: nat, hi: nat): real
    requires lo < hi <= |xs|
    decreases hi - lo
  {
    if hi == lo + 1 then xs[lo]
    else
      var m := WindowMax(xs, lo, hi - 1);
      if xs[hi - 1] > m then xs[hi - 1] else m
  }

  function RollingMin(xs: seq<real>, i: nat, w: Window): real
    requires i < |xs|
  {
    WindowMin(xs, WindowStart(i, w), i + 1)
  }

  function RollingMax(xs: seq<real>, i: nat, w: Window): real
    requires i < |xs|
  {
    WindowMax(xs, WindowStart(i, w), i + 1)
  }

  /** The window minimum is one of the window's values and below all of them. */
  lemma {:induction false} WindowMinBounds(xs: seq<real>, lo: nat, hi: nat)
    requires lo < hi <= |xs|
    ensures forall j :: lo <= j < hi ==> WindowMin(xs, lo, hi) <= xs[j]
    ensures exists j :: lo <= j < hi && WindowMin(xs, lo, hi) == xs[j]
    decreases hi - lo
  {
    if hi > lo + 1 {
      WindowMinBounds(xs, lo, hi - 1);
      var j :| lo <= j < hi - 1 && WindowMin(xs, lo, hi - 1) == xs[j];
      if xs[hi - 1] < WindowMin(xs, lo, hi - 1) {
        assert WindowMin(xs, lo, hi) == xs[hi - 1];
      } else {
        assert WindowMin(xs, lo, hi) == xs[j];
      }
    } else {
      assert WindowMin(xs, lo, hi) == xs[lo];
    }
  }

  /** The window maximum is one of the window's values and above all of them. */
  lemma {:induction false} WindowMaxBounds(xs: seq<real>, lo: nat, hi: nat)
    requires lo < hi <= |xs|
    ensures forall j :: lo <= j < hi ==> xs[j] <= WindowMax(xs, lo, hi)
    ensures exists j :: lo <= j < hi && WindowMax(xs, lo, hi) == xs[j]
    decreases hi - lo
  {
    if hi > lo + 1 {
      WindowMaxBounds(xs, lo, hi - 1);
      var j :| lo <= j < hi - 1 && WindowMax(xs, lo, hi - 1) == xs[j];
      if xs[hi - 1] > WindowMax(xs, lo, hi - 1) {
        assert WindowMax(xs, lo, hi) == xs[hi - 1];
      } else {
        assert WindowMax(xs, lo, hi) == xs[j];
      }
    } else {
      assert WindowMax(xs, lo, hi) == xs[lo];
    }
  }

  /** A strictly increasing map commutes with the window minimum: it
      picks the same position either way. */
  lemma {:induction false} WindowMinMap(xs: seq<real>, lo: nat, hi: nat, f: real -> real)
    requires lo < hi <= |xs| && Increasing(f)
    ensures WindowMin(Map(xs, f), lo, hi) == f(WindowMin(xs, lo, hi))
    decreases hi - lo
  {
    if hi > lo + 1 {
      WindowMinMap(xs, lo, hi - 1, f);
      var m, x := WindowMin(xs, lo, hi - 1), xs[hi - 1];
      assert Map(xs, f)[hi - 1] == f(x);
      if x < m {
        assert f(x) < f(m);
      } else if m < x {
        assert f(m) < f(x);
      }
    }
  }

  lemma WindowMinTimes(xs: seq<real>, lo: nat, hi: nat, k: real)
    requires lo < hi <= |xs| && k > 0.0
    ensures WindowMin(Map(xs, Times(k)), lo, hi) == k * WindowMin(xs, lo, hi)
  {
    var a := WindowMin(xs, lo, hi);
    assert WindowMin(Map(xs, Times(k)), lo, hi) == Times(k)(a) by {
      TimesIncreasing(k);
      WindowMinMap(xs, lo, hi, Times(k));
    }
  }

  lemma WindowMinScale(xs: seq<real>, lo: nat, hi: nat, k: real)
    requires lo < hi <= |xs| && k > 0.0
    ensures WindowMin(Scale(xs, k), lo, hi) == k * WindowMin(xs, lo, hi)
  {
    ScaleIsMap(xs, k);
    WindowMinTimes(xs, lo, hi, k);
  }

  /** A strictly increasing map commutes with the window maximum: it
      picks the same position either way. */
  lemma {:induction false} WindowMaxMap(xs: seq<real>, lo: nat, hi: nat, f: real -> real)
    requires lo < hi <= |xs| && Increasing(f)
    ensures WindowMax(Map(xs, f), lo, hi) == f(WindowMax(xs, lo, hi))
    decreases hi - lo
  {
    if hi > lo + 1 {
      WindowMaxMap(xs, lo, hi - 1, f);
      var m, x := WindowMax(xs, lo, hi - 1), xs[hi - 1];
      assert Map(xs, f)[hi - 1] == f(x);
      if x < m {
        assert f(x) < f(m);
      } else if m < x {
        assert f(m) < f(x);
      }
    }
  }

  lemma WindowMaxTimes(xs: seq<real>, lo: nat, hi: nat, k: real)
    requires lo < hi <= |xs| && k > 0.0
    ensures WindowMax(Map(xs, Times(k)), lo, hi) == k * WindowMax(xs, lo, hi)
  {
    var a := WindowMax(xs, lo, hi);
    assert WindowMax(Map(xs, Times(k)), lo, hi) == Times(k)(a) by {
      TimesIncreasing(k);
      WindowMaxMap(xs, lo, hi, Times(k));
    }
  }

  lemma WindowMaxScale(xs: seq<real>, lo: nat, hi: nat, k: real)
    requires lo < hi <= |xs| && k > 0.0
    ensures WindowMax(Scale(xs, k), lo, hi) == k * WindowMax(xs, lo, hi)
  {
    ScaleIsMap(xs, k);
    WindowMaxTimes(xs, lo, hi, k);
  }

  /** The rolling minimum is below, and the rolling maximum above, every value
      of the window; in particular below and above the value at `i` itself. */
  lemma RollingExtremes(xs: seq<real>, i: nat, w: Window)
    requires i < |xs|
    ensures forall j :: WindowStart(i, w) <= j <= i ==> RollingMin(xs, i, w) <= xs[j] <= RollingMax(xs, i, w)
    ensures RollingMin(xs, i, w) <= xs[i] <= RollingMax(xs, i, w)
  {
    WindowMinBounds(xs, WindowStart(i, w), i + 1);
    WindowMaxBounds(xs, WindowStart(i, w), i + 1);
  }

  /** The scan agrees with the minimum of the trailing window. */
  lemma RollingMinIsMin(xs: seq<real>, i: nat, w: Window)
    requires i < |xs|
    ensures RollingMin(xs, i, w) == Min(Trailing(xs, i, w))
  {
    var lo := WindowStart(i, w);
    var t := Trailing(xs, i, w);
    WindowMinBounds(xs, lo, i + 1);
    var j :| lo <= j < i + 1 && RollingMin(xs, i, w) == xs[j];
    assert t[j - lo] == xs[j];
    var a := ArgMin(t);
    assert t[a] == xs[lo + a];
  }

  /** The scan agrees with the maximum of the trailing window. */
  lemma RollingMaxIsMax(xs: seq<real>, i: nat, w: Window)
    requires i < |xs|
    ensures RollingMax(xs, i, w) == Max(Trailing(xs, i, w))
  {
    var lo := WindowStart(i, w);
    var t := Trailing(xs, i, w);
    WindowMaxBounds(xs, lo, i + 1);
    var j :| lo <= j < i + 1 && RollingMax(xs, i, w) == xs[j];
    assert t[j - lo] == xs[j];
    var a := ArgMax(t);
    assert t[a] == xs[lo + a];
  }

  /** The rolling mean lies between the rolling minimum and maximum. */
  lemma RollingMeanBounds(xs: seq<real>, i: nat, w: Window)
    requires i < |xs|
    ensures RollingMin(xs, i, w) <= RollingMean(xs, i, w) <= RollingMax(xs, i, w)
  {
    RollingMinIsMin(xs, i, w);
    RollingMaxIsMax(xs, i, w);
    MeanBounds(Trailing(xs, i, w));
  }

  /** Once `w` values are available the window is exactly the last `w` of them. */
  lemma FullWindow(xs: seq<real>, i: nat, w: Window)
    requires w - 1 <= i < |xs|
    ensures Trailing(xs, i, w) == xs[i + 1 - w..i + 1]
  {
  }

  /** On positive data every rolling aggregate is positive. */
  lemma RollingPositive(xs: seq<real>, i: nat, w: Window)
    requires i < |xs|
    requires forall j :: 0 <= j < |xs| ==> xs[j] > 0.0
    ensures RollingMin(xs, i, w) > 0.0
    ensures RollingMean(xs, i, w) > 0.0
  {
    RollingMeanBounds(xs, i, w);
    WindowMinBounds(xs, WindowStart(i, w), i + 1);
  }

  /** On non-negative data the rolling mean is non-negative. */
  lemma RollingNonNegative(xs: seq<real>, i: nat, w: Window)
    requires i < |xs|
    requires forall j :: 0 <= j < |xs| ==> xs[j] >= 0.0
    ensures RollingMean(xs, i, w) >= 0.0
  {
    RollingMeanBounds(xs, i, w);
    WindowMinBounds(xs, WindowStart(i, w), i + 1);
  }

  lemma TrailingScale(xs: seq<real>, i: nat, w: Window, k: real)
    requires i < |xs|
    ensures Trailing(Scale(xs, k), i, w) == Scale(Trailing(xs, i, w), k)
  {
    var a := Trailing(Scale(xs, k), i, w);
    var b := Scale(Trailing(xs, i, w), k);
    assert |a| == |b|;
    forall j | 0 <= j < |a|
      ensures a[j] == b[j]
    {
      assert a[j] == Scale(xs, k)[WindowStart(i, w) + j];
    }
  }

  /** Multiplying a column by `k > 0` multiplies every rolling aggregate by `k`. */
  lemma RollingMeanScale(xs: seq<real>, i: nat, w: Window, k: real)
    requires i < |xs| && k > 0.0
    ensures RollingMean(Scale(xs, k), i, w) == k * RollingMean(xs, i, w)
  {
    TrailingScale(xs, i, w, k);
    MeanScale(Trailing(xs, i, w), k);
  }

  lemma RollingMinScale(xs: seq<real>, i: nat, w: Window, k: real)
    requires i < |xs| && k > 0.0
    ensures RollingMin(Scale(xs, k), i, w) == k * RollingMin(xs, i, w)
  {
    WindowMinScale(xs, WindowStart(i, w), i + 1, k);
  }

  lemma RollingMaxScale(xs: seq<real>, i: nat, w: Window, k: real)
    requires i < |xs| && k > 0.0
    ensures RollingMax(Scale(xs, k), i, w) == k * RollingMax(xs, i, w)
  {
    WindowMaxScale(xs, WindowStart(i, w), i + 1, k);
  }

  /** On a constant column every rolling mean equals the constant. */
  lemma {:induction false} RollingMeanConstant(xs: seq<real>, i: nat, w: Window, c: real)
    requires i < |xs|
    requires forall j :: 0 <= j < |xs| ==> xs[j] == c
    ensures RollingMean(xs, i, w) == c
  {
    var t := Trailing(xs, i, w);
    SumBounds(t, c, c);
    DivBounds(Sum(t), |t| as real, c, c);
  }

  /** The whole rolling-mean column, computed the way a sliding-window
      implementation does it: from running prefix sums, one position at a time. */
  method RollingMeans(xs: seq<real>, w: Window) returns (r: seq<real>)
    ensures |r| == |xs|
    ensures forall i :: 0 <= i < |xs| ==> r[i] == RollingMean(xs, i, w)
  {
    r := [];
    var prefix := [0.0];
    var i := 0;
    while i < |xs|
      invariant 0 <= i <= |xs|
      invariant |prefix| == i + 1
      invariant forall j :: 0 <= j <= i ==> prefix[j] == Sum(xs[..j])
      invariant |r| == i
      invariant forall j :: 0 <= j < i ==> r[j] == RollingMean(xs, j, w)
    {
      assert xs[..i + 1][..i] == xs[..i];
      prefix := prefix + [prefix[i] + xs[i]];
      var lo := WindowStart(i, w);
      SumSlice(xs, lo, i + 1);
      assert Trailing(xs, i, w) == xs[lo..i + 1];
      r := r + [(prefix[i + 1] - prefix[lo]) / ((i + 1 - lo) as real)];
      i := i + 1;
    }
  }

  /** A whole rolling-mean column. */
  function MeanColumn(xs: seq<real>, w: Window): (r: seq<real>)
    ensures |r| == |xs|
    ensures forall i :: 0 <= i < |xs| ==> r[i] == RollingMean(xs, i, w)
  {
    seq(|xs|, i requires 0 <= i < |xs| => RollingMean(xs, i, w))
  }

  /** A whole rolling-minimum column. */
  function MinColumn(xs: seq<real>, w: Window): (r: seq<real>)
    ensures |r| == |xs|
    ensures forall i :: 0 <= i < |xs| ==> r[i] == RollingMin(xs, i, w)
  {
    seq(|xs|, i requires 0 <= i < |xs| => RollingMin(xs, i, w))
  }

  /** A whole rolling-maximum column. */
  function MaxColumn(xs: seq<real>, w: Window): (r: seq<real>)
    ensures |r| == |xs|
    ensures forall i :: 0 <= i < |xs| ==> r[i] == RollingMax(xs, i, w)
  {
    seq(|xs|, i requires 0 <= i < |xs| => RollingMax(xs, i, w))
  }

  /** Each entry of a rolling-mean column lies between the smallest and the
      largest value of its trailing window. */
  lemma MeanColumnBounded(xs: seq<real>, w: Window)
    ensures forall i :: 0 <= i < |xs| ==>
      Min(Trailing(xs, i, w)) <= MeanColumn(xs, w)[i] <= Max(Trailing(xs, i, w))
  {
    forall i | 0 <= i < |xs|
      ensures Min(Trailing(xs, i, w)) <= MeanColumn(xs, w)[i] <= Max(Trailing(xs, i, w))
    {
      RollingMinIsMin(xs, i, w);
      RollingMaxIsMax(xs, i, w);
      RollingMeanBounds(xs, i, w);
    }
  }

  /** Each entry of a rolling-minimum column is the smallest value of its
      trailing window, so never above the value at its own position. */
  lemma MinColumnIsWindowMin(xs: seq<real>, w: Window)
    ensures forall i :: 0 <= i < |xs| ==>
      MinColumn(xs, w)[i] == Min(Trailing(xs, i, w)) && MinColumn(xs, w)[i] <= xs[i]
  {
    forall i | 0 <= i < |xs|
      ensures MinColumn(xs, w)[i] == Min(Trailing(xs, i, w)) && MinColumn(xs, w)[i] <= xs[i]
    {
      RollingMinIsMin(xs, i, w);
      RollingExtremes(xs, i, w);
    }
  }

  /** Each entry of a rolling-maximum column is the largest value of its
      trailing window, so never below the value at its own position. */
  lemma MaxColumnIsWindowMax(xs: seq<real>, w: Window)
    ensures forall i :: 0 <= i < |xs| ==>
      MaxColumn(xs, w)[i] == Max(Trailing(xs, i, w)) && MaxColumn(xs, w)[i] >= xs[i]
  {
    forall i | 0 <= i < |xs|
      ensures MaxColumn(xs, w)[i] == Max(Trailing(xs, i, w)) && MaxColumn(xs, w)[i] >= xs[i]
    {
      RollingMaxIsMax(xs, i, w);
      RollingExtremes(xs, i, w);
    }
  }

  lemma MeanColumnScale(xs: seq<real>, w: Window, k: real)
    requires k > 0.0
    ensures MeanColumn(Scale(xs, k), w) == Scale(MeanColumn(xs, w), k)
  {
    var a := MeanColumn(Scale(xs, k), w);
    var b := Scale(MeanColumn(xs, w), k);
    forall i | 0 <= i < |xs|
      ensures a[i] == b[i]
    {
      RollingMeanScale(xs, i, w, k);
    }
  }

  lemma MinColumnScale(xs: seq<real>, w: Window, k: real)
    requires k > 0.0
    ensures MinColumn(Scale(xs, k), w) == Scale(MinColumn(xs, w), k)
  {
    var a := MinColumn(Scale(xs, k), w);
    var b := Scale(MinColumn(xs, w), k);
    forall i | 0 <= i < |xs|
      ensures a[i] == b[i]
    {
      RollingMinScale(xs, i, w, k);
    }
  }

  lemma MaxColumnScale(xs: seq<real>, w: Window, k: real)
    requires k > 0.0
    ensures MaxColumn(Scale(xs, k), w) == Scale(MaxColumn(xs, w), k)
  {
    var a := MaxColumn(Scale(xs, k), w);
    var b := Scale(MaxColumn(xs, w), k);
    forall i | 0 <= i < |xs|
      ensures a[i] == b[i]
    {
      RollingMaxScale(xs, i, w, k);
    }
  }
}
