/** Numeric helpers shared by the indicator, scoring and backtest models:
    an optional value, clamping, two-decimal rounding and the elementary
    statistics (sum, mean, minimum, maximum) of a sequence of reals. */
module Numeric {

  /** A value that may be absent; the model's stand-in for Python's None. */
  datatype Option<+T> = None | Some(value: T)

  /** Python's `min(max(x, lo), hi)`: `x` pushed into `[lo, hi]`. */
  function Clamp(x: real, lo: real, hi: real): (r: real)
    requires lo <= hi
    ensures lo <= r <= hi
    ensures lo <= x <= hi ==> r == x
    ensures x <= lo ==> r == lo
    ensures x >= hi ==> r == hi
  {
    if x < lo then lo else if x > hi then hi else x
  }

  function Abs(x: real): real
  {
    if x < 0.0 then -x else x
  }

  /** `round(x, 2)`: the nearest multiple of 0.01, halves rounded up. */
  function Round2(x: real): (r: real)
    ensures x - 0.005 < r <= x + 0.005
  {
    ((x * 100.0 + 0.5).Floor as real) / 100.0
  }

  lemma Round2Monotone(x: real, y: real)
    requires x <= y
    ensures Round2(x) <= Round2(y)
  {
    assert (x * 100.0 + 0.5).Floor <= (y * 100.0 + 0.5).Floor;
  }

  /** A value already on the 0.01 grid is left alone by rounding. */
  lemma Round2Exact(n: int)
    ensures Round2(n as real / 100.0) == n as real / 100.0
  {
    var x := n as real / 100.0;
    assert x * 100.0 + 0.5 == n as real + 0.5;
    assert (x * 100.0 + 0.5).Floor == n;
  }

  /** Rounding keeps a value inside any interval whose ends are on the 0.01 grid. */
  lemma Round2Within(x: real, lo: int, hi: int)
    requires lo as real / 100.0 <= x <= hi as real / 100.0
    ensures lo as real / 100.0 <= Round2(x) <= hi as real / 100.0
  {
    Round2Monotone(lo as real / 100.0, x);
    Round2Monotone(x, hi as real / 100.0);
    Round2Exact(lo);
    Round2Exact(hi);
  }

  function Sum(xs: seq<real>): real
  {
    if |xs| == 0 then 0.0 else Sum(xs[..|xs| - 1]) + xs[|xs| - 1]
  }

  /** Position of the first smallest element of a non-empty sequence. */
  function ArgMin(xs: seq<real>): (j: nat)
    requires |xs| > 0
    ensures j < |xs|
    ensures forall k :: 0 <= k < |xs| ==> xs[j] <= xs[k]
  {
    if |xs| == 1 then 0
    else
      var j' := ArgMin(xs[..|xs| - 1]);
      if xs[|xs| - 1] < xs[j'] then |xs| - 1 else j'
  }

  /** Position of the first largest element of a non-empty sequence. */
  function ArgMax(xs: seq<real>): (j: nat)
    requires |xs| > 0
    ensures j < |xs|
    ensures forall k :: 0 <= k < |xs| ==> xs[k] <= xs[j]
  {
    if |xs| == 1 then 0
    else
      var j' := ArgMax(xs[..|xs| - 1]);
      if xs[|xs| - 1] > xs[j'] then |xs| - 1 else j'
  }

  function Min(xs: seq<real>): real
    requires |xs| > 0
  {
    xs[ArgMin(xs)]
  }

  function Max(xs: seq<real>): real
    requires |xs| > 0
  {
    xs[ArgMax(xs)]
  }

  function Mean(xs: seq<real>): real
    requires |xs| > 0
  {
    Sum(xs) / (|xs| as real)
  }

  /** The mean lies between the smallest and the largest element. */
  lemma MeanBounds(xs: seq<real>)
    requires |xs| > 0
    ensures Min(xs) <= Mean(xs) <= Max(xs)
  {
    SumBounds(xs, Min(xs), Max(xs));
    DivBounds(Sum(xs), |xs| as real, Min(xs), Max(xs));
  }

  lemma DivBounds(s: real, n: real, lo: real, hi: real)
    requires n > 0.0
    requires n * lo <= s <= n * hi
    ensures lo <= s / n <= hi
  {
    assert s / n * n == s;
  }

  lemma {:induction false} SumBounds(xs: seq<real>, lo: real, hi: real)
    requires forall k :: 0 <= k < |xs| ==> lo <= xs[k] <= hi
    ensures (|xs| as real) * lo <= Sum(xs) <= (|xs| as real) * hi
  {
    if |xs| > 0 {
      var n := |xs| as real;
      SumBounds(xs[..|xs| - 1], lo, hi);
      assert (n - 1.0) * lo + lo == n * lo;
      assert (n - 1.0) * hi + hi == n * hi;
    }
  }

  /** A sum over a slice is a difference of two prefix sums. */
  lemma {:induction false} SumSlice(xs: seq<real>, a: nat, b: nat)
    requires a <= b <= |xs|
    ensures Sum(xs[a..b]) == Sum(xs[..b]) - Sum(xs[..a])
    decreases b - a
  {
    if a == b {
      assert xs[a..b] == [];
    } else {
      SumSlice(xs, a, b - 1);
      assert xs[a..b][..b - a - 1] == xs[a..b - 1];
      assert xs[..b][..b - 1] == xs[..b - 1];
    }
  }

  /** Every element multiplied by `k`. */
  function Scale(xs: seq<real>, k: real): (r: seq<real>)
    ensures |r| == |xs|
    ensures forall i :: 0 <= i < |xs| ==> r[i] == k * xs[i]
  {
    seq(|xs|, i requires 0 <= i < |xs| => k * xs[i])
  }

  lemma {:induction false} SumScale(xs: seq<real>, k: real)
    ensures Sum(Scale(xs, k)) == k * Sum(xs)
  {
    if |xs| > 0 {
      ScalePrefix(xs, k);
      SumScale(xs[..|xs| - 1], k);
      assert k * Sum(xs[..|xs| - 1]) + k * xs[|xs| - 1] == k * (Sum(xs[..|xs| - 1]) + xs[|xs| - 1]);
    }
  }

  lemma MeanScale(xs: seq<real>, k: real)
    requires |xs| > 0
    ensures Mean(Scale(xs, k)) == k * Mean(xs)
  {
    SumScale(xs, k);
    DivScale(Sum(xs), |xs| as real, k);
    assert Mean(xs) == Sum(xs) / (|xs| as real);
    assert Mean(Scale(xs, k)) == Sum(Scale(xs, k)) / (|xs| as real);
  }

  lemma DivScale(s: real, n: real, k: real)
    requires n > 0.0
    ensures (k * s) / n == k * (s / n)
  {
    var m := s / n;
    assert s == m * n;
    assert k * s == (k * m) * n;
  }

  lemma ScalePrefix(xs: seq<real>, k: real)
    requires |xs| > 0
    ensures Scale(xs, k)[..|xs| - 1] == Scale(xs[..|xs| - 1], k)
  {
    var a := Scale(xs, k)[..|xs| - 1];
    var b := Scale(xs[..|xs| - 1], k);
    assert |a| == |b|;
    forall i | 0 <= i < |a|
      ensures a[i] == b[i]
    {
      assert a[i] == Scale(xs, k)[i] == k * xs[i];
      assert b[i] == k * xs[..|xs| - 1][i];
    }
  }

  /** `f` applied to every element. */
  function Map(xs: seq<real>, f: real -> real): (r: seq<real>)
    ensures |r| == |xs|
    ensures forall i :: 0 <= i < |xs| ==> r[i] == f(xs[i])
  {
    seq(|xs|, i requires 0 <= i < |xs| => f(xs[i]))
  }

  /** A strictly increasing map preserves every comparison. */
  ghost predicate Increasing(f: real -> real)
  {
    forall a, b :: a < b ==> f(a) < f(b)
  }

  /** Multiplication by `k`, as a map. */
  function Times(k: real): real -> real
  {
    x => k * x
  }

  lemma TimesIncreasing(k: real)
    requires k > 0.0
    ensures Increasing(Times(k))
  {
    forall a, b | a < b
      ensures Times(k)(a) < Times(k)(b)
    {
      ScaleCompare(k, a, b);
    }
  }

  lemma ScaleIsMap(xs: seq<real>, k: real)
    ensures Scale(xs, k) == Map(xs, Times(k))
  {
  }

  lemma MulLe(k: real, a: real, b: real)
    requires k > 0.0 && a <= b
    ensures k * a <= k * b
  {
    assert k * b - k * a == k * (b - a);
  }

  /** A positive factor keeps the sign of a product. */
  lemma SignMul(x: real, n: real)
    requires n > 0.0
    ensures x >= 0.0 <==> x * n >= 0.0
    ensures x > 0.0 <==> x * n > 0.0
  {
    if x >= 0.0 {
      MulLe(n, 0.0, x);
    } else {
      ScaleCompare(n, x, 0.0);
    }
    if x > 0.0 {
      ScaleCompare(n, 0.0, x);
    } else {
      MulLe(n, x, 0.0);
    }
  }

  /** Multiplying both sides by a positive factor preserves every comparison. */
  lemma ScaleCompare(k: real, a: real, b: real)
    requires k > 0.0
    ensures k * a < k * b <==> a < b
    ensures k * a <= k * b <==> a <= b
  {
    if a < b {
      assert k * b - k * a == k * (b - a);
    } else {
      assert k * a - k * b == k * (a - b);
    }
  }

  /** The mean of positive values is positive (and likewise for non-negative). */
  lemma MeanSign(xs: seq<real>)
    requires |xs| > 0
    ensures (forall k :: 0 <= k < |xs| ==> xs[k] > 0.0) ==> Mean(xs) > 0.0
    ensures (forall k :: 0 <= k < |xs| ==> xs[k] >= 0.0) ==> Mean(xs) >= 0.0
  {
    MeanBounds(xs);
  }
}
