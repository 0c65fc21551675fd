/** The daily bar series every computation consumes. The series is fetched
    by the data provider (not modelled) and handed to the model as a
    sequence, oldest bar first; a bar's date is its position. */
module Bars {
  import opened Numeric

  /** One front-adjusted daily bar: closing, highest and lowest price,
      traded volume and turnover rate. */
  datatype Bar = Bar(close: real, high: real, low: real, volume: real, turnover: real)

  predicate PositiveCloses(bars: seq<Bar>)
  {
    forall i :: 0 <= i < |bars| ==> bars[i].close > 0.0
  }

  /** A sane bar: a positive low, and the close between the low and the high. */
  predicate WellFormed(bars: seq<Bar>)
  {
    forall i :: 0 <= i < |bars| ==> 0.0 < bars[i].low <= bars[i].close <= bars[i].high
  }

  lemma WellFormedClosesPositive(bars: seq<Bar>)
    requires WellFormed(bars)
    ensures PositiveCloses(bars)
  {
  }

  function Closes(bars: seq<Bar>): seq<real>
  {
    seq(|bars|, i requires 0 <= i < |bars| => bars[i].close)
  }

  function Highs(bars: seq<Bar>): seq<real>
  {
    seq(|bars|, i requires 0 <= i < |bars| => bars[i].high)
  }

  function Lows(bars: seq<Bar>): seq<real>
  {
    seq(|bars|, i requires 0 <= i < |bars| => bars[i].low)
  }

  function Volumes(bars: seq<Bar>): seq<real>
  {
    seq(|bars|, i requires 0 <= i < |bars| => bars[i].volume)
  }

  function Turnovers(bars: seq<Bar>): seq<real>
  {
    seq(|bars|, i requires 0 <= i < |bars| => bars[i].turnover)
  }

  /** pandas `tail(n)`: the last `n` elements, or all of them when there are fewer. */
  function Tail<T>(s: seq<T>, n: nat): (r: seq<T>)
    ensures |r| == if |s| < n then |s| else n
    ensures forall i :: 0 <= i < |r| ==> r[i] == s[|s| - |r| + i]
  {
    if |s| < n then s else s[|s| - n..]
  }

  /** Every price of a bar multiplied by `k`; volume and turnover unchanged. */
  function ScaleBar(b: Bar, k: real): Bar
  {
    b.(close := k * b.close, high := k * b.high, low := k * b.low)
  }

  function ScaleBars(bars: seq<Bar>, k: real): (r: seq<Bar>)
    ensures |r| == |bars|
    ensures forall i :: 0 <= i < |bars| ==> r[i] == ScaleBar(bars[i], k)
  {
    seq(|bars|, i requires 0 <= i < |bars| => ScaleBar(bars[i], k))
  }

  /** Scaling the bars scales each price column and nothing else. */
  lemma ColumnsScale(bars: seq<Bar>, k: real)
    ensures Closes(ScaleBars(bars, k)) == Scale(Closes(bars), k)
    ensures Highs(ScaleBars(bars, k)) == Scale(Highs(bars), k)
    ensures Lows(ScaleBars(bars, k)) == Scale(Lows(bars), k)
    ensures Volumes(ScaleBars(bars, k)) == Volumes(bars)
  {
    var scaled := ScaleBars(bars, k);
    assert forall i :: 0 <= i < |bars| ==> Closes(scaled)[i] == Scale(Closes(bars), k)[i];
    assert forall i :: 0 <= i < |bars| ==> Highs(scaled)[i] == Scale(Highs(bars), k)[i];
    assert forall i :: 0 <= i < |bars| ==> Lows(scaled)[i] == Scale(Lows(bars), k)[i];
  }
}
