/** The short-term score of one stock (`calculate_short_term_score`): five
    factors read off the last 120 daily bars, each clamped into its own
    range, then combined with the weights 0.3 / 0.2 / 0.2 / 0.15 / 0.15 and
    rounded to two decimals. */
module Scorer {
  import opened Numeric
  import opened Bars
  import opened Indicators

  /** A score as the pipeline sees it: a number, or NaN when the turnover
      factor divides zero by zero. NaN passes no `>=` filter. */
  datatype Score = Num(value: real) | NaN

  /** pandas' `score >= t`: false for NaN. */
  predicate AtLeast(s: Score, t: real)
  {
    s.Num? && s.value >= t
  }

  /** Only the most recent 120 bars are scored. */
  const HistoryRows := 120
  /** Below 60 bars the score is 0. */
  const MinRows := 60

  /** Factor 1: the five-day change, times 150, clamped into [0, 30]. */
  function ReturnScore(change: real): (s: real)
    ensures 0.0 <= s <= 30.0
    ensures s == 0.0 <==> change <= 0.0
    ensures s == 30.0 <==> change >= 0.2
  {
    Clamp(change * 150.0, 0.0, 30.0)
  }

  /** Relative change of the close over the last five sessions. */
  function FiveDayChange(closes: seq<real>): real
    requires |closes| >= 6 && closes[|closes| - 6] != 0.0
  {
    var base := closes[|closes| - 6];
    (closes[|closes| - 1] - base) / base
  }

  /** The five-day over twenty-day mean volume; 0 when the twenty-day mean is not positive. */
  function VolumeRatio(mean5: real, mean20: real): (r: real)
    ensures mean20 > 0.0 ==> r * mean20 == mean5
    ensures mean20 <= 0.0 ==> r == 0.0
  {
    if mean20 > 0.0 then mean5 / mean20 else 0.0
  }

  /** Factor 2: volume expansion above half the usual volume, clamped into [0, 20]. */
  function VolumeScore(ratio: real): (s: real)
    ensures 0.0 <= s <= 20.0
    ensures s == 0.0 <==> ratio <= 0.5
    ensures s == 20.0 <==> ratio >= 1.5
  {
    Clamp((ratio - 0.5) * 20.0, 0.0, 20.0)
  }

  /** Strict bullish alignment of the 5/10/20/60-day averages. */
  predicate Aligned(ma5: real, ma10: real, ma20: real, ma60: real)
  {
    ma5 > ma10 > ma20 > ma60 > 0.0
  }

  /** Factor 3: 20 for a strict alignment, otherwise the gap of the 5-day
      over the 20-day average, times 200, clamped into [0, 15]. */
  function MaScore(ma5: real, ma10: real, ma20: real, ma60: real): (s: real)
    requires ma20 != 0.0
    ensures s == 20.0 || 0.0 <= s <= 15.0
    ensures s == 20.0 <==> Aligned(ma5, ma10, ma20, ma60)
    ensures !Aligned(ma5, ma10, ma20, ma60) && ma20 > 0.0 ==> (s == 0.0 <==> ma5 <= ma20)
  {
    if Aligned(ma5, ma10, ma20, ma60) then 20.0
    else
      var s := Clamp((ma5 - ma20) / ma20 * 200.0, 0.0, 15.0);
      assert ma20 > 0.0 ==> (s == 0.0 <==> ma5 <= ma20) by {
        if ma20 > 0.0 {
          assert (ma5 - ma20) / ma20 * ma20 == ma5 - ma20;
        }
      }
      s
  }

  function Pos(x: real): real
  {
    if x > 0.0 then x else 0.0
  }

  /** `delta.where(delta > 0, 0)`: the rise into each bar, 0 at the first bar
      (whose difference is undefined) and on every non-rising bar. */
  function Gains(closes: seq<real>): (g: seq<real>)
    ensures |g| == |closes|
    ensures forall i :: 0 <= i < |g| ==> g[i] >= 0.0
  {
    seq(|closes|, i requires 0 <= i < |closes| => if i == 0 then 0.0 else Pos(closes[i] - closes[i - 1]))
  }

  /** `-delta.where(delta < 0, 0)`: the fall into each bar, as a non-negative number. */
  function Losses(closes: seq<real>): (l: seq<real>)
    ensures |l| == |closes|
    ensures forall i :: 0 <= i < |l| ==> l[i] >= 0.0
  {
    seq(|closes|, i requires 0 <= i < |closes| => if i == 0 then 0.0 else Pos(closes[i - 1] - closes[i]))
  }

  /** Gains and losses split every close-to-close move: their difference is
      the move, and at most one of them is non-zero. */
  lemma GainsLosses(closes: seq<real>, i: nat)
    requires 1 <= i < |closes|
    ensures Gains(closes)[i] - Losses(closes)[i] == closes[i] - closes[i - 1]
    ensures Gains(closes)[i] == 0.0 || Losses(closes)[i] == 0.0
  {
  }

  /** The 14-day RSI from simple means of gains and losses; 0 when there is no loss. */
  function Rsi(gain: real, loss: real): (r: real)
    requires gain >= 0.0 && loss >= 0.0
    ensures 0.0 <= r < 100.0
    ensures loss == 0.0 ==> r == 0.0
    ensures loss > 0.0 ==> r * (gain + loss) == 100.0 * gain
  {
    var rs := if loss > 0.0 then gain / loss else 0.0;
    var r := if rs >= 0.0 then 100.0 - 100.0 / (1.0 + rs) else 0.0;
    assert loss > 0.0 ==> r * (gain + loss) == 100.0 * gain by {
      if loss > 0.0 {
        assert rs * loss == gain;
        assert (1.0 + rs) * loss == gain + loss;
        assert 100.0 / (1.0 + rs) * (1.0 + rs) == 100.0;
        assert r * (1.0 + rs) == 100.0 * rs;
        assert r * (gain + loss) == r * (1.0 + rs) * loss;
      }
    }
    r
  }

  /** The RSI reaches 50 exactly when the average gain reaches the average
      loss (with some loss), and is 0 whenever there was no gain. */
  lemma RsiMidpoint(gain: real, loss: real)
    requires gain >= 0.0 && loss > 0.0
    ensures Rsi(gain, loss) >= 50.0 <==> gain >= loss
    ensures Rsi(gain, loss) == 0.0 <==> gain == 0.0
  {
    var r := Rsi(gain, loss);
    assert (r - 50.0) * (gain + loss) == 50.0 * (gain - loss);
    SignMul(r - 50.0, gain + loss);
    SignMul(r, gain + loss);
  }

  /** Factor 4: 15 in the neutral-strong band [50, 70], 10 in the bands next to it, else 3. */
  function RsiScore(rsi: real): (s: real)
    ensures s == 3.0 || s == 10.0 || s == 15.0
    ensures s == 15.0 <==> 50.0 <= rsi <= 70.0
    ensures s == 3.0 <==> rsi < 40.0 || rsi > 80.0
  {
    if 50.0 <= rsi <= 70.0 then 15.0
    else if 40.0 <= rsi < 50.0 || 70.0 < rsi <= 80.0 then 10.0
    else 3.0
  }

  /** Factor 5: how close the five-day mean turnover stays to the twenty-day
      mean, scaled to [0, 15]; 8 when the data carries no turnover column.
      A zero twenty-day mean divides by zero: 0/0 is NaN and poisons the
      total, any other x/0 is infinite and clamps to 0. */
  function TurnoverScore(mean5: real, mean20: real, listed: bool): (s: Score)
    ensures s.NaN? <==> listed && mean20 == 0.0 && mean5 == 0.0
    ensures !listed ==> s == Num(8.0)
    ensures listed && s.Num? ==> 0.0 <= s.value <= 15.0
    ensures listed && mean20 != 0.0 && mean5 == mean20 ==> s == Num(15.0)
    ensures listed && mean20 > 0.0 ==> (s == Num(0.0) <==> Abs(mean5 - mean20) >= mean20)
  {
    if !listed then Num(8.0)
    else if mean20 == 0.0 then (if mean5 == 0.0 then NaN else Num(0.0))
    else
      var stability := Clamp(1.0 - Abs(mean5 - mean20) / mean20, 0.0, 1.0);
      assert mean20 > 0.0 ==> (stability == 0.0 <==> Abs(mean5 - mean20) >= mean20) by {
        if mean20 > 0.0 {
          var x := Abs(mean5 - mean20) / mean20;
          assert (x - 1.0) * mean20 == Abs(mean5 - mean20) - mean20;
          SignMul(x - 1.0, mean20);
        }
      }
      Num(stability * 15.0)
  }

  /** The five factors of one stock. */
  datatype Factors = Factors(ret: real, volume: real, ma: real, rsi: real, turnover: Score)

  /** Every factor inside the range its clamp or its table allows. */
  predicate InRange(f: Factors)
  {
    && 0.0 <= f.ret <= 30.0
    && 0.0 <= f.volume <= 20.0
    && (f.ma == 20.0 || 0.0 <= f.ma <= 15.0)
    && (f.rsi == 3.0 || f.rsi == 10.0 || f.rsi == 15.0)
    && (f.turnover.Num? ==> 0.0 <= f.turnover.value <= 15.0)
  }

  /** The five factors read off the scored rows (at least 60 of them). */
  function FactorsOf(rows: seq<Bar>, listed: bool): (f: Factors)
    requires |rows| >= MinRows && PositiveCloses(rows)
    ensures InRange(f)
    ensures f.turnover.NaN? <==> listed && Mean(Tail(Turnovers(rows), 20)) == 0.0 && Mean(Tail(Turnovers(rows), 5)) == 0.0
  {
    var c := Closes(rows);
    var last := |rows| - 1;
    var ma20 := RollingMean(c, last, 20);
    RollingPositive(c, last, 20);
    var gain := RollingMean(Gains(c), last, 14);
    var loss := RollingMean(Losses(c), last, 14);
    RollingNonNegative(Gains(c), last, 14);
    RollingNonNegative(Losses(c), last, 14);
    var v := Volumes(rows);
    var t := Turnovers(rows);
    Factors(
      ReturnScore(FiveDayChange(c)),
      VolumeScore(VolumeRatio(Mean(Tail(v, 5)), Mean(Tail(v, 20)))),
      MaScore(RollingMean(c, last, 5), RollingMean(c, last, 10), ma20, RollingMean(c, last, 60)),
      RsiScore(Rsi(gain, loss)),
      TurnoverScore(Mean(Tail(t, 5)), Mean(Tail(t, 20)), listed))
  }

  /** The weighted sum of the factors, before rounding. */
  function Combine(f: Factors): (s: Score)
    ensures s.NaN? <==> f.turnover.NaN?
    ensures InRange(f) && s.Num? ==> 0.45 <= s.value <= 21.5
  {
    match f.turnover
    case NaN => NaN
    case Num(t) => Num(0.3 * f.ret + 0.2 * f.volume + 0.2 * f.ma + 0.15 * f.rsi + 0.15 * t)
  }

  function RoundScore(s: Score): (r: Score)
    ensures r.NaN? <==> s.NaN?
    ensures s.Num? ==> s.value - 0.005 < r.value <= s.value + 0.005
  {
    match s
    case NaN => NaN
    case Num(v) => Num(Round2(v))
  }

  /** The score of one stock from its bar history, oldest bar first, and
      whether the data carries a turnover column. */
  function ShortTermScore(history: seq<Bar>, listed: bool): (s: Score)
    requires PositiveCloses(history)
    ensures |history| < MinRows ==> s == Num(0.0)
    ensures |history| >= MinRows ==> s.NaN? || 0.45 <= s.value <= 21.5
  {
    var rows := Tail(history, HistoryRows);
    if |rows| < MinRows then Num(0.0)
    else
      var combined := Combine(FactorsOf(rows, listed));
      var s := RoundScore(combined);
      assert s.Num? ==> 0.45 <= s.value <= 21.5 by {
        if s.Num? {
          Round2Within(combined.value, 45, 2150);
        }
      }
      s
  }

  /** The comment on the weighted sum calls the total a 0-100 score, and
      selection asks for 30; the clamps keep every score of a stock with
      enough data at most 21.5, so no stock ever reaches 30. */
  lemma ScoreNeverReachesThirty(history: seq<Bar>, listed: bool)
    requires PositiveCloses(history)
    ensures !AtLeast(ShortTermScore(history, listed), 30.0)
  {
  }

  /** A NaN score happens only when the turnover column is present and its
      last twenty values average to zero together with the last five. */
  lemma ScoreNaN(history: seq<Bar>, listed: bool)
    requires PositiveCloses(history)
    ensures ShortTermScore(history, listed).NaN? <==>
      var rows := Tail(history, HistoryRows);
      |rows| >= MinRows && listed && Mean(Tail(Turnovers(rows), 20)) == 0.0 && Mean(Tail(Turnovers(rows), 5)) == 0.0
  {
  }
}
