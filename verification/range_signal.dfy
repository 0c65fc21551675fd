/** The single-stock quote of `trading_signal.generate_signal` once its bars
    are fetched: the two moving averages, the daily price-limit band around
    the previous close, buy and sell ranges around the recent low and high
    clamped into that band, and BUY when the short average is above the
    long one, HOLD otherwise. Every figure is rounded to two decimals. */
module RangeSignal {
  import opened Numeric
  import opened Bars
  import opened Indicators

  const MaShort: Window := 5
  const MaLong: Window := 20
  const SupportResistDays := 5
  /** The daily price limit, as a fraction of the previous close. */
  const LimitUpDown := 0.1
  const BuyMargin := 0.01
  const SellMargin := 0.01

  /** The larger and the smaller of two prices. */
  function Larger(a: real, b: real): (r: real)
    ensures r >= a && r >= b && (r == a || r == b)
  {
    if a >= b then a else b
  }

  function Smaller(a: real, b: real): (r: real)
    ensures r <= a && r <= b && (r == a || r == b)
  {
    if a <= b then a else b
  }

  /** The price-limit band around the previous close: `(limitDown, limitUp)`,
      never inverted for a non-negative close. */
  function Band(prevClose: real): (b: (real, real))
    ensures prevClose >= 0.0 ==> b.0 <= b.1
  {
    MarginOrdered(prevClose, LimitUpDown);
    (Round2(prevClose * (1.0 - LimitUpDown)), Round2(prevClose * (1.0 + LimitUpDown)))
  }

  /** The margin range `[anchor * (1 - margin), anchor * (1 + margin)]`,
      each end rounded, clamped into the band `[down, up]`. The result
      always lies inside the band, and for a non-negative anchor and margin
      and an ordered band it is non-empty exactly when the rounded margin
      range meets the band. */
  function Range(anchor: real, margin: real, down: real, up: real): (r: (real, real))
    ensures down <= r.0 && r.1 <= up
    ensures anchor >= 0.0 && margin >= 0.0 && down <= up ==>
      (r.0 <= r.1 <==> Round2(anchor * (1.0 - margin)) <= up && down <= Round2(anchor * (1.0 + margin)))
  {
    var lo := Round2(anchor * (1.0 - margin));
    var hi := Round2(anchor * (1.0 + margin));
    MarginOrdered(anchor, margin);
    (Larger(lo, down), Smaller(hi, up))
  }

  /** The lowest low and the highest high of the last `SupportResistDays`
      bars (all of them when there are fewer), rounded. */
  function Recent(bars: seq<Bar>): (r: (real, real))
    requires |bars| > 0
    ensures (forall i :: 0 <= i < |bars| ==> 0.0 <= bars[i].low) ==> 0.0 <= r.0
    ensures (forall i :: 0 <= i < |bars| ==> bars[i].low <= bars[i].high) ==> r.0 <= r.1
    ensures (forall i :: 0 <= i < |bars| ==> 0.0 <= bars[i].high) ==> 0.0 <= r.1
  {
    var recent := Tail(bars, SupportResistDays);
    RecentExtremes(bars);
    (Round2(Min(Lows(recent))), Round2(Max(Highs(recent))))
  }

  /** The lowest recent low is the low of one of the last bars. */
  lemma LowestLow(bars: seq<Bar>) returns (j: nat)
    requires |bars| > 0
    ensures j < |bars|
    ensures Min(Lows(Tail(bars, SupportResistDays))) == bars[j].low
  {
    var recent := Tail(bars, SupportResistDays);
    var lows := Lows(recent);
    var off := |bars| - |recent|;
    var a := ArgMin(lows);
    assert Min(lows) == lows[a];
    assert lows[a] == bars[off + a].low by {
      assert recent[a] == bars[off + a];
    }
    j := off + a;
  }

  /** The lowest recent low is at most the low of each of the last bars. */
  lemma LowestBelow(bars: seq<Bar>, k: nat)
    requires |bars| > 0 && |bars| - |Tail(bars, SupportResistDays)| <= k < |bars|
    ensures Min(Lows(Tail(bars, SupportResistDays))) <= bars[k].low
  {
    var recent := Tail(bars, SupportResistDays);
    var lows := Lows(recent);
    var i := k - (|bars| - |recent|);
    assert lows[i] == bars[k].low by {
      assert recent[i] == bars[k];
    }
    assert lows[ArgMin(lows)] <= lows[i];
  }

  /** The highest recent high is the high of one of the last bars. */
  lemma HighestHigh(bars: seq<Bar>) returns (k: nat)
    requires |bars| > 0
    ensures |bars| - |Tail(bars, SupportResistDays)| <= k < |bars|
    ensures Max(Highs(Tail(bars, SupportResistDays))) == bars[k].high
  {
    var recent := Tail(bars, SupportResistDays);
    var highs := Highs(recent);
    var off := |bars| - |recent|;
    var b := ArgMax(highs);
    assert highs[b] == bars[off + b].high by {
      assert recent[b] == bars[off + b];
    }
    k := off + b;
  }

  /** The recent extremes are non-negative with the lows and highs, and
      ordered on bars whose low is at most their high. */
  lemma RecentExtremes(bars: seq<Bar>)
    requires |bars| > 0
    ensures var recent := Tail(bars, SupportResistDays);
      var lo, hi := Round2(Min(Lows(recent))), Round2(Max(Highs(recent)));
      && ((forall i :: 0 <= i < |bars| ==> 0.0 <= bars[i].low) ==> 0.0 <= lo)
      && ((forall i :: 0 <= i < |bars| ==> 0.0 <= bars[i].high) ==> 0.0 <= hi)
      && ((forall i :: 0 <= i < |bars| ==> bars[i].low <= bars[i].high) ==> lo <= hi)
  {
    var recent := Tail(bars, SupportResistDays);
    var min, max := Min(Lows(recent)), Max(Highs(recent));
    var k := HighestHigh(bars);
    var j := LowestLow(bars);
    LowestBelow(bars, k);
    NonNegative(min);
    NonNegative(max);
    if bars[k].low <= bars[k].high {
      Round2Monotone(min, max);
    }
  }

  /** Rounding keeps a non-negative price non-negative. */
  lemma NonNegative(x: real)
    ensures x >= 0.0 ==> Round2(x) >= 0.0
  {
    if x >= 0.0 {
      Round2Monotone(0.0, x);
      Round2Exact(0);
    }
  }

  /** A non-negative price less a non-negative margin rounds to at most the
      same price plus the margin. */
  lemma MarginOrdered(x: real, m: real)
    ensures x >= 0.0 && m >= 0.0 ==> Round2(x * (1.0 - m)) <= Round2(x * (1.0 + m))
  {
    if x >= 0.0 && m >= 0.0 {
      assert x * (1.0 - m) <= x * (1.0 + m);
      Round2Monotone(x * (1.0 - m), x * (1.0 + m));
    }
  }

  datatype Verdict = Buy | Hold

  datatype Quote = Quote(
    verdict: Verdict, latestClose: real, shortMa: real, longMa: real,
    limitUp: real, limitDown: real, recentLow: real, recentHigh: real,
    buyLow: real, buyHigh: real, sellLow: real, sellHigh: real)

  /** The quote from the primary data source, which raises on fewer than
      `MaLong` bars; the program then turns to a backup source that is not
      part of this model. */
  function Primary(bars: seq<Bar>): (q: Option<Quote>)
    ensures q.Some? <==> |bars| >= MaLong
    ensures q.Some? ==> q.value.limitDown <= q.value.buyLow && q.value.sellHigh <= q.value.limitUp
  {
    if |bars| < MaLong then None else Some(Generate(bars))
  }

  /** The previous close: the bar before the last, rounded, or the latest
      close on a single bar. */
  function PrevClose(bars: seq<Bar>): (r: real)
    requires |bars| > 0
    ensures PositiveCloses(bars) ==> r >= 0.0
  {
    NonNegative(if |bars| >= 2 then bars[|bars| - 2].close else bars[|bars| - 1].close);
    if |bars| >= 2 then Round2(bars[|bars| - 2].close) else Round2(bars[|bars| - 1].close)
  }

  /** The quote from its rounded inputs: both ranges lie inside the band,
      the band is ordered for a non-negative previous close, each range is
      non-empty exactly when the rounded 1% range around its anchor meets
      the band, and the verdict is BUY exactly when the short average is
      above the long one. */
  function QuoteOf(
    shortMa: real, longMa: real, latestClose: real, prevClose: real,
    recentLow: real, recentHigh: real): (q: Quote)
    ensures q.limitDown <= q.buyLow && q.buyHigh <= q.limitUp
    ensures q.limitDown <= q.sellLow && q.sellHigh <= q.limitUp
    ensures prevClose >= 0.0 ==> q.limitDown <= q.limitUp
    ensures prevClose >= 0.0 && recentLow >= 0.0 ==>
      (q.buyLow <= q.buyHigh <==>
        Round2(recentLow * 0.99) <= q.limitUp && q.limitDown <= Round2(recentLow * 1.01))
    ensures prevClose >= 0.0 && recentHigh >= 0.0 ==>
      (q.sellLow <= q.sellHigh <==>
        Round2(recentHigh * 0.99) <= q.limitUp && q.limitDown <= Round2(recentHigh * 1.01))
    ensures q.verdict == Buy <==> shortMa > longMa
    ensures q.shortMa == shortMa && q.longMa == longMa && q.latestClose == latestClose
    ensures q.recentLow == recentLow && q.recentHigh == recentHigh
  {
    var (limitDown, limitUp) := Band(prevClose);
    var (buyLow, buyHigh) := Range(recentLow, BuyMargin, limitDown, limitUp);
    var (sellLow, sellHigh) := Range(recentHigh, SellMargin, limitDown, limitUp);
    Quote(
      if shortMa > longMa then Buy else Hold, latestClose, shortMa, longMa,
      limitUp, limitDown, recentLow, recentHigh, buyLow, buyHigh, sellLow, sellHigh)
  }

  /** The quote of a non-empty series, oldest bar first. */
  function Generate(bars: seq<Bar>): (q: Quote)
    requires |bars| > 0
    ensures q.limitDown <= q.buyLow && q.buyHigh <= q.limitUp
    ensures q.limitDown <= q.sellLow && q.sellHigh <= q.limitUp
    ensures PositiveCloses(bars) ==> q.limitDown <= q.limitUp
    ensures WellFormed(bars) ==> 0.0 <= q.recentLow <= q.recentHigh
    ensures q.verdict == Buy <==> q.shortMa > q.longMa
    ensures q.latestClose == Round2(bars[|bars| - 1].close)
  {
    var n := |bars|;
    var closes := Closes(bars);
    var (recentLow, recentHigh) := Recent(bars);
    QuoteOf(
      Round2(RollingMean(closes, n - 1, MaShort)), Round2(RollingMean(closes, n - 1, MaLong)),
      Round2(bars[n - 1].close), PrevClose(bars), recentLow, recentHigh)
  }

  /** The band is 10% either side of the previous close, which falls back
      to the latest close on a single bar. */
  lemma PrevCloseFallback(bars: seq<Bar>)
    requires |bars| > 0
    ensures var q := Generate(bars);
      var prev := if |bars| >= 2 then Round2(bars[|bars| - 2].close) else q.latestClose;
      q.limitUp == Round2(prev * 1.1) && q.limitDown == Round2(prev * 0.9)
  {
    var q := Generate(bars);
    var prev := PrevClose(bars);
    assert (q.limitDown, q.limitUp) == Band(prev);
    assert prev == if |bars| >= 2 then Round2(bars[|bars| - 2].close) else q.latestClose;
  }
}
