/** Today's advice for one selected stock (`generate_trading_signals`):
    the indicators over the last 30 bars, a buy, sell, hold or watch signal
    from the last two bars, a whole number of shares on a buy, and a
    stop-loss and a target price. */
module LiveSignal {
  import opened Numeric
  import opened Bars
  import opened Indicators
  import opened Backtest

  /** The bars the advice looks at. */
  const LiveBars := 30
  const InitialCash := 100000.0
  const InvestRatio := 0.7
  const SignalStocks := 5
  /** The cash set aside for each of the five stocks. */
  const PerStockCash := InitialCash * InvestRatio / SignalStocks as real

  /** The indicator values on the latest bar and the short and long
      averages on the bar before it (the latest bar again when there is
      only one). */
  datatype Reading = Reading(
    close: real, maShort: real, maLong: real, support: real, resistance: real,
    prevShort: real, prevLong: real)

  /** The reading of the last 30 bars; nothing for an empty series, where
      taking the last row raises and the stock is skipped. The support is
      at most the latest low and positive with the lows, the resistance at
      least the latest high, and with a single bar the previous averages
      are the latest ones. */
  function ReadingOf(bars: seq<Bar>, p: Params): (r: Option<Reading>)
    ensures r.Some? <==> |bars| > 0
    ensures r.Some? ==> r.value.close == bars[|bars| - 1].close
    ensures r.Some? ==> r.value.support <= bars[|bars| - 1].low && r.value.resistance >= bars[|bars| - 1].high
    ensures r.Some? && WellFormed(bars) ==> r.value.support > 0.0
    ensures |bars| == 1 ==> r.value.prevShort == r.value.maShort && r.value.prevLong == r.value.maLong
  {
    var t := Tail(bars, LiveBars);
    if |t| == 0 then None
    else
      var closes := Closes(t);
      var short := MeanColumn(closes, p.maShort);
      var long := MeanColumn(closes, p.maLong);
      var last := |t| - 1;
      var prev := if |t| >= 2 then |t| - 2 else last;
      var support := RollingMin(Lows(t), last, p.srDays);
      var resistance := RollingMax(Highs(t), last, p.srDays);
      assert support <= bars[|bars| - 1].low && resistance >= bars[|bars| - 1].high by {
        RollingExtremes(Lows(t), last, p.srDays);
        RollingExtremes(Highs(t), last, p.srDays);
      }
      assert WellFormed(bars) ==> support > 0.0 by {
        if WellFormed(bars) {
          assert forall j :: 0 <= j < |t| ==> Lows(t)[j] > 0.0;
          RollingPositive(Lows(t), last, p.srDays);
        }
      }
      Some(Reading(t[last].close, short[last], long[last], support, resistance, short[prev], long[prev]))
  }

  /** A golden cross near the support with both averages positive. Unlike
      the backtest, the previous short average may equal the long one. */
  predicate LiveBuy(r: Reading, p: Params)
  {
    r.maShort > r.maLong && r.prevShort <= r.prevLong
    && r.close <= r.support * (1.0 + p.buyMargin) && r.close > r.support * 0.95
    && r.maShort > 0.0 && r.maLong > 0.0
  }

  /** A dead cross AND a close below the stop-loss, where the backtest asks
      for either. */
  predicate LiveSell(r: Reading)
  {
    r.maShort < r.maLong && r.prevShort >= r.prevLong && r.close < r.support * 0.985
  }

  predicate LiveHold(r: Reading, p: Params)
  {
    r.maShort > r.maLong && !LiveBuy(r, p) && !LiveSell(r)
  }

  datatype Label = Buy | Sell | Hold | Watch

  /** The first signal whose condition holds, in the order buy, sell, hold. */
  function Classify(r: Reading, p: Params): Label
  {
    if LiveBuy(r, p) then Buy
    else if LiveSell(r) then Sell
    else if LiveHold(r, p) then Hold
    else Watch
  }

  /** Buying and selling exclude each other, so the order between them
      never matters; hold means a rising short average without a buy, and
      watch means a short average at or below the long one without a sell. */
  lemma ClassifyCases(r: Reading, p: Params)
    ensures !(LiveBuy(r, p) && LiveSell(r))
    ensures Classify(r, p) == Buy ==> r.maShort > r.maLong > 0.0
    ensures Classify(r, p) == Sell ==> r.maShort < r.maLong
    ensures Classify(r, p) == Hold <==> r.maShort > r.maLong && !LiveBuy(r, p)
    ensures Classify(r, p) == Watch <==> r.maShort <= r.maLong && !LiveSell(r)
  {
  }

  /** The floor of a quotient times the divisor stays within one divisor
      of the dividend. */
  lemma FloorQuotient(cash: real, close: real)
    requires cash >= 0.0 && close > 0.0
    ensures (cash / close).Floor >= 0
    ensures (cash / close).Floor as real * close <= cash < (cash / close).Floor as real * close + close
  {
    var q := cash / close;
    var s := q.Floor as real;
    assert close * q == cash;
    SignMul(q, close);
    assert s <= q < s + 1.0;
    ScaleCompare(close, s, q);
    ScaleCompare(close, q, s + 1.0);
    assert close * q < close * (s + 1.0);
    assert close * (s + 1.0) == s * close + close;
    assert cash < s * close + close;
  }

  /** `int(cash // close)` shares and the cash they leave. */
  function Size(cash: real, close: real): (r: (int, real))
    requires cash >= 0.0 && close > 0.0
    ensures r.0 >= 0
    ensures r.0 as real * close + r.1 == cash
    ensures 0.0 <= r.1 < close
  {
    FloorQuotient(cash, close);
    var shares := (cash / close).Floor;
    (shares, cash - shares as real * close)
  }

  /** One row of the advice: signal, shares, their cost, the cash left of
      the stock's share, stop-loss and target price. */
  datatype Advice = Advice(signal: Label, shares: int, invest: real, remaining: real, stop: real, target: real)

  /** The advice for one reading. */
  function AdviceOf(r: Reading, p: Params): (a: Advice)
    requires r.close > 0.0
    ensures a.signal == Classify(r, p)
    ensures a.invest + a.remaining == PerStockCash
    ensures a.signal == Buy ==> a.invest == a.shares as real * r.close && 0.0 <= a.remaining < r.close
    ensures a.signal != Buy ==> a.shares == 0 && a.remaining == PerStockCash
  {
    var signal := Classify(r, p);
    var stop := Round2(r.support * 0.985);
    var target := Round2(r.resistance * 1.02);
    if signal == Buy then
      var (shares, remaining) := Size(PerStockCash, r.close);
      Advice(Buy, shares, shares as real * r.close, remaining, stop, target)
    else Advice(signal, 0, 0.0, PerStockCash, stop, target)
  }

  /** The advice for one stock; nothing when its series is empty. */
  function Advise(bars: seq<Bar>, p: Params): (a: Option<Advice>)
    requires PositiveCloses(bars)
    ensures a.Some? <==> |bars| > 0
    ensures a.Some? ==> a.value == AdviceOf(ReadingOf(bars, p).value, p)
  {
    match ReadingOf(bars, p)
    case None => None
    case Some(r) => Some(AdviceOf(r, p))
  }

  /** On a buy the shares are the whole number the cash affords. */
  lemma BuyShares(r: Reading, p: Params)
    requires r.close > 0.0 && AdviceOf(r, p).signal == Buy
    ensures var a := AdviceOf(r, p);
      a.shares >= 0 && a.shares as real * r.close <= PerStockCash < (a.shares + 1) as real * r.close
  {
    var a := AdviceOf(r, p);
    assert (a.shares + 1) as real * r.close == a.shares as real * r.close + r.close;
  }

  /** With a single bar the previous averages are the latest ones, so the
      golden cross cannot happen and the advice is never to buy. */
  lemma SingleBarNeverBuys(bars: seq<Bar>, p: Params)
    requires PositiveCloses(bars) && |bars| == 1
    ensures Advise(bars, p).value.signal != Buy
  {
  }

  /** On sane bars the close is never below the support, so the sell
      condition, which needs a close 1.5% below it, never holds: the live
      advice never says sell. */
  lemma WellFormedNeverSells(bars: seq<Bar>, p: Params)
    requires WellFormed(bars) && |bars| > 0
    ensures PositiveCloses(bars)
    ensures Advise(bars, p).value.signal != Sell
  {
    var r := ReadingOf(bars, p).value;
    assert r.close >= r.support;
  }

  /** On sane bars the stop-loss price never exceeds the target price. */
  lemma StopBelowTarget(bars: seq<Bar>, p: Params)
    requires WellFormed(bars) && |bars| > 0
    ensures PositiveCloses(bars)
    ensures Advise(bars, p).value.stop <= Advise(bars, p).value.target
  {
    var r := ReadingOf(bars, p).value;
    assert 0.0 < r.support <= r.resistance;
    StopOrder(r, p);
  }

  lemma StopOrder(r: Reading, p: Params)
    requires r.close > 0.0 && 0.0 < r.support <= r.resistance
    ensures AdviceOf(r, p).stop <= AdviceOf(r, p).target
  {
    assert r.support * 0.985 <= r.resistance * 1.02;
    Round2Monotone(r.support * 0.985, r.resistance * 1.02);
  }
}
