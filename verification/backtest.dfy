/** The backtest of one parameter set on one stock (`backtest_strategy`):
    per-bar buy and sell signals from two moving averages and the rolling
    support, a FLAT/LONG position replayed bar by bar into a trade ledger,
    and the metrics of that ledger. */
module Backtest {
  import opened Numeric
  import opened Bars
  import opened Indicators
  import opened Performance

  /** A price tolerance, as a fraction of the price. */
  type Margin = m: real | 0.0 <= m < 1.0

  /** One point of the parameter grid. */
  datatype Params = Params(maShort: Window, maLong: Window, srDays: Window, buyMargin: Margin, sellMargin: Margin)

  /** The look-back of the backtest in calendar days. */
  const HistoryDays := 180
  /** Fewer bars than 80% of the look-back and the backtest gives up. */
  const MinBars := 144
  /** The cost charged on each side of a trade. */
  const Cost := 0.0015

  /** The columns the signals read: the close with the short and long moving
      averages of the closes and the rolling support (minimum of the lows). */
  datatype Table = Table(close: seq<real>, maShort: seq<real>, maLong: seq<real>, support: seq<real>)

  predicate Aligned(t: Table)
  {
    |t.maShort| == |t.close| && |t.maLong| == |t.close| && |t.support| == |t.close|
  }

  /** The indicator columns of a series under a parameter set. */
  function Indicate(bars: seq<Bar>, p: Params): (t: Table)
    ensures Aligned(t) && |t.close| == |bars|
  {
    var closes := Closes(bars);
    Table(closes, MeanColumn(closes, p.maShort), MeanColumn(closes, p.maLong), MinColumn(Lows(bars), p.srDays))
  }

  /** `a` was below `b` on the previous bar and is above it now. */
  predicate Crossed(a0: real, b0: real, a1: real, b1: real)
  {
    a0 < b0 && a1 > b1
  }

  /** The short average crosses above the long one at bar `i`. The shifted
      columns are undefined at the first bar, so no cross happens there. */
  predicate GoldenCross(t: Table, i: nat)
    requires Aligned(t) && i < |t.close|
  {
    i > 0 && Crossed(t.maShort[i - 1], t.maLong[i - 1], t.maShort[i], t.maLong[i])
  }

  /** The short average crosses below the long one at bar `i`. */
  predicate DeadCross(t: Table, i: nat)
    requires Aligned(t) && i < |t.close|
  {
    i > 0 && Crossed(t.maLong[i - 1], t.maShort[i - 1], t.maLong[i], t.maShort[i])
  }

  /** The close within the buy margin above the support, and above 95% of it. */
  predicate NearSupport(t: Table, p: Params, i: nat)
    requires Aligned(t) && i < |t.close|
  {
    t.close[i] <= t.support[i] * (1.0 + p.buyMargin) && t.close[i] > t.support[i] * 0.95
  }

  /** The close more than 1.5% below the support. */
  predicate StopLoss(t: Table, i: nat)
    requires Aligned(t) && i < |t.close|
  {
    t.close[i] < t.support[i] * 0.985
  }

  /** The buy signal, each comparison a conjunct of its own. */
  predicate BuySignal(t: Table, p: Params, i: nat)
    requires Aligned(t) && i < |t.close|
  {
    GoldenCross(t, i) && NearSupport(t, p, i)
  }

  predicate SellSignal(t: Table, i: nat)
    requires Aligned(t) && i < |t.close|
  {
    DeadCross(t, i) || StopLoss(t, i)
  }

  /** The support never exceeds the bar's own low, so on sane bars the close
      never falls below 98.5% of it: the stop-loss never fires, and only a
      dead cross sells. */
  lemma StopLossNeverFires(bars: seq<Bar>, p: Params, i: nat)
    requires i < |bars| && WellFormed(bars)
    ensures !StopLoss(Indicate(bars, p), i)
    ensures SellSignal(Indicate(bars, p), i) <==> DeadCross(Indicate(bars, p), i)
  {
    var lows := Lows(bars);
    RollingExtremes(lows, i, p.srDays);
    assert Indicate(bars, p).support[i] == RollingMin(lows, i, p.srDays) <= bars[i].low;
  }

  /** The columns the replay loop reads at each bar. */
  datatype Session = Session(close: real, buy: bool, sell: bool)

  /** The close column with its signal columns. */
  function FrameOf(t: Table, p: Params): (f: seq<Session>)
    requires Aligned(t)
    ensures |f| == |t.close|
    ensures forall i :: 0 <= i < |t.close| ==> f[i] == Session(t.close[i], BuySignal(t, p, i), SellSignal(t, i))
  {
    seq(|t.close|, i requires 0 <= i < |t.close| => Session(t.close[i], BuySignal(t, p, i), SellSignal(t, i)))
  }

  /** The series with its signal columns. */
  function Frame(bars: seq<Bar>, p: Params): (f: seq<Session>)
    ensures |f| == |bars|
    ensures forall i :: 0 <= i < |bars| ==> f[i].close == bars[i].close
  {
    FrameOf(Indicate(bars, p), p)
  }

  predicate Positive(f: seq<Session>)
  {
    forall i :: 0 <= i < |f| ==> f[i].close > 0.0
  }

  /** The price paid: the close plus the buy margin. */
  function EntryPrice(f: seq<Session>, p: Params, i: nat): (price: real)
    requires i < |f| && Positive(f)
    ensures price > 0.0
  {
    f[i].close * (1.0 + p.buyMargin)
  }

  /** The price received: the close minus the sell margin. */
  function ExitPrice(f: seq<Session>, p: Params, i: nat): (price: real)
    requires i < |f| && Positive(f)
    ensures price > 0.0
  {
    SignMul(1.0 - p.sellMargin, f[i].close);
    f[i].close * (1.0 - p.sellMargin)
  }

  /** The return of one round trip after the cost on both sides. */
  function ReturnRate(buyPrice: real, sellPrice: real): (r: real)
    requires buyPrice > 0.0 && sellPrice > 0.0
    ensures r > -1.0
  {
    var netBuy := buyPrice * (1.0 + Cost);
    var netSell := sellPrice * (1.0 - Cost);
    var r := (netSell - netBuy) / netBuy;
    assert r * netBuy == netSell - netBuy;
    SignMul(r + 1.0, netBuy);
    r
  }

  /** A round trip wins exactly when the net sale exceeds the net purchase. */
  lemma ReturnRateSign(buyPrice: real, sellPrice: real)
    requires buyPrice > 0.0 && sellPrice > 0.0
    ensures ReturnRate(buyPrice, sellPrice) > 0.0 <==> sellPrice * (1.0 - Cost) > buyPrice * (1.0 + Cost)
  {
    var netBuy := buyPrice * (1.0 + Cost);
    var netSell := sellPrice * (1.0 - Cost);
    var r := ReturnRate(buyPrice, sellPrice);
    assert r * netBuy == netSell - netBuy;
    SignMul(r, netBuy);
  }

  /** The return depends only on the ratio of the two prices. */
  lemma ReturnRateScale(buyPrice: real, sellPrice: real, k: real)
    requires buyPrice > 0.0 && sellPrice > 0.0 && k > 0.0
    ensures k * buyPrice > 0.0 && k * sellPrice > 0.0
    ensures ReturnRate(k * buyPrice, k * sellPrice) == ReturnRate(buyPrice, sellPrice)
  {
    SignMul(k, buyPrice);
    SignMul(k, sellPrice);
    var nb := buyPrice * (1.0 + Cost);
    var ns := sellPrice * (1.0 - Cost);
    var r := (ns - nb) / nb;
    var r' := (k * ns - k * nb) / (k * nb);
    assert r * nb == ns - nb;
    assert r' * (k * nb) == k * ns - k * nb;
    assert k * (r' * nb) == k * (r * nb);
    assert r' * nb == r * nb;
    assert (k * sellPrice) * (1.0 - Cost) == k * ns;
    assert (k * buyPrice) * (1.0 + Cost) == k * nb;
  }

  datatype Position = Flat | Long(entryBar: nat, entryPrice: real)

  /** One completed round trip. */
  datatype Trade = Trade(buyBar: nat, sellBar: nat, buyPrice: real, sellPrice: real, returnRate: real)

  /** The position and the ledger so far. */
  datatype Book = Book(position: Position, trades: seq<Trade>)

  /** Bar `i` of the replay: buy on a buy signal when flat, otherwise sell
      on a sell signal when long, otherwise carry on. */
  function Step(f: seq<Session>, p: Params, i: nat, book: Book): Book
    requires i < |f| && Positive(f)
    requires book.position.Long? ==> book.position.entryPrice > 0.0
  {
    match book.position
    case Flat =>
      if f[i].buy then Book(Long(i, EntryPrice(f, p, i)), book.trades) else book
    case Long(entry, buyPrice) =>
      if f[i].sell then
        var sellPrice := ExitPrice(f, p, i);
        Book(Flat, book.trades + [Trade(entry, i, buyPrice, sellPrice, ReturnRate(buyPrice, sellPrice))])
      else book
  }

  /** The book after replaying the first `n` bars from a flat start. */
  function Replay(f: seq<Session>, p: Params, n: nat): (book: Book)
    requires n <= |f| && Positive(f)
    ensures Chronicle(f, p, n, book)
  {
    if n == 0 then Book(Flat, [])
    else
      var before := Replay(f, p, n - 1);
      ChronicleStep(f, p, n - 1, before);
      Step(f, p, n - 1, before)
  }

  /** The first bar at which the `k`-th trade could have been opened. */
  function Start(trades: seq<Trade>, k: nat): nat
    requires k <= |trades|
  {
    if k == 0 then 0 else trades[k - 1].sellBar + 1
  }

  predicate Priced(f: seq<Session>, p: Params, t: Trade)
    requires t.buyBar < |f| && t.sellBar < |f| && Positive(f)
  {
    && t.buyPrice == EntryPrice(f, p, t.buyBar)
    && t.sellPrice == ExitPrice(f, p, t.sellBar)
    && t.returnRate == ReturnRate(t.buyPrice, t.sellPrice)
  }

  /** A round trip as the replay records it, opened no earlier than `from`
      within the first `n` bars: the first buy signal at or after `from`,
      closed at the first sell signal after that, at the margin prices. */
  predicate RoundTrip(f: seq<Session>, p: Params, t: Trade, from: nat, n: nat)
    requires n <= |f| && Positive(f)
  {
    && from <= t.buyBar < t.sellBar < n
    && f[t.buyBar].buy
    && f[t.sellBar].sell
    && (forall j :: from <= j < t.buyBar ==> !f[j].buy)
    && (forall j :: t.buyBar < j < t.sellBar ==> !f[j].sell)
    && Priced(f, p, t)
  }

  /** The position after the last trade: flat with no buy signal since, or
      long from the first buy signal since, with no sell signal after it. */
  predicate Holding(f: seq<Session>, p: Params, from: nat, n: nat, pos: Position)
    requires n <= |f| && Positive(f)
  {
    match pos
    case Flat => forall j :: from <= j < n ==> !f[j].buy
    case Long(e, price) =>
      && from <= e < n
      && f[e].buy
      && price == EntryPrice(f, p, e)
      && (forall j :: from <= j < e ==> !f[j].buy)
      && (forall j :: e < j < n ==> !f[j].sell)
  }

  /** Every recorded trade is a round trip within the first `n` bars. */
  predicate Trips(f: seq<Session>, p: Params, trades: seq<Trade>, n: nat)
    requires n <= |f| && Positive(f)
  {
    forall k :: 0 <= k < |trades| ==> TripAt(f, p, trades, k, n)
  }

  /** The `k`-th trade is a round trip opened after the previous one closed. */
  predicate TripAt(f: seq<Session>, p: Params, trades: seq<Trade>, k: nat, n: nat)
    requires k < |trades| && n <= |f| && Positive(f)
  {
    RoundTrip(f, p, trades[k], Start(trades, k), n)
  }

  /** The whole history of the first `n` bars, stated without the replay:
      a chain of round trips, each starting after the previous one closed,
      followed by the current position. */
  predicate Chronicle(f: seq<Session>, p: Params, n: nat, book: Book)
    requires n <= |f| && Positive(f)
  {
    Trips(f, p, book.trades, n) && Holding(f, p, Start(book.trades, |book.trades|), n, book.position)
  }

  /** Later bars never undo a recorded round trip. */
  lemma TripsExtend(f: seq<Session>, p: Params, trades: seq<Trade>, n: nat, m: nat)
    requires n <= m <= |f| && Positive(f)
    requires Trips(f, p, trades, n)
    ensures Trips(f, p, trades, m)
  {
    forall k | 0 <= k < |trades|
      ensures TripAt(f, p, trades, k, m)
    {
      assert TripAt(f, p, trades, k, n);
    }
  }

  /** The next trade cannot open before the last recorded one closed. */
  lemma StartBound(f: seq<Session>, p: Params, trades: seq<Trade>, n: nat)
    requires n <= |f| && Positive(f)
    requires Trips(f, p, trades, n)
    ensures Start(trades, |trades|) <= n
  {
    if |trades| > 0 {
      assert TripAt(f, p, trades, |trades| - 1, n);
    }
  }

  /** Flat at bar `i`: a buy signal opens a position at that bar. */
  lemma FlatStep(f: seq<Session>, p: Params, from: nat, i: nat)
    requires from <= i < |f| && Positive(f)
    requires Holding(f, p, from, i, Flat)
    ensures Holding(f, p, from, i + 1, if f[i].buy then Long(i, EntryPrice(f, p, i)) else Flat)
  {
  }

  /** Long at bar `i` without a sell signal: the position carries on. */
  lemma LongStep(f: seq<Session>, p: Params, from: nat, i: nat, pos: Position)
    requires i < |f| && Positive(f)
    requires pos.Long? && Holding(f, p, from, i, pos) && !f[i].sell
    ensures Holding(f, p, from, i + 1, pos)
  {
  }

  /** Long at bar `i` with a sell signal: the round trip is complete. */
  lemma CloseTrip(f: seq<Session>, p: Params, from: nat, i: nat, pos: Position)
    requires i < |f| && Positive(f)
    requires pos.Long? && Holding(f, p, from, i, pos) && f[i].sell
    ensures pos.entryPrice > 0.0
    ensures RoundTrip(f, p, Trade(pos.entryBar, i, pos.entryPrice, ExitPrice(f, p, i), ReturnRate(pos.entryPrice, ExitPrice(f, p, i))), from, i + 1)
  {
  }

  /** Appending a round trip that starts after the last one closed. */
  lemma TripsAppend(f: seq<Session>, p: Params, trades: seq<Trade>, t: Trade, n: nat)
    requires n <= |f| && Positive(f)
    requires Trips(f, p, trades, n)
    requires RoundTrip(f, p, t, Start(trades, |trades|), n)
    ensures Trips(f, p, trades + [t], n)
    ensures Start(trades + [t], |trades| + 1) == t.sellBar + 1
  {
    var trades' := trades + [t];
    forall k | 0 <= k < |trades'|
      ensures TripAt(f, p, trades', k, n)
    {
      if k < |trades| {
        assert TripAt(f, p, trades, k, n);
        assert trades'[k] == trades[k];
      } else {
        assert trades'[k] == t;
      }
      assert Start(trades', k) == Start(trades, k);
    }
  }

  /** One more bar keeps the history a chronicle. */
  lemma ChronicleStep(f: seq<Session>, p: Params, i: nat, book: Book)
    requires i < |f| && Positive(f)
    requires Chronicle(f, p, i, book)
    ensures book.position.Long? ==> book.position.entryPrice > 0.0
    ensures Chronicle(f, p, i + 1, Step(f, p, i, book))
  {
    var trades := book.trades;
    var from := Start(trades, |trades|);
    TripsExtend(f, p, trades, i, i + 1);
    match book.position
    case Flat =>
      StartBound(f, p, trades, i);
      FlatStep(f, p, from, i);
    case Long(e, price) =>
      if f[i].sell {
        CloseTrip(f, p, from, i, book.position);
        var t := Trade(e, i, price, ExitPrice(f, p, i), ReturnRate(price, ExitPrice(f, p, i)));
        TripsAppend(f, p, trades, t, i + 1);
        assert Step(f, p, i, book) == Book(Flat, trades + [t]);
      } else {
        LongStep(f, p, from, i, book.position);
      }
  }

  /** The ledger of a whole frame: a chain of round trips over all of its
      bars, none of which loses the whole stake. */
  function Ledger(f: seq<Session>, p: Params): (trades: seq<Trade>)
    requires Positive(f)
    ensures Trips(f, p, trades, |f|)
    ensures Viable(Returns(trades))
  {
    var book := Replay(f, p, |f|);
    ChronicleViable(f, p, |f|, book);
    book.trades
  }

  function Returns(trades: seq<Trade>): (rs: seq<real>)
    ensures |rs| == |trades|
    ensures forall k :: 0 <= k < |trades| ==> rs[k] == trades[k].returnRate
  {
    seq(|trades|, k requires 0 <= k < |trades| => trades[k].returnRate)
  }

  /** Every round trip of a chronicle returns more than -100%. */
  lemma ChronicleViable(f: seq<Session>, p: Params, n: nat, book: Book)
    requires n <= |f| && Positive(f)
    requires Chronicle(f, p, n, book)
    ensures Viable(Returns(book.trades))
  {
    var trades := book.trades;
    forall k | 0 <= k < |trades|
      ensures trades[k].returnRate > -1.0
    {
      assert TripAt(f, p, trades, k, n);
    }
  }

  /** The metrics of a replayed frame; nothing when the signal columns could
      not be built (the exception handler of the backtest). */
  function RunFrame(p: Params, frame: Option<seq<Session>>): (r: Option<Metrics>)
    requires frame.Some? ==> Positive(frame.value)
    ensures r.Some? <==> frame.Some?
    ensures r.Some? ==> r.value == MetricsOf(Returns(Ledger(frame.value, p)))
    ensures r.Some? ==> r.value.tradeCount == |Ledger(frame.value, p)|
    ensures r.Some? ==> 0.0 <= r.value.winRate <= 1.0 && -1.0 < r.value.maxDrawdown <= 0.0
  {
    match frame
    case None => None
    case Some(f) => Some(MetricsOf(Returns(Ledger(f, p))))
  }

  /** The backtest with the signal expressions as evidently intended: nothing
      when the series is shorter than 144 bars, otherwise the metrics of the
      replayed ledger. */
  function Run(bars: seq<Bar>, p: Params): (r: Option<Metrics>)
    requires PositiveCloses(bars)
    ensures r.None? <==> |bars| < MinBars
    ensures r.Some? ==> r.value == MetricsOf(Returns(Ledger(Frame(bars, p), p)))
    ensures r.Some? ==> r.value.tradeCount == |Ledger(Frame(bars, p), p)|
    ensures r.Some? ==> 0.0 <= r.value.winRate <= 1.0 && -1.0 < r.value.maxDrawdown <= 0.0
  {
    if |bars| < MinBars then None
    else RunFrame(p, Some(Frame(bars, p)))
  }

  // Price scale. The backtest depends only on price ratios, so multiplying
  // every price of a history by one positive factor backtests the same.

  function ScaleFrame(f: seq<Session>, k: real): (g: seq<Session>)
    ensures |g| == |f|
    ensures forall i :: 0 <= i < |f| ==> g[i] == f[i].(close := k * f[i].close)
  {
    seq(|f|, i requires 0 <= i < |f| => f[i].(close := k * f[i].close))
  }

  function ScaleTrade(t: Trade, k: real): Trade
  {
    t.(buyPrice := k * t.buyPrice, sellPrice := k * t.sellPrice)
  }

  function ScaleTrades(trades: seq<Trade>, k: real): (r: seq<Trade>)
    ensures |r| == |trades|
    ensures forall j :: 0 <= j < |trades| ==> r[j] == ScaleTrade(trades[j], k)
  {
    seq(|trades|, j requires 0 <= j < |trades| => ScaleTrade(trades[j], k))
  }

  function ScalePosition(position: Position, k: real): Position
  {
    match position
    case Flat => Flat
    case Long(e, price) => Long(e, k * price)
  }

  function ScaleBook(book: Book, k: real): Book
  {
    Book(ScalePosition(book.position, k), ScaleTrades(book.trades, k))
  }

  function ScaleTable(t: Table, k: real): Table
  {
    Table(Scale(t.close, k), Scale(t.maShort, k), Scale(t.maLong, k), Scale(t.support, k))
  }

  /** Rescaled prices give rescaled indicator columns. */
  lemma IndicateScale(bars: seq<Bar>, p: Params, k: real)
    requires k > 0.0
    ensures Indicate(ScaleBars(bars, k), p) == ScaleTable(Indicate(bars, p), k)
  {
    ColumnsScale(bars, k);
    MeanColumnScale(Closes(bars), p.maShort, k);
    MeanColumnScale(Closes(bars), p.maLong, k);
    MinColumnScale(Lows(bars), p.srDays, k);
  }

  lemma CrossedScale(a0: real, b0: real, a1: real, b1: real, k: real)
    requires k > 0.0
    ensures Crossed(k * a0, k * b0, k * a1, k * b1) == Crossed(a0, b0, a1, b1)
  {
    ScaleCompare(k, a0, b0);
    ScaleCompare(k, b1, a1);
  }

  lemma NearSupportScale(t: Table, p: Params, i: nat, k: real)
    requires Aligned(t) && i < |t.close| && k > 0.0
    ensures NearSupport(ScaleTable(t, k), p, i) == NearSupport(t, p, i)
  {
    var c, sup := t.close[i], t.support[i];
    assert (k * sup) * (1.0 + p.buyMargin) == k * (sup * (1.0 + p.buyMargin));
    assert (k * sup) * 0.95 == k * (sup * 0.95);
    ScaleCompare(k, c, sup * (1.0 + p.buyMargin));
    ScaleCompare(k, sup * 0.95, c);
  }

  lemma StopLossScale(t: Table, i: nat, k: real)
    requires Aligned(t) && i < |t.close| && k > 0.0
    ensures StopLoss(ScaleTable(t, k), i) == StopLoss(t, i)
  {
    var sup := t.support[i];
    assert (k * sup) * 0.985 == k * (sup * 0.985);
    ScaleCompare(k, t.close[i], sup * 0.985);
  }

  /** The signals compare prices only with prices, so rescaling leaves them alone. */
  lemma BuyScale(t: Table, p: Params, i: nat, k: real)
    requires Aligned(t) && i < |t.close| && k > 0.0
    ensures BuySignal(ScaleTable(t, k), p, i) == BuySignal(t, p, i)
  {
    if i > 0 {
      CrossedScale(t.maShort[i - 1], t.maLong[i - 1], t.maShort[i], t.maLong[i], k);
    }
    NearSupportScale(t, p, i, k);
  }

  lemma SellScale(t: Table, i: nat, k: real)
    requires Aligned(t) && i < |t.close| && k > 0.0
    ensures SellSignal(ScaleTable(t, k), i) == SellSignal(t, i)
  {
    if i > 0 {
      CrossedScale(t.maLong[i - 1], t.maShort[i - 1], t.maLong[i], t.maShort[i], k);
    }
    StopLossScale(t, i, k);
  }

  lemma FrameOfScale(t: Table, p: Params, k: real)
    requires Aligned(t) && k > 0.0
    ensures FrameOf(ScaleTable(t, k), p) == ScaleFrame(FrameOf(t, p), k)
  {
    var a := FrameOf(ScaleTable(t, k), p);
    var b := ScaleFrame(FrameOf(t, p), k);
    forall i | 0 <= i < |t.close|
      ensures a[i] == b[i]
    {
      BuyScale(t, p, i, k);
      SellScale(t, i, k);
    }
  }

  /** The signal columns of a rescaled history are the original ones. */
  lemma FrameScale(bars: seq<Bar>, p: Params, k: real)
    requires k > 0.0
    ensures Frame(ScaleBars(bars, k), p) == ScaleFrame(Frame(bars, p), k)
  {
    IndicateScale(bars, p, k);
    FrameOfScale(Indicate(bars, p), p, k);
  }

  lemma ScaleFramePositive(f: seq<Session>, k: real)
    requires Positive(f) && k > 0.0
    ensures Positive(ScaleFrame(f, k))
  {
    forall i | 0 <= i < |f|
      ensures k * f[i].close > 0.0
    {
      SignMul(k, f[i].close);
    }
  }

  lemma PricesScale(f: seq<Session>, p: Params, i: nat, k: real)
    requires i < |f| && Positive(f) && k > 0.0
    ensures Positive(ScaleFrame(f, k))
    ensures EntryPrice(ScaleFrame(f, k), p, i) == k * EntryPrice(f, p, i)
    ensures ExitPrice(ScaleFrame(f, k), p, i) == k * ExitPrice(f, p, i)
  {
    ScaleFramePositive(f, k);
    var c := f[i].close;
    assert ScaleFrame(f, k)[i].close == k * c;
    assert (k * c) * (1.0 + p.buyMargin) == k * (c * (1.0 + p.buyMargin));
    assert (k * c) * (1.0 - p.sellMargin) == k * (c * (1.0 - p.sellMargin));
  }

  lemma ScaleTradesAppend(trades: seq<Trade>, t: Trade, k: real)
    ensures ScaleTrades(trades + [t], k) == ScaleTrades(trades, k) + [ScaleTrade(t, k)]
  {
  }

  /** Closing a rescaled position records the rescaled trade. */
  lemma CloseScale(f: seq<Session>, p: Params, i: nat, book: Book, k: real)
    requires i < |f| && Positive(f) && k > 0.0
    requires book.position.Long? && book.position.entryPrice > 0.0 && f[i].sell
    ensures Positive(ScaleFrame(f, k))
    ensures k * book.position.entryPrice > 0.0
    ensures Step(ScaleFrame(f, k), p, i, ScaleBook(book, k)) == ScaleBook(Step(f, p, i, book), k)
  {
    PricesScale(f, p, i, k);
    var e, price := book.position.entryBar, book.position.entryPrice;
    SignMul(k, price);
    var sell := ExitPrice(f, p, i);
    ReturnRateScale(price, sell, k);
    var t := Trade(e, i, price, sell, ReturnRate(price, sell));
    ScaleTradesAppend(book.trades, t, k);
    var g, b := ScaleFrame(f, k), ScaleBook(book, k);
    assert book.position == Long(e, price);
    assert ScalePosition(book.position, k) == Long(e, k * price);
    assert b == Book(Long(e, k * price), ScaleTrades(book.trades, k));
    assert g[i].sell;
    assert ExitPrice(g, p, i) == k * sell;
    assert b.position.Long? && b.position.entryBar == e && b.position.entryPrice == k * price;
    assert Step(g, p, i, b) == Book(Flat, b.trades + [Trade(e, i, k * price, k * sell, ReturnRate(k * price, k * sell))]);
    assert Step(f, p, i, book) == Book(Flat, book.trades + [t]);
    assert ScaleTrade(t, k) == Trade(e, i, k * price, k * sell, ReturnRate(k * price, k * sell));
  }

  /** Opening or skipping from a flat book commutes with rescaling. */
  lemma OpenScale(f: seq<Session>, p: Params, i: nat, book: Book, k: real)
    requires i < |f| && Positive(f) && k > 0.0 && book.position.Flat?
    ensures Positive(ScaleFrame(f, k))
    ensures Step(ScaleFrame(f, k), p, i, ScaleBook(book, k)) == ScaleBook(Step(f, p, i, book), k)
  {
    PricesScale(f, p, i, k);
    var g, b := ScaleFrame(f, k), ScaleBook(book, k);
    assert b == Book(Flat, ScaleTrades(book.trades, k));
    assert g[i].buy == f[i].buy;
    if f[i].buy {
      BuyStepScale(f, p, i, book, k);
    } else {
      assert Step(f, p, i, book) == book;
      assert Step(g, p, i, b) == b;
    }
  }

  lemma BuyStepScale(f: seq<Session>, p: Params, i: nat, book: Book, k: real)
    requires i < |f| && Positive(f) && k > 0.0 && book.position.Flat? && f[i].buy
    requires Positive(ScaleFrame(f, k)) && ScaleFrame(f, k)[i].buy
    requires EntryPrice(ScaleFrame(f, k), p, i) == k * EntryPrice(f, p, i)
    ensures Step(ScaleFrame(f, k), p, i, ScaleBook(book, k)) == ScaleBook(Step(f, p, i, book), k)
  {
    var g, b := ScaleFrame(f, k), ScaleBook(book, k);
    var price := EntryPrice(f, p, i);
    var entered := Book(Long(i, price), book.trades);
    assert Step(f, p, i, book) == entered;
    assert ScalePosition(entered.position, k) == Long(i, k * price);
    assert ScaleBook(entered, k) == Book(Long(i, k * price), ScaleTrades(book.trades, k));
    assert ScalePosition(book.position, k) == Flat;
    assert b == Book(Flat, ScaleTrades(book.trades, k));
    assert Step(g, p, i, b) == Book(Long(i, EntryPrice(g, p, i)), b.trades);
  }

  /** Holding a long position commutes with rescaling. */
  lemma HoldScale(f: seq<Session>, p: Params, i: nat, book: Book, k: real)
    requires i < |f| && Positive(f) && k > 0.0
    requires book.position.Long? && book.position.entryPrice > 0.0 && !f[i].sell
    ensures Positive(ScaleFrame(f, k))
    ensures k * book.position.entryPrice > 0.0
    ensures Step(ScaleFrame(f, k), p, i, ScaleBook(book, k)) == ScaleBook(Step(f, p, i, book), k)
  {
    ScaleFramePositive(f, k);
    SignMul(k, book.position.entryPrice);
    var g, b := ScaleFrame(f, k), ScaleBook(book, k);
    assert !g[i].sell;
    assert b.position.Long?;
    assert Step(f, p, i, book) == book;
    assert Step(g, p, i, b) == b;
  }

  lemma StepScale(f: seq<Session>, p: Params, i: nat, book: Book, k: real)
    requires i < |f| && Positive(f) && k > 0.0
    requires book.position.Long? ==> book.position.entryPrice > 0.0
    ensures Positive(ScaleFrame(f, k))
    ensures ScaleBook(book, k).position.Long? ==> ScaleBook(book, k).position.entryPrice > 0.0
    ensures Step(ScaleFrame(f, k), p, i, ScaleBook(book, k)) == ScaleBook(Step(f, p, i, book), k)
  {
    if book.position.Flat? {
      OpenScale(f, p, i, book, k);
    } else if f[i].sell {
      CloseScale(f, p, i, book, k);
    } else {
      HoldScale(f, p, i, book, k);
    }
  }

  lemma {:induction false} ReplayScale(f: seq<Session>, p: Params, n: nat, k: real)
    requires n <= |f| && Positive(f) && k > 0.0
    ensures Positive(ScaleFrame(f, k))
    ensures Replay(ScaleFrame(f, k), p, n) == ScaleBook(Replay(f, p, n), k)
  {
    ScaleFramePositive(f, k);
    if n > 0 {
      var g, before := ScaleFrame(f, k), Replay(f, p, n - 1);
      ReplayScale(f, p, n - 1, k);
      StepScale(f, p, n - 1, before, k);
      assert Replay(f, p, n) == Step(f, p, n - 1, before);
      assert Replay(g, p, n) == Step(g, p, n - 1, Replay(g, p, n - 1));
    }
  }

  /** Rescaling every price of the history by the same factor leaves the
      backtest unchanged: every signal and every return depends on price
      ratios only. */
  lemma RunScale(bars: seq<Bar>, p: Params, k: real)
    requires PositiveCloses(bars) && k > 0.0
    ensures PositiveCloses(ScaleBars(bars, k))
    ensures Run(ScaleBars(bars, k), p) == Run(bars, p)
  {
    var f := Frame(bars, p);
    FrameScale(bars, p, k);
    ReplayScale(f, p, |f|, k);
    var trades := Ledger(f, p);
    assert Returns(ScaleTrades(trades, k)) == Returns(trades);
    forall i | 0 <= i < |bars|
      ensures ScaleBars(bars, k)[i].close > 0.0
    {
      SignMul(k, bars[i].close);
    }
  }
}
