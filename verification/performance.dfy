/** The metrics of a trade ledger (the end of `backtest_strategy`): total
    compounded return, share of winning trades, and the deepest fall of
    the compounded equity below its running peak. */
module Performance {
  import opened Numeric

  datatype Metrics = Metrics(totalReturn: real, winRate: real, maxDrawdown: real, tradeCount: nat)

  /** Every trade keeps some of its stake: a return above -100%. */
  predicate Viable(rs: seq<real>)
  {
    forall i :: 0 <= i < |rs| ==> rs[i] > -1.0
  }

  /** Compounded growth factor `(1 + r).prod()`. */
  function Growth(rs: seq<real>): real
  {
    if |rs| == 0 then 1.0 else Growth(rs[..|rs| - 1]) * (1.0 + rs[|rs| - 1])
  }

  /** Number of trades with a strictly positive return. */
  function Wins(rs: seq<real>): (n: nat)
    ensures n <= |rs|
  {
    if |rs| == 0 then 0 else Wins(rs[..|rs| - 1]) + (if rs[|rs| - 1] > 0.0 then 1 else 0)
  }

  /** Share of winning trades. */
  function WinRate(rs: seq<real>): (w: real)
    requires |rs| > 0
    ensures 0.0 <= w <= 1.0
    ensures w == 1.0 <==> Wins(rs) == |rs|
    ensures w == 0.0 <==> Wins(rs) == 0
  {
    var n := |rs| as real;
    var w := Wins(rs) as real / n;
    assert w * n == Wins(rs) as real;
    SignMul(w, n);
    SignMul(w - 1.0, n);
    w
  }

  /** `(1 + r).cumprod()`: the equity after each trade, starting from 1. */
  function Equity(rs: seq<real>): (e: seq<real>)
    ensures |e| == |rs|
  {
    seq(|rs|, i requires 0 <= i < |rs| => Growth(rs[..i + 1]))
  }

  /** pandas `cummax`: the running maximum, starting at the first value. */
  function CumMax(xs: seq<real>): (r: seq<real>)
    ensures |r| == |xs|
    ensures |xs| > 0 ==> r[0] == xs[0]
    ensures forall i :: 1 <= i < |xs| ==> r[i] == if xs[i] > r[i - 1] then xs[i] else r[i - 1]
    ensures forall i, j :: 0 <= j <= i < |xs| ==> xs[j] <= r[i]
  {
    if |xs| == 0 then []
    else
      var front := xs[..|xs| - 1];
      var p := CumMax(front);
      var x := xs[|xs| - 1];
      var r := p + [if |p| == 0 || x > p[|p| - 1] then x else p[|p| - 1]];
      assert forall i :: 0 <= i < |front| ==> r[i] == p[i] && xs[i] == front[i];
      r
  }

  /** Relative distance of `x` below `peak`. */
  function Fall(x: real, peak: real): (f: real)
    requires 0.0 < x <= peak
    ensures -1.0 < f <= 0.0
    ensures f == 0.0 <==> x == peak
  {
    var f := (x - peak) / peak;
    assert f * peak == x - peak;
    SignMul(f, peak);
    SignMul(f + 1.0, peak);
    f
  }

  /** The relative fall of the equity below its running peak after each trade. */
  function Drawdowns(rs: seq<real>): (d: seq<real>)
    requires Viable(rs)
    ensures |d| == |rs|
  {
    var e := Equity(rs);
    var p := CumMax(e);
    PeakPositive(rs);
    seq(|rs|, i requires 0 <= i < |rs| => Fall(e[i], p[i]))
  }

  function MaxDrawdown(rs: seq<real>): real
    requires |rs| > 0 && Viable(rs)
  {
    Min(Drawdowns(rs))
  }

  /** The metrics of a ledger; all zero when there was no trade. */
  function MetricsOf(rs: seq<real>): (m: Metrics)
    requires Viable(rs)
    ensures m.tradeCount == |rs|
    ensures |rs| == 0 ==> m == Metrics(0.0, 0.0, 0.0, 0)
    ensures 0.0 <= m.winRate <= 1.0
    ensures m.totalReturn > -1.0
    ensures -1.0 < m.maxDrawdown <= 0.0
  {
    if |rs| == 0 then Metrics(0.0, 0.0, 0.0, 0)
    else
      GrowthPositive(rs);
      DrawdownBounds(rs);
      Metrics(Growth(rs) - 1.0, WinRate(rs), MaxDrawdown(rs), |rs|)
  }

  lemma {:induction false} GrowthPositive(rs: seq<real>)
    requires Viable(rs)
    ensures Growth(rs) > 0.0
  {
    if |rs| > 0 {
      var front := rs[..|rs| - 1];
      var x := 1.0 + rs[|rs| - 1];
      assert Viable(front) by {
        assert forall i :: 0 <= i < |front| ==> front[i] == rs[i];
      }
      GrowthPositive(front);
      var g := Growth(front);
      assert Growth(rs) == g * x;
      SignMul(x, g);
    }
  }

  lemma EquityPositive(rs: seq<real>)
    requires Viable(rs)
    ensures forall i :: 0 <= i < |rs| ==> Equity(rs)[i] > 0.0
  {
    forall i | 0 <= i < |rs|
      ensures Equity(rs)[i] > 0.0
    {
      GrowthPositive(rs[..i + 1]);
    }
  }

  /** The running peak is at least the equity, hence positive. */
  lemma PeakPositive(rs: seq<real>)
    requires Viable(rs)
    ensures forall i :: 0 <= i < |rs| ==> 0.0 < Equity(rs)[i] <= CumMax(Equity(rs))[i]
  {
    EquityPositive(rs);
    var e := Equity(rs);
    var p := CumMax(e);
    forall i | 0 <= i < |rs|
      ensures e[i] <= p[i]
    {
    }
  }

  /** Each trade multiplies the equity by its growth factor. */
  lemma EquityStep(rs: seq<real>, i: nat)
    requires 1 <= i < |rs|
    ensures Equity(rs)[i] == Equity(rs)[i - 1] * (1.0 + rs[i])
  {
    assert rs[..i + 1][..i] == rs[..i];
  }

  /** Compounding a ledger in two parts multiplies their growth factors. */
  lemma {:induction false} GrowthAppend(a: seq<real>, b: seq<real>)
    ensures Growth(a + b) == Growth(a) * Growth(b)
    decreases |b|
  {
    if |b| > 0 {
      var b' := b[..|b| - 1];
      assert (a + b)[..|a + b| - 1] == a + b';
      GrowthAppend(a, b');
      var x := 1.0 + b[|b| - 1];
      var ga, gb := Growth(a), Growth(b');
      assert (a + b)[|a + b| - 1] == b[|b| - 1];
      calc {
        Growth(a + b);
        Growth(a + b') * x;
        (ga * gb) * x;
        ga * (gb * x);
        ga * Growth(b);
      }
    } else {
      assert a + b == a;
    }
  }

  /** Every drawdown lies in (-1, 0]. */
  lemma DrawdownBounds(rs: seq<real>)
    requires |rs| > 0 && Viable(rs)
    ensures forall i :: 0 <= i < |rs| ==> -1.0 < Drawdowns(rs)[i] <= 0.0
    ensures -1.0 < MaxDrawdown(rs) <= 0.0
  {
    var e := Equity(rs);
    var p := CumMax(e);
    var d := Drawdowns(rs);
    EquityPositive(rs);
    assert d[ArgMin(d)] > -1.0;
    assert d[ArgMin(d)] <= d[0];
  }

  /** A non-decreasing sequence is its own running maximum. */
  lemma CumMaxMonotone(xs: seq<real>)
    requires forall i :: 1 <= i < |xs| ==> xs[i - 1] <= xs[i]
    ensures CumMax(xs) == xs
  {
    var r := CumMax(xs);
    forall i | 0 <= i < |xs|
      ensures r[i] == xs[i]
    {
      CumMaxRises(xs, i);
    }
  }

  /** Each running maximum of a non-decreasing sequence is its own entry. */
  lemma {:induction false} CumMaxRises(xs: seq<real>, i: nat)
    requires forall i :: 1 <= i < |xs| ==> xs[i - 1] <= xs[i]
    requires i < |xs|
    ensures CumMax(xs)[i] == xs[i]
    decreases i
  {
    if i > 0 {
      CumMaxRises(xs, i - 1);
      assert xs[i - 1] <= xs[i];
    }
  }

  /** The deepest drawdown is 0 exactly when no trade after the first
      loses: the running peak starts at the equity after the first trade,
      so a loss on the first trade never counts as a drawdown. */
  lemma MaxDrawdownZero(rs: seq<real>)
    requires |rs| > 0 && Viable(rs)
    ensures MaxDrawdown(rs) == 0.0 <==> forall i :: 1 <= i < |rs| ==> rs[i] >= 0.0
  {
    if forall i :: 1 <= i < |rs| ==> rs[i] >= 0.0 {
      NoLaterLossNoDrawdown(rs);
    } else {
      var i :| 1 <= i < |rs| && rs[i] < 0.0;
      LaterLossDrawdown(rs, i);
    }
  }

  lemma NoLaterLossNoDrawdown(rs: seq<real>)
    requires |rs| > 0 && Viable(rs)
    requires forall i :: 1 <= i < |rs| ==> rs[i] >= 0.0
    ensures MaxDrawdown(rs) == 0.0
  {
    var e := Equity(rs);
    var d := Drawdowns(rs);
    EquityMonotone(rs);
    CumMaxMonotone(e);
    forall i | 0 <= i < |d|
      ensures d[i] == 0.0
    {
      assert CumMax(e)[i] == e[i];
    }
    assert d[ArgMin(d)] == 0.0;
  }

  /** Without a loss after the first trade the equity never falls. */
  lemma EquityMonotone(rs: seq<real>)
    requires Viable(rs)
    requires forall i :: 1 <= i < |rs| ==> rs[i] >= 0.0
    ensures forall i :: 1 <= i < |rs| ==> Equity(rs)[i - 1] <= Equity(rs)[i]
  {
    var e := Equity(rs);
    EquityPositive(rs);
    forall i | 1 <= i < |e|
      ensures e[i - 1] <= e[i]
    {
      EquityStep(rs, i);
      MulLe(e[i - 1], 1.0, 1.0 + rs[i]);
    }
  }

  lemma LaterLossDrawdown(rs: seq<real>, i: nat)
    requires 1 <= i < |rs| && Viable(rs)
    requires rs[i] < 0.0
    ensures MaxDrawdown(rs) < 0.0
  {
    var e := Equity(rs);
    var p := CumMax(e);
    var d := Drawdowns(rs);
    PeakPositive(rs);
    EquityStep(rs, i);
    ScaleCompare(e[i - 1], 1.0 + rs[i], 1.0);
    assert e[i - 1] <= p[i];
    assert e[i] < p[i];
    assert d[ArgMin(d)] <= d[i];
  }

  /** Every trade a winner gives a win rate of 1, none gives 0. */
  lemma {:induction false} WinsCount(rs: seq<real>)
    ensures Wins(rs) == |rs| <==> forall i :: 0 <= i < |rs| ==> rs[i] > 0.0
    ensures Wins(rs) == 0 <==> forall i :: 0 <= i < |rs| ==> rs[i] <= 0.0
  {
    if |rs| > 0 {
      var rs' := rs[..|rs| - 1];
      WinsCount(rs');
      assert forall i :: 0 <= i < |rs'| ==> rs'[i] == rs[i];
    }
  }
}
