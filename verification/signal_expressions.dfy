/** The buy and sell columns of `backtest_strategy` as Python and pandas
    evaluate the expressions that build them. Python's `&` and `|` bind
    more tightly than the comparisons, so the unparenthesised source
    expressions apply `&` to float columns and chain the comparisons; this
    module evaluates both the expressions as written and the parenthesised
    expressions the comments describe. */
module SignalExpressions {
  import opened Numeric
  import opened Bars
  import opened Indicators
  import opened Performance
  import opened Backtest

  /** A pandas column: floats (NaN as `None`) or booleans. */
  datatype Column = Floats(xs: seq<Option<real>>) | Flags(bs: seq<bool>)

  /** Evaluating a Python expression gives a value or raises an exception. */
  datatype Outcome = Ok(value: Column) | Raised

  datatype Comparison = Lt | Gt | Le

  function Width(c: Column): nat
  {
    match c
    case Floats(xs) => |xs|
    case Flags(bs) => |bs|
  }

  /** A column of numbers without a gap. */
  function Present(xs: seq<real>): (c: Column)
    ensures c.Floats? && |c.xs| == |xs|
    ensures forall i :: 0 <= i < |xs| ==> c.xs[i] == Some(xs[i])
  {
    Floats(seq(|xs|, i requires 0 <= i < |xs| => Some(xs[i])))
  }

  /** `shift(1)`: each row holds the previous row's value, the first row NaN. */
  function Shifted(xs: seq<real>): (c: Column)
    ensures c.Floats? && |c.xs| == |xs|
    ensures |xs| > 0 ==> c.xs[0] == None
    ensures forall i :: 1 <= i < |xs| ==> c.xs[i] == Some(xs[i - 1])
  {
    Floats(seq(|xs|, i requires 0 <= i < |xs| => if i == 0 then None else Some(xs[i - 1])))
  }

  /** A cell as a number: booleans count as 1 and 0. */
  function Cell(c: Column, i: nat): Option<real>
    requires i < Width(c)
  {
    match c
    case Floats(xs) => xs[i]
    case Flags(bs) => Some(if bs[i] then 1.0 else 0.0)
  }

  /** A cell as a boolean: NaN is false, a number is true unless zero. */
  predicate Truthy(c: Column, i: nat)
    requires i < Width(c)
  {
    match c
    case Floats(xs) => xs[i].Some? && xs[i].value != 0.0
    case Flags(bs) => bs[i]
  }

  predicate Holds(op: Comparison, x: real, y: real)
  {
    match op
    case Lt => x < y
    case Gt => x > y
    case Le => x <= y
  }

  /** Element-wise comparison; a comparison with NaN is false. Columns of
      different lengths cannot be compared. */
  function Compare(op: Comparison, a: Column, b: Column): (r: Outcome)
    ensures r.Ok? <==> Width(a) == Width(b)
    ensures r.Ok? ==> r.value.Flags? && |r.value.bs| == Width(a)
    ensures r.Ok? ==> forall i :: 0 <= i < Width(a) && (Cell(a, i).None? || Cell(b, i).None?) ==> !r.value.bs[i]
  {
    if Width(a) != Width(b) then Raised
    else
      Ok(Flags(seq(Width(a), i requires 0 <= i < Width(a) =>
        Cell(a, i).Some? && Cell(b, i).Some? && Holds(op, Cell(a, i).value, Cell(b, i).value))))
  }

  /** Whether a float column has a number in some row. */
  predicate AnyNumber(xs: seq<Option<real>>)
  {
    exists i :: 0 <= i < |xs| && xs[i].Some?
  }

  /** pandas `&` and `|` with `conj` choosing which. A boolean left operand
      combines with the right one read as booleans. A float left operand has
      no bitwise operation: any row holding a number raises `TypeError`,
      and a column of NaN gives all false. */
  function Logical(conj: bool, a: Column, b: Column): (r: Outcome)
  {
    if Width(a) != Width(b) then Raised
    else
      match a
      case Flags(bs) =>
        Ok(Flags(seq(|bs|, i requires 0 <= i < |bs| =>
          if conj then bs[i] && Truthy(b, i) else bs[i] || Truthy(b, i))))
      case Floats(xs) =>
        if AnyNumber(xs) then Raised else Ok(Flags(seq(|xs|, i => false)))
  }

  /** `a & b` and `a | b`, the left operand evaluated first. */
  function And(a: Outcome, b: Outcome): Outcome
  {
    if a.Raised? || b.Raised? then Raised else Logical(true, a.value, b.value)
  }

  function Or(a: Outcome, b: Outcome): Outcome
  {
    if a.Raised? || b.Raised? then Raised else Logical(false, a.value, b.value)
  }

  /** A Python comparison chain `left op0 x0 op1 x1 ...`: it means
      `(left op0 x0) and (x0 op1 x1) and ...`, evaluating each operand only
      when it is reached. Going past the first link asks for the truth
      value of the first comparison, which pandas refuses for a column
      (`ValueError`), so a chain of two or more links raises as soon as its
      first comparison has a value. */
  function Chain(left: Column, links: seq<(Comparison, Outcome)>): (r: Outcome)
    requires |links| > 0
  {
    match links[0].1
    case Raised => Raised
    case Ok(right) =>
      var first := Compare(links[0].0, left, right);
      if |links| == 1 then first else Raised
  }

  // The expressions as written.

  /** `ma_short.shift(1) < ma_long.shift(1) & ma_short > ma_long & close <=
      support * (1 + BUY_MARGIN) & close > support * 0.95`, which Python reads
      as a chain of four comparisons between `&`-combined columns. */
  function BuyAsWritten(t: Table, p: Params): Outcome
  {
    Chain(Shifted(t.maShort), [
      (Lt, And(Ok(Shifted(t.maLong)), Ok(Present(t.maShort)))),
      (Gt, And(Ok(Present(t.maLong)), Ok(Present(t.close)))),
      (Le, And(Ok(Present(Scale(t.support, 1.0 + p.buyMargin))), Ok(Present(t.close)))),
      (Gt, Ok(Present(Scale(t.support, 0.95))))])
  }

  /** `(ma_short.shift(1) > ma_long.shift(1) & ma_short < ma_long) | (close <
      support * 0.985)`, whose first group is again a chain over `&`. */
  function SellAsWritten(t: Table): Outcome
  {
    Or(
      Chain(Shifted(t.maShort), [
        (Gt, And(Ok(Shifted(t.maLong)), Ok(Present(t.maShort)))),
        (Lt, Ok(Present(t.maLong)))]),
      Compare(Lt, Present(t.close), Present(Scale(t.support, 0.985))))
  }

  // The expressions with every comparison parenthesised.

  function BuyIntended(t: Table, p: Params): Outcome
  {
    And(And(And(
      Compare(Lt, Shifted(t.maShort), Shifted(t.maLong)),
      Compare(Gt, Present(t.maShort), Present(t.maLong))),
      Compare(Le, Present(t.close), Present(Scale(t.support, 1.0 + p.buyMargin)))),
      Compare(Gt, Present(t.close), Present(Scale(t.support, 0.95))))
  }

  function SellIntended(t: Table): Outcome
  {
    Or(
      And(
        Compare(Gt, Shifted(t.maShort), Shifted(t.maLong)),
        Compare(Lt, Present(t.maShort), Present(t.maLong))),
      Compare(Lt, Present(t.close), Present(Scale(t.support, 0.985))))
  }

  /** The frame the replay loop iterates, when both signal columns are
      boolean columns of the table's length; nothing otherwise. */
  function Assemble(t: Table, buy: Outcome, sell: Outcome): (f: Option<seq<Session>>)
    ensures f.Some? <==> buy.Ok? && buy.value.Flags? && |buy.value.bs| == |t.close|
                         && sell.Ok? && sell.value.Flags? && |sell.value.bs| == |t.close|
    ensures f.Some? ==> |f.value| == |t.close|
    ensures f.Some? ==> forall i :: 0 <= i < |t.close| ==> f.value[i].close == t.close[i]
  {
    if buy.Ok? && buy.value.Flags? && |buy.value.bs| == |t.close|
       && sell.Ok? && sell.value.Flags? && |sell.value.bs| == |t.close|
    then
      var b, s := buy.value.bs, sell.value.bs;
      Some(seq(|t.close|, i requires 0 <= i < |t.close| => Session(t.close[i], b[i], s[i])))
    else None
  }

  /** `backtest_strategy` as written: nothing for fewer than 144 bars,
      otherwise the metrics of the frame the signal expressions build, or
      nothing when building it raises (the exception handler). */
  function RunAsWritten(bars: seq<Bar>, p: Params): (r: Option<Metrics>)
    requires PositiveCloses(bars)
    ensures r.Some? ==> |bars| >= MinBars
  {
    if |bars| < MinBars then None
    else
      var t := Indicate(bars, p);
      RunFrame(p, Assemble(t, BuyAsWritten(t, p), SellAsWritten(t)))
  }

  /** `&` with a float column holding a number on its left raises. */
  lemma AndShiftedRaises(xs: seq<real>, c: Column)
    requires |xs| >= 2
    ensures And(Ok(Shifted(xs)), Ok(c)) == Raised
  {
    assert Shifted(xs).xs[1].Some?;
  }

  /** On two or more bars the buy expression raises. */
  lemma BuyAsWrittenRaises(t: Table, p: Params)
    requires Aligned(t) && |t.close| >= 2
    ensures BuyAsWritten(t, p) == Raised
  {
    AndShiftedRaises(t.maLong, Present(t.maShort));
  }

  /** On two or more bars the sell expression raises. */
  lemma SellAsWrittenRaises(t: Table)
    requires Aligned(t) && |t.close| >= 2
    ensures SellAsWritten(t) == Raised
  {
    AndShiftedRaises(t.maLong, Present(t.maShort));
  }

  /** The backtest as written never scores a stock, while the backtest with
      the comparisons parenthesised scores every stock with 144 bars. */
  lemma RunAsWrittenNeverScores(bars: seq<Bar>, p: Params)
    requires PositiveCloses(bars)
    ensures RunAsWritten(bars, p) == None
    ensures Run(bars, p).Some? <==> |bars| >= MinBars
  {
    if |bars| >= MinBars {
      var t := Indicate(bars, p);
      BuyAsWrittenRaises(t, p);
      assert Assemble(t, BuyAsWritten(t, p), SellAsWritten(t)) == None;
    }
  }

  lemma CompareShifted(op: Comparison, xs: seq<real>, ys: seq<real>, i: nat)
    requires |xs| == |ys| && i < |xs|
    ensures Compare(op, Shifted(xs), Shifted(ys)).Ok?
    ensures Compare(op, Shifted(xs), Shifted(ys)).value.bs[i] == (i > 0 && Holds(op, xs[i - 1], ys[i - 1]))
  {
  }

  lemma ComparePresent(op: Comparison, xs: seq<real>, ys: seq<real>, i: nat)
    requires |xs| == |ys| && i < |xs|
    ensures Compare(op, Present(xs), Present(ys)).Ok?
    ensures Compare(op, Present(xs), Present(ys)).value.bs[i] == Holds(op, xs[i], ys[i])
  {
  }

  /** `&` and `|` of two boolean columns are element-wise. */
  lemma LogicalFlags(conj: bool, a: Outcome, b: Outcome)
    requires a.Ok? && a.value.Flags? && b.Ok? && b.value.Flags? && |a.value.bs| == |b.value.bs|
    ensures var r := if conj then And(a, b) else Or(a, b);
      r.Ok? && r.value.Flags? && |r.value.bs| == |a.value.bs|
      && forall i :: 0 <= i < |a.value.bs| ==>
           r.value.bs[i] == if conj then a.value.bs[i] && b.value.bs[i] else a.value.bs[i] || b.value.bs[i]
  {
  }

  predicate FlagsOf(c: Outcome, n: nat)
  {
    c.Ok? && c.value.Flags? && |c.value.bs| == n
  }

  /** `c0 & c1 & c2 & c3` of boolean columns, grouped from the left. */
  lemma AndOfFour(c0: Outcome, c1: Outcome, c2: Outcome, c3: Outcome, n: nat)
    requires FlagsOf(c0, n) && FlagsOf(c1, n) && FlagsOf(c2, n) && FlagsOf(c3, n)
    ensures FlagsOf(And(And(And(c0, c1), c2), c3), n)
    ensures forall i :: 0 <= i < n ==>
      And(And(And(c0, c1), c2), c3).value.bs[i] == (c0.value.bs[i] && c1.value.bs[i] && c2.value.bs[i] && c3.value.bs[i])
  {
    LogicalFlags(true, c0, c1);
    LogicalFlags(true, And(c0, c1), c2);
    LogicalFlags(true, And(And(c0, c1), c2), c3);
  }

  /** `(c0 & c1) | c2` of boolean columns. */
  lemma AndThenOr(c0: Outcome, c1: Outcome, c2: Outcome, n: nat)
    requires FlagsOf(c0, n) && FlagsOf(c1, n) && FlagsOf(c2, n)
    ensures FlagsOf(Or(And(c0, c1), c2), n)
    ensures forall i :: 0 <= i < n ==>
      Or(And(c0, c1), c2).value.bs[i] == ((c0.value.bs[i] && c1.value.bs[i]) || c2.value.bs[i])
  {
    LogicalFlags(true, c0, c1);
    LogicalFlags(false, And(c0, c1), c2);
  }

  /** Row `i` of the four parenthesised buy comparisons. */
  lemma BuyRow(t: Table, p: Params, i: nat)
    requires Aligned(t) && i < |t.close|
    ensures FlagsOf(Compare(Lt, Shifted(t.maShort), Shifted(t.maLong)), |t.close|)
    ensures FlagsOf(Compare(Gt, Present(t.maShort), Present(t.maLong)), |t.close|)
    ensures FlagsOf(Compare(Le, Present(t.close), Present(Scale(t.support, 1.0 + p.buyMargin))), |t.close|)
    ensures FlagsOf(Compare(Gt, Present(t.close), Present(Scale(t.support, 0.95))), |t.close|)
    ensures GoldenCross(t, i) == (Compare(Lt, Shifted(t.maShort), Shifted(t.maLong)).value.bs[i]
                                  && Compare(Gt, Present(t.maShort), Present(t.maLong)).value.bs[i])
    ensures NearSupport(t, p, i) == (Compare(Le, Present(t.close), Present(Scale(t.support, 1.0 + p.buyMargin))).value.bs[i]
                                     && Compare(Gt, Present(t.close), Present(Scale(t.support, 0.95))).value.bs[i])
  {
    CompareShifted(Lt, t.maShort, t.maLong, i);
    ComparePresent(Gt, t.maShort, t.maLong, i);
    ComparePresent(Le, t.close, Scale(t.support, 1.0 + p.buyMargin), i);
    ComparePresent(Gt, t.close, Scale(t.support, 0.95), i);
  }

  /** Parenthesised, the buy expression is the buy signal of the model. */
  lemma BuyIntendedAgrees(t: Table, p: Params)
    requires Aligned(t)
    ensures FlagsOf(BuyIntended(t, p), |t.close|)
    ensures forall i :: 0 <= i < |t.close| ==> BuyIntended(t, p).value.bs[i] == BuySignal(t, p, i)
  {
    var n := |t.close|;
    var c0 := Compare(Lt, Shifted(t.maShort), Shifted(t.maLong));
    var c1 := Compare(Gt, Present(t.maShort), Present(t.maLong));
    var c2 := Compare(Le, Present(t.close), Present(Scale(t.support, 1.0 + p.buyMargin)));
    var c3 := Compare(Gt, Present(t.close), Present(Scale(t.support, 0.95)));
    AndOfFour(c0, c1, c2, c3, n);
    var r := BuyIntended(t, p);
    assert r == And(And(And(c0, c1), c2), c3);
    forall i | 0 <= i < n
      ensures r.value.bs[i] == BuySignal(t, p, i)
    {
      BuyRow(t, p, i);
    }
  }

  /** Parenthesised, the sell expression is the sell signal of the model. */
  lemma SellIntendedAgrees(t: Table)
    requires Aligned(t)
    ensures FlagsOf(SellIntended(t), |t.close|)
    ensures forall i :: 0 <= i < |t.close| ==> SellIntended(t).value.bs[i] == SellSignal(t, i)
  {
    var n := |t.close|;
    var stop := Scale(t.support, 0.985);
    var c0 := Compare(Gt, Shifted(t.maShort), Shifted(t.maLong));
    var c1 := Compare(Lt, Present(t.maShort), Present(t.maLong));
    var c2 := Compare(Lt, Present(t.close), Present(stop));
    AndThenOr(c0, c1, c2, n);
    var r := SellIntended(t);
    assert r == Or(And(c0, c1), c2);
    forall i | 0 <= i < n
      ensures r.value.bs[i] == SellSignal(t, i)
    {
      CompareShifted(Gt, t.maShort, t.maLong, i);
      ComparePresent(Lt, t.maShort, t.maLong, i);
      ComparePresent(Lt, t.close, stop, i);
      assert stop[i] == t.support[i] * 0.985;
    }
  }

  /** With the comparisons parenthesised the expressions build exactly the
      frame the model replays, so the corrected backtest is `Run`. */
  lemma IntendedFrame(bars: seq<Bar>, p: Params)
    ensures var t := Indicate(bars, p);
      Assemble(t, BuyIntended(t, p), SellIntended(t)) == Some(Frame(bars, p))
  {
    var t := Indicate(bars, p);
    BuyIntendedAgrees(t, p);
    SellIntendedAgrees(t);
    var f := Assemble(t, BuyIntended(t, p), SellIntended(t));
    assert f.Some?;
    var g := FrameOf(t, p);
    assert |f.value| == |g|;
    assert forall i :: 0 <= i < |bars| ==> f.value[i] == g[i];
    assert f.value == g;
  }
}
