/** The parameter search (`optimize_strategy_params`): every combination of
    the five candidate lists is backtested on the first three selected
    stocks, a combination with at least two stocks of at least two trades
    gets a composite score, and the first combination with the highest
    score wins; without any scored combination the default parameters
    stand. */
module Optimizer {
  import opened Numeric
  import opened Bars
  import opened Indicators
  import opened Performance
  import opened Backtest
  import SignalExpressions

  const MaShorts: seq<Window> := [4, 5, 6]
  const MaLongs: seq<Window> := [18, 20, 22]
  const SrDays: seq<Window> := [4, 5, 6]
  const BuyMargins: seq<Margin> := [0.008, 0.01, 0.012]
  const SellMargins: seq<Margin> := [0.008, 0.01, 0.012]

  /** The parameters kept when no combination is scored. */
  const Default := Params(5, 20, 5, 0.01, 0.01)

  /** Combinations are backtested on this many of the selected stocks. */
  const TestStocks := 3
  /** A backtest counts with at least this many trades ... */
  const MinTrades := 2
  /** ... and a combination is scored with at least this many such stocks. */
  const MinStocks := 2

  const ReturnWeight := 0.6
  const WinRateWeight := 0.3

  /** `itertools.product` of the five lists: the last list varies fastest. */
  function Grid(): (g: seq<Params>)
    ensures |g| == 243
  {
    seq(243, n requires 0 <= n < 243 =>
      Params(MaShorts[n / 81], MaLongs[n / 27 % 3], SrDays[n / 9 % 3], BuyMargins[n / 3 % 3], SellMargins[n % 3]))
  }

  /** Each field drawn from its candidate list. */
  predicate OnGrid(p: Params)
  {
    p.maShort in MaShorts && p.maLong in MaLongs && p.srDays in SrDays
    && p.buyMargin in BuyMargins && p.sellMargin in SellMargins
  }

  /** Combination `(a, b, c, d, e)` of list positions sits at position
      `81a + 27b + 9c + 3d + e`. */
  lemma GridIndex(a: nat, b: nat, c: nat, d: nat, e: nat)
    requires a < 3 && b < 3 && c < 3 && d < 3 && e < 3
    ensures 81 * a + 27 * b + 9 * c + 3 * d + e < 243
    ensures Grid()[81 * a + 27 * b + 9 * c + 3 * d + e]
      == Params(MaShorts[a], MaLongs[b], SrDays[c], BuyMargins[d], SellMargins[e])
  {
    var n := 81 * a + 27 * b + 9 * c + 3 * d + e;
    assert n / 81 == a by { ByEightyOne(n, a, 27 * b + 9 * c + 3 * d + e); }
    assert n / 27 % 3 == b by {
      ByTwentySeven(n, 3 * a + b, 9 * c + 3 * d + e);
      ByThree(3 * a + b, a, b);
    }
    assert n / 9 % 3 == c by {
      ByNine(n, 9 * a + 3 * b + c, 3 * d + e);
      ByThree(9 * a + 3 * b + c, 3 * a + b, c);
    }
    assert n / 3 % 3 == d by {
      ByThree(n, 27 * a + 9 * b + 3 * c + d, e);
      ByThree(27 * a + 9 * b + 3 * c + d, 9 * a + 3 * b + c, d);
    }
    assert n % 3 == e by { ByThree(n, 27 * a + 9 * b + 3 * c + d, e); }
  }

  /** Division of `k * q + r` by `k`, for `0 <= r < k`, at the four
      divisors the grid uses. */
  lemma ByThree(n: int, q: int, r: int)
    requires 0 <= r < 3 && n == 3 * q + r
    ensures n / 3 == q && n % 3 == r
  {
  }

  lemma ByNine(n: int, q: int, r: int)
    requires 0 <= r < 9 && n == 9 * q + r
    ensures n / 9 == q
  {
  }

  lemma ByTwentySeven(n: int, q: int, r: int)
    requires 0 <= r < 27 && n == 27 * q + r
    ensures n / 27 == q
  {
  }

  lemma ByEightyOne(n: int, q: int, r: int)
    requires 0 <= r < 81 && n == 81 * q + r
    ensures n / 81 == q
  {
  }

  /** The grid holds exactly the combinations of the candidate lists. */
  lemma GridComplete(p: Params)
    ensures p in Grid() <==> OnGrid(p)
  {
    if OnGrid(p) {
      var a :| 0 <= a < 3 && MaShorts[a] == p.maShort;
      var b :| 0 <= b < 3 && MaLongs[b] == p.maLong;
      var c :| 0 <= c < 3 && SrDays[c] == p.srDays;
      var d :| 0 <= d < 3 && BuyMargins[d] == p.buyMargin;
      var e :| 0 <= e < 3 && SellMargins[e] == p.sellMargin;
      GridIndex(a, b, c, d, e);
    }
  }

  /** A grid position is the base-3 numeral of its five list positions. */
  lemma Digits(n: nat)
    requires n < 243
    ensures n / 81 < 3
    ensures n == 81 * (n / 81) + 27 * (n / 27 % 3) + 9 * (n / 9 % 3) + 3 * (n / 3 % 3) + n % 3
  {
    var m1 := n / 3;
    var m2 := m1 / 3;
    var m3 := m2 / 3;
    assert n == 3 * m1 + n % 3;
    assert m1 == 3 * m2 + m1 % 3;
    assert m2 == 3 * m3 + m2 % 3;
    assert m3 == 3 * (m3 / 3) + m3 % 3;
    assert n / 9 == m2;
    assert n / 27 == m3;
    assert n / 81 == m3 / 3;
  }

  /** The candidate lists have no repeated entry. */
  lemma ListsDistinct(x: nat, y: nat)
    requires x < 3 && y < 3 && x != y
    ensures MaShorts[x] != MaShorts[y] && MaLongs[x] != MaLongs[y] && SrDays[x] != SrDays[y]
    ensures BuyMargins[x] != BuyMargins[y] && SellMargins[x] != SellMargins[y]
  {
  }

  /** Two positions of the grid hold the same combination only if they are
      the same position. */
  lemma GridInjective(i: nat, j: nat)
    requires i < 243 && j < 243 && Grid()[i] == Grid()[j]
    ensures i == j
  {
    assert i / 81 == j / 81 by {
      if i / 81 != j / 81 { ListsDistinct(i / 81, j / 81); }
    }
    assert i / 27 % 3 == j / 27 % 3 by {
      if i / 27 % 3 != j / 27 % 3 { ListsDistinct(i / 27 % 3, j / 27 % 3); }
    }
    assert i / 9 % 3 == j / 9 % 3 by {
      if i / 9 % 3 != j / 9 % 3 { ListsDistinct(i / 9 % 3, j / 9 % 3); }
    }
    assert i / 3 % 3 == j / 3 % 3 by {
      if i / 3 % 3 != j / 3 % 3 { ListsDistinct(i / 3 % 3, j / 3 % 3); }
    }
    assert i % 3 == j % 3 by {
      if i % 3 != j % 3 { ListsDistinct(i % 3, j % 3); }
    }
    Digits(i);
    Digits(j);
  }

  /** No combination is backtested twice. */
  lemma GridDistinct()
    ensures forall i, j :: 0 <= i < j < 243 ==> Grid()[i] != Grid()[j]
  {
    forall i, j | 0 <= i < j < 243
      ensures Grid()[i] != Grid()[j]
    {
      if Grid()[i] == Grid()[j] {
        GridInjective(i, j);
      }
    }
  }

  lemma DefaultOnGrid()
    ensures OnGrid(Default) && Default in Grid()
  {
    GridComplete(Default);
  }

  /** The program as written or with both findings corrected. */
  datatype Version = AsWritten | Corrected

  /** One backtest of one stock under one version. */
  function Trial(v: Version, bars: seq<Bar>, p: Params): Option<Metrics>
    requires PositiveCloses(bars)
  {
    match v
    case AsWritten => SignalExpressions.RunAsWritten(bars, p)
    case Corrected => Run(bars, p)
  }

  predicate Counts(m: Option<Metrics>)
  {
    m.Some? && m.value.tradeCount >= MinTrades
  }

  /** The positions of the backtests that count, in order. */
  function Counting(runs: seq<Option<Metrics>>): (idx: seq<nat>)
    ensures forall j :: 0 <= j < |idx| ==> idx[j] < |runs| && Counts(runs[idx[j]])
    ensures forall j, k :: 0 <= j < k < |idx| ==> idx[j] < idx[k]
    ensures forall i :: 0 <= i < |runs| && Counts(runs[i]) ==> i in idx
  {
    if |runs| == 0 then []
    else
      var front := runs[..|runs| - 1];
      assert forall i :: 0 <= i < |front| ==> runs[i] == front[i];
      var rest := Counting(front);
      if Counts(runs[|runs| - 1]) then rest + [|runs| - 1] else rest
  }

  /** There are no more counting positions than backtests, as many exactly
      when all count, and none exactly when none counts. */
  lemma CountingSize(runs: seq<Option<Metrics>>)
    ensures |Counting(runs)| <= |runs|
    ensures |Counting(runs)| == |runs| <==> forall i :: 0 <= i < |runs| ==> Counts(runs[i])
    ensures |Counting(runs)| == 0 <==> forall i :: 0 <= i < |runs| ==> !Counts(runs[i])
  {
    CountingAll(runs);
    CountingNone(runs);
  }

  lemma {:induction false} CountingAll(runs: seq<Option<Metrics>>)
    ensures |Counting(runs)| <= |runs|
    ensures |Counting(runs)| == |runs| <==> forall i :: 0 <= i < |runs| ==> Counts(runs[i])
  {
    if |runs| > 0 {
      var front := runs[..|runs| - 1];
      CountingAll(front);
      assert forall i :: 0 <= i < |front| ==> runs[i] == front[i];
    }
  }

  lemma {:induction false} CountingNone(runs: seq<Option<Metrics>>)
    ensures |Counting(runs)| == 0 <==> forall i :: 0 <= i < |runs| ==> !Counts(runs[i])
  {
    if |runs| > 0 {
      var front := runs[..|runs| - 1];
      CountingNone(front);
      assert forall i :: 0 <= i < |front| ==> runs[i] == front[i];
    }
  }

  /** The metrics of the backtests that count, in order and with repeats: a
      stock backtested twice contributes twice. */
  function Kept(runs: seq<Option<Metrics>>): (kept: seq<Metrics>)
    ensures |kept| == |Counting(runs)| <= |runs|
    ensures forall j :: 0 <= j < |kept| ==> kept[j] == runs[Counting(runs)[j]].value
    ensures forall m :: m in kept <==> exists i :: 0 <= i < |runs| && Counts(runs[i]) && runs[i].value == m
    ensures |kept| == |runs| <==> forall i :: 0 <= i < |runs| ==> Counts(runs[i])
    ensures |kept| == 0 <==> forall i :: 0 <= i < |runs| ==> !Counts(runs[i])
  {
    var idx := Counting(runs);
    CountingSize(runs);
    seq(|idx|, j requires 0 <= j < |idx| => runs[idx[j]].value)
  }

  /** At least two backtests count exactly when two different positions
      count. */
  lemma TwoCounting(runs: seq<Option<Metrics>>)
    ensures |Kept(runs)| >= 2 <==> exists i, j :: 0 <= i < j < |runs| && Counts(runs[i]) && Counts(runs[j])
  {
    var idx := Counting(runs);
    if |idx| >= 2 {
      assert idx[0] < idx[1] && Counts(runs[idx[0]]) && Counts(runs[idx[1]]);
    }
    if i, j :| 0 <= i < j < |runs| && Counts(runs[i]) && Counts(runs[j]) {
      assert i in idx && j in idx;
      if |idx| < 2 {
        assert false;
      }
    }
  }

  /** The drawdown weight. As written it is -0.1 on a drawdown that is never
      positive, which adds to the score; the correction penalises it. */
  function DrawdownWeight(v: Version): real
  {
    match v
    case AsWritten => -0.1
    case Corrected => 0.1
  }

  /** The composite score of the mean annual return, win rate and drawdown. */
  function Composite(v: Version, annual: real, winRate: real, drawdown: real): real
  {
    ReturnWeight * annual + WinRateWeight * winRate + DrawdownWeight(v) * drawdown
  }

  /** As written, a deeper drawdown raises the score. */
  lemma AsWrittenRewardsDrawdown(annual: real, winRate: real, deeper: real, shallower: real)
    requires deeper < shallower
    ensures Composite(AsWritten, annual, winRate, deeper) > Composite(AsWritten, annual, winRate, shallower)
  {
  }

  /** Corrected, a deeper drawdown lowers the score, and the score never
      exceeds its return and win-rate part. */
  lemma CorrectedPenalisesDrawdown(annual: real, winRate: real, deeper: real, shallower: real)
    requires deeper < shallower <= 0.0
    ensures Composite(Corrected, annual, winRate, deeper) < Composite(Corrected, annual, winRate, shallower)
    ensures Composite(Corrected, annual, winRate, shallower) <= ReturnWeight * annual + WinRateWeight * winRate
  {
  }

  function AnnualColumn(kept: seq<Metrics>, annualize: real -> real): (xs: seq<real>)
    ensures |xs| == |kept|
    ensures forall i :: 0 <= i < |kept| ==> xs[i] == annualize(kept[i].totalReturn)
  {
    seq(|kept|, i requires 0 <= i < |kept| => annualize(kept[i].totalReturn))
  }

  function WinRateColumn(kept: seq<Metrics>): (xs: seq<real>)
    ensures |xs| == |kept|
    ensures forall i :: 0 <= i < |kept| ==> xs[i] == kept[i].winRate
  {
    seq(|kept|, i requires 0 <= i < |kept| => kept[i].winRate)
  }

  function DrawdownColumn(kept: seq<Metrics>): (xs: seq<real>)
    ensures |xs| == |kept|
    ensures forall i :: 0 <= i < |kept| ==> xs[i] == kept[i].maxDrawdown
  {
    seq(|kept|, i requires 0 <= i < |kept| => kept[i].maxDrawdown)
  }

  predicate AllPositive(stocks: seq<seq<Bar>>)
  {
    forall i :: 0 <= i < |stocks| ==> PositiveCloses(stocks[i])
  }

  /** `head(3)`: the stocks the combinations are backtested on. */
  function TestSet(stocks: seq<seq<Bar>>): (tests: seq<seq<Bar>>)
    ensures |tests| == if |stocks| < TestStocks then |stocks| else TestStocks
    ensures forall i :: 0 <= i < |tests| ==> tests[i] == stocks[i]
  {
    if |stocks| < TestStocks then stocks else stocks[..TestStocks]
  }

  /** The backtests of one combination on the test set. */
  function Runs(v: Version, tests: seq<seq<Bar>>, p: Params): (runs: seq<Option<Metrics>>)
    requires AllPositive(tests)
    ensures |runs| == |tests|
    ensures forall i :: 0 <= i < |tests| ==> runs[i] == Trial(v, tests[i], p)
  {
    seq(|tests|, i requires 0 <= i < |tests| => Trial(v, tests[i], p))
  }

  /** The score of one combination, or nothing when fewer than two stocks
      count. The annualisation `(1 + total) ** (365 / 180) - 1` is a
      parameter, since it raises to a fractional power. */
  function Evaluate(v: Version, tests: seq<seq<Bar>>, annualize: real -> real, p: Params): (score: Option<real>)
    requires AllPositive(tests)
    ensures score.Some? <==> |Kept(Runs(v, tests, p))| >= MinStocks
    ensures score.Some? <==> exists i, j :: 0 <= i < j < |tests| && Counts(Trial(v, tests[i], p)) && Counts(Trial(v, tests[j], p))
  {
    TwoCounting(Runs(v, tests, p));
    var kept := Kept(Runs(v, tests, p));
    if |kept| < MinStocks then None
    else Some(Composite(v, Mean(AnnualColumn(kept, annualize)), Mean(WinRateColumn(kept)), Mean(DrawdownColumn(kept))))
  }

  /** The position of the first highest score, nothing when no score. This
      is the search loop: a score replaces the best one only when strictly
      higher, starting from minus infinity. */
  function Leader(scores: seq<Option<real>>): (j: Option<nat>)
    ensures j.None? <==> forall k :: 0 <= k < |scores| ==> scores[k].None?
    ensures j.Some? ==> j.value < |scores| && scores[j.value].Some?
    ensures j.Some? ==> forall k :: 0 <= k < |scores| && scores[k].Some? ==> scores[k].value <= scores[j.value].value
    ensures j.Some? ==> forall k :: 0 <= k < j.value && scores[k].Some? ==> scores[k].value < scores[j.value].value
  {
    if |scores| == 0 then None
    else
      var front := scores[..|scores| - 1];
      var last := |scores| - 1;
      var l := Leader(front);
      assert forall k :: 0 <= k < last ==> scores[k] == front[k];
      if scores[last].Some? && (l.None? || scores[last].value > scores[l.value].value) then Some(last) else l
  }

  /** The first highest score is the only position with both properties. */
  lemma LeaderUnique(scores: seq<Option<real>>, j: nat)
    requires j < |scores| && scores[j].Some?
    requires forall k :: 0 <= k < |scores| && scores[k].Some? ==> scores[k].value <= scores[j].value
    requires forall k :: 0 <= k < j && scores[k].Some? ==> scores[k].value < scores[j].value
    ensures Leader(scores) == Some(j)
  {
    var l := Leader(scores);
    assert l.Some?;
  }

  /** The score of every combination of the grid. */
  function Scores(v: Version, stocks: seq<seq<Bar>>, annualize: real -> real): (scores: seq<Option<real>>)
    requires AllPositive(stocks)
    ensures |scores| == |Grid()|
    ensures forall n :: 0 <= n < |Grid()| ==> scores[n] == Evaluate(v, TestSet(stocks), annualize, Grid()[n])
  {
    var tests := TestSet(stocks);
    seq(|Grid()|, n requires 0 <= n < |Grid()| => Evaluate(v, tests, annualize, Grid()[n]))
  }

  /** The chosen parameters: the first combination with the highest score,
      or the defaults when no combination is scored. */
  function Optimize(v: Version, stocks: seq<seq<Bar>>, annualize: real -> real): (p: Params)
    requires AllPositive(stocks)
    ensures OnGrid(p)
    ensures (forall n :: 0 <= n < |Grid()| ==> Scores(v, stocks, annualize)[n].None?) ==> p == Default
  {
    DefaultOnGrid();
    match Leader(Scores(v, stocks, annualize))
    case None => Default
    case Some(j) =>
      GridComplete(Grid()[j]);
      Grid()[j]
  }

  /** Once any combination is scored, the chosen one is scored too, at least
      as high as every other one and strictly higher than every one searched
      before it. */
  lemma OptimizeBest(v: Version, stocks: seq<seq<Bar>>, annualize: real -> real, n: nat, m: nat)
    requires AllPositive(stocks) && n < 243 && m < 243
    requires Optimize(v, stocks, annualize) == Grid()[n]
    requires Scores(v, stocks, annualize)[m].Some?
    ensures Scores(v, stocks, annualize)[n].Some?
    ensures Scores(v, stocks, annualize)[m].value <= Scores(v, stocks, annualize)[n].value
    ensures m < n ==> Scores(v, stocks, annualize)[m].value < Scores(v, stocks, annualize)[n].value
  {
    ChosenIsLeader(v, stocks, annualize, n, m);
    LeaderBest(Scores(v, stocks, annualize), n, m);
  }

  /** The leader's score is scored and bounds every other one. */
  lemma LeaderBest(scores: seq<Option<real>>, j: nat, m: nat)
    requires Leader(scores) == Some(j) && m < |scores| && scores[m].Some?
    ensures j < |scores| && scores[j].Some? && scores[m].value <= scores[j].value
    ensures m < j ==> scores[m].value < scores[j].value
  {
  }

  /** Once any combination is scored, the chosen combination's position is
      the leader. */
  lemma ChosenIsLeader(v: Version, stocks: seq<seq<Bar>>, annualize: real -> real, n: nat, m: nat)
    requires AllPositive(stocks) && n < 243 && m < 243
    requires Optimize(v, stocks, annualize) == Grid()[n]
    requires Scores(v, stocks, annualize)[m].Some?
    ensures Leader(Scores(v, stocks, annualize)) == Some(n)
  {
    var j := LeaderOf(v, stocks, annualize, m);
    GridInjective(j, n);
  }

  /** Once any combination is scored, the chosen one is the leader's. */
  lemma LeaderOf(v: Version, stocks: seq<seq<Bar>>, annualize: real -> real, m: nat) returns (j: nat)
    requires AllPositive(stocks) && m < 243
    requires Scores(v, stocks, annualize)[m].Some?
    ensures Leader(Scores(v, stocks, annualize)) == Some(j) && j < 243
    ensures Optimize(v, stocks, annualize) == Grid()[j]
  {
    var scores := Scores(v, stocks, annualize);
    var l := Leader(scores);
    assert scores[m].Some?;
    j := l.value;
  }

  /** As written no backtest produces metrics, so no combination is scored
      and the search always returns the defaults. */
  lemma OptimizeAsWrittenDefault(stocks: seq<seq<Bar>>, annualize: real -> real)
    requires AllPositive(stocks)
    ensures Optimize(AsWritten, stocks, annualize) == Default
  {
    var tests := TestSet(stocks);
    forall n | 0 <= n < |Grid()|
      ensures Scores(AsWritten, stocks, annualize)[n].None?
    {
      var runs := Runs(AsWritten, tests, Grid()[n]);
      forall i | 0 <= i < |runs|
        ensures runs[i].None?
      {
        SignalExpressions.RunAsWrittenNeverScores(tests[i], Grid()[n]);
      }
      assert |Kept(runs)| == 0;
    }
  }
}
