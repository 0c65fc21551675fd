# cn-stock-agent strategy core, modelled in Dafny

This project models the daily strategy pipeline of cn-stock-agent, an A-share
short-term trading helper. The pipeline has five stages:

- **Scoring** (`calculate_short_term_score`). Each stock gets a short-term
  score from five clamped factors over its last 120 bars: five-day return,
  volume expansion, moving-average alignment, 14-day RSI and turnover
  stability. A stock with fewer than 60 bars scores 0.
- **Selection** (`select_top5_stocks`). The five stocks of the day are picked
  in three tiers:
  - the best scores of at least 30;
  - then the best remaining scores of at least 20;
  - then a fixed preset list, scored 25.
- **Backtest** (`backtest_strategy`). One parameter set is backtested on one
  stock:
  - moving averages and a rolling support give per-bar buy and sell signals;
  - a flat/long position is replayed bar by bar into a ledger of round trips
    with margin prices and a 0.15% cost on each side;
  - the ledger yields compounded return, win rate and maximum drawdown;
  - nothing comes back for fewer than 144 bars or when the signals cannot be
    built.
- **Parameter search** (`optimize_strategy_params`).
  - All 243 combinations of the five candidate lists are backtested on the
    first three selected stocks.
  - A combination is scored when at least two of those stocks give at least
    two trades each.
  - The first combination with the highest composite score wins, with fixed
    defaults when nothing is scored.
- **Live advice** (`generate_trading_signals`). Each selected stock gets today's
  advice from its last 30 bars:
  - buy, sell, hold or watch;
  - a whole number of shares on a buy;
  - a stop-loss price and a target price.

The model also covers the single-stock quote of `trading_signal.generate_signal`
once its bars are fetched:

- the two averages;
- a ±10% price-limit band around the previous close;
- buy and sell ranges around the recent low and high, clamped into that band;
- BUY or HOLD.

## Modelling choices

- **Prices.** Prices are Dafny `real`s. A bar is a close, high, low, volume and
  turnover, and dates are bar positions.
- **Rolling windows.** pandas rolling windows with `min_periods=1` are modelled
  exactly: the window at bar `i` is the last `min(i + 1, w)` values.
- **Rounding.** `round(x, 2)` is round-half-up to cents (`Numeric.Round2`). It
  is proved to stay within half a cent and to be monotone.
- **NaN.** The only NaN a score can carry is the turnover factor's `0 / 0`. It is
  modelled as `Score.NaN`, and it fails every threshold comparison afterwards.
- **Signal expressions.** The backtest's signal expressions are modelled twice:
  - as Python actually parses them, in `SignalExpressions`;
  - as evidently intended, with every comparison parenthesised, in `Backtest`.

  See "## Findings".
- **Ties.** `nlargest` keeps the first of equal scores (`keep='first'`). The
  model takes the first best row, then the largest of the others
  (`Selection.NLargest`). `Selection.TiesKeepFirst` and
  `Selection.TierKeepsFirst` prove that a later row or candidate with an equal
  score is only kept when the earlier one is. `Selection.SelectTopKeepsFirst`
  states it for the top tier of a selection; the backfill is a tier too
  (`Selection.SelectBackfill`). The one exception is a later
  row that is a repeat of a row listed before the earlier one: the kept copy
  may then be that first occurrence. Without repeated rows the exception
  never applies.
- **Annualisation.** The annualisation `(1 + total) ** (365 / 180) - 1` raises to
  a fractional power, so the parameter search takes it as a function parameter.
- **Versions.** The parameter search is modelled for both the as-written and
  the corrected program (`Optimizer.Version`).
- **Scaling.** The model proves that multiplying every price of a history by
  the same positive factor leaves the backtest's metrics unchanged. This is
  invariance under uniform rescaling only; it says nothing about how
  front-adjusted (`qfq`) prices relate to unadjusted ones.

### Where the code's own comment and its clamps disagree

The comment on the weighted sum at auto_strategy_optimizer.py:167 calls the
total score a weighted sum "0-100", and selection asks for at least 30 in its
top tier. The factor clamps and weights of lines 118-174 cap every score at
21.5, so the top tier is always empty. The model follows the code:

- `Scorer.ScoreNeverReachesThirty` proves the cap;
- `Selection.TopTierUnreachable` proves the empty top tier.

## Model

| member | source | states |
|---|---|---|
| Numeric.Clamp | auto_strategy_optimizer.py:123 | `min(max(x, lo), hi)` lies in `[lo, hi]`, is `x` inside the range and the nearer bound outside it |
| Numeric.Round2 | auto_strategy_optimizer.py:179 | rounding to two decimals moves a value by at most half a cent |
| Bars.Tail | auto_strategy_optimizer.py:109 | `tail(n)` keeps the last `min(n, len)` rows, in order |
| Indicators.RollingExtremes | auto_strategy_optimizer.py:256-257 | the rolling support is at most, and the rolling resistance at least, every value of the window, including the current bar's |
| Indicators.RollingMinIsMin | auto_strategy_optimizer.py:256 | the rolling minimum with `min_periods=1` is the minimum of the last `min(i + 1, w)` values |
| Indicators.RollingMaxIsMax | auto_strategy_optimizer.py:257 | the rolling maximum is the maximum of the same trailing window |
| Indicators.RollingMeanBounds | auto_strategy_optimizer.py:254-255 | a rolling mean lies between the window's minimum and maximum |
| Indicators.FullWindow | auto_strategy_optimizer.py:254 | once `i + 1 >= w` the window is exactly the `w` values ending at bar `i` |
| Indicators.RollingPositive | auto_strategy_optimizer.py:254-256 | on positive values the rolling minimum and mean are positive |
| Indicators.RollingMeans | auto_strategy_optimizer.py:254-255 | the loop computing a moving-average column gives, at each bar, the mean of that bar's trailing window |
| Indicators.MeanColumnBounded | auto_strategy_optimizer.py:254-255 | every entry of a moving-average column lies between the minimum and the maximum of its bar's trailing window |
| Indicators.MinColumnIsWindowMin | auto_strategy_optimizer.py:256 | every entry of the support column is the minimum of its bar's trailing lows, so never above that bar's own low |
| Indicators.MaxColumnIsWindowMax | auto_strategy_optimizer.py:257 | every entry of the resistance column is the maximum of its bar's trailing highs, so never below that bar's own high |
| Indicators.RollingMeanScale | auto_strategy_optimizer.py:254-255 | scaling the closes scales every moving average by the same factor |
| Indicators.RollingMinScale | auto_strategy_optimizer.py:256 | scaling the lows by a positive factor scales the support by it |
| Scorer.ReturnScore | auto_strategy_optimizer.py:119-123 | the return factor is in `[0, 30]`, zero exactly for a non-positive change, 30 exactly from a 20% rise |
| Scorer.VolumeRatio | auto_strategy_optimizer.py:126-128 | the 5-day over 20-day volume ratio, 0 when the 20-day mean is not positive |
| Scorer.VolumeScore | auto_strategy_optimizer.py:129 | the volume factor is in `[0, 20]`, zero exactly up to a ratio of 0.5, full exactly from 1.5 |
| Scorer.MaScore | auto_strategy_optimizer.py:131-142 | 20 exactly on strict bullish alignment of the 5/10/20/60 averages, otherwise in `[0, 15]` and zero exactly when the 5-day average is not above the 20-day one |
| Scorer.Gains | auto_strategy_optimizer.py:145-146 | the gain column is non-negative, one entry per bar |
| Scorer.Losses | auto_strategy_optimizer.py:145-147 | the loss column is non-negative, one entry per bar |
| Scorer.GainsLosses | auto_strategy_optimizer.py:145-147 | gain minus loss is the day's change, and at most one of them is non-zero |
| Scorer.Rsi | auto_strategy_optimizer.py:148-149 | RSI is in `[0, 100)`, 0 without losses, and otherwise `100 * gain / (gain + loss)` |
| Scorer.RsiMidpoint | auto_strategy_optimizer.py:148-149 | with losses present, RSI reaches 50 exactly when the average gain reaches the average loss, and is 0 exactly without gains |
| Scorer.RsiScore | auto_strategy_optimizer.py:150-156 | the RSI factor is 15 exactly on `[50, 70]`, 3 exactly below 40 or above 80, 10 otherwise |
| Scorer.TurnoverScore | auto_strategy_optimizer.py:158-165 | 8 without turnover data; otherwise in `[0, 15]`, 15 on equal means, 0 exactly when the means differ by the 20-day mean or more, NaN exactly when both means are zero |
| Scorer.FactorsOf | auto_strategy_optimizer.py:118-165 | every factor lies in its clamp range, and the turnover factor is NaN exactly for present data with zero means |
| Scorer.Combine | auto_strategy_optimizer.py:167-174 | the weighted sum is NaN exactly with a NaN turnover factor, otherwise in `[0.45, 21.5]` |
| Scorer.RoundScore | auto_strategy_optimizer.py:179 | rounding keeps NaN and moves a number by at most half a cent |
| Scorer.ShortTermScore | auto_strategy_optimizer.py:101-182 | fewer than 60 of the last 120 bars score 0; otherwise the score is NaN or in `[0.45, 21.5]` |
| Scorer.ScoreNeverReachesThirty | auto_strategy_optimizer.py:167-179 | no stock's score ever reaches 30, although the comment at line 167 calls the total a 0-100 score |
| Scorer.ScoreNaN | auto_strategy_optimizer.py:158-163 | a score is NaN exactly when the stock has enough bars and turnover data whose 20-day and 5-day means are both zero |
| Selection.EligibleMembers | auto_strategy_optimizer.py:198-207 | the rows of a tier's filter are exactly the candidates with a numeric score at the threshold or above and a code not excluded |
| Selection.FirstBest | auto_strategy_optimizer.py:198-200 | the first row with the highest score |
| Selection.NLargest | auto_strategy_optimizer.py:198-200 | `nlargest(n)` keeps `min(n, len)` rows drawn from the input, in descending order, none below a row left out, and all of them when `n` covers the input; a row is kept exactly when the repeated take-the-first-best choice (`Picks`) picks it |
| Selection.PicksFirst | auto_strategy_optimizer.py:198-200 | of two rows with equal scores, the later one is picked only when the earlier one is too, unless the later row already occurs before the earlier one |
| Selection.TiesKeepFirst | auto_strategy_optimizer.py:198-200 | `nlargest` keeps the first of equal scores (`keep='first'`): a later row with the same score is kept only when the earlier one is, unless that later row already occurs before the earlier one |
| Selection.EligibleAppend | auto_strategy_optimizer.py:198-207 | filtering a concatenation filters each part and concatenates the results |
| Selection.EligibleOrder | auto_strategy_optimizer.py:198-207 | the filter keeps two qualifying candidates in screener order, and the rows before the first are exactly those of the candidates before it |
| Selection.TierKeepsFirst | auto_strategy_optimizer.py:197-208 | of two qualifying candidates with equal scores, the later enters a tier only when the earlier one does, unless the later candidate was already listed before the earlier one |
| Selection.SelectTopKeepsFirst | auto_strategy_optimizer.py:197-200 | of two candidates of at least 30 with equal scores, the later is selected into the top tier only when the earlier one is, unless the later candidate was already listed before the earlier one |
| Selection.SelectBackfill | auto_strategy_optimizer.py:202-208 | below five top rows, the backfill is the tier of the scores of at least 20 whose codes the top tier has not taken, so `TierKeepsFirst` breaks its ties too |
| Selection.LeftOut | auto_strategy_optimizer.py:198-200 | a row left out by `nlargest(n)` means `n` rows were kept, each scoring at least as high |
| Selection.Tier | auto_strategy_optimizer.py:197-208 | a tier is min(`n`, number of eligible rows) descending rows, a sub-multiset of the eligible rows (none taken more often than listed), every one a qualifying candidate; a qualifying candidate left out means the tier is full of scores at least as high |
| Selection.Select | auto_strategy_optimizer.py:197-224 | exactly five rows; the top tier is min(5, eligible) rows of scores of at least 30, a sub-multiset of them, and ranks them; the backfill appears only when the top tier is short, takes min(places left, eligible) of the scores of at least 20 not already taken, a sub-multiset of them, and ranks them; presets, in list order, pad only the places the tiers cannot fill |
| Selection.Screen | auto_strategy_optimizer.py:189-195 | every stock of the pool is scored, in pool order, and no score reaches 30 |
| Selection.PoolBelowTop | auto_strategy_optimizer.py:189-198 | no screened candidate reaches the top tier's threshold of 30 |
| Selection.NoneEligible | auto_strategy_optimizer.py:198 | no candidate reaching the threshold leaves the filter empty |
| Selection.EmptyTop | auto_strategy_optimizer.py:198-200 | with no score of 30 or more the top tier is empty |
| Selection.TopTierUnreachable | auto_strategy_optimizer.py:197-209 | on any screened pool the top tier is empty, and the five rows come from the backfill and the presets |
| Performance.WinRate | auto_strategy_optimizer.py:305 | the win rate is in `[0, 1]`, 1 exactly when every trade wins, 0 exactly when none does |
| Performance.WinsCount | auto_strategy_optimizer.py:305 | all trades count as wins exactly when all returns are positive, none exactly when none is |
| Performance.CumMax | auto_strategy_optimizer.py:308 | `cummax` starts at the first value, rises to each new high, and bounds every earlier value |
| Performance.Fall | auto_strategy_optimizer.py:309 | the relative fall below a peak is in `(-1, 0]` and zero exactly at the peak |
| Performance.MetricsOf | auto_strategy_optimizer.py:297-317 | all zero without trades; otherwise the trade count, a win rate in `[0, 1]`, a total return above -100% and a drawdown in `(-1, 0]` |
| Performance.GrowthPositive | auto_strategy_optimizer.py:301 | a ledger of trades that each keep part of their stake compounds to a positive factor |
| Performance.GrowthAppend | auto_strategy_optimizer.py:301 | compounding two parts of a ledger multiplies their growth factors |
| Performance.EquityStep | auto_strategy_optimizer.py:307 | each trade multiplies the cumulative equity by its growth factor |
| Performance.PeakPositive | auto_strategy_optimizer.py:307-308 | the equity is positive and never above its running peak |
| Performance.DrawdownBounds | auto_strategy_optimizer.py:309-310 | every drawdown, and so the maximum drawdown, is in `(-1, 0]` |
| Performance.CumMaxMonotone | auto_strategy_optimizer.py:308 | a non-decreasing sequence is its own running maximum |
| Performance.EquityMonotone | auto_strategy_optimizer.py:307 | without a loss after the first trade the equity never falls |
| Performance.MaxDrawdownZero | auto_strategy_optimizer.py:307-310 | the maximum drawdown is 0 exactly when no trade after the first loses; a first-trade loss is never a drawdown |
| Performance.LaterLossDrawdown | auto_strategy_optimizer.py:307-310 | a loss on any trade after the first gives a negative maximum drawdown |
| Backtest.Indicate | auto_strategy_optimizer.py:254-257 | the indicator columns have one entry per bar |
| Backtest.StopLossNeverFires | auto_strategy_optimizer.py:266-269 | on sane bars the stop-loss condition never holds, so selling happens exactly on a dead cross |
| Backtest.Frame | auto_strategy_optimizer.py:253-269 | the signal frame has one session per bar with that bar's close |
| Backtest.EntryPrice | auto_strategy_optimizer.py:278 | the buy price, close plus the buy margin, is positive |
| Backtest.ExitPrice | auto_strategy_optimizer.py:282 | the sell price, close minus the sell margin, is positive |
| Backtest.ReturnRate | auto_strategy_optimizer.py:284-286 | a round trip's net return is above -100% |
| Backtest.ReturnRateSign | auto_strategy_optimizer.py:284-286 | a round trip wins exactly when the net sale exceeds the net purchase |
| Backtest.ReturnRateScale | auto_strategy_optimizer.py:284-286 | the return depends only on the ratio of the two prices |
| Backtest.Replay | auto_strategy_optimizer.py:271-294 | the replayed book is its chronicle: a chain of round trips, each opened at the first buy signal after the previous one closed and closed at the next sell signal at the margin prices, followed by the current position |
| Backtest.ChronicleStep | auto_strategy_optimizer.py:276-294 | one more bar of the loop extends a chronicle to a chronicle |
| Backtest.Ledger | auto_strategy_optimizer.py:271-294 | the ledger is the chain of round trips the loop records over all bars, and every recorded trade returns more than -100% |
| Backtest.ChronicleViable | auto_strategy_optimizer.py:284-292 | every round trip of a chronicle returns more than -100% |
| Backtest.RunFrame | auto_strategy_optimizer.py:296-320 | metrics exactly when the signal frame was built, and then exactly the performance metrics of the ledger's returns; they count the ledger's trades and keep win rate and drawdown in range |
| Backtest.Run | auto_strategy_optimizer.py:235-320 | nothing exactly below 144 bars; otherwise exactly the performance metrics of the returns of the ledger replayed over the signal frame |
| Backtest.FrameScale | auto_strategy_optimizer.py:253-269 | rescaling all prices rescales the closes and leaves every signal unchanged |
| Backtest.StepScale | auto_strategy_optimizer.py:276-294 | one bar of the loop commutes with rescaling all prices |
| Backtest.ReplayScale | auto_strategy_optimizer.py:271-294 | the replay of a rescaled frame is the rescaled replay |
| Backtest.RunScale | auto_strategy_optimizer.py:235-320 | a positively rescaled price history gives exactly the same backtest metrics |
| SignalExpressions.Compare | auto_strategy_optimizer.py:261-268 | a column comparison succeeds exactly on equal lengths and is false wherever a NaN takes part |
| SignalExpressions.Assemble | auto_strategy_optimizer.py:260-276 | the loop's frame exists exactly when both signal expressions evaluate to boolean columns of the table's length |
| SignalExpressions.RunAsWritten | auto_strategy_optimizer.py:235-320 | as written, metrics only ever come back for at least 144 bars |
| SignalExpressions.AndShiftedRaises | auto_strategy_optimizer.py:261 | `&` with a shifted float column of two or more rows on its left raises |
| SignalExpressions.BuyAsWrittenRaises | auto_strategy_optimizer.py:260-265 | on two or more bars the buy expression, parsed as Python parses it, raises |
| SignalExpressions.SellAsWrittenRaises | auto_strategy_optimizer.py:266-269 | on two or more bars the sell expression, parsed as Python parses it, raises |
| SignalExpressions.RunAsWrittenNeverScores | auto_strategy_optimizer.py:260-320 | the backtest as written never returns metrics, while the corrected one returns metrics exactly from 144 bars |
| SignalExpressions.AndOfFour | auto_strategy_optimizer.py:260-265 | `&` of four boolean columns is their element-wise conjunction |
| SignalExpressions.AndThenOr | auto_strategy_optimizer.py:266-269 | `(a & b) \| c` of boolean columns is element-wise |
| SignalExpressions.BuyIntendedAgrees | auto_strategy_optimizer.py:260-265 | parenthesised, the buy expression is the model's buy signal at every bar |
| SignalExpressions.SellIntendedAgrees | auto_strategy_optimizer.py:266-269 | parenthesised, the sell expression is the model's sell signal at every bar |
| SignalExpressions.IntendedFrame | auto_strategy_optimizer.py:260-269 | parenthesised, both expressions build exactly the frame the corrected backtest replays |
| Optimizer.Grid | auto_strategy_optimizer.py:327-328 | the product of the five candidate lists has 243 combinations |
| Optimizer.GridIndex | auto_strategy_optimizer.py:328 | `product` puts combination `(a, b, c, d, e)` at position `81a + 27b + 9c + 3d + e` |
| Optimizer.GridComplete | auto_strategy_optimizer.py:21-27 | the grid holds exactly the combinations drawn from the candidate lists |
| Optimizer.GridInjective | auto_strategy_optimizer.py:328 | two positions holding the same combination are the same position |
| Optimizer.GridDistinct | auto_strategy_optimizer.py:328 | no combination is searched twice |
| Optimizer.DefaultOnGrid | auto_strategy_optimizer.py:333-339 | the default parameters are one of the grid's combinations |
| Optimizer.Counting | auto_strategy_optimizer.py:349-352 | the positions of the backtests with at least two trades: every one of them, each once, in increasing order |
| Optimizer.CountingAll | auto_strategy_optimizer.py:349-352 | there are no more counting positions than backtests, and as many exactly when every backtest counts |
| Optimizer.CountingNone | auto_strategy_optimizer.py:349-352 | there are no counting positions exactly when no backtest counts |
| Optimizer.Kept | auto_strategy_optimizer.py:349-352 | the kept metrics are those of the counting backtests, in test order and with repeats (a stock listed twice counts twice); all are kept exactly when all count, none exactly when none does |
| Optimizer.TwoCounting | auto_strategy_optimizer.py:349-354 | at least two metrics are kept exactly when two different test positions count |
| Optimizer.AsWrittenRewardsDrawdown | auto_strategy_optimizer.py:363-367 | as written, a deeper drawdown raises the composite score |
| Optimizer.CorrectedPenalisesDrawdown | auto_strategy_optimizer.py:363-367 | corrected, a deeper drawdown lowers the composite score, which never exceeds its return and win-rate part |
| Optimizer.TestSet | auto_strategy_optimizer.py:343 | `head(3)`: the first three selected stocks, or all when fewer |
| Optimizer.Evaluate | auto_strategy_optimizer.py:347-367 | a combination is scored exactly when two different test positions each give at least two trades |
| Optimizer.Leader | auto_strategy_optimizer.py:379-381 | the strict-improvement search finds nothing exactly without scores, otherwise the first position of the highest score |
| Optimizer.LeaderUnique | auto_strategy_optimizer.py:379-381 | the first highest score is the only position the search can end on |
| Optimizer.Optimize | auto_strategy_optimizer.py:322-401 | the chosen parameters come from the grid, and are the defaults when no combination is scored |
| Optimizer.OptimizeBest | auto_strategy_optimizer.py:379-381 | once any combination is scored, the chosen combination is scored too, at least as high as every scored combination and strictly higher than every one searched before it |
| Optimizer.ChosenIsLeader | auto_strategy_optimizer.py:332-381 | once any combination is scored, the chosen combination sits at the position the strict-improvement search ends on |
| Optimizer.LeaderBest | auto_strategy_optimizer.py:379-381 | the search's final position is scored and bounds every score, strictly for the positions before it |
| Optimizer.OptimizeAsWrittenDefault | auto_strategy_optimizer.py:332-401 | as written, the search always returns the default parameters |
| LiveSignal.ReadingOf | auto_strategy_optimizer.py:419-428 | a reading exists exactly for a non-empty series; the support is at most the latest low and positive on sane bars, the resistance at least the latest high, and a single bar is its own previous bar |
| LiveSignal.ClassifyCases | auto_strategy_optimizer.py:431-467 | buy and sell exclude each other; hold means a rising short average without a buy; watch means a short average at or below the long one without a sell |
| LiveSignal.FloorQuotient | auto_strategy_optimizer.py:450 | `cash // close` shares cost at most the cash, and one more share would exceed it |
| LiveSignal.Size | auto_strategy_optimizer.py:450-452 | the shares are a non-negative whole number, and their cost plus the cash left is the stock's cash, with less than one share's price left |
| LiveSignal.AdviceOf | auto_strategy_optimizer.py:448-471 | the advice carries the classified signal; investment plus remaining cash is the per-stock cash; only a buy invests |
| LiveSignal.Advise | auto_strategy_optimizer.py:412-428 | advice exactly for a non-empty series |
| LiveSignal.BuyShares | auto_strategy_optimizer.py:450-452 | on a buy the shares are the largest whole number the cash affords |
| LiveSignal.SingleBarNeverBuys | auto_strategy_optimizer.py:428-437 | with a single bar the previous averages are the latest ones, so the advice is never to buy |
| LiveSignal.WellFormedNeverSells | auto_strategy_optimizer.py:438-442 | on sane bars the close is never 1.5% below the support, so the live advice never says sell |
| LiveSignal.StopBelowTarget | auto_strategy_optimizer.py:470-471 | on sane bars the stop-loss price never exceeds the target price |
| RangeSignal.Band | trading_signal.py:104-106 | the price-limit band is never inverted for a non-negative previous close |
| RangeSignal.Range | trading_signal.py:114-117 | a range lies inside the band, and is non-empty exactly when the rounded 1% range around its anchor meets the band |
| RangeSignal.Recent | trading_signal.py:108-111 | the rounded recent low and high are non-negative with the prices and ordered on bars whose low is at most their high |
| RangeSignal.Primary | trading_signal.py:42-44 | the primary source yields a quote exactly from 20 bars, with both ranges inside the band |
| RangeSignal.PrevClose | trading_signal.py:104 | the previous close is non-negative on positive closes |
| RangeSignal.QuoteOf | trading_signal.py:104-120 | both ranges lie inside the band, the band is ordered, each range is non-empty exactly when its rounded 1% range meets the band, and the signal is BUY exactly when the short average is above the long one |
| RangeSignal.Generate | trading_signal.py:96-120 | the quote of a series: ranges inside the band, an ordered band on positive closes, an ordered non-negative recent low and high on sane bars, BUY exactly on a higher short average, and the latest close rounded |
| RangeSignal.PrevCloseFallback | trading_signal.py:104-106 | the band is 10% either side of the previous close, which falls back to the latest close on a single bar |

## Left out

- Market data: every `akshare` fetch (daily histories, the spot quote, the
  backup interface of `trading_signal.py`) is I/O. The model takes the fetched
  bars as parameters, oldest first.
- Pool filtering: `get_tradable_stocks` filters the market by capitalisation,
  turnover and name. It needs live quotes, so its result is a parameter (the
  pool).
- Output: CSV logs, console output, the progress bar and the clock are left
  out.
  - This includes the display slip at `auto_strategy_optimizer.py:395`, which
    prints the first scored combination rather than the best one.
  - It also includes the final cash summary.
- Missing values: `fillna` forward and backward filling is left out. Bars are
  taken as complete.
- Other files: `explainer.py`, `executor.py` and `main.py` are not part of this
  model.
- Scorer.ShortTermScore: requires positive closes. With a zero close numpy
  produces infinities or NaN rather than raising, which real arithmetic cannot
  represent. The same premise stands on `Backtest.Run`,
  `SignalExpressions.RunAsWritten`, `Optimizer.Optimize` and
  `LiveSignal.Advise`, so the model says nothing about a history with a zero
  or negative close: every property above, including the score cap and the
  scale invariance, is proved only for positive prices.
- Scorer.FactorsOf: the turnover column's presence is a boolean. A column that
  is only partly missing is not modelled.
- Backtest.Run: returns the total compounded return. The annualised return
  `(1 + total) ** (365 / 180) - 1` needs a fractional power, so the parameter
  search applies it as a function parameter.
- Backtest.Run: the resistance column the backtest computes is never read by
  its signals, so it is not built.
- LiveSignal.AdviceOf: the display rounding of price, averages, support,
  resistance and cash figures is not modelled. The stop-loss and target prices
  are rounded as in the source.
- RangeSignal.Primary: the backup data source used when the primary one raises
  is not modelled.
- Numeric.Round2: models round-half-up on exact decimals. Python's `round` works
  on binary floats with round-half-even, so the two can differ on a value that
  sits exactly halfway between cents.

## Findings

| source | as written | input that shows it | evidently intended | confidence | as-written member | corrected member |
|---|---|---|---|---|---|---|
| auto_strategy_optimizer.py:260-269 | The buy and sell expressions combine comparisons with `&` without parentheses. Python binds `&` tighter than `<` and `>`, so `a.shift(1) < b.shift(1) & c > d & ...` becomes a comparison chain around `b.shift(1) & c`. `&` on float columns raises `TypeError`, the handler returns `None`, and no backtest ever produces metrics. | Any history of 144 or more bars with positive closes, e.g. 144 bars all closing at 10.0 | Each comparison parenthesised: buy on a golden cross near the support, sell on a dead cross or a stop-loss | not executed | SignalExpressions.RunAsWrittenNeverScores | SignalExpressions.IntendedFrame |
| auto_strategy_optimizer.py:363-367 | The drawdown weight is -0.1 on a maximum drawdown that is never positive, so a deeper drawdown raises the composite score | Two combinations with equal mean return and win rate and mean drawdowns -0.2 and 0.0: the first scores 0.02 higher | The drawdown lowers the score (weight +0.1 on a non-positive drawdown) | not executed | Optimizer.AsWrittenRewardsDrawdown | Optimizer.CorrectedPenalisesDrawdown |

Because of the first finding, the search as written always returns the
defaults (`Optimizer.OptimizeAsWrittenDefault`). The corrected search,
`Optimizer.Optimize(Corrected, …)`, uses `Backtest.Run` and the corrected
drawdown weight.
