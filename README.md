# Stock-Trader core in Dafny

A model of the core of Stock-Trader, a Python system that collects market
signals and trades them on paper. The model covers these parts:

- **Paper-trading ledger** (`PaperTrading`, `paper_trading.dfy`). It holds the records of
  `PaperTradingManager` in a class: creating a position sized by conviction,
  the open-position cap and duplicate check, the daily stop-loss /
  take-profit / maximum-holding-period update with its snapshots, closing,
  the statistics, and the backfill from stored signals.
- **Backtester** (`Backtester`, `backtester.dfy`). The day-by-day replay of stored signals,
  the trade records, the equity curve, maximum drawdown, Sharpe ratio and
  the return against SPY.
- **Replay and ledger** (`Equivalence`, `equivalence.dfy`). The two apply the same exit rule,
  so they leave on the same day for the same reason.
- **Signal generator** (`Generator`, `generator.dfy`). The trigger checks, the points
  they earn, the conviction score and its cap, the emission rule, the
  ranking, `get_top_signals` and `group_by_type`.
- **Velocity metrics** (`Velocity`, `velocity.dfy`). It covers:
  - the mention-velocity percentage;
  - the least-squares mention trend;
  - the sentiment-acceleration gradient;
  - the volume/price divergence;
  - the weighted composite score and the per-ticker calculator.
- **Technical indicators** (`Technical`, `technical.dfy`). RSI, simple and
  exponential moving averages, the 50/200 crosses, Bollinger bands,
  momentum, breakout, the per-ticker analysis and its technical score.
- **Collectors' pure logic**. It covers:
  - FRED market assessment (`Fred`);
  - House Stock Watcher normalisation (`Congress`);
  - the OpenInsider cell parsers and purchase rule (`OpenInsider`);
  - Reddit ticker extraction and classification (`Reddit`);
  - VADER headline aggregation (`Vader`);
  - Alpha Vantage's relevance-weighted news sentiment and its daily call cap (`AlphaVantage`).
- **Settings window helpers** (`GuiConfig`, `gui_config.dfy`). Dotted-path reads and writes
  of the nested configuration, and the way saving turns the form fields into
  the written dictionary.
- **Shared vocabulary** (`Common`, `Strings`, `Dates`). Python's sorting,
  slicing, dictionaries, `strip`/`split`/`replace`/`float()`, `strptime`,
  `fromisoformat` and `timedelta`.

Code that works by updating state becomes a class or a method with a loop
and invariants. The paper ledger, the Alpha Vantage collector's call
counter, and the loops of the drawdown, backtest, signal generation,
velocity and configuration code are written that way. Each of those methods
is proved equal to a specification function. The source's promises are then
proved about that function; for example:

- the ledger stays valid;
- backfilling twice creates nothing new;
- the generated signals are exactly those that pass the emission rule, ranked;
- the replay and the ledger agree on every exit.

Database queries, HTTP requests and prices for past dates are parameters
(oracles). So are the clock, `exp`, `np.std` and `sqrt`.

## Model

| member | source | states |
|---|---|---|
| PaperTrading.PositionSize | src/trading/paper_trading.py:56-70 | the position size is the base size times conviction over 50 (no floor, no cap) |
| PaperTrading.PositionSizeExamples | src/trading/paper_trading.py:62-65 | the documented sizes for a base of 1000: convictions 50, 60, 75 and 100 give 1000, 1200, 1500 and 2000 |
| PaperTrading.PositionSizeLinear | src/trading/paper_trading.py:69-70 | equal conviction steps give equal size steps; a negative conviction gives a negative size |
| PaperTrading.TradeExists | src/trading/paper_trading.py:134-144 | true exactly when some record has the given ticker and entry date |
| PaperTrading.OpenCount | src/trading/paper_trading.py:146-153 | the open count is at most the number of records |
| PaperTrading.OpenCountZeroIff | src/trading/paper_trading.py:146-153 | the open count is zero exactly when no record is open |
| PaperTrading.NewTrade | src/trading/paper_trading.py:98-118 | the inserted record is open, consistent, and carries the id, ticker, entry date, entry price and conviction it was given |
| PaperTrading.NewTradeSizing | src/trading/paper_trading.py:98-100 | for a positive price, the shares are the position size over the price rounded down, and the position bought is shares times price and never more than the size |
| PaperTrading.NewTradeBracketsEntry | src/trading/paper_trading.py:103-104 | with a negative stop percentage and a positive target percentage, the entry price lies strictly between stop and target |
| PaperTrading.NewTradeExamples | src/trading/paper_trading.py:98-104 | conviction 75 at price 150 buys 10 shares for 1500; an entry at 100 has its stop at 90 and its target at 120 under the default configuration |
| PaperTrading.Create | src/trading/paper_trading.py:72-130 | a skipped creation leaves the ledger as it was; a creation returns the next row id and appends exactly the new record |
| PaperTrading.CreateIff | src/trading/paper_trading.py:83-95 | a record is created exactly when trading is enabled, no record has the same ticker and entry date, and fewer records than the cap are open |
| PaperTrading.CreateIdempotent | src/trading/paper_trading.py:87-89 | creating again with the same ticker and date, at any price and conviction, returns None and changes nothing |
| PaperTrading.CreateKeepsValid | src/trading/paper_trading.py:72-130 | creation keeps the ledger invariant: unique (ticker, entry date), row ids in order, consistent records, open count within the cap |
| PaperTrading.PriceOf | src/trading/paper_trading.py:179-182 | a missing ticker and a price of exactly 0.0 both mean no price; otherwise the price from the map |
| PaperTrading.ExitReasonFor | src/trading/paper_trading.py:201-207 | stop loss exactly when the price is at or below the stop; take profit exactly when it is above the stop and at or above the target; time limit exactly when it is strictly between them and the holding period is reached; no exit otherwise |
| PaperTrading.Close | src/trading/paper_trading.py:217-228 | the closed record has status closed, every exit column set to the given values, and its entry columns unchanged |
| PaperTrading.CloseSignsAgree | src/trading/paper_trading.py:217-228 | for a long position, profit and return have the same sign, and the profit is positive exactly when the exit price is above the entry price |
| PaperTrading.SnapshotOf | src/trading/paper_trading.py:185-192 | the daily snapshot records the day's price |
| PaperTrading.StepTrade | src/trading/paper_trading.py:175-211 | one iteration keeps the record consistent with the same entry columns; a record without a price, or one left open, is unchanged |
| PaperTrading.StepTradeCloses | src/trading/paper_trading.py:198-211 | an updated record closes exactly when the exit chain picks a reason, and then with that reason, the day's price, the day and the days held |
| PaperTrading.SnapshotRecorded | src/trading/paper_trading.py:185-192 | after the loop, every updated record has the day's snapshot at its price |
| PaperTrading.SnapshotUntouched | src/trading/paper_trading.py:185-192 | snapshot rows of records the loop does not update, and of other days, are left as they were |
| PaperTrading.SnapshotsAfterRefer | src/trading/paper_trading.py:185-192 | after the loop, snapshot keys are still unique and still refer to existing records |
| PaperTrading.ReplaceKeepsValid | src/trading/paper_trading.py:217-228 | replacing a record by one with the same entry columns that is not more open keeps the ledger invariant |
| PaperTrading.UpdatePrefixValid | src/trading/paper_trading.py:155-214 | any number of iterations of update_positions keeps the ledger invariant |
| PaperTrading.BackfillQueryCorrect | src/trading/paper_trading.py:247-255 | the query returns exactly the signals generated on or after the cutoff with at least the minimum conviction, each as often as it occurs, in ascending order of generation time |
| PaperTrading.EntryPriceOf | src/trading/paper_trading.py:283-298 | a price is used only when the oracle gives a non-zero one; no price or 0.0 skips the signal |
| PaperTrading.BackfillRun | src/trading/paper_trading.py:258-279 | every queued signal is counted once as created or skipped, and the ledger only grows, by one record per creation |
| PaperTrading.BackfillIdempotent | src/trading/paper_trading.py:233-279 | backfilling twice over the same signals leaves the ledger of one backfill, and the second run creates nothing |
| PaperTrading.BackfillCreatesFromSignals | src/trading/paper_trading.py:258-279 | every added record comes from a queued signal with the same ticker, entry date and conviction, entered at the oracle's non-zero price |
| PaperTrading.BackfillOnlyQualifying | src/trading/paper_trading.py:233-279 | every record a backfill adds comes from a signal of the table that passes the query and had a non-zero price at its generation time |
| PaperTrading.WinRate | src/trading/paper_trading.py:318-320 | the win rate lies in [0, 100] |
| PaperTrading.WinRateExample | src/trading/paper_trading.py:318-320 | one win in two closed trades is a win rate of 50 |
| PaperTrading.PerformanceSummary | src/trading/paper_trading.py:300-375 | there is no summary exactly when trading is disabled |
| PaperTrading.SummaryClosed | src/trading/paper_trading.py:312-324 | with no closed record every closed statistic is zero; otherwise the count is the number of closed records, the win rate their share with a positive profit (in [0, 100]), the total the sum of their profits, and the average return lies between worst and best |
| PaperTrading.SummaryExample | src/trading/paper_trading.py:312-324 | two closed records, one winning: count 2 and win rate 50 |
| PaperTrading.LatestOnePerTrade | src/trading/paper_trading.py:335-344 | with unique snapshot keys, the latest snapshots are one per trade, and a row is among them exactly when no row of its trade is later |
| PaperTrading.RecentCloses | src/trading/paper_trading.py:377-407 | at most ten records, none when disabled |
| PaperTrading.RecentClosesCorrect | src/trading/paper_trading.py:377-407 | every reported record is a closed record of the ledger that exited on or after the cutoff, latest exit first; when at most ten qualify, all of them are reported |
| PaperTrading.PaperLedger.constructor | src/trading/paper_trading.py:22-39 | a new manager has the given configuration, empty tables, and the ledger invariant |
| PaperTrading.PaperLedger.CreatePaperTrade | src/trading/paper_trading.py:72-130 | the trades table becomes the ledger Create gives, the returned id is Create's, the snapshots are unchanged, and the invariant holds |
| PaperTrading.PaperLedger.ClosePosition | src/trading/paper_trading.py:217-228 | only the record with that row id is replaced by its closed form; an unknown id changes nothing |
| PaperTrading.PaperLedger.UpdatePositions | src/trading/paper_trading.py:155-214 | disabled: nothing changes; enabled: every record becomes its StepTrade, the snapshot table becomes the loop's table, and the invariant holds |
| PaperTrading.PaperLedger.UpdateAll | src/trading/paper_trading.py:175-211 | the loop leaves every record stepped and every updated record's snapshot written, keeping the invariant |
| PaperTrading.PaperLedger.UpdateOne | src/trading/paper_trading.py:175-211 | one iteration replaces the record at that position by its step, and writes its snapshot exactly when it was updated |
| PaperTrading.PaperLedger.BackfillOne | src/trading/paper_trading.py:258-279 | one iteration of the backfill loop does BackfillStep on the counts and the ledger |
| PaperTrading.PaperLedger.BackfillFromSignals | src/trading/paper_trading.py:233-279 | disabled: nothing changes and both counts are zero; enabled: counts and ledger are the BackfillRun over the query's signals |
| Backtester.PositionSize | src/analysis/backtester.py:90-101 | the base size when conviction weighting is off; otherwise base times conviction over 50 |
| Backtester.PositionSizeExamples | src/analysis/backtester.py:90-101 | convictions 50, 75 and 100 give 1000, 1500 and 2000 under the defaults, and 1000 for all with weighting off |
| Backtester.DayExit | src/analysis/backtester.py:166-178 | stop loss exactly when the price is at or below the stop; take profit exactly when it is above the stop and at or above the target; no exit exactly when it is strictly between |
| Backtester.FirstExitIsFirst | src/analysis/backtester.py:161-178 | the day loop finds the first day of the range that has a price hitting stop or target, with that day's price and reason, and finds nothing exactly when every day is unpriced or strictly between stop and target |
| Backtester.SimulateTrade | src/analysis/backtester.py:131-207 | the loop computes the trade of the specification Simulated |
| Backtester.SimulatedNone | src/analysis/backtester.py:142-187 | no trade exactly when the entry price is missing or not positive, the position buys no share, or no day hits stop or target and the time-limit day has no price |
| Backtester.SimulatedExit | src/analysis/backtester.py:153-207 | a simulated trade keeps its entry and non-zero share count, exits at a priced day, and leaves on the first day that hits stop or target, or at the holding period with reason time limit exactly when no day did |
| Backtester.SimulatedDaysHeld | src/analysis/backtester.py:161-184 | with a holding period of at least one day, every trade is held between one day and the holding period |
| Backtester.SimulatedSignsAgree | src/analysis/backtester.py:190-192 | profit and return of a long trade have the same sign, and both are zero exactly when the exit price equals the entry price |
| Backtester.SimulatedExamples | src/analysis/backtester.py:131-207 | a rise to 125 on day one takes profit with 16 shares, 400 profit and 25 percent; entry prices 0, -10, none and 10000 give no trade |
| Backtester.PositiveStartPeaks | src/analysis/backtester.py:276-283 | a curve that starts above zero has only positive running peaks, so the division never fails |
| Backtester.MaxDrawdown | src/analysis/backtester.py:267-285 | the maximum drawdown is never negative |
| Backtester.CalculateMaxDrawdown | src/analysis/backtester.py:267-285 | the peak-tracking loop computes MaxDrawdown: the largest drawdown from a running peak, or zero |
| Backtester.MaxDrawdownNonDecreasing | src/analysis/backtester.py:267-285 | a curve that never falls has zero drawdown |
| Backtester.MaxDrawdownAtMost100 | src/analysis/backtester.py:267-285 | a curve that starts above zero and never goes below zero draws down at most 100 percent |
| Backtester.MaxDrawdownSteadyFall | src/analysis/backtester.py:267-285 | a fall from 10000 to 8000 in steps is a 20 percent drawdown |
| Backtester.MaxDrawdownRecovery | src/analysis/backtester.py:267-285 | a fall to 8000 before a recovery to 11000 is a 20 percent drawdown |
| Backtester.MaxDrawdownNoDecline | src/analysis/backtester.py:267-285 | a rising curve and the empty curve have zero drawdown |
| Backtester.ReplayAll | src/analysis/backtester.py:304-326 | the replay keeps at most one trade per signal |
| Backtester.ReplaySignals | src/analysis/backtester.py:304-326 | the signal loop computes the trades and the open count of ReplayAll |
| Backtester.ReplayCount | src/analysis/backtester.py:304-326 | the loop's open count is the number of kept trades that exit after the end date, and it never exceeds the cap (or is zero) |
| Backtester.ReplayTradesFromSignals | src/analysis/backtester.py:304-326 | every kept trade is the simulation of one of the signals |
| Backtester.ReplayWhenAllCloseByEnd | src/analysis/backtester.py:320-326 | when every trade exits by the end date its slot is freed at once, so the count stays zero and, with a cap of at least one, every simulated trade is kept |
| Backtester.ReplayNoSlots | src/analysis/backtester.py:308-310 | with a cap of zero or less nothing is traded |
| Backtester.EquityCurveOf | src/analysis/backtester.py:349-351 | the curve has one point more than there are trades, starts at the initial capital and ends at capital plus total profit |
| Backtester.EquityCurveSteps | src/analysis/backtester.py:349-351 | each point is the previous one plus that trade's profit |
| Backtester.EquityCurve | src/analysis/backtester.py:349-351 | the loop computes EquityCurveOf |
| Backtester.SharpeRatio | src/analysis/backtester.py:246-265 | fewer than two returns give ratio zero |
| Backtester.SharpeSign | src/analysis/backtester.py:246-265 | with a positive deviation and square root, the ratio has the sign of the mean excess return |
| Backtester.BenchmarkSign | src/analysis/backtester.py:414-427 | the benchmark is zero without both SPY prices; otherwise it has the sign of SPY's price change |
| Backtester.RunBacktest | src/analysis/backtester.py:287-386 | the method computes the results of the specification Backtest |
| Backtester.BacktestEmpty | src/analysis/backtester.py:299-330 | the results are the empty ones exactly when no signal could be traded, and the period is always reported |
| Backtester.BacktestMetrics | src/analysis/backtester.py:333-383 | the trade count, winners and losers (disjoint), a win rate in [0, 100], total profit, total return on the initial capital, benchmark and alpha, an average return between worst and best, and a drawdown that is never negative |
| Equivalence.PaperDays | src/trading/paper_trading.py:155-214 | daily updates keep a record consistent with the same entry columns |
| Equivalence.DayExitIsLedgerExit | src/trading/paper_trading.py:201-207 | when the backtester's day test fires, the ledger's exit chain picks the same reason on any day; otherwise the ledger exits for the time limit or not at all |
| Equivalence.DailyUpdatesFollowReplay | src/trading/paper_trading.py:155-214 | fed the same non-zero daily prices, the ledger record closes on the day, at the price and for the reason the backtester's day search finds, times out on the last day like the backtester, or stays as it was |
| Equivalence.ReplayAndLedgerAgree | src/analysis/backtester.py:131-207 | a ledger record with the replay's entry, stop, target and holding period, updated daily on the same non-zero prices, closes with the same reason, price, date and days held as the simulated trade |
| Equivalence.ReplayAndLedgerPart | src/analysis/backtester.py:181-187 | where they part: when no day hits stop or target and the last day has no price, the replay yields no trade while the ledger record stays open |
| Generator.SentimentFlipSymmetric | src/signals/generator.py:221-230 | a sentiment flip does not depend on its direction: it holds exactly when the velocity or its negation reaches the threshold |
| Generator.RecentBuys | src/signals/generator.py:200-213 | the recent purchases are a sub-list containing every trade that is a purchase dated on or after the cutoff, and only such trades |
| Generator.CheckInsiderCluster | src/signals/generator.py:185-219 | the loop collecting recent purchases decides the cluster rule: a non-empty list with enough recent purchases worth enough in total |
| Generator.ClusterKeptByRecentBuy | src/signals/generator.py:185-219 | one more recent purchase of non-negative value keeps a cluster |
| Generator.ClusterIgnoresOtherTrades | src/signals/generator.py:185-219 | a trade that is not a recent purchase does not change the verdict on a non-empty list |
| Generator.Points | src/signals/generator.py:101-139 | every trigger is worth at least 10 points |
| Generator.TriggersOfSteps | src/signals/generator.py:101-139 | the triggers list is the eight conditional appends, in the generator's order |
| Generator.TriggersOfTotals | src/signals/generator.py:101-147 | the list's length is the number of passed checks and its points are the points added, so the combined bonus is paid exactly when two or more checks pass |
| Generator.TriggersOfExactly | src/signals/generator.py:101-139 | a trigger is listed exactly when its check passed, at most once, and the list is empty exactly when no check passed |
| Generator.FiredTriggersExactly | src/signals/generator.py:101-139 | for a ticker, a trigger is listed exactly when it fires, at most once, and the list is empty exactly when none fires |
| Generator.Conviction | src/signals/generator.py:141-153 | the capped conviction is at most 100 and is either 100 or the uncapped sum, never above it |
| Generator.ConvictionMonotone | src/signals/generator.py:101-153 | one more passed check never lowers conviction; before the cap it adds at least that trigger's points |
| Generator.AddIf | src/signals/generator.py:101-104 | one step appends the trigger and adds its points exactly when its check passed |
| Generator.CheckAll | src/signals/generator.py:101-139 | the eight checks are computed as the specification RunChecks says |
| Generator.Collect | src/signals/generator.py:99-139 | the eight steps build the triggers list and its point total |
| Generator.ScoreTicker | src/signals/generator.py:97-153 | the per-ticker steps give the fired triggers and the capped conviction |
| Generator.AddScores | src/signals/generator.py:141-153 | the technical share, combined bonus, composite share and cap give the specification's conviction |
| Generator.Evaluate | src/signals/generator.py:155-165 | a signal is emitted exactly when some trigger fired and the conviction is at least 40; it is well formed (conviction in [40, 100], combined type exactly when there are two or more triggers, a single-trigger type names that trigger) and carries the ticker and the fired triggers |
| Generator.NoTriggerNoSignal | src/signals/generator.py:156 | with no fired trigger there is no signal, however high the composite score |
| Generator.CandidatesMembers | src/signals/generator.py:90-165 | a signal is a candidate exactly when it is the signal of one of the tickers |
| Generator.GeneratedSignalsCorrect | src/signals/generator.py:66-171 | the output is sorted by conviction, highest first, holds exactly the candidates, keeps velocity-dict order among equal convictions, and every signal in it is well formed |
| Generator.GenerateSignals | src/signals/generator.py:66-171 | the loop over the velocity dict and the sort compute GeneratedSignals |
| Generator.FilterByConviction | src/signals/generator.py:337-346 | every kept signal has conviction at least the threshold |
| Generator.FilterByConvictionExactly | src/signals/generator.py:337-346 | a signal is kept exactly when it is in the input with conviction at least the threshold, in input order |
| Generator.TopSignals | src/signals/generator.py:348-355 | the first n signals (all of them when there are fewer), a prefix of the input |
| Generator.Grouped | src/signals/generator.py:357-371 | the grouped dictionary has one entry per type |
| Generator.GroupedIsFilter | src/signals/generator.py:357-371 | each type's group is exactly the signals of that type in input order, and a type with no signals has no group |
| Generator.GroupByType | src/signals/generator.py:357-371 | the loop filling the dictionary computes Grouped |
| Velocity.MentionVelocityPct | src/metrics/velocity.py:15-25 | from a zero previous count: 0 when the current count is zero as well, else 100; otherwise the percentage r with previous times (1 + r/100) equal to current |
| Velocity.MentionVelocitySign | src/metrics/velocity.py:15-25 | for a positive previous count, the change is positive, negative or zero exactly when the count rose, fell or stayed |
| Velocity.MentionVelocityExamples | src/metrics/velocity.py:15-25 | 100 to 200 is +100, 100 to 50 is -50, 10 to 1000 is +9900, 0 to 0 is 0 and 0 to 7 is 100 |
| Velocity.SlopeOfLine | src/metrics/velocity.py:28-54 | the least-squares slope of points lying on a line is that line's slope |
| Velocity.SlopeOfConstant | src/metrics/velocity.py:28-54 | a constant series has zero trend |
| Velocity.MentionVelocityTrend | src/metrics/velocity.py:28-54 | fewer than two points overall or in the window give zero; otherwise the least-squares slope of the window's counts |
| Velocity.Gradient | src/metrics/velocity.py:57-76 | the gradient has one entry per sentiment point |
| Velocity.SentimentVelocity | src/metrics/velocity.py:57-76 | fewer than two points give zero |
| Velocity.Averaged | src/metrics/velocity.py:57-76 | the velocity is the mean of the last entries of the gradient, at most one per point |
| Velocity.SentimentVelocityIncreasing | src/metrics/velocity.py:57-76 | a strictly rising sentiment series has positive velocity |
| Velocity.SentimentVelocityDecreasing | src/metrics/velocity.py:57-76 | a strictly falling sentiment series has negative velocity |
| Velocity.SentimentVelocityConstant | src/metrics/velocity.py:57-76 | a constant sentiment series has zero velocity |
| Velocity.VolumePriceDivergence | src/metrics/velocity.py:79-103 | zero for lists of different or zero length; otherwise the mean difference of the deviation-scaled changes; identical lists have zero divergence |
| Velocity.Normalize | src/metrics/velocity.py:129-138 | every normalised input lies strictly between 0 and 100 |
| Velocity.CompositeScore | src/metrics/velocity.py:106-151 | the score is clamped into [0, 100] and equals the weighted mix whenever that already lies in [0, 100] |
| Velocity.CompositeUnclamped | src/metrics/velocity.py:141-148 | with non-negative weights summing to one, the clamp never acts: the score is the weighted mix of the normalised inputs |
| Velocity.DefaultWeightsSumToOne | src/metrics/velocity.py:121-127 | the default weights are non-negative and sum to one |
| Velocity.MentionChanges | src/metrics/velocity.py:200-205 | one change per consecutive pair of mention counts, each the mention velocity between them |
| Velocity.PriceChangesAllPositive | src/metrics/velocity.py:207-212 | when every price is present and positive, there is one percentage change per consecutive pair |
| Velocity.PriceChangesNoneUsable | src/metrics/velocity.py:207-212 | when no previous price is usable and none is missing, the loop appends nothing and does not raise |
| Velocity.TickerVelocity | src/metrics/velocity.py:168-240 | when the price steps do not raise, the five metrics are the 24-hour velocity, the seven-day trend, the sentiment velocity, the prefix divergence and their composite; otherwise all five are zero; the composite is in [0, 100] |
| Velocity.CalculateTickerVelocity | src/metrics/velocity.py:168-240 | the method computes TickerVelocity |
| Velocity.CollectMentionChanges | src/metrics/velocity.py:200-205 | the mention loop computes MentionChanges |
| Velocity.CollectPriceChanges | src/metrics/velocity.py:207-212 | the price loop computes the change list, or None when a step raises |
| Velocity.FailurePersists | src/metrics/velocity.py:232-240 | once a price step raised, the whole computation yields the zero metrics |
| Velocity.AllVelocitiesUpTo | src/metrics/velocity.py:242-260 | the results dictionary has one entry per ticker |
| Velocity.AllVelocitiesLookup | src/metrics/velocity.py:242-260 | the results hold exactly the tracked tickers whose latest one-day count reaches the minimum, each with its own metrics |
| Velocity.CalculateAllVelocities | src/metrics/velocity.py:242-260 | the loop over the tracked tickers computes AllVelocitiesUpTo, with unique keys |
| Technical.Diff | src/metrics/technical.py:28 | one change per consecutive pair of prices, each the later price minus the earlier |
| Technical.Gains | src/metrics/technical.py:29 | each gain is the change when positive, else 0 |
| Technical.Losses | src/metrics/technical.py:30 | each loss is the negated change when negative, else 0 |
| Technical.RsiOf | src/metrics/technical.py:35-43 | RSI lies in [0, 100] and is exactly 100 when the average loss is zero |
| Technical.Rsi | src/metrics/technical.py:15-43 | None exactly when there are fewer than period+1 prices; otherwise a value in [0, 100] |
| Technical.RsiHundredIff | src/metrics/technical.py:15-43 | RSI is exactly 100 when, and only when, no price fell within the window |
| Technical.Sma | src/metrics/technical.py:46-56 | None exactly when there are fewer prices than the period; otherwise the mean of a window of exactly that many prices |
| Technical.SmaWithinWindow | src/metrics/technical.py:46-56 | the moving average lies between the smallest and the largest price of its window |
| Technical.SmaOfConstant | src/metrics/technical.py:46-56 | a constant window averages to that constant |
| Technical.SmaExample | src/metrics/technical.py:46-56 | the 5-day average of 100, 102, ..., 118 is 114 |
| Technical.Multiplier | src/metrics/technical.py:69 | the EMA multiplier lies in (0, 1] for a period of at least one |
| Technical.Ema | src/metrics/technical.py:59-75 | None exactly when there are fewer prices than the period |
| Technical.CalculateEma | src/metrics/technical.py:59-75 | the update loop computes Ema |
| Technical.EmaBounds | src/metrics/technical.py:59-75 | the EMA lies between the lowest and the highest price |
| Technical.Averages | src/metrics/technical.py:78-96 | the four averages exist exactly when there are at least 201 prices, and are the 50- and 200-day means today and one day earlier |
| Technical.CrossesExclusive | src/metrics/technical.py:78-117 | neither cross is seen on 200 prices or fewer, and never both at once |
| Technical.CrossesByGap | src/metrics/technical.py:78-117 | a golden cross is exactly a non-positive gap yesterday turning positive today, and a death cross a non-negative gap turning negative |
| Technical.Bollinger | src/metrics/technical.py:120-153 | None exactly when there are fewer prices than the period; the middle band is the window mean, the width is upper minus lower, the bands are ordered for a non-negative k, and the position is the current price's place in the band (0.5 for a zero-width band) |
| Technical.Momentum | src/metrics/technical.py:156-173 | None exactly when there are too few prices or the old price is zero |
| Technical.MomentumSign | src/metrics/technical.py:156-173 | from a positive old price, momentum has the sign of the price change |
| Technical.BreakoutIff | src/metrics/technical.py:176-190 | a breakout is exactly the last price reaching the threshold times the highest of the period prices before it, given enough prices |
| Technical.BreakoutOverFlatWindow | src/metrics/technical.py:176-190 | over a flat window at c, breakout is the last price reaching c times the threshold |
| Technical.BreakoutExamples | src/metrics/technical.py:176-190 | a jump to 105 after twenty days at 100 is a breakout at threshold 1.02; a flat series is not |
| Technical.RsiSignal | src/metrics/technical.py:240-246 | no RSI signal exactly when the RSI is missing or 0.0; oversold exactly below 30, overbought exactly above 70 |
| Technical.BandSignal | src/metrics/technical.py:248-255 | no band signal exactly without bands; oversold exactly for a position below 0.2, overbought above 0.8 |
| Technical.AnalyzePrices | src/metrics/technical.py:226-237 | the current price is the last price; RSI is present exactly with 15 prices, the 50-day average exactly with 50 |
| Technical.AnalyzeTicker | src/metrics/technical.py:206-257 | an analysis exists exactly when at least five prices are positive, and its current price is positive |
| Technical.AnalyzeTickerIgnoresNonPositive | src/metrics/technical.py:219 | dropping the non-positive prices beforehand changes nothing |
| Technical.RawTechnicalScore | src/metrics/technical.py:259-305 | the unclamped score lies in [5, 110] |
| Technical.TechnicalScore | src/metrics/technical.py:259-305 | 0 for no analysis, otherwise the raw score capped at 100; always in [0, 100] |
| Technical.BreakoutRaisesScore | src/metrics/technical.py:300-302 | a breakout never lowers the technical score |
| Technical.GetTechnicalScore | src/metrics/technical.py:259-305 | the step-by-step adjustment computes TechnicalScore |
| Fred.VixReading | src/collectors/fred.py:208-226 | VIX below 15, 20, 30 and above score 0, 5, 12 and 20 of 20 points, with a warning exactly from 20 up |
| Fred.UnemploymentReading | src/collectors/fred.py:228-246 | unemployment below 4.0, 5.5, 7.0 and above scores 0, 5, 12 and 20 of 20 points, with a warning exactly from 5.5 up |
| Fred.TreasuryReading | src/collectors/fred.py:248-266 | the 10-year yield below 2.0, 4.0, 5.0 and above scores 0, 5, 10 and 15 of 15 points, with a warning exactly from 4.0 up |
| Fred.ReadingsMonotone | src/collectors/fred.py:208-266 | a higher reading never scores fewer points, for each of the three indicators |
| Fred.PercentBounds | src/collectors/fred.py:268-269 | the truncated percentage of points within the possible points lies in [0, 100]; all points give 100 and none give 0 |
| Fred.Grade | src/collectors/fred.py:268-280 | the score is the percentage, or 50 when nothing was assessed, and the level and the recommendation follow from it |
| Fred.AddVix | src/collectors/fred.py:208-226 | the VIX branch adds the VIX reading to the tally |
| Fred.AddUnemployment | src/collectors/fred.py:228-246 | the unemployment branch adds the unemployment reading to the tally |
| Fred.AddTreasury | src/collectors/fred.py:248-266 | the treasury branch adds the yield reading to the tally |
| Fred.AssessMarketConditions | src/collectors/fred.py:190-282 | the method computes the specification Assessed |
| Fred.TallyBounds | src/collectors/fred.py:196-266 | the points never exceed the possible points, which are positive exactly when an assessed indicator is present; one condition per present indicator and at most one warning each |
| Fred.AssessNothing | src/collectors/fred.py:196-202 | with none of the three indicators: medium risk, score 50, no conditions or warnings, the standard recommendation |
| Fred.AssessScore | src/collectors/fred.py:268-280 | the score lies in [0, 100] and is the truncated percentage when any indicator is present; low below 30, medium from 30 below 60, high from 60; one condition per indicator and exactly one recommendation |
| Fred.AssessIgnoresOtherKeys | src/collectors/fred.py:190-282 | keys other than the three assessed series change nothing |
| Fred.VixWarns | src/collectors/fred.py:208-226 | a VIX of 20 or more always brings its warning, first in the list |
| Fred.AssessExamples | src/collectors/fred.py:190-282 | calm readings (12, 3.5, 2.5) score 9 and low; stressed ones (35, 8.0, 5.5) score 100, high, with three warnings; VIX 22 with unemployment 5.0 scores 42, medium |
| Congress.ParseAmountRange | src/collectors/congress.py:177-206 | an empty amount or "--" gives no band; otherwise the band of the amount with '$' and ',' removed and stripped |
| Congress.ParseCleanedPair | src/collectors/congress.py:191-195 | "a - b" of two numerals is the range from a to b |
| Congress.ParseCleanedOpen | src/collectors/congress.py:196-199 | "a+" of a numeral is the open-ended band from a (its upper bound is twice a) |
| Congress.ParseCleanedSingle | src/collectors/congress.py:200-203 | a lone numeral is the single amount a (both bounds a) |
| Congress.ParseWrittenRange | src/collectors/congress.py:177-206 | "$a - $b" of two numerals, with or without thousands commas, parses to the range from a to b |
| Congress.ParseWrittenOpenRange | src/collectors/congress.py:196-199 | "$a+" parses to the open-ended band from a |
| Congress.ParseWrittenAmount | src/collectors/congress.py:200-203 | "$a" parses to the single amount a |
| Congress.CommasIgnored | src/collectors/congress.py:189 | removing the commas from an amount beforehand does not change its band |
| Congress.NoBandInDashes | src/collectors/congress.py:183-184 | an empty amount and "--" hold no band even after cleaning |
| Congress.CommaRangeExample | src/collectors/congress.py:177-206 | "$1,001 - $15,000" parses to the range 1001 to 15000 |
| Congress.ParseWrittenNatRange | src/collectors/congress.py:177-206 | every "$a - $b" written from two whole numbers parses back to the range a to b |
| Congress.EmptyAmountExamples | src/collectors/congress.py:183-184 | "--" and "" give no band |
| Congress.TransactionTypeIff | src/collectors/congress.py:208-223 | purchase exactly when the lowered, stripped type mentions purchase or buy; sale exactly when it does not but mentions sale or sell; exchange exactly when it mentions none of these but exchange |
| Congress.LoweredIdempotent | src/collectors/congress.py:214 | lowering and stripping twice is lowering and stripping once |
| Congress.TransactionTypeIdempotent | src/collectors/congress.py:208-223 | normalising a normalised type changes nothing |
| Congress.PurchaseExample | src/collectors/congress.py:216-217 | "Purchase" normalises to purchase |
| Congress.BuyExample | src/collectors/congress.py:216-217 | "BUY" normalises to purchase |
| Congress.SellExample | src/collectors/congress.py:218-219 | "SELL" normalises to sale |
| Congress.ExchangeExample | src/collectors/congress.py:220-221 | "Exchange" normalises to exchange |
| Congress.UnknownExample | src/collectors/congress.py:222-223 | "Unknown" normalises to its lowered form, unknown |
| Congress.TickerInText | src/collectors/congress.py:170-173 | a ticker found in the description is one to five ASCII capitals |
| Congress.TickerInTextIsFirst | src/collectors/congress.py:170-173 | the found ticker is the capitals of the leftmost "(TICKER)" in the text, and none is found exactly when the text has no such match |
| Congress.ExtractTicker | src/collectors/congress.py:155-175 | the stripped, upper-cased ticker field when it is neither empty nor "--"; otherwise the ticker in the asset description, or empty |
| Congress.TickerFieldWins | src/collectors/congress.py:162-164 | a usable ticker field is returned upper-cased |
| Congress.TickerFieldExample | src/collectors/congress.py:162-164 | ticker "AAPL" gives AAPL |
| Congress.LowerTickerFieldExample | src/collectors/congress.py:162-164 | ticker "aapl" gives AAPL |
| Congress.PlaceholderDropped | src/collectors/congress.py:162-164 | a "--" ticker field stays "--" after stripping and upper-casing, so the description is searched |
| Congress.NoParenNoTicker | src/collectors/congress.py:170-173 | text without a parenthesis has no ticker match |
| Congress.TickerDescriptionExample | src/collectors/congress.py:166-173 | ticker "--" with description "Apple Inc (AAPL)" gives AAPL |
| Congress.NoTickerExample | src/collectors/congress.py:166-175 | ticker "--" with description "No ticker here" gives the empty string |
| Congress.FirstFormat | src/collectors/congress.py:235-240 | the date is that of the first format that parses, in the order year-month-day, month/day/year, timestamp; none when no format parses; a parsed date is valid |
| Congress.ParseDate | src/collectors/congress.py:225-249 | a missing or empty date gives None; a result is always a canonical YYYY-MM-DD date |
| Congress.ParseDateFormatted | src/collectors/congress.py:225-249 | every valid date written as YYYY-MM-DD parses back to itself |
| Congress.ParseDateIdempotent | src/collectors/congress.py:225-249 | parsing a parsed date changes nothing |
| Congress.YmdDateExample | src/collectors/congress.py:235-240 | "2025-12-21" gives 2025-12-21 |
| Congress.MdyDateExample | src/collectors/congress.py:235-240 | "12/21/2025" gives 2025-12-21 |
| Congress.YmdHmsDateExample | src/collectors/congress.py:235-240 | "2025-12-21T10:30:00" gives 2025-12-21 |
| Congress.MissingDateExamples | src/collectors/congress.py:231-244 | a missing date and "invalid-date" give None |
| Congress.NormalizeHouseTrade | src/collectors/congress.py:120-153 | the record is from the house chamber and the housestockwatcher source, with an empty position |
| Congress.NormalizedShape | src/collectors/congress.py:144-147 | the filing date is the disclosure date, and the two amount bounds are present together or not at all |
| Congress.NormalizedDatesCanonical | src/collectors/congress.py:144-146 | every date of the normalised record is a canonical YYYY-MM-DD date |
| Congress.NormalizeStable | src/collectors/congress.py:120-153 | normalising the transaction type or re-parsing the dates of a normalised record changes nothing |
| OpenInsider.ReadFloat | src/collectors/openinsider.py:186-196 | a non-zero result is the value of the cleaned text; text that does not parse as a number gives 0.0 |
| OpenInsider.ReadInt | src/collectors/openinsider.py:198-208 | a non-zero result is the truncated value of the cleaned text; text that does not parse gives 0 |
| OpenInsider.ParseRow | src/collectors/openinsider.py:104-149 | a row is kept exactly when it has at least ten cells and a ticker, and then every column is read from its cell: trade type stripped, price, shares and value parsed, dates parsed, the ownership change from an eleventh cell or 0.0 |
| OpenInsider.CollectedAreParsedPurchases | src/collectors/openinsider.py:102-157 | a trade is collected exactly when it is the parse of one of the rows and is a purchase with positive value |
| OpenInsider.CollectedArePurchases | src/collectors/openinsider.py:156-157 | every collected trade has type "P" and a positive value |
| OpenInsider.ParseFloatIgnoresMark | src/collectors/openinsider.py:193 | a '$', ',', '%' or '+' anywhere in the text does not change the parsed float |
| OpenInsider.ParseIntIgnoresMark | src/collectors/openinsider.py:205 | a '$', ',' or '+' anywhere in the text does not change the parsed integer |
| OpenInsider.ReadFloatIsFloatOrZero | src/collectors/openinsider.py:194-196 | the parsed float is the number the cleaned text spells, or 0.0 when it spells none |
| OpenInsider.ReadIntIsTruncOrZero | src/collectors/openinsider.py:206-208 | the parsed integer is that number truncated toward zero, or 0 |
| OpenInsider.ParseIntTruncatesParseFloat | src/collectors/openinsider.py:186-208 | on text without '%', the integer reading is the float reading truncated toward zero |
| OpenInsider.ParseFloatNumber | src/collectors/openinsider.py:186-196 | a plain stripped number reads as its value |
| OpenInsider.ParseIntNumber | src/collectors/openinsider.py:198-208 | a plain stripped number reads as its value truncated |
| OpenInsider.ParseIntPercent | src/collectors/openinsider.py:205-208 | the integer reader keeps '%', so any text ending in '%' reads as 0 |
| OpenInsider.ParseDateFormatted | src/collectors/openinsider.py:173-184 | a valid date written YYYY-MM-DD reads as that day at midnight |
| OpenInsider.ParseDateStripped | src/collectors/openinsider.py:180 | surrounding white space does not change the date read |
| OpenInsider.ParseDateFallsBack | src/collectors/openinsider.py:182-184 | text that is not ten characters once stripped falls back to now |
| OpenInsider.DollarsAndCents | src/collectors/openinsider.py:186-196 | "$a,b.c" of numerals reads as the decimal ab.c |
| OpenInsider.SignedPercent | src/collectors/openinsider.py:186-196 | "+a%" of a numeral reads as a |
| OpenInsider.GroupedCount | src/collectors/openinsider.py:198-208 | "a,b,c" of numerals reads as the integer abc |
| OpenInsider.DollarCount | src/collectors/openinsider.py:198-208 | "$a,b" of numerals reads as the integer ab |
| OpenInsider.WordIsZero | src/collectors/openinsider.py:186-208 | a word that does not start like a number reads as 0.0 and 0 |
| OpenInsider.DollarsAndCentsExample | src/collectors/openinsider.py:186-196 | "$1,234.56" reads as 1234.56 |
| OpenInsider.SignedPercentExample | src/collectors/openinsider.py:186-196 | "+25%" reads as 25.0 |
| OpenInsider.PercentIntExample | src/collectors/openinsider.py:198-208 | "25%" reads as the integer 0 |
| OpenInsider.ThousandsExample | src/collectors/openinsider.py:198-208 | "1,234,567" reads as 1234567 |
| OpenInsider.DollarThousandExample | src/collectors/openinsider.py:198-208 | "$1,000" reads as 1000 |
| OpenInsider.InvalidExamples | src/collectors/openinsider.py:186-208 | "invalid" reads as 0.0 and 0 |
| OpenInsider.EmptyExamples | src/collectors/openinsider.py:186-208 | "" reads as 0.0 and 0 |
| OpenInsider.DateExample | src/collectors/openinsider.py:173-184 | "2024-01-15" reads as midnight on 15 January 2024 |
| OpenInsider.InvalidDateExample | src/collectors/openinsider.py:173-184 | "invalid" falls back to now |
| Reddit.MatchesDisjoint | src/collectors/reddit_collector.py:217-218 | two matches of the pattern never overlap: a later match starts after the earlier one's ticker |
| Reddit.ScanSound | src/collectors/reddit_collector.py:218 | every string the scan finds is a match of the pattern at some position |
| Reddit.ScanComplete | src/collectors/reddit_collector.py:218 | every match of the pattern at or after the start is found by the scan |
| Reddit.ScanMembers | src/collectors/reddit_collector.py:217-221 | a string is found exactly when the pattern matches it somewhere in the text |
| Reddit.DedupCorrect | src/collectors/reddit_collector.py:232 | removing duplicates keeps exactly the same members, each once |
| Reddit.ExtractTickersCorrect | src/collectors/reddit_collector.py:208-232 | the tickers are distinct, and a string is one exactly when it is matched in the upper-cased text and passes the blacklist and length filter |
| Reddit.ExtractedShape | src/collectors/reddit_collector.py:217-230 | every ticker is two to five capitals, not blacklisted, and preceded by '$' or white space and followed by a word boundary |
| Reddit.MatchShape | src/collectors/reddit_collector.py:217-218 | every match is one to five capitals after '$' or white space, ending at a word boundary |
| Reddit.UndelimitedText | src/collectors/reddit_collector.py:217-218 | text without '$' and white space has no tickers |
| Reddit.BareWordIgnored | src/collectors/reddit_collector.py:217-218 | "AAPL" alone, with nothing before it, has no tickers |
| Reddit.DollarWord | src/collectors/reddit_collector.py:208-232 | "$" followed by one to five letters gives that word upper-cased, if the filter keeps it, and nothing else |
| Reddit.DollarTicker | src/collectors/reddit_collector.py:208-232 | "$gme" gives ["GME"] |
| Reddit.GmeKept | src/collectors/reddit_collector.py:224-230 | GME passes the blacklist and length filter |
| Reddit.ClassifySentiment | src/collectors/reddit_collector.py:234-246 | no posts is neutral; otherwise bullish exactly when at least 60 percent are positive, bearish exactly when fewer than 40 percent are |
| Reddit.ClassifyMonotone | src/collectors/reddit_collector.py:234-246 | more positive posts never give a more bearish label |
| AlphaVantage.ToFloat | src/collectors/alphavantage.py:106-107 | a missing field reads as 0.0, a None field fails, a number reads as itself |
| AlphaVantage.EntryMatch | src/collectors/alphavantage.py:103-111 | an entry adds one score and one relevance exactly when its ticker matches case-insensitively and both fields convert, else nothing |
| AlphaVantage.FeedMatchParallel | src/collectors/alphavantage.py:100-112 | the feed loop collects as many relevances as scores |
| AlphaVantage.FeedMatchEmpty | src/collectors/alphavantage.py:100-115 | no score is collected exactly when no article has a matching, convertible entry |
| AlphaVantage.CalculateAggregateSentiment | src/collectors/alphavantage.py:86-141 | the nested loops compute the specification AggregateSentiment |
| AlphaVantage.AddEntry | src/collectors/alphavantage.py:103-111 | the inner loop body appends what EntryMatch gives |
| AlphaVantage.AggregateNone | src/collectors/alphavantage.py:93-115 | there is no aggregate exactly when the feed is empty or no article has a matching, convertible entry |
| AlphaVantage.AggregateFields | src/collectors/alphavantage.py:118-138 | the aggregate counts every article of the feed, names the ticker, has as raw score the relevance-weighted mean (0 when the relevances sum to zero or less), and normalises it to (raw + 1) / 2 |
| AlphaVantage.AverageInUnit | src/collectors/alphavantage.py:118-123 | with scores in [-1, 1] and non-negative relevances, the weighted mean lies in [-1, 1] |
| AlphaVantage.NormalizedInUnit | src/collectors/alphavantage.py:126 | under the same conditions the raw score lies in [-1, 1] and the normalised one in [0, 1] |
| AlphaVantage.SharesBounded | src/collectors/alphavantage.py:129-137 | the bullish and bearish shares are non-negative and sum to at most one |
| AlphaVantage.CollectCapped | src/collectors/alphavantage.py:44-84 | the call count grows by at most one per ticker, never past the daily cap when it started within it, and there are no more results than calls made |
| AlphaVantage.CollectedAreAggregates | src/collectors/alphavantage.py:60-76 | every result is the aggregate of the feed fetched for one of the tickers |
| AlphaVantage.CapReachedCollectsNothing | src/collectors/alphavantage.py:45-49 | with the cap already reached, nothing is fetched and nothing collected |
| AlphaVantage.Collector.constructor | src/collectors/alphavantage.py:25-34 | a new collector has the given daily cap and a zero call count |
| AlphaVantage.Collector.CollectNewsSentiment | src/collectors/alphavantage.py:36-84 | the results and the new call count are those of CollectFrom from the old count, and the count stays within the cap |
| AlphaVantage.Collector.ResetCallCount | src/collectors/alphavantage.py:172-178 | the call count is zero again |
| GuiConfig.Keys | gui.py:888 | a key path splits into at least one key |
| GuiConfig.GetNestedValue | gui.py:886-895 | the loop walking the keys computes GetNested: the value at the path, or None |
| GuiConfig.AtAppend | gui.py:889-895 | walking a path in two parts is walking the first part and then the second from where it ended |
| GuiConfig.GetNestedNone | gui.py:889-895 | the lookup gives None exactly when some step of the path meets a non-dictionary or a missing key |
| GuiConfig.FirstBlocked | gui.py:889-895 | a failed lookup has a first step where it is blocked |
| GuiConfig.SetSucceedsIff | gui.py:897-907 | setting succeeds exactly when every intermediate key is missing or holds a dictionary (a non-dictionary there is the TypeError of the code) |
| GuiConfig.SetPlacesValue | gui.py:897-907 | after a successful set the path leads to the value set, and any longer path continues inside that value |
| GuiConfig.GetAfterSet | gui.py:886-907 | getting a path right after setting it gives the set value |
| GuiConfig.SetLeavesOthers | gui.py:897-907 | every path that diverges from the set path reads as before |
| GuiConfig.SetCreatesDicts | gui.py:901-905 | every intermediate of the set path is a dictionary holding its old keys plus the next key |
| GuiConfig.CleanRecipientsTrimmed | gui.py:957-958 | every cleaned recipient is non-empty and has no surrounding white space |
| GuiConfig.CleanRecipientsMembers | gui.py:957-958 | a recipient is kept exactly when it is the stripped form of some non-blank piece |
| GuiConfig.SplitRecipientsCorrect | gui.py:957-958 | the split recipients are non-empty, unpadded and comma-free, and are exactly the stripped non-blank pieces between the commas |
| GuiConfig.CleanRecipientsOfClean | gui.py:957-958 | cleaning already clean recipients changes nothing |
| GuiConfig.RecipientsRoundTrip | gui.py:926-927 | joining clean, comma-free recipients with "," as loading does and splitting them as saving does gives them back |
| GuiConfig.Prepare | gui.py:953-964 | a value that is stored is never a dictionary, and a stored string is never empty and never contains YOUR_ |
| GuiConfig.PrepareText | gui.py:960-962 | any text field except the recipients is skipped exactly when it is empty or contains YOUR_ |
| GuiConfig.RecipientsNeverSkipped | gui.py:957-958 | the recipients field is always stored, as its split list |
| GuiConfig.SaveConfig | gui.py:938-964 | the loop over the form fields computes SaveFrom on the default dictionary |
| GuiConfig.SetKeepsNoPlaceholders | gui.py:964 | setting a leaf that is not a placeholder keeps a configuration free of placeholders |
| GuiConfig.DefaultNoPlaceholders | gui.py:942-951 | the default dictionary holds no placeholder |
| GuiConfig.SavedHasNoPlaceholders | gui.py:953-964 | saving fields into a placeholder-free configuration leaves it free of empty strings and YOUR_ strings |
| GuiConfig.SaveConfigNoPlaceholders | gui.py:938-964 | a saved configuration never holds an empty string or a string containing YOUR_ |
| Vader.ClassifySentiment | src/collectors/vader_sentiment.py:177-192 | very positive exactly from 0.5; positive exactly from 0.05 below 0.5; neutral exactly strictly between -0.05 and 0.05; negative exactly above -0.5 up to -0.05; very negative exactly at or below -0.5 |
| Vader.ClassifyMonotone | src/collectors/vader_sentiment.py:177-192 | a higher compound score never gets a more negative label |
| Vader.Scores | src/collectors/vader_sentiment.py:67 | one compound score per headline, in order |
| Vader.CountsPartition | src/collectors/vader_sentiment.py:70-72 | the positive, negative and neutral counting rules split every list of scores |
| Vader.AnalyzeHeadlines | src/collectors/vader_sentiment.py:58-84 | an empty list gives the empty result; otherwise the total is the number of headlines, and the three counts are those of scores above 0.05, below -0.05 and in between, adding up to the total |
| Vader.LabelOfMean | src/collectors/vader_sentiment.py:69-76 | for a non-empty list the mean is the mean of the scores, lies within any bounds of the scores, and the label classifies it |
| Vader.PercentagesBounded | src/collectors/vader_sentiment.py:81-82 | the positive and negative percentages are each at least 0 and together at most 100 |
| Vader.AllPositive | src/collectors/vader_sentiment.py:58-84 | when every headline scores above 0.05, all are counted positive and the label is positive or very positive |
| Vader.CutOffsDiffer | src/collectors/vader_sentiment.py:69-76 | a single headline scoring exactly 0.05 is labelled positive but counted neutral |
| Common.GetOr | src/signals/generator.py:150 | a missing key gives the default, a stored None gives None, and a stored value gives that value |
| Common.Trunc | src/analysis/backtester.py:147 | `int()` of a float truncates toward zero: the result is the largest integer not above a non-negative value and the smallest not below a negative one |
| Common.MeanBounds | src/metrics/technical.py:56 | the mean of a non-empty list lies between any bounds of its elements |
| Common.SeqMax | src/analysis/backtester.py:344 | the maximum is at least every element and is one of them |
| Common.SeqMin | src/analysis/backtester.py:345 | the minimum is at most every element and is one of them |
| Common.FilterMembers | gui.py:958 | a comprehension with a condition keeps an element exactly when it occurs in the input and satisfies the condition |
| Common.FilterConcat | gui.py:958 | filtering a concatenation filters each part, in order |
| Common.SortDescCorrect | src/signals/generator.py:168 | sorting by key with reverse=True gives a list ordered from the largest key down that is a permutation of the input |
| Common.SortDescStable | src/signals/generator.py:168 | the sort is stable: elements with equal keys keep their input order |
| Common.PyPrefix | src/signals/generator.py:355 | `s[:n]` is the first n elements for a non-negative n, capped at the length, and drops the last -n elements for a negative n |
| Common.LastK | src/metrics/technical.py:56 | `s[-k:]` holds the last k elements, or all of them when the list is shorter |
| Common.LastKButOne | src/metrics/technical.py:89-90 | `s[-k:-1]` holds k - 1 elements when the list has at least k, and all but the last otherwise |
| Common.Put | src/signals/generator.py:363-369 | `d[k] = v` on an insertion-ordered dictionary keeps the keys distinct, overwrites an existing key in place and appends a new key at the end |
| Common.Lookup | src/signals/generator.py:367 | a key is found exactly when some entry holds it |
| Common.LookupPutSame | src/signals/generator.py:368-369 | reading a key just written gives the value written |
| Common.LookupPutOther | src/signals/generator.py:368-369 | writing one key leaves every other key's value as it was |
| Common.SomesMembers | src/signals/generator.py:76-166 | a loop appending the results that are not None collects a value exactly when one of the results is that value |
| Strings.Lower | src/collectors/congress.py:214 | `lower()` maps every character, keeping the length |
| Strings.Upper | src/collectors/congress.py:162 | `upper()` maps every character, keeping the length |
| Strings.Strip | src/collectors/congress.py:188 | the stripped text neither starts nor ends with white space |
| Strings.StripIsSlice | src/collectors/congress.py:188 | only white space is removed, from the two ends |
| Strings.StripIdempotent | src/collectors/congress.py:162 | stripping twice is stripping once |
| Strings.FindFrom | gui.py:961 | the search returns the first position at which the pattern occurs, and none when it occurs nowhere |
| Strings.ContainsIff | gui.py:961 | `pat in s` holds exactly when the pattern occurs at some position |
| Strings.RemoveCharRemoves | src/collectors/congress.py:188 | after `replace(c, '')` no c is left |
| Strings.RemoveCharKeeps | src/collectors/congress.py:188 | every other character keeps its number of occurrences |
| Strings.RemoveCharCommute | src/collectors/openinsider.py:193 | removing two characters in either order gives the same text |
| Strings.RemoveCharIdempotent | src/collectors/openinsider.py:193 | removing a character twice is removing it once |
| Strings.Split | gui.py:888 | a split always has at least one piece |
| Strings.JoinSplit | gui.py:888 | joining the pieces of a split with the separator gives the text back |
| Strings.SplitJoinChar | gui.py:927 | joining pieces that do not hold a one-character separator and splitting on it gives the pieces back |
| Strings.SplitPiecesAvoidSeparator | gui.py:958 | no piece of a split contains the separator |
| Strings.NatToString | src/collectors/congress.py:192-193 | `str(n)` is a non-empty digit string, without sign, denoting n |
| Strings.ParseDigits | src/collectors/openinsider.py:194 | `float()` of a non-empty digit string is the number it denotes |
| Strings.ParsePoint | src/collectors/openinsider.py:194 | `float()` of digits, a point and digits is the whole part plus the fraction |
| Strings.ParseNatString | src/collectors/congress.py:192-193 | `float(str(n)) == n` for every natural number |
| Strings.ParseStrippedNatString | src/collectors/congress.py:192-193 | the same after the `strip()` applied first |
| Dates.DaysBetween | src/trading/paper_trading.py:199 | `(later - earlier).days` is the whole number of days in the difference, rounded down |
| Dates.DaysBetweenAddDays | src/analysis/backtester.py:192 | the days between `t + timedelta(days=n)` and t are n |
| Dates.ParseYmd | src/collectors/congress.py:236-238 | a parsed `%Y-%m-%d` date is a real calendar date read from a 10-character text |
| Dates.ParseMdy | src/collectors/congress.py:236-238 | a parsed `%m/%d/%Y` date is a real calendar date read from a 10-character text |
| Dates.ParseYmdHms | src/collectors/congress.py:236-238 | a parsed `%Y-%m-%dT%H:%M:%S` date is a real calendar date read from a 19-character text |
| Dates.ParseIsoInstant | src/trading/paper_trading.py:198 | a parsed ISO timestamp falls within the day its first ten characters name |
| Dates.FormatYmd | src/collectors/congress.py:239 | `strftime('%Y-%m-%d')` gives ten characters with dashes at positions 4 and 7 |
| Dates.ParseFormatYmd | src/collectors/congress.py:238-239 | parsing a formatted date gives the date back |
| Dates.ParseIsoOfFormatted | src/trading/paper_trading.py:198 | a formatted date read by `fromisoformat` is the midnight of that date |

## Left out

- PaperTrading.NewTrade, PaperTrading.Create, PaperTrading.CreateIff, PaperTrading.CreateIdempotent, PaperTrading.CreateKeepsValid, PaperTrading.Close, PaperTrading.SnapshotOf, PaperTrading.PaperLedger.CreatePaperTrade: require a non-zero entry price.
  - With a price of 0, `create_paper_trade` still returns None when the manager is disabled, when the trade already exists, or when the position cap is reached (src/trading/paper_trading.py:83-95).
  - Otherwise it raises ZeroDivisionError at src/trading/paper_trading.py:99.
  - Both outcomes at price 0 are not modelled. The backfill path never reaches them, because it skips a missing or zero price (src/trading/paper_trading.py:267-271).
- Backtester.Backtest, Backtester.RunBacktest, Backtester.BacktestEmpty, Backtester.BacktestMetrics: require a positive initial capital.
  - The source also runs with a negative capital (src/analysis/backtester.py:338, 349) and fails only at 0.
  - Runs with non-positive capital are not modelled.
- Backtester.MaxDrawdown, Backtester.CalculateMaxDrawdown, Backtester.MaxDrawdownNonDecreasing: require that no running peak of a curve of two or more points is 0. With a zero peak the source raises ZeroDivisionError (src/analysis/backtester.py:282), and that error is not modelled.
- Strings.ParseDecimal: narrows `float()` to surrounding white space, an optional sign, and digits with an optional fractional part.
  - Exponents ("1e3"), "inf", "nan" and underscores ("1_000") are rejected, though Python accepts them.
  - The same narrowing reaches OpenInsider.ParseFloat, OpenInsider.ParseInt, Congress.ParseCleaned and AlphaVantage.ToFloat. There such inputs give 0, None or the fallback instead of a number.
- Dates.ParseYmd, Dates.ParseMdy, Dates.ParseYmdHms, Dates.ParseIsoInstant: accept only zero-padded fixed-width fields.
  - `strptime` also accepts "2024-1-5", so `_parse_date` (src/collectors/congress.py:236-239) gives "2024-01-05" where the model gives None.
  - `fromisoformat` also accepts fractional seconds and time-zone offsets, which the model rejects.
- Strings.Lower, Strings.Upper: change ASCII letters only. Python's `lower()` and `upper()` work on all of Unicode. The same narrowing applies to these case-insensitive comparisons:
  - the ticker comparison in Alpha Vantage's feed match (src/collectors/alphavantage.py:104);
  - Congress.NormalizeTransactionType;
  - the ticker upper-casing in Congress.
- Reddit.IsWordChar: ASCII letters, digits and `_` only, while `\w` and `\b` in Python are Unicode-aware. So the model gives `ExtractTickers("$gmé")` == ["GM"], where Python finds nothing in "$GMÉ".
- Reddit.Dedup: keeps the first occurrence of each ticker in text order. `list(set(...))` (src/collectors/reddit_collector.py:232) keeps the same elements in no fixed order, so only membership and the absence of repeats carry over.
- Vader.AnalyzeHeadlines: the mean and the two percentages are unrounded. The source rounds them to 3 and 1 decimals (src/collectors/vader_sentiment.py:75, 81-82).
- PaperTrading.PaperLedger.BackfillFromSignals: a stored signal whose trigger list is not valid JSON, or whose timestamp `fromisoformat` cannot read, raises in the source (src/trading/paper_trading.py:263-264). The model takes stored signals as already decoded.
- Technical.AnalyzeTicker: modelled as a function over the price history the query returns, with every price a number. A NULL price in the table raises TypeError in the source (src/metrics/technical.py:219), which is not modelled.
- AlphaVantage.Collector.CollectNewsSentiment: these are dropped:
  - the sleep between requests (src/collectors/alphavantage.py:52-53);
  - the `limit_per_ticker` argument;
  - the default `calls_per_day=100`. The cap is a constructor argument instead.
- The clock is one `now` parameter per operation. Where the source calls `datetime.now()` several times in one operation, the model reads it once.
- SQL, HTTP and scraping are left out. The tables, responses and oracles are parameters. The ticker that the OpenInsider collector finds in a row's links (src/collectors/openinsider.py:108-128) is given with the row.
- The `time.sleep` calls, logging and error messages are left out. Dashboard, chart and e-mail rendering, `_generate_notes` and the settings window's widgets are left out too.
- These are left out because they are parameters or closed forms:
  - VADER's compound scores, `exp`, `np.std`, `sqrt` and the price oracle are parameters;
  - `np.polyfit` of degree 1 is replaced by the closed-form least-squares slope it computes.
- `round()` is not modelled anywhere: every score, percentage and ratio is the exact value before rounding. The timestamps the collectors attach (`collected_at`, `analyzed_at`) are dropped.
- GuiConfig.SetNested: modelled on values. The source mutates the dictionary in place.
  - A TypeError part-way leaves partly created dictionaries behind. The save then aborts, so they are never written and the model does not keep them.
  - Aliasing between the form's dictionaries is not modelled.
  - Reading and writing the YAML file is left out.
- Fred.AssessMarketConditions: reads each indicator through its latest value. The dictionaries of the FRED response are not modelled.
- Python's None is modelled where the code tests for it. Elsewhere a value is taken as present.
