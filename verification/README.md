# Proofs about the trading research scripts

A model in Dafny of the computational core of the research scripts: the daily swing backtester and the
smaller algorithms around it. Each module follows one core. Loops are methods whose postconditions
equate their result with a specification function; the theorems are lemmas about those functions.

| file | what it models |
|---|---|
| `Prelude`, `Sorting`, `Grouping` | options and results, stable sorting and list comprehensions, grouping rows with a dictionary |
| `SwingTypes`, `SwingIndicators`, `SwingSignals` | records of the backtester, prepared bars, market context, entry signals, sizing |
| `SwingIndicatorLaws`, `SwingSignalLaws`, `SwingMarketLaws`, `SwingPoolLaws` | what bars, signals, market contexts, scores and pools mean in terms of raw rows |
| `SwingPools`, `SwingPooledGeneration`, `SwingEntries` | cached candidate pools, the direct versions, baseline kinds and selection orders |
| `SwingRanks` | the order of the pools and the meaning of a rank |
| `SwingSchedule`, `SwingScheduledOffers` | the random-date schedule, and what it makes the baseline offer |
| `SwingEngine`, `SwingProgram`, `SwingSimulate` | the day loop as a state machine, the program's candidate source, and the loops themselves |
| `SwingBookkeeping`, `SwingOverwrites`, `SwingRisk`, `SwingDeadlines` | theorems over all runs of the day loop |
| `SwingCash`, `SwingGreedy` | the cash ledger of a run with the price of every exit; entries leave out nothing that fits |
| `SwingCausality`, `SwingExitsFirst` | no look-ahead from raw rows to runs, in both event orders |
| `SwingCutoff`, `SwingCutRuns` | data cut at a date, and the runs on them |
| `SwingRamp`, `SwingWitness`, `SwingHoldings` | a price series computed by hand, and the runs on it that show deviations |
| `TiedRanks`, `RankCorrelation`, `Drawdown` | average ranks of tied values, their correlation, one-pass maximum drawdown |
| `FifoLots`, `Cooldown` | realized profit by first-in-first-out lots; the greedy cooldown filter |
| `OpeningRange`, `VwapContinuation` | the opening-range breakout scan with its funnel; the pullback and reclaim state machine |
| `Deciles`, `CrossSection`, `FormationRanks` | decile arithmetic, the cohort builder and its two validators |
| `MonthEvaluation`, `MonthReturns`, `DevelopmentMonths` | the monthly completeness logic, the figures of a month, and the walk over a development split |
| `SplitIsolation`, `PreviousForecast`, `IndexPools` | splits with purged margins, previous-forecast lookup, baseline index pools |
| `LedgerChain`, `FetchProtocol` | hash-chained ledgers; the completed-fetch protocol of an append-only archive |

Conventions. Symbols and dates are integers of which only order and equality matter; prices, money and
ratios are exact reals. The random generator is an oracle with an explicit state whose shuffle returns a
rearrangement and whose choice returns a member; digests are arbitrary functions, and the square root of
the correlation is any function that is one. A run of the backtester is the sequence of states before
and after each date; its theorems hold for every candidate source that meets `ValidEnv`, and
`SwingProgram.ProgramIsValid` shows that the program's source does, for every baseline kind and
selection order. Fields that the source copies from template to candidate to position to trade are
nested instead of copied.

## Main results

- The backtester: a template is in a pool exactly when two neighbouring raw rows make it
  (`SwingPoolLaws.PoolComesFromRows`, `SwingPoolLaws.RowsReachPool`); pooled and direct generation agree (`SwingPooledGeneration`); the random-date schedule
  is matched by symbol and the universe baseline by date (`SwingSchedule.ScheduleIsMatched`,
  `SwingSchedule.UniverseIsMatched`); openings and trades balance and equity is
  conserved down to the price and the costs of every exit (`SwingBookkeeping.RunAccounted`,
  `SwingCash.RunCash`, `SwingCash.ReportIsPriced`), with one trade per opening iff no symbol is opened twice
  on a date (`SwingOverwrites.OneTradePerOpening`); every opening respects its limits
  (`SwingRisk.RunSound`); every position closes in time and trades never overlap (`SwingDeadlines`);
  nothing looks ahead except the random-date schedule (`SwingCausality`, `SwingExitsFirst`), and a run on cut
  data keeps what the full run keeps iff the windows of all open positions fit (`SwingCutRuns.CutDataRun`).
- Selections and scans: the greedy cooldown filter is optimal (`Cooldown.DedupeIsOptimal`), and two scans
  emit exactly the rows of a positional description (`OpeningRange.ScanGroup`, `VwapContinuation.ScanGroup`).
- The cross-section: builder and evaluator agree on every table (`FormationRanks.AcceptsOnlyTheBuildersTable`,
  `CrossSection.BuilderPassesItsValidator`), the verdict on a month is read off its rows and prices
  (`MonthEvaluation.WhyIncomplete`), its figures are those of the head and the foot of the frame
  (`MonthReturns.ReturnsOfMonth`, `MonthReturns.FullRankIc`), and the split is sealed (`DevelopmentMonths.SplitIsSealed`).
- Archives: equal heads mean equal ledgers or a collision (`LedgerChain.SameHeadSameChainOrCollision`), and
  the fetch verdict survives every interruption (`FetchProtocol.VerdictIsLastCompletedFetch`).
- Methods against specifications: `TiedRanks.AverageRanks`, `Drawdown.MaxDrawdownPeriod`,
  `FifoLots.RealizedBySymbol`, `IndexPools.BaselineIndexPools`, `SwingSimulate.Simulate`.

## Results that differ from what one might expect

- The random-date baseline looks ahead: its schedule is drawn from the pools of all dates, so a later row
  can change an earlier day's offers. `SwingCausality.ScheduleDecidesOffers` gives the exact condition and
  `SwingWitness.ScheduleUsesLaterData` an input.
- The same baseline can place two signals of a symbol on one date. The second then overwrites the first
  position, which yields no trade: `SwingOverwrites.OneTradePerOpening`,
  `SwingScheduledOffers.DistinctOnDate` and `SwingOverwrites.CopiesOverwrite` say when, and
  `SwingWitness.RepeatedPlacementLosesPosition` is such a run.
- Pooled and direct signal candidates differ in rank and count exactly when some but not all available
  templates fill a lot: `SwingPooledGeneration.PooledRanksMatchDirect`, `SwingWitness.RanksDiffer`.
- A holding deadline does depend on later dates when the window reaches past the data:
  `SwingDeadlines.DeadlineIgnoresLaterDates` and `SwingCutRuns.CutDataRun` give the exact conditions, which
  is why the no-look-ahead theorem compares data sets with the same trading dates.
  `SwingHoldings.CutRunClosesEarlier` is a run that closes a position because its data end.
- Exits first, the high, low and close of a date can decide what is opened at its open, through the book and
  the equity that the exits leave (`SwingExitsFirst.EntriesAgreeIffExitsDo`, `SwingHoldings.LowDecidesEntry`).
- Exits first, a position entered on its symbol's last bar survives the day loop and is closed at the end
  of the data (`SwingWitness.LastBarPositionSurvives`); in the default order nothing survives.
- An empty extreme decile can occur exactly when the minimum of eligible rows is below ten
  (`MonthEvaluation.MinimumOfTenRulesOutEmptyDeciles`).
- The computed split manifest leaves the locked split empty for fewer than six signal dates, and the
  validation split empty unless there are three to five or at least ninety-eight
  (`SplitIsolation.ValidationSplitNeedsManyDates`).
- The previous-forecast lookup looks at the latest earlier forecast only, so one that shares the event's
  disclosure time hides an older one that was available in time (`PreviousForecast.TieHidesForecast`,
  `PreviousForecast.OlderForecastIsMissed`).
- A completed fetch counts as incomplete when its response holds a row of another date
  (`FetchProtocol.VerdictIsLastCompletedFetch`).

## Model

| member | source | states |
|---|---|---|
| SwingIndicators.PrepareBars | scripts/backtest-swing-daily.py:900-962 | every symbol's bars are the indicator values of its rows, one bar per row |
| SwingIndicatorLaws.AveragesOfBar | scripts/backtest-swing-daily.py:3975-3979 | a bar's averages, times their period, are sums over that many rows, the past one ending the slope lookback earlier, and exist iff there are so many rows |
| SwingIndicatorLaws.AverageStep | scripts/backtest-swing-daily.py:3975-3979 | from row to row the short average moves by the new close less the dropped one, over the period |
| SwingIndicatorLaws.TrueRangeIsSpan | scripts/backtest-swing-daily.py:3994-3999 | for a row with low <= high, the true range is the largest less the smallest of high, low and previous close |
| SwingIndicatorLaws.AtrIsMeanSpan | scripts/backtest-swing-daily.py:3982-4001 | a bar's atr, times its period, is the sum of these spans over the last rows, and exists iff there are more rows than the period |
| SwingIndicatorLaws.TouchedIffDipped | scripts/backtest-swing-daily.py:4048-4062 | the bar touched its short average recently iff the low of one of the last rows is at most that row's own average with the tolerance |
| SwingIndicatorLaws.ReturnsOfBar | scripts/backtest-swing-daily.py:4004-4010 | one plus each return, times the close so many rows before, is the close |
| SwingIndicatorLaws.PriorHighOfBar | scripts/backtest-swing-daily.py:4013-4016 | the prior high is the highest high of the rows before, its own left out |
| SwingIndicatorLaws.PriorRangeOfBar | scripts/backtest-swing-daily.py:4019-4045 | the prior range as a part of the close, and the place of the close in it, from the highest high and the lowest low of the twenty rows before, and neither without twenty rows |
| SwingSignalLaws.SignalsByRows | scripts/backtest-swing-daily.py:1796-1939 | in each entry mode a bar signals iff its rows do: a dip and a recovery, a close over the highest high before, or a narrow range with a high close, each within the thresholds |
| SwingSignalLaws.BreakoutIff | scripts/backtest-swing-daily.py:1840-1889 | the breakout against any witnesses of the highest high, range and return before |
| SwingSignalLaws.ContractionIff | scripts/backtest-swing-daily.py:1892-1939 | the contraction likewise |
| SwingSignalLaws.OneFieldDecides | scripts/backtest-swing-daily.py:1796-1939 | for each mode two bars that differ in one field, of which one signals under the default parameters |
| SwingMarketLaws.ContextCounts | scripts/backtest-swing-daily.py:965-1002 | the ratios of a market context, times the number of bars with the value, are numbers of bars above the average, in an uptrend or with a gain, its averages are sums, and its regime is that of three of the ratios and one average |
| SwingMarketLaws.RegimeRegions | scripts/backtest-swing-daily.py:1020-1038 | the regions of the regimes |
| SwingMarketLaws.MarketIff | scripts/backtest-swing-daily.py:1942-1954 | the market filter as a bound on the number of gains among the bars of the signal date |
| SwingPoolLaws.PoolComesFromRows | scripts/backtest-swing-daily.py:1041-1156 | every template of a date's signal pool is made by two neighbouring rows of a symbol: the earlier signals in an open market, the later opens on the date, and the template records both |
| SwingPoolLaws.RowsReachPool | scripts/backtest-swing-daily.py:1041-1156 | every two such rows put a template into the pool |
| SwingPoolLaws.PullbackPoolDipped | scripts/backtest-swing-daily.py:1804-1837 | in pullback mode one of the last rows up to the signal row has a low within the tolerance of its own average |
| SwingPoolLaws.TradableComesFromRows | scripts/backtest-swing-daily.py:1041-1156 | every template of the tradable pool is made by two rows, the earlier one usable |
| SwingPoolLaws.RowsReachTradable | scripts/backtest-swing-daily.py:1041-1156 | every two such rows put a template into it |
| SwingPoolLaws.PullbackScore | scripts/backtest-swing-daily.py:3893-3898 | the pullback score from return, excess over the average and liquidity |
| SwingPoolLaws.BreakoutScored | scripts/backtest-swing-daily.py:3901-3916 | the breakout score from strength, returns, turnover multiple and range penalty |
| SwingPoolLaws.ContractionScored | scripts/backtest-swing-daily.py:3919-3938 | the contraction score from returns, place, liquidity, ranges and excess |
| SwingPoolLaws.ScoreOfMode | scripts/backtest-swing-daily.py:3881-3887 | a signal's score is that of the entry mode |
| SwingIndicators.BarCausal | scripts/backtest-swing-daily.py:3975-4062 | a prepared bar is determined by the rows up to and including its own |
| SwingSignals.PositionSizeMaximal | scripts/backtest-swing-daily.py:3865-3878 | a positive size is the largest whole number of lots within the risk budget and the notional cap, and is given iff the stop is below the entry |
| SwingSignals.MaterializedSize | scripts/backtest-swing-daily.py:1159-1201 | a template becomes a candidate iff one lot fits both budgets, with the largest number of lots that does |
| SwingPools.TodayMember | scripts/backtest-swing-daily.py:1005-1017 | the bars of a date are exactly the series' bars with that date |
| SwingPools.TodayDistinct | scripts/backtest-swing-daily.py:1006-1010 | a date holds at most one bar per symbol |
| SwingPooledGeneration.PoolOrderFree | scripts/backtest-swing-daily.py:1051-1086 | the signal pool does not depend on the order in which the symbols are visited |
| SwingPooledGeneration.DirectIsMaterialized | scripts/backtest-swing-daily.py:1362-1388 | for one bar, the direct candidate is the sized template of a free symbol |
| SwingPooledGeneration.BaselineIsMaterialized | scripts/backtest-swing-daily.py:1628-1697 | the same for the random baseline |
| SwingPooledGeneration.PooledSignalsMatchDirect | scripts/backtest-swing-daily.py:1351-1463 | pooled and direct signal candidates agree in order and in every field except rank and count |
| SwingPooledGeneration.PooledRanksMatchDirect | scripts/backtest-swing-daily.py:1437-1463 | they agree in rank and count too iff none or all of the available templates fill a lot |
| SwingWitness.RanksDiffer | scripts/backtest-swing-daily.py:1437-1463 | two symbols, one too expensive for a lot, for which they differ |
| SwingPooledGeneration.PooledUniverseMatchesDirect | scripts/backtest-swing-daily.py:1466-1592 | the two universe baselines are the same list before the shuffle |
| SwingPooledGeneration.PooledScheduledMatchesDirect | scripts/backtest-swing-daily.py:1500-1626 | the two scheduled baselines are the same list, ranks included, for every schedule |
| SwingEntries.OrderCandidates | scripts/backtest-swing-daily.py:1746-1768 | every selection order tries the same candidates, each once |
| SwingEntries.SelectionIsSorted | scripts/backtest-swing-daily.py:1746-1768 | a sorted selection order is ordered by its key and, for distinct symbols, does not depend on the order of its input |
| SwingEntries.SelectionOrders | scripts/backtest-swing-daily.py:1746-1780 | which of two candidates comes first in each selection order: by score, by closeness to 0.15, ranks 2 and 3 before 1 before 4 and 5, by hash, ties by symbol |
| SwingRanks.SignalPoolDescends | scripts/backtest-swing-daily.py:1082-1086 | the signal pool of a date runs from the best score to the worst, ties by symbol |
| SwingRanks.TradablePoolAscends | scripts/backtest-swing-daily.py:1052-1069 | the tradable pool of a date runs in the order of the symbols, each once |
| SwingRanks.RanksCountBetter | scripts/backtest-swing-daily.py:1444-1463 | a signal candidate's rank is one more than the number of free templates of the pool that are better, its count the number of all free ones, and candidates come best first |
| SwingRanks.ScheduledInOrder | scripts/backtest-swing-daily.py:1500-1530 | scheduled candidates come in the order of symbols, ranked one by one |
| SwingEntries.UniverseTakesFirst | scripts/backtest-swing-daily.py:1466-1497 | the universe baseline ranks the first candidates of its shuffled list |
| SwingEntries.EntriesFromPool | scripts/backtest-swing-daily.py:1251-1277 | every candidate is a template of the day's pool for a symbol not held, sized by the rule at the current equity |
| SwingEntries.EntriesDistinct | scripts/backtest-swing-daily.py:1257-1277 | the three other baseline kinds never offer a symbol twice on a day |
| SwingEntries.PoolTarget | scripts/backtest-swing-daily.py:1112-1134 | pool templates place the target at the R multiple of the stop distance |
| SwingSchedule.ScheduleIsMatched | scripts/backtest-swing-daily.py:1715-1743 | the random-date schedule places every symbol exactly as often as it has signals that fill a lot at the starting capital, and only on dates on which it is tradable |
| SwingSchedule.UniverseIsMatched | scripts/backtest-swing-daily.py:1466-1497 | the universe baseline tries exactly as many candidates on a date as the strategy would in the same state, for every selection order |
| SwingSchedule.TimesPlaced | scripts/backtest-swing-daily.py:1733-1742 | every symbol receives exactly as many placements as its own draws yield, whatever is drawn for the others |
| SwingScheduledOffers.TimesOffered | scripts/backtest-swing-daily.py:1500-1530 | the random-date baseline offers a symbol as often as it is scheduled on the date if its template is sized and free, and not at all otherwise |
| SwingScheduledOffers.DistinctOnDate | scripts/backtest-swing-daily.py:1500-1530 | its offers on a date are distinct iff no symbol with a sized template and no position is scheduled twice on it |
| SwingScheduledOffers.DistinctOffersIffNoRepeats | scripts/backtest-swing-daily.py:1251-1277 | the program never offers a symbol twice on a day iff the kind is another one or no symbol that some equity can size is scheduled twice on a date |
| SwingScheduledOffers.SameOffersIffSameOn | scripts/backtest-swing-daily.py:1500-1530 | two schedules give the same offers on a date in every state iff they place every such symbol equally often on it |
| SwingProgram.ProgramIsValid | scripts/backtest-swing-daily.py:1251-1277 | for every baseline kind and selection the program offers only listed, unheld, rule-sized candidates |
| SwingSimulate.BarsByDate | scripts/backtest-swing-daily.py:1005-1012 | the per-date dictionary holds exactly the bars of each date, and its keys come in the order in which the bars bring them up |
| SwingSimulate.PreviousBars | scripts/backtest-swing-daily.py:1007-1012 | the previous-bar dictionary maps a symbol and date to the symbol's bar before it |
| SwingSimulate.BuildTemplates | scripts/backtest-swing-daily.py:1049-1087 | one date's loop yields the date's signal and tradable pools and enters the date for exactly the tradable symbols |
| SwingSimulate.BuildCandidatePools | scripts/backtest-swing-daily.py:1041-1092 | the pool dictionaries hold the pools of every date, and every symbol its tradable dates in dictionary order |
| SwingSimulate.CountSignals | scripts/backtest-swing-daily.py:1721-1734 | the symbols with sized signals in dictionary order, and how many each has |
| SwingSimulate.BuildSchedule | scripts/backtest-swing-daily.py:1715-1743 | counting and drawing give the schedule of the placements, in drawing order |
| SwingSimulate.ProcessExits | scripts/backtest-swing-daily.py:1533-1552 | the exit loop closes exactly the positions whose exit rule fires and books their profit |
| SwingSimulate.OpenPositions | scripts/backtest-swing-daily.py:1278-1323 | the entry loop opens in order until the day or the book is full, passing over what exceeds the equity |
| SwingSimulate.RunDay | scripts/backtest-swing-daily.py:1239-1334 | one date is one step of the state machine, in either event order |
| SwingSimulate.Simulate | scripts/backtest-swing-daily.py:1204-1348 | from prepared bars, options, stress and seed: context, pools, schedule and day loop return the report of the one run over all dates in order |
| SwingBookkeeping.RunAccounted | scripts/backtest-swing-daily.py:1236-1334 | after every date positions, trades and openings balance, equity is capital plus realized profit, and the position count is within its limit |
| SwingBookkeeping.RunNeverDisplaces | scripts/backtest-swing-daily.py:1290-1323 | with distinct offers no opening ever overwrites a position |
| SwingBookkeeping.EveryOpeningYieldsOneTrade | scripts/backtest-swing-daily.py:1236-1348 | openings and reported trades correspond one to one, up to overwritten positions; loop-end equity is capital plus net profit |
| SwingOverwrites.DayLosesPosition | scripts/backtest-swing-daily.py:1279-1323 | for any book, count and list of candidates, a day overwrites a position iff some candidate opens at its turn on a symbol that is held or was opened before it |
| SwingOverwrites.CopiesOverwrite | scripts/backtest-swing-daily.py:1279-1323 | two candidates of a free symbol in a row both open iff the day, the book and the equity have room for two |
| SwingOverwrites.OneTradePerOpening | scripts/backtest-swing-daily.py:1236-1348 | the report has exactly one trade per opening iff on no date of the run a symbol is opened twice |
| SwingWitness.RepeatedPlacementLosesPosition | scripts/backtest-swing-daily.py:1226-1323 | a run of the random-date baseline in which two signals are placed on one date and an opening yields no trade |
| SwingRisk.RunSound | scripts/backtest-swing-daily.py:1278-1323 | every opening of every run found room, keeps total entry notional within a positive equity, and has the maximal size |
| SwingRisk.RunGenuine | scripts/backtest-swing-daily.py:1533-1552 | every closed trade is what the exit rule gives on that symbol's bar of the exit date |
| SwingRisk.StopLossWithinBudget | scripts/backtest-swing-daily.py:1982-2000 | a stop exit loses before costs at most the risk budget at entry, a target exit gains the R multiple of the stop risk |
| SwingCash.RunCash | scripts/backtest-swing-daily.py:1533-1552 | after every date equity is the capital plus, over closed trades, quantity times exit price times (1 - rate) less entry price times (1 + rate) |
| SwingCash.ProfitIff | scripts/backtest-swing-daily.py:1999-2018 | a trade gains iff exit price times (1 - rate) exceeds entry price times (1 + rate) |
| SwingCash.ReportIsPriced | scripts/backtest-swing-daily.py:1957-2028 | every reported trade of every run closes for its reason at the price that goes with it, on the bar of its exit date or at the symbol's last close, and books profit and costs on both sides |
| SwingCash.ExitIsPriced | scripts/backtest-swing-daily.py:1957-1988 | a bar leaves a position open iff it stays above the stop and below the target before the deadline, or before the deadline in fixed-hold mode |
| SwingCash.DeadlineIsExact | scripts/backtest-swing-daily.py:1308-1334 | a trade closed by its deadline was held exactly the holding limit, unless its symbol's data end |
| SwingCash.DefaultCosts | scripts/backtest-swing-daily.py:1999-2001 | the costs of one trade at the default rates |
| SwingGreedy.DayIsGreedy | scripts/backtest-swing-daily.py:1278-1323 | a candidate offered on a date is opened unless the day or the book is full or it does not fit the equity |
| SwingDeadlines.EveryPositionClosesInTime | scripts/backtest-swing-daily.py:1239-1347 | every reported trade spans at most the holding limit in bars of its symbol; end-of-data closes occur iff exits run first and the entry was on the last bar |
| SwingWitness.LastBarPositionSurvives | scripts/backtest-swing-daily.py:1326-1347 | a run with exits first that ends with such a close |
| SwingDeadlines.RunInTime | scripts/backtest-swing-daily.py:1306-1310 | after every date each open position still has time before its deadline |
| SwingDeadlines.RunSeparate | scripts/backtest-swing-daily.py:1239-1334 | at most one open position per symbol, later than every closed trade of it |
| SwingDeadlines.TradesNeverOverlap | scripts/backtest-swing-daily.py:1239-1348 | reported trades of a symbol never overlap, in the sense of the configured event order |
| SwingDeadlines.DeadlineIgnoresLaterDates | scripts/backtest-swing-daily.py:3941-3947 | the clamped deadline is independent of later dates iff the window already fits |
| SwingCutRuns.CutDataRun | scripts/backtest-swing-daily.py:1204-1334 | on data cut after a date the run goes over the first dates of the full run, and after k of them has its equity, generator, open positions with deadlines and recorded trades iff every position that the full run then holds has its holding window inside the cut data; a closed one without such a window was closed by a price |
| SwingCutRuns.ProgramSeesSymbolsOnly | scripts/backtest-swing-daily.py:1251-1277 | for every baseline kind and selection the candidates depend on the open positions only through their symbols |
| SwingHoldings.CutRunClosesEarlier | scripts/backtest-swing-daily.py:1308-1334 | a run that closes a position on its entry date as held too long because the data end there, and holds it when the next row is known |
| SwingHoldings.UnfitPositionStopsOut | scripts/backtest-swing-daily.py:1308-1334 | two runs that keep the same although the window of a position did not fit, because its stop closed it |
| SwingCutoff.ProgramsUpTo | scripts/backtest-swing-daily.py:1005-1092 | cutting the rows after a date leaves bars, pools and offers of the remaining dates as they are, the schedule apart |
| SwingCausality.PrepareCausal | scripts/backtest-swing-daily.py:900-962 | indicators of a date use nothing later than the date |
| SwingCausality.PoolsCausal | scripts/backtest-swing-daily.py:1041-1092 | a date's pools use only the rows before it and its opening prices |
| SwingCausality.EntriesSeeOnlyTheOpen | scripts/backtest-swing-daily.py:1278-1323 | given the same offers, a date opens the same positions whatever its high, low and close |
| SwingCausality.NoLookAhead | scripts/backtest-swing-daily.py:1204-1334 | data sets with the same trading dates that agree up to a date give the same equity, positions, trades and openings after every date up to it; for the random-date baseline if their schedules agree up to it |
| SwingCausality.EntriesKnowOnlyTheOpen | scripts/backtest-swing-daily.py:1251-1323 | a whole run up to the entries of a date is blind to the date's high, low and close when entries come first, with the same proviso |
| SwingExitsFirst.EntriesAgreeIffExitsDo | scripts/backtest-swing-daily.py:1239-1323 | with exits first and equal data up to the open of a date, two runs hold the same after it iff its exits leave the same positions and equity, and then it opens the same |
| SwingHoldings.LowDecidesEntry | scripts/backtest-swing-daily.py:1239-1323 | two runs with exits first and equal data up to the open of a date, of which one keeps its position and the other, whose low reaches the stop, enters the symbol anew |
| SwingCausality.ScheduleDecidesOffers | scripts/backtest-swing-daily.py:1226-1277 | with equal rows before a date and equal opens on it, the offers of the date agree in every state iff the kind has no schedule or the two schedules agree on the date |
| SwingWitness.ScheduleUsesLaterData | scripts/backtest-swing-daily.py:1715-1743 | two data sets that agree up to a date whose random-date schedules and offers differ on it |
| TiedRanks.SpearmanRanks | scripts/backtest-swing-daily.py:3492-3504 | every rank is the number of smaller values plus half of one more than the number of equal ones |
| TiedRanks.AverageRanks | scripts/evaluate-imom6m-gate-a-development.py:591-603 | the same ranks, so the two implementations agree pointwise |
| TiedRanks.RanksFollowPermutation | scripts/backtest-swing-daily.py:3492-3504 | permuting the values permutes the ranks |
| TiedRanks.RanksReflectOrder | scripts/evaluate-imom6m-gate-a-development.py:591-603 | ranks compare exactly as the values do |
| TiedRanks.RanksSum | scripts/backtest-swing-daily.py:3492-3504 | ranks sum to n(n+1)/2 however the values tie |
| RankCorrelation.PearsonUndefined | scripts/evaluate-imom6m-gate-a-development.py:606-618 | the correlation is undefined iff one of the two lists is constant |
| RankCorrelation.SpearmanUndefined | scripts/evaluate-imom6m-gate-a-development.py:585-588 | the rank correlation is undefined iff there are fewer than two pairs or one side ties throughout |
| RankCorrelation.PearsonInRange | scripts/evaluate-imom6m-gate-a-development.py:606-625 | a defined correlation lies between -1 and 1 |
| RankCorrelation.SpearmanIsFull | scripts/evaluate-imom6m-gate-a-development.py:585-588 | the rank correlation is 1 iff the second list is ordered as the first, and -1 iff the other way round |
| Drawdown.MaxDrawdown | scripts/event_research_common.py:1843-1851 | the result is the largest fall between two points of the equity curve, its zero start included |
| Drawdown.MaxDrawdownPeriod | scripts/backtest-swing-daily.py:4069-4096 | the same amount, with the peak, trough and dates of a fall that attains it |
| Drawdown.BothVariants | scripts/event_research_common.py:1843-1851 | both variants report the same amount on the same profits |
| Drawdown.MaxDrawdownUnique | scripts/backtest-swing-daily.py:4069-4096 | there is one such largest fall and it is not negative |
| FifoLots.SellFrom | scripts/analyze-weekend-parameter-candidates.py:185-192 | a sale removes the oldest shares of the per-share queue, books sell minus buy price for each, and drops what finds no share |
| FifoLots.RealizedBySymbol | scripts/analyze-weekend-parameter-candidates.py:178-193 | the run-length lots refine the per-share book of every symbol, for every list of fills |
| FifoLots.HeldAreTheNewest | scripts/analyze-weekend-parameter-candidates.py:178-193 | the shares still held are the most recently bought ones |
| FifoLots.ProfitIsConserved | scripts/analyze-weekend-parameter-candidates.py:186-190 | realized profit plus cost of all purchases equals matched proceeds plus cost of what is held |
| FifoLots.ReportedIffMatched | scripts/analyze-weekend-parameter-candidates.py:186-193 | a symbol is reported iff some sale of it met a nonempty queue |
| Cooldown.DedupeFeatures | scripts/analyze-weekend-parameter-candidates.py:383-392 | the loop keeps what the per-symbol filter keeps of the time-ordered rows |
| Cooldown.KeepThinsEachSymbol | scripts/analyze-weekend-parameter-candidates.py:385-391 | symbols do not disturb each other: each one's times are thinned on their own |
| Cooldown.DedupeIsSpaced | scripts/analyze-weekend-parameter-candidates.py:383-392 | kept rows of a symbol are pairwise at least the cooldown apart |
| Cooldown.DedupeDropsOnlyNearKept | scripts/analyze-weekend-parameter-candidates.py:388-389 | every row is at or less than the cooldown after a kept row of its symbol |
| Cooldown.DedupeIsOptimal | scripts/analyze-weekend-parameter-candidates.py:383-392 | no collection of the rows that respects the cooldown is larger, per symbol or in all |
| Cooldown.ThinIsOptimal | scripts/analyze-weekend-parameter-candidates.py:386-391 | for one stream of times, no spaced choice is larger than the greedy one |
| Grouping.GroupByKey | scripts/explore-opening-range-breakout.py:149-151 | the dictionary lists the keys by first row and holds each key's rows in order |
| Grouping.GroupAt | scripts/explore-opening-range-breakout.py:154-155 | each scanned group is ordered and holds exactly the rows of its key |
| OpeningRange.Judge | scripts/explore-opening-range-breakout.py:171-208 | one row is emitted iff it passes the base filters, crosses, is out of cooldown and passes the risk limits |
| OpeningRange.StageTests | scripts/explore-opening-range-breakout.py:213-251 | the tests of the stages in terms of what a row quotes, the risk as a distance to the stop |
| OpeningRange.StopIsHigher | scripts/explore-opening-range-breakout.py:246-248 | the stop is the higher of the opening low and a nonzero VWAP |
| OpeningRange.ScanGroup | scripts/explore-opening-range-breakout.py:154-209 | one key's candidates are the greedy cooldown selection of exactly its `risk` rows |
| OpeningRange.FindCandidates | scripts/explore-opening-range-breakout.py:148-210 | all keys' candidates, ordered by time and symbol |
| OpeningRange.CandidatesInOrder | scripts/explore-opening-range-breakout.py:210 | candidates come in the order of time, those of one time by symbol |
| OpeningRange.CrossesBreakOut | scripts/explore-opening-range-breakout.py:156-179 | the crosses are the rows in time whose price rises above the highest price of the first minutes from at or below it, and there are none without such a price |
| OpeningRange.CrossRows | scripts/explore-opening-range-breakout.py:344-374 | the cross loop finds the time-gated crosses of every key |
| OpeningRange.StageDiagnostics | scripts/explore-opening-range-breakout.py:344-402 | the funnel counts the rows after each stage |
| OpeningRange.StagesCompose | scripts/explore-opening-range-breakout.py:374-386 | filtering stage by stage leaves the rows that pass all stages |
| OpeningRange.CandidatesAreOptimal | scripts/explore-opening-range-breakout.py:163-209 | per key, candidates are spaced and no spaced choice of `risk` rows is larger |
| OpeningRange.CandidatesWithinRisk | scripts/explore-opening-range-breakout.py:386-393 | candidates never outnumber the `risk` stage, and equal it without a cooldown |
| OpeningRange.FunnelNarrows | scripts/explore-opening-range-breakout.py:374-393 | every stage is at most as wide as the one before it |
| VwapContinuation.Track | scripts/explore-vwap-continuation.py:172-189 | trend flag and pullback extremes describe exactly the rows since the reset |
| VwapContinuation.Judge | scripts/explore-vwap-continuation.py:191-230 | a row outside the pullback is emitted iff it reclaims, executes and passes the risk limit |
| VwapContinuation.RowTests | scripts/explore-vwap-continuation.py:243-258 | trend and zone tests in terms of what a row quotes, the distance as a part of the VWAP |
| VwapContinuation.TradeTests | scripts/explore-vwap-continuation.py:200-218 | what a row must quote to be emitted with a stop |
| VwapContinuation.ScanGroup | scripts/explore-vwap-continuation.py:161-239 | the state machine emits exactly the rows that the positional description selects |
| VwapContinuation.EveryCandidateIsJustified | scripts/explore-vwap-continuation.py:161-239 | since the last reset a trend row is followed by pullback rows whose extreme prices are the recorded ones, all below the candidate's price, with positive limited risk |
| VwapContinuation.NothingIsMissed | scripts/explore-vwap-continuation.py:171-239 | a row that qualifies since the last reset is, or is preceded by, an emission |
| VwapContinuation.FindCandidates | scripts/explore-vwap-continuation.py:155-240 | all keys' emissions, ordered by time and symbol |
| VwapContinuation.CandidatesInOrder | scripts/explore-vwap-continuation.py:240 | the same of the continuation candidates |
| VwapContinuation.OneCandidatePerSymbolAndDay | scripts/explore-vwap-continuation.py:233-234 | with one_per_symbol_day no two candidates share a date and symbol |
| Deciles.DecileIsRun | scripts/build-imom6m-features.py:320-328 | decile d is a run of consecutive ranks with closed-form ends |
| Deciles.DecilesDescend | scripts/build-imom6m-features.py:320-328 | a better rank never has a worse decile |
| Deciles.DecileSizes | scripts/build-imom6m-features.py:320-328 | every decile holds the floor or ceiling of n/10 rows, the best the ceiling, the worst the floor |
| CrossSection.CohortRankings | scripts/build-imom6m-features.py:311-338 | on each date the eligible rows carry the rankings 1..n, each once |
| CrossSection.CohortDeciles | scripts/build-imom6m-features.py:311-338 | the built cohort's deciles have these sizes on every date |
| CrossSection.BuilderPassesItsValidator | scripts/build-imom6m-features.py:474-496 | the built cohort fails its validator iff listings repeat or none is eligible |
| FormationRanks.AcceptsOnlyTheBuildersTable | scripts/evaluate-imom6m-gate-a-development.py:566-582 | with distinct codes the evaluator accepts exactly the table the builder makes of the frame's scores |
| FormationRanks.AcceptedFramesDescend | scripts/evaluate-imom6m-gate-a-development.py:576-582 | an accepted frame runs from the best score to the worst, ties by ascending code |
| FormationRanks.BuilderPassesTheEvaluator | scripts/evaluate-imom6m-gate-a-development.py:498-501 | the builder's frame of a date is its ranked selection and is accepted |
| MonthEvaluation.Observations | scripts/evaluate-imom6m-gate-a-development.py:502-520 | a row counts iff both exact closes are present and positive |
| MonthEvaluation.EvaluateMonth | scripts/evaluate-imom6m-gate-a-development.py:496-562 | the month's counts, reason, returns and spread, or the first rank error |
| MonthEvaluation.CompleteMonthCounts | scripts/evaluate-imom6m-gate-a-development.py:538-539 | with no endpoint missing the extreme deciles hold a tenth of the rows, up and down |
| MonthEvaluation.WhyIncomplete | scripts/evaluate-imom6m-gate-a-development.py:522-542 | the reason read off rows and prices: too few rows, a missing close, fewer than two rows or all scores or all returns tied, fewer than ten rows, else complete |
| MonthReturns.ReturnsOfMonth | scripts/evaluate-imom6m-gate-a-development.py:538-545 | in a complete month the extreme returns are those of the first ceiling and the last floor of a tenth of the rows, read off the closes, and the spread is best less worst |
| MonthReturns.SignOfSpread | scripts/evaluate-imom6m-gate-a-development.py:543-545 | the spread is positive when every first row outgrows every last one, and negative in the opposite case |
| MonthReturns.FullRankIc | scripts/evaluate-imom6m-gate-a-development.py:527-534 | the rank correlation of a complete month is 1 iff growth ranks as the scores do, and -1 iff the other way round |
| MonthReturns.CountsOfMonth | scripts/evaluate-imom6m-gate-a-development.py:546-561 | the counts of rows with and without both closes, and no figures without a complete month |
| MonthEvaluation.EmptyDecileMeansFewerThanTen | scripts/evaluate-imom6m-gate-a-development.py:522-542 | the reason EMPTY_EXTREME_DECILE is given iff rows suffice, all closes are there, two scores and two returns differ, and there are fewer than ten rows |
| MonthEvaluation.MinimumOfTenRulesOutEmptyDeciles | scripts/evaluate-imom6m-gate-a-development.py:540-542 | some valid month fails for an empty extreme decile iff the minimum is below ten |
| MonthEvaluation.EmptyDecileIsReachable | scripts/evaluate-imom6m-gate-a-development.py:540-542 | n complete rows without ties reach it when 2 <= n < 10 and the minimum allows, and are complete from ten on |
| DevelopmentMonths.PairDates | scripts/evaluate-imom6m-gate-a-development.py:477-482 | neighbouring calendar dates are paired when both lie in the split |
| DevelopmentMonths.EvaluateMonths | scripts/evaluate-imom6m-gate-a-development.py:466-563 | all formation dates in order, each with the verdict on its month, or the first error |
| DevelopmentMonths.MonthsFollowEachOther | scripts/evaluate-imom6m-gate-a-development.py:477-495 | each month ends on the calendar date after its formation, inside the split, and return periods never overlap |
| DevelopmentMonths.SplitIsSealed | scripts/evaluate-imom6m-gate-a-development.py:466-563 | rows, prices and calendar dates outside the split never influence the evaluation |
| SplitIsolation.StreamSplitManifest | scripts/audit-event-research-data.py:207-237 | the auditor's manifest is the research code's manifest of the same rows |
| SplitIsolation.StreamSplitOverlapViolations | scripts/audit-event-research-data.py:271-290 | the overlap count is zero for every data set and manifest |
| SplitIsolation.LabelByPosition | scripts/event_research_common.py:1382-1424 | under the computed manifest an observation is labelled by the calendar positions of its signal and of its exit, if one is recorded |
| SplitIsolation.ShortWindowsStay | scripts/event_research_common.py:1386-1393 | windows of at most twenty positions are never purged before the last training date |
| SplitIsolation.SelectedUnlessReaching | scripts/event_research_common.py:1335-1401 | an observation is selected for the split in whose days its signal lies, and is left out of all three iff its signal lies in a gap or its window reaches the next split |
| SplitIsolation.ManifestRecords | scripts/event_research_common.py:1411-1450 | the manifest's first and last day, counts and purge; a recorded one keeps its own dates |
| SplitIsolation.PurgeMargins | scripts/event_research_common.py:1923-1925 | signals of different splits lie twenty calendar positions apart unless the later is the last date |
| SplitIsolation.LockedSplitNeedsSixDates | scripts/event_research_common.py:1419-1423 | the last date is locked iff there are six dates, and nothing is locked below |
| SplitIsolation.ValidationSplitNeedsManyDates | scripts/event_research_common.py:1417-1424 | some date can hold validation observations iff there are three to five signal dates or at least ninety-eight |
| SplitIsolation.CountLabels | scripts/event_research_common.py:1354-1356 | every label is counted, and only seen labels are keys |
| SplitIsolation.SelectObservations | scripts/event_research_common.py:1335-1363 | the observations with the split's labels in order, and all label counts |
| SplitIsolation.LabelsPartition | scripts/event_research_common.py:1335-1376 | label counts add up to all observations and selections to the counts |
| SplitIsolation.SelectionMembers | scripts/event_research_common.py:1366-1376 | an observation is selected iff it has one of the split's labels |
| LedgerChain.SameHeadSameChainOrCollision | scripts/event_forward_evidence.py:50-66 | two chains with the same head digest are equal row for row and in length, or exhibit a hash collision |
| LedgerChain.HeadFixesHistory | scripts/event_forward_evidence.py:50-66 | with an injective hash the head digest fixes the whole ledger |
| LedgerChain.TamperingShows | scripts/event_forward_evidence.py:54-57 | changing an earlier row breaks the chain or shows a collision |
| LedgerChain.ValidateSourceChain | scripts/event_forward_evidence.py:46-66 | the first faulty row of a source ledger and its fault |
| LedgerChain.SourceAcceptedIffValid | scripts/event_forward_evidence.py:46-66 | accepted iff the rows form a chain with strictly increasing dates |
| LedgerChain.SourcePrefix | scripts/event_forward_evidence.py:46-66 | every prefix of a valid source ledger is valid |
| LedgerChain.SourceAppend | scripts/event_forward_evidence.py:46-66 | one more row keeps it valid iff linked to the head and dated later |
| LedgerChain.ValidateOutcomeChain | scripts/event_forward_evidence.py:84-100 | the first faulty row of an outcome ledger and its fault |
| LedgerChain.OutcomeAcceptedIffValid | scripts/event_forward_evidence.py:84-100 | accepted iff the rows form a chain in which no candidate is finalized twice |
| LedgerChain.OutcomePrefix | scripts/event_forward_evidence.py:84-100 | every prefix of a valid outcome ledger is valid |
| LedgerChain.OutcomeAppend | scripts/event_forward_evidence.py:84-100 | one more outcome keeps it valid iff linked to the head with a fresh key |
| FetchProtocol.FirstFieldDecides | scripts/detect-event-cluster-paper-candidates.py:405-412 | a row has a date iff one of its date fields is read and all fields before it are missing |
| FetchProtocol.ValidatedFetchMetadata | scripts/detect-event-cluster-paper-candidates.py:295-338 | time and verdict of the latest marker of the date |
| FetchProtocol.RowsForCompletedFetch | scripts/detect-event-cluster-paper-candidates.py:341-377 | exactly the rows observable by the fetch, in order, or an error without a fetch time |
| FetchProtocol.LaterRowsAreInvisible | scripts/detect-event-cluster-paper-candidates.py:295-377 | response rows stamped after the fetch change neither verdict nor selection |
| FetchProtocol.SelectionKeepsTheVerdict | scripts/detect-event-cluster-paper-candidates.py:341-377 | selecting twice is selecting once, and the selected rows alone give the same verdict |
| FetchProtocol.VerdictIsLastCompletedFetch | scripts/export-jquants-financial-summaries-jsonl.py:130-144 | over every history of completed and cut-off fetches the verdict is the last completed fetch, complete iff all rows of its response carry the date, counting exactly those that do |
| PreviousForecast.PreviousForecastSnapshots | scripts/event_research_common.py:1589-1600 | one pass reports for each event the last earlier forecast of its key if strictly earlier in availability |
| PreviousForecast.ReportsThePreviousForecast | scripts/event_research_common.py:1589-1600 | the report is the latest earlier forecast of the key, described without the pass, or nothing |
| PreviousForecast.PreviousOrNone | scripts/event_research_common.py:1592-1594 | such a forecast exists or none comes before the event |
| PreviousForecast.LaterEventsDoNotMatter | scripts/event_research_common.py:1589-1600 | events disclosed later never change a report |
| PreviousForecast.TieHidesForecast | scripts/event_research_common.py:1592-1599 | with availability at disclosure, a snapshot is reported iff a forecast of the key was available in time and none was disclosed at the very time of the event |
| PreviousForecast.OlderForecastIsMissed | scripts/event_research_common.py:1592-1599 | three events for which an older forecast available in time goes unreported |
| IndexPools.IndexEvents | scripts/event_research_common.py:1224-1231 | every event dictionary equals a plain scan for its key |
| IndexPools.IndexRandoms | scripts/event_research_common.py:1232-1246 | every random dictionary equals a plain scan that avoids the symbol's event dates |
| IndexPools.BaselineIndexPools | scripts/event_research_common.py:1211-1286 | all six lists of pools equal the plain-scan pools, over the combined list |
| IndexPools.PoolOrFallback | scripts/event_research_common.py:1289-1294 | never empty; holds the observation itself iff there is no other choice |
| IndexPools.EventKinds | scripts/event_research_common.py:1248-1276 | two kinds draw from the events alone, and take every event of the same symbol or type |
| IndexPools.PoolMembers | scripts/event_research_common.py:1248-1286 | pools are nonempty and in range, share the kind's attributes, and random members avoid event dates |
| IndexPools.SelfIsLastResort | scripts/event_research_common.py:1289-1294 | a pool is the observation alone iff no other event and no admissible random date matches |
| IndexPools.RandomDatesTakePrecedence | scripts/event_research_common.py:1289-1292 | with an admissible random date the pool holds exactly those |

## Left out

- Reading and writing files, CSV, JSON and HTTP, argument parsing, printing, reports and summary
  dictionaries, parameter grids and presets: no state to reason about.
- Floating point: rounding, overflow and NaN. The 60% and 80% positions, floor divisions and ranks are
  taken over exact numbers.
- Grouping of raw rows by symbol in `prepare_bars` (scripts/backtest-swing-daily.py:901-907): the model
  starts from one ordered series per symbol with one row per date; the unused volume field is dropped.
- Zero and negative quotes: prices are positive in the backtester and nonzero where the intraday scans
  divide by them. Periods and lot sizes are positive, the holding limit and slope lookback not negative.
- The random generator and SHA-256: an oracle and an arbitrary function; JSON canonicalization is part of
  the hash, so a row's body stands for its canonical text.
- Metrics, gates, walk-forward folds, alpha diagnostics and bin labels: they summarize trades.
- Forward returns attached to intraday candidates (scripts/explore-opening-range-breakout.py:254-264,
  scripts/explore-vwap-continuation.py:280-291): labels for research, not used by the scans.
- Null scores of rows flagged eligible: the evaluator's frame carries a score for every eligible row, as
  the builder's eligibility rule requires one. Reading the split bounds and filtering the files to them.
- CrossSection.BuilderPassesItsValidator: the join of ranks to listings is by code within a date, so
  repeated listings, which the validator rejects first, are not multiplied as a join would.
- SwingCausality.NoLookAhead: assumes the same trading dates on both sides, because a deadline is clamped to
  the last known date; SwingCutRuns.CutDataRun treats data that end earlier.
- SwingCutoff.ProgramsUpTo: every symbol keeps at least one row; one that starts after the cut is no series.
- FetchProtocol.VerdictIsLastCompletedFetch: responses hold no marker rows, and of two fetches at the very same
  time neither holds rows of the other's date; such rows would be counted for both.
- Dataset and manifest hashes, schema versions and symbol names in split manifests: constants or digests.
- Other copies of the cooldown, split and forward-price code in the remaining scripts.
