# stotify, modelled in Dafny

stotify is a stock-alert tool. It has four pieces of logic, each modelled here as a Dafny module with its properties proved.

**Live alerts.** A JSON file `alerts.json` maps
notification groups (ntfy.sh channel names) to lists of alerts. Each alert
names a strategy, a timeframe, one or more tickers and strategy
parameters. The command-line runner works in three steps:

1. It validates the whole file.
2. It skips the alerts that the market hours or a timeframe filter exclude.
3. It runs the strategy of every remaining alert and sends one notification per signal.

It returns exit status 1 on a configuration error and 0 otherwise.

**Strategies.** Two built-in strategies are registered by name:

- `threshold` fires when a price reaches a high or low bound, both bounds inclusive.
- `ma_cross` fires when the fast trailing moving average of the closes is strictly above the slow one at the last close.

**Backtest.** A moving-average crossover backtest replays the `ma_cross` signal over a price history:

- it opens one trade at every false-to-true edge of the signal;
- it closes each trade after a fixed holding period, or at the next true-to-false edge;
- it summarises the trades in four metrics: trade count, win rate, average return and compounded total return.

**Market hours.** The US session runs Monday to Friday, from 09:30 inclusive to 16:00 exclusive.

The modules follow the repository's files:

| module | file | models |
|---|---|---|
| `Wrappers` | `wrappers.dfy` | `Option`, `Result` and `Outcome` |
| `Series` | `series.dfy` | dropping missing closes, trailing rolling means, the per-point signal; shared by the backtest and `ma_cross` |
| `Backtest` | `backtest.dfy` | `stotify/backtest.py`: cross edges, exits, trades, metrics, the trade loop and `backtest_ma_cross` |
| `BacktestProperties`, `BacktestScenarios` | `backtest_properties.dfy`, `backtest_scenarios.dfy` | what the backtest promises, and the worked examples of its tests |
| `Strategies` | `strategies.dfy` | `stotify/strategies.py`: the registry as a class over a map, and both evaluators as loops proved against their specification functions |
| `StrategiesProperties` | `strategies_properties.dfy` | soundness and completeness of both evaluators |
| `MarketHours` | `market_hours.dfy` | `stotify/market_hours.py` after conversion to New York time |
| `Alerts` | `alerts.dfy` | `stotify/main.py`; see the details below |
| `AlertsProperties` | `alerts_properties.dfy` | the dispatch-loop filters, delivery counts, end-to-end strategy soundness and sample configurations |

`alerts.dfy` covers all of `stotify/main.py` that the model keeps:

- the configuration as a JSON datatype;
- the group-name and timeframe validators;
- `extract_tickers` and `validate_alert`;
- the `load_config` loop;
- the `check_alerts` loop;
- the exit status of `main`.

The providers are function inputs:

- `getPrice` for the price;
- `getHistory` for the history, keyed by ticker, period and interval (so the evaluator can ask for the alert's own period and interval);
- `send` for the sender;
- `marketOpen` for the clock.

Each loop of the source is a Dafny method whose `ensures` ties its result to a specification function. The properties are lemmas about those functions.

## Model

| member | source | states |
|---|---|---|
| `Series.DropMissing` | stotify/backtest.py:59 | `dropna` keeps at most as many closes as there were rows |
| `Series.KeptRows` | stotify/backtest.py:59-60 | the surviving index labels are strictly increasing, each points at its own close, and every present row is kept |
| `Series.DropMissingNoGaps` | stotify/backtest.py:59-60 | a series without missing closes is kept whole, position for position |
| `Series.DropMissingPositive` | stotify/backtest.py:59 | every close that survives `dropna` is one of the provider's positive prices |
| `Series.RollingMeanBounds` | stotify/backtest.py:61-62 | a rolling mean is defined once the window is filled, and lies within the range of its window's closes |
| `Series.SumBounds` | stotify/backtest.py:122 | values within [lo, hi] sum to within [n·lo, n·hi] |
| `Series.MeanBounds` | stotify/backtest.py:122 | a mean lies between the smallest and largest value |
| `Series.EqualWindowsNeverSignal` | stotify/backtest.py:64 | the comparison is strict, so equal windows never signal |
| `Series.SignalNeedsBothWindows` | stotify/backtest.py:59-64 | an undefined mean makes the signal false: it needs both windows non-zero and filled |
| `Backtest.SignalColumn` | stotify/backtest.py:61-64 | one signal per close; a true signal has both windows non-zero and filled; equal windows never signal |
| `Series.FirstPointNeverSignals` | stotify/backtest.py:59-64 | the signal is false at the first row, for every pair of windows |
| `BacktestProperties.NoEntryAtFirstRow` | stotify/backtest.py:64-66 | no trade ever enters at the first row |
| `Backtest.CrossEdges` | stotify/backtest.py:65-66 | cross-up iff signal ∧ (i = 0 ∨ ¬previous); cross-down iff ¬signal ∧ i > 0 ∧ previous; never both; no cross-down at 0 |
| `Backtest.CrossUpsBelow` | stotify/backtest.py:71 | the entry positions are exactly the cross-ups, strictly increasing, each once |
| `Backtest.FirstCrossDownFrom` | stotify/backtest.py:77-84 | the first cross-down at or after k, or the last position when none follows; no cross-down is skipped |
| `Backtest.ExitPosition` | stotify/backtest.py:76-87 | for either exit policy the exit lies between the entry and the last position; only the fixed policy needs hold_days ≥ 0 |
| `Backtest.ReturnSign` | stotify/backtest.py:90 | return > 0 iff exit price > entry price; return = 0 iff they are equal; above −100 for a positive exit price |
| `Backtest.TradesAt` | stotify/backtest.py:72-102 | one trade per entry position |
| `Backtest.TradesAtIndex` | stotify/backtest.py:72-102 | the k-th trade is the one entered at the k-th position |
| `Backtest.TradesAtSnoc` | stotify/backtest.py:93-102 | one more entry appends its trade at the end |
| `Backtest.HistoryRows` | stotify/backtest.py:59-62 | the augmented history has one row per surviving close |
| `Backtest.Returns` | stotify/backtest.py:112 | one return per trade |
| `Backtest.Wins` | stotify/backtest.py:113 | the wins are at most the returns, all positive |
| `Backtest.SummarizeTrades` | stotify/backtest.py:108-124 | the compounding loop computes the summary; empty metrics iff no trades; total_trades = n |
| `Backtest.SimulateTrade` | stotify/backtest.py:73-102 | the loop body builds the trade entered at the position, under either exit policy |
| `Backtest.SimulateTrades` | stotify/backtest.py:68-102 | the trade loop yields one trade per cross-up, in entry order |
| `Backtest.BacktestMaCross` | stotify/backtest.py:36-105 | absent or empty history gives the empty result; otherwise the result holds the filtered history, its trades and their metrics |
| `BacktestProperties.OneTradePerCrossUp` | stotify/backtest.py:71-102 | exactly one trade per cross-up, the k-th at the k-th cross-up, in strictly increasing entry-date order |
| `BacktestProperties.FixedExitBounds` | stotify/backtest.py:86-91 | fixed exit at min(entry + hold_days, last); hold length in [0, hold_days] |
| `BacktestProperties.SignalPersists` | stotify/backtest.py:64-66 | without a cross-down in between, a true signal stays true |
| `BacktestProperties.CrossExit` | stotify/backtest.py:76-84 | cross exit is the first cross-down after entry, or the last position; the signal holds from entry to exit; the exit precedes the next cross-up |
| `BacktestProperties.CrossExitIgnoresHold` | stotify/backtest.py:76-84 | the cross exit does not depend on hold_days |
| `BacktestProperties.TradeFigures` | stotify/backtest.py:74-91 | the prices are the closes at entry and exit, return = (exit − entry)/entry·100, a win iff exit > entry, never −100% or below |
| `BacktestProperties.WinsComplete` | stotify/backtest.py:113 | every positive return is kept among the wins |
| `BacktestProperties.WinsCount` | stotify/backtest.py:113 | there are exactly as many wins as positions holding a positive return |
| `BacktestProperties.WinRateCounts` | stotify/backtest.py:113-121 | win_rate = 100 · (number of trades with a positive return) / n |
| `BacktestProperties.WinRateBounds` | stotify/backtest.py:113-121 | win_rate is in [0, 100] |
| `BacktestProperties.AvgReturnBounds` | stotify/backtest.py:122 | avg_return lies between the smallest and largest return |
| `BacktestProperties.CompoundAppend` | stotify/backtest.py:114-116 | compounding multiplies across consecutive runs of trades |
| `BacktestProperties.CompoundPositive` | stotify/backtest.py:114-116 | the compounded value stays positive while no trade loses 100% |
| `BacktestProperties.TotalReturnAboveMinus100` | stotify/backtest.py:114-117 | a backtest's total_return is above −100 |
| `BacktestProperties.SingleTradeSummary` | stotify/backtest.py:108-124 | one trade: count 1, win rate 100 or 0, average and total both equal its return |
| `BacktestProperties.ThreeTradeCompounding` | stotify/backtest.py:114-117 | +10, −10, +20 compound to +18.8, not the sum +20 |
| `BacktestProperties.AllMissingIsEmpty` | stotify/backtest.py:59-62 | closes that are all missing leave an empty history |
| `BacktestProperties.EmptySeriesNoTrades` | stotify/backtest.py:108-110 | an empty series makes no trades and empty metrics |
| `BacktestScenarios.RisingMeans` | tests/test_backtest.py:11-25 | the rolling means of closes 1, 1, 1, 2, 3, 4 with windows 2 and 3 |
| `BacktestScenarios.RisingSeriesSignal` | tests/test_backtest.py:11-25 | that series signals from index 3 onwards |
| `BacktestScenarios.OneEntryTrades` | stotify/backtest.py:71-102 | a single cross-up makes exactly one trade |
| `BacktestScenarios.NoCrossUps` | stotify/backtest.py:71 | no cross-up below n means no entry below n |
| `BacktestScenarios.SingleCrossUp` | stotify/backtest.py:71 | a lone cross-up is the only entry |
| `BacktestScenarios.FirstCrossDownAt` | stotify/backtest.py:77-79 | the first cross-down is found where it is |
| `BacktestScenarios.RisingEntries` | tests/test_backtest.py:27-29 | the rising series enters only at index 3 |
| `BacktestScenarios.RisingTrades` | tests/test_backtest.py:27-31 | its fixed-exit trade is 3 → 5 at +100% |
| `BacktestScenarios.FixedExitScenario` | tests/test_backtest.py:11-31 | closes 1, 1, 1, 2, 3, 4, fixed exit after 2: one trade 3 → 5, return 100 |
| `BacktestScenarios.PeakMeans` | tests/test_backtest.py:34-47 | the rolling means of closes 1, 1, 1, 2, 3, 2, 1 |
| `BacktestScenarios.PeakSeriesSignal` | tests/test_backtest.py:34-47 | that series signals on indices 3 to 5 |
| `BacktestScenarios.PeakEntries` | tests/test_backtest.py:49-51 | it enters only at index 3 |
| `BacktestScenarios.PeakExit` | tests/test_backtest.py:52 | its first cross-down after entry is at index 6 |
| `BacktestScenarios.PeakTrades` | tests/test_backtest.py:49-52 | its cross-exit trade is 3 → 6 at −50% |
| `BacktestScenarios.CrossExitScenario` | tests/test_backtest.py:34-52 | closes 1, 1, 1, 2, 3, 2, 1, cross exit: one trade 3 → 6 |
| `BacktestScenarios.NoGapsScenarioInputs` | tests/test_backtest.py:6-8 | the test's gap-free history is traded as given, dated by position |
| `Strategies.Registry.constructor` | stotify/strategies.py:24 | the registry starts empty |
| `Strategies.Registry.RegisterStrategy` | stotify/strategies.py:27-34 | registering binds the name, returns the strategy, then looking the name up finds it, other names unchanged |
| `Strategies.BuiltinLookup` | stotify/strategies.py:37-41 | on the module's registry exactly `threshold` and `ma_cross` resolve, each to its own strategy; any other name is an unknown-strategy error naming it |
| `Strategies.BuiltinRegistry` | stotify/strategies.py:44-80 | the module's registry holds exactly `threshold` and `ma_cross` |
| `Strategies.ThresholdSignals` | stotify/strategies.py:45-76 | at most two signals per ticker |
| `Strategies.ThresholdSignalsSnoc` | stotify/strategies.py:51-74 | an unpriced ticker adds nothing; a priced one appends its high then its low signal |
| `Strategies.ThresholdStrategy` | stotify/strategies.py:45-76 | the ticker loop computes the threshold signals, at most 2·the tickers |
| `Strategies.MaCrossSignals` | stotify/strategies.py:80-120 | at most one signal per ticker |
| `Strategies.MaCrossSignalsSnoc` | stotify/strategies.py:88-118 | one more ticker appends its own signal, if any |
| `Strategies.MovingAverageCrossStrategy` | stotify/strategies.py:80-120 | the ticker loop and its `continue`s compute the ma_cross signals, at most one per ticker |
| `StrategiesProperties.ThresholdSignalsAppend` | stotify/strategies.py:51-76 | output follows ticker order: it splits over concatenated ticker lists |
| `StrategiesProperties.ThresholdSingle` | stotify/strategies.py:51-74 | one ticker: nothing without a price, else its high then low signal |
| `StrategiesProperties.ThresholdSound` | stotify/strategies.py:51-74 | every signal is for a listed ticker at its price, which reached the reported bound (high: ≥, low: ≤) |
| `StrategiesProperties.ThresholdHighComplete` | stotify/strategies.py:56-64 | a listed ticker priced ≥ high yields its high signal |
| `StrategiesProperties.ThresholdLowComplete` | stotify/strategies.py:66-74 | a listed ticker priced ≤ low yields its low signal |
| `StrategiesProperties.ThresholdUnpricedSilent` | stotify/strategies.py:52-54 | an unpriced ticker yields no signal |
| `StrategiesProperties.BothBoundsFire` | stotify/strategies.py:56-74 | a price in both bounds fires both, high first |
| `StrategiesProperties.NoBoundsNoSignals` | stotify/strategies.py:48-74 | without high and low no signal fires |
| `StrategiesProperties.TwoTickersAboveHigh` | tests/test_strategies.py:10-17 | two tickers at 260 against high 250 give one high signal each, in order |
| `StrategiesProperties.MaCrossAgreesWithSignal` | stotify/strategies.py:89-118 | a ticker fires iff it has history, ≥ slow closes, and the backtest's signal holds at the last close; the signal carries that close, type "ma_cross", no threshold |
| `StrategiesProperties.ShortHistorySilent` | stotify/strategies.py:93-95 | fewer rows than the slow window never fire |
| `StrategiesProperties.MaCrossSound` | stotify/strategies.py:88-118 | every signal is for a listed ticker whose rule fires |
| `StrategiesProperties.MaCrossComplete` | stotify/strategies.py:88-118 | every listed ticker whose rule fires has its signal |
| `StrategiesProperties.RisingHistoryFires` | tests/test_strategies.py:20-33 | closes 1, 2, 3 with windows 2 and 3 fire at price 3 |
| `MarketHours.BeforeIsMicrosOrder` | stotify/market_hours.py:25 | the lexicographic `time` order is the order of elapsed microseconds |
| `MarketHours.SecondsOrder` | stotify/market_hours.py:25 | the same for whole seconds |
| `MarketHours.OpenIffSession` | stotify/market_hours.py:8-25 | open iff a weekday and 09:30:00 ≤ time < 16:00:00 |
| `MarketHours.WeekendClosed` | stotify/market_hours.py:22-23 | Saturday and Sunday are closed at every time |
| `MarketHours.SessionBoundaries` | tests/test_market_hours.py:10-43 | Wednesday noon open, Saturday noon closed, 09:29 closed, 09:30 open, 15:59 open, 16:00 closed |
| `Alerts.LookupFirst` | stotify/main.py:33-45 | a key is present iff some entry has it, and its value is that of the first such entry |
| `Alerts.AllGroupCharsIff` | stotify/main.py:23 | the character-class match holds iff every character is in `[a-zA-Z0-9_-]` |
| `Alerts.GroupNameIff` | stotify/main.py:17-23 | a valid group name has 1 to 100 characters, each in `[a-zA-Z0-9_-]` |
| `Alerts.DigitRunEnd` | stotify/main.py:14 | the `\d+` run ends at the first non-digit |
| `Alerts.TimeframeIff` | stotify/main.py:14-28 | a valid timeframe is one or more digits then exactly one of m, h, d |
| `Alerts.TimeframeExamples` | stotify/main.py:26-28 | 15m, 6h, 1d are valid; 1w, d, 15, 1.5h, 1dd and "" are not |
| `Alerts.Strings` | stotify/main.py:41-43 | the ticker strings of a list of non-empty strings, in order |
| `Alerts.ExtractTickersSpec` | stotify/main.py:31-49 | both keys, neither key, bad `tickers` and bad `ticker` each give their error; a good `tickers` list comes back unchanged, a good `ticker` as a singleton |
| `Alerts.AlertValidIff` | stotify/main.py:52-93 | an alert validates iff strategy present, timeframe valid, tickers valid, params an object, strategy registered, threshold has high or low, ma_cross windows are ints > 0 |
| `Alerts.MissingStrategyFirst` | stotify/main.py:54-55 | a missing strategy is reported before anything else |
| `Alerts.MissingTimeframeSecond` | stotify/main.py:54-57 | for every object alert with a strategy and no timeframe, the fault is the missing timeframe |
| `Alerts.TimeframeBeforeTickers` | stotify/main.py:56-63 | for every object alert with a strategy and a timeframe that is not a valid string, the fault is the invalid timeframe, whatever the tickers, params and strategy are |
| `Alerts.TickersBeforeParams` | stotify/main.py:58-63 | with the timeframe valid, any ticker fault is the one reported, whatever the params and strategy are |
| `Alerts.ParamsBeforeStrategy` | stotify/main.py:63-66 | with timeframe and tickers valid, missing or non-object params are reported before the strategy name is looked up |
| `Alerts.StrategyBeforeParamChecks` | stotify/main.py:66-74 | with everything before it valid, an unregistered strategy is reported before any parameter check |
| `Alerts.NonObjectAlerts` | stotify/main.py:54-58 | a string or list alert fails as missing `strategy` or `timeframe` under Python's `in`, and as not readable by key when it contains both; null and numbers fail at the first `in` |
| `Alerts.ThresholdAlertValid` | stotify/main.py:52-93 | a well-formed threshold alert validates |
| `Alerts.WindowParam` | stotify/strategies.py:83-84 | a window is at least 1, and is the validated integer of the param |
| `Alerts.FirstAlertFaultNoneIff` | stotify/main.py:121-122 | a group's alert list has no fault iff every alert validates |
| `Alerts.CheckGroupPassIff` | stotify/main.py:104-122 | a group passes iff its name is valid and it is a non-empty list of valid alerts |
| `Alerts.CheckGroupsPassIff` | stotify/main.py:104-122 | all groups pass iff every group is valid |
| `Alerts.LoadConfigIff` | stotify/main.py:96-124 | loading succeeds iff groups is an object and every group is valid, and returns the configuration unchanged |
| `Alerts.FirstFailingGroup` | stotify/main.py:104-122 | a failure is that of the first failing group; all earlier groups pass |
| `Alerts.GroupFailureSticks` | stotify/main.py:104-122 | a failure in the first groups is the config's failure |
| `Alerts.AlertFaultSticks` | stotify/main.py:121-122 | the first faulty alert decides the group's fault |
| `Alerts.ValidateAlerts` | stotify/main.py:121-122 | the alert loop stops at the first fault; no fault iff every alert validates |
| `Alerts.ValidateGroup` | stotify/main.py:104-122 | the group-loop body: name checks in order, then the alert loop |
| `Alerts.LoadConfig` | stotify/main.py:96-124 | the group loop succeeds iff the config is valid, and returns it unchanged |
| `Alerts.AccessorsOfValidAlert` | stotify/main.py:140-160 | on a validated alert, the strategy, timeframe, tickers and params read are exactly the validated entries |
| `Alerts.SignalAttempts` | stotify/main.py:169-177 | one send attempt per signal, in order, tagged with the group |
| `Alerts.Delivered` | stotify/main.py:169-178 | at most one delivery per attempt |
| `Alerts.DeliveredAppend` | stotify/main.py:137-178 | deliveries add up over consecutive attempts |
| `Alerts.SignalAttemptsSnoc` | stotify/main.py:169-177 | one more signal appends its attempt |
| `Alerts.SendSignals` | stotify/main.py:169-191 | the signal loop counts the sender's successes |
| `Alerts.CheckAlert` | stotify/main.py:139-191 | a skipped alert sends nothing; otherwise its signals' deliveries are counted |
| `Alerts.CheckGroupAlerts` | stotify/main.py:139-191 | a group's sent count is the deliveries of its alerts' attempts |
| `Alerts.CheckAlerts` | stotify/main.py:127-193 | `sent` is the number of attempts the sender reported delivered, so at most the number of signals |
| `Alerts.Run` | stotify/main.py:218-240 | exit 1 iff the config is missing, unparsable or invalid, or a non-empty filter is not a timeframe, and then nothing is sent; otherwise exit 0 with the delivered count |
| `AlertsProperties.SignalAttemptsMembers` | stotify/main.py:169-177 | every attempt carries its alert's group, strategy, timeframe and one of its signals |
| `AlertsProperties.GroupAttemptsRespectFilters` | stotify/main.py:139-156 | no attempt comes from a skipped alert of a group |
| `AlertsProperties.AttemptsRespectFilters` | stotify/main.py:138-156 | no attempt in the whole run comes from a skipped alert |
| `AlertsProperties.ClosedMarketOnlyDaily` | stotify/main.py:140-147 | with the market check on and the market closed, only 1d alerts send |
| `AlertsProperties.FilterOnlyMatching` | stotify/main.py:149-156 | with a non-empty filter, only alerts of exactly that timeframe send |
| `AlertsProperties.OpenMarketOnlyFilter` | stotify/main.py:140-156 | with the market open or the check skipped, an alert is skipped iff it fails the filter |
| `AlertsProperties.GroupSignalsAttempted` | stotify/main.py:158-177 | every signal of an alert that is not skipped is passed to the sender under its group |
| `AlertsProperties.SignalsAttempted` | stotify/main.py:138-177 | the same across all groups of the config |
| `AlertsProperties.BuiltinThresholdSound` | stotify/main.py:158-177 | with the built-in strategies, a threshold alert's notifications are for its own tickers, whose prices reached the bound they report |
| `AlertsProperties.BuiltinThresholdHighAttempted` | stotify/main.py:158-177 | with the built-in strategies, each ticker of a threshold alert that is not skipped and is priced ≥ high is sent its high signal |
| `AlertsProperties.BuiltinMaCrossSound` | stotify/main.py:158-177 | with the built-in strategies, an ma_cross alert's notifications are for its own tickers whose history, for the alert's period and interval, fires the rule |
| `AlertsProperties.AllDelivered` | stotify/main.py:169-178 | a sender that always succeeds delivers every attempt |
| `AlertsProperties.NoneDelivered` | stotify/main.py:169-178 | a sender that always fails delivers nothing |
| `AlertsProperties.SampleAlertValid` | stotify/main.py:52-93 | a two-ticker threshold alert validates |
| `AlertsProperties.SampleConfigLoads` | stotify/main.py:96-124 | a one-group config with that alert loads unchanged |
| `AlertsProperties.SpaceInGroupNameRejected` | stotify/main.py:110-114 | a space in a group name is rejected with that name |
| `AlertsProperties.MissingGroupsRejected` | stotify/main.py:101-102 | a config without a `groups` object is rejected |

### Definitions

These members are the model's definitions of the source functions. Their properties are stated by the lemmas and methods named beside them.

- `MarketHours.IsMarketOpen`: stotify/market_hours.py:12-25. Stated by `MarketHours.OpenIffSession`, `MarketHours.WeekendClosed` and `MarketHours.SessionBoundaries`.
- `Alerts.IsValidGroupName`: stotify/main.py:17-23. Stated by `Alerts.GroupNameIff` and `Alerts.AllGroupCharsIff`.
- `Alerts.IsValidTimeframe`: stotify/main.py:26-28. Stated by `Alerts.TimeframeIff` and `Alerts.TimeframeExamples`.
- `Alerts.ExtractTickers`: stotify/main.py:31-49. Stated by `Alerts.ExtractTickersSpec`.
- `Alerts.ValidateAlert`: stotify/main.py:52-93. Stated by `Alerts.AlertValidIff`, the check-order lemmas from `Alerts.MissingStrategyFirst` to `Alerts.StrategyBeforeParamChecks`, and `Alerts.NonObjectAlerts`.
- `Alerts.ValidateConfig`: stotify/main.py:96-124. Stated by `Alerts.LoadConfigIff`, `Alerts.CheckGroupsPassIff`, `Alerts.FirstFailingGroup` and `Alerts.LoadConfig`.
- `Alerts.Skipped`: stotify/main.py:140-156. Stated by `AlertsProperties.ClosedMarketOnlyDaily`, `AlertsProperties.FilterOnlyMatching` and `AlertsProperties.OpenMarketOnlyFilter`.
- `Series.RollingMean`: stotify/backtest.py:61-62. Stated by `Series.RollingMeanBounds`.
- `Series.Signal`: stotify/backtest.py:64. Stated by `Series.SignalNeedsBothWindows`, `Series.EqualWindowsNeverSignal` and `Series.FirstPointNeverSignals`.
- `Backtest.CrossUp` and `Backtest.CrossDown`: stotify/backtest.py:65-66. Stated by `Backtest.CrossEdges`.
- `Backtest.Summary`: stotify/backtest.py:108-124. Stated by `Backtest.SummarizeTrades` and the metric lemmas from `BacktestProperties.WinsComplete` to `BacktestProperties.TotalReturnAboveMinus100`.
- `Strategies.Registry.GetStrategy`: stotify/strategies.py:37-41. Stated by `Strategies.BuiltinLookup`.
- `Strategies.MaCrossTicker`: stotify/strategies.py:88-118. Stated by `StrategiesProperties.MaCrossAgreesWithSignal`, `StrategiesProperties.MaCrossSound` and `StrategiesProperties.MaCrossComplete`.

## Left out

- `stotify/stock.py` (the yfinance wrapper) is not part of this model. The price and history providers are function inputs.
  - The backtest receives the provider's answer directly: None for no data, otherwise a close column in which None marks a missing close.
  - The backtest's `period`, `interval`, `start` and `end` arguments only select the provider's answer.
- `stotify/notifier.py` (the HTTP POST to ntfy.sh) is not part of this model. The sender is a function returning whether delivery succeeded.
  - The call at stotify/main.py:170-177 passes arguments that `send_alert` does not accept. The model abstracts over that call.
  - The sender is a pure function. Two identical attempts in one run therefore get the same outcome, whereas a real notifier can fail once and succeed on a retry.
- `st_backtest_app.py` (the Streamlit dashboard) and `scripts/list_topics.py` are not part of this model.
- I/O in `main.py` is left out:
  - the file open and JSON parse (`Run` receives None for a missing or malformed file);
  - argparse and the `STOTIFY_TIMEFRAME` variable;
  - `print`, `sys.exit` and the log lines of `check_alerts`.
- The clock is a parameter: `datetime.now` becomes `marketOpen`.
- Floating point is exact `real` arithmetic:
  - an undefined rolling mean is None rather than NaN;
  - the messages formatted with `:.2f` and the signal's `message` field are not modelled.
- Timezone conversion in `is_market_open` is left out. The predicate takes the weekday and time of day already in New York time. Holidays are ignored, as in the source.
- Regex quirks are left out. The validators are ASCII full-string matches, whereas Python's `$` also accepts one trailing newline and `\d` accepts other Unicode digits.
- Python's `TypeError` cases are modelled as rejections or as no value:
  - a configuration that is not an object is the `NoGroupsObject` rejection. Python raises that `ValueError` for a string or list without "groups". When "groups" is in it, or the configuration is null or a number, Python raises `TypeError` instead;
  - an alert that is null, a boolean or a number is the `NotAnObject` rejection, as is a string or list alert that holds both "strategy" and "timeframe". A string or list lacking one of them gets the same missing-key fault as Python;
  - a strategy name that is a list or an object (unhashable in Python) is reported as an invalid strategy;
  - a `high`/`low` parameter that is not a number counts as absent;
  - a `period` or `interval` that is not a string takes the default.
- A JSON object's keys are taken to be distinct, as in a parsed Python dict. Where a key repeats, the model reads its first entry, whereas Python's `json` keeps the last value.
- Dates are row positions. A trade's dates are the positions, in the provider's series, of the rows that survive `dropna`.
- `history.loc[...]` and the in-place `fast_ma`/`slow_ma` columns are modelled as a freshly built row sequence.
- Any `exit_mode` string other than `"cross"` behaves as fixed in the source; the model has just the two modes.
- `Backtest.BacktestMaCross` requires hold_days ≥ 0 in fixed mode. In the source a negative hold exits before the entry with a negative hold length, or, once entry + hold_days < 0, at a row counted from the end. The cross mode never reads hold_days and has no such requirement.
- `Backtest.BacktestMaCross` requires positive closes, since the return divides by the entry price. Windows are natural numbers: a window of 0 gives undefined means, so no trades, as in pandas. Negative windows, which pandas rejects with an error, are not representable.
- `Strategies.MovingAverageCrossStrategy` requires a slow window of at least 1. With a slow window of 0 and a history whose closes are all missing, `iloc[-1]` at stotify/strategies.py:97 raises IndexError. `validate_alert` guarantees windows above 0 for every alert that `check_alerts` evaluates. A fast window of 0 gives an undefined mean, and the ticker is skipped, as in the source.
- `Alerts.CheckAlerts` requires a validated configuration, as `main` only calls it after `load_config` succeeded.
- `tests/test_main.py` and `tests/test_notifier.py` describe an older interface (an `alerts` key, `get_channel`). They contradict stotify/main.py:101 and stotify/notifier.py:14, so no property comes from them.
