# Trading engine and data layer: a verified model

A Dafny 4.11 model of the deterministic core of a trading platform, with proofs of what its parts promise each other.
Run `dafny verify dfyconfig.toml`.

- **Research windows** (`Resample`, `WindowSim`, `WalkForward`, `Drawdown`, `Metrics`, `Statistics`): candle aggregation on
  epoch boundaries, the one-position simulator, the two walk-forward drivers, drawdown and trade statistics.
- **Trade engines**: the risk manager (`Risk`, `Sizing`, `RiskHistory`), the in-memory broker (`Paper`, `BrokerFills`), the
  single-symbol engine (`Ledger`, `Backtester`, `Books`, `Partials`, `Decisions`, `TradeStories`, `EquityCurve`) and its live
  runner (`LiveBot`), and the portfolio engine with its merge of all symbols' bars (`Merge`, `Portfolio`, `PortfolioBooks`,
  `PortfolioRuns`, `PortfolioRiskHistory`, `PortfolioRanges`, `PortfolioStories`, `PortfolioCurve`, `EngineAgreement`).
- **Live orders** (`LiveOrders`, `LiveEntries`, `LiveProtection`): the runner against an arbitrary venue, as a trace of calls
  and answers.
- **Candle data** (`Candles`, `Integrity`, `History`, `Pager`, `PagerRules`, `ClosedBars`, `CandleRules`): the canonical
  manifest, the slicer, the gap counter, the cache, the pager, the closed-candle filter, and the one notion of a candle that
  they share.
- **Release packet** (`Packet`, `PacketRules`, `GitStatus`): seal and verify over a file map, and the status parser.

`Types` and `Folds` hold what the modules share.

## How it is modelled

Prices, quantities, fees and equity are `real`; timestamps are integer milliseconds. Each object whose methods update its
fields is a class with those fields; a method is proved equal to a function of the old state, and the promises are lemmas
about that function, over single steps and over whole runs. What an operation computes is also said without the function:
`TradeStories`, `Sizing`, `Decisions`, `BrokerFills`, `CandleRules`, `PacketRules` and their like describe results by the
inputs they come from. Strategies are arbitrary functions of the bars shown so far.
Venues, fetchers, clocks, guards, digests and text encodings are arbitrary functions too, so a statement for all of them is
a statement for every behaviour.

Ghost state exists for the statements only: accepted orders, finished round trips, times told to the risk manager and
marks after each visit.

## Findings

Where the code does less than its documentation says, the model follows the code and says exactly when the promise holds.

- `bot/multi_backtester.py:13-14` promises that bars of one time are taken in dictionary order. They are taken by cursor
  index and then by symbol name: B listed before A is visited after it (`Merge.DictionaryOrderFails`), and the promise holds
  exactly when the ties of the input allow it (`Merge.DictionaryOrderExactly`).
- `sync` drops the forming candle and then takes the short page for the end of history: with more than 999 closed candles
  wanted and available it collects 999 (`Pager.SyncKeepsItsPromise`, `Pager.FormingCandleEndsPaging`).
- `sync` is said to be idempotent. A page with two candles of one time is accepted once and refused when it is repeated
  (`Pager.SecondSyncIsRefused`), and only such pages are (`Pager.SameAnswersAgain`); a venue that keeps its candles can be
  synced again at will (`Pager.SyncAgainChangesNothing`, `Pager.SyncAgainExtends`).
- Partial results are booked but never reach the risk manager, so the gains of sizing basis and account differ by exactly
  their sum (`Books.BasisMissesPartials`): in some run for every positive partial target, in none when partial profits are
  off (`Partials.BasisAgreesExactlyWithoutPartials`).
- Drawdown is measured from the peak alone. Once equity is negative another base can lose more: the exact condition is
  `Drawdown.PairsExactly`.
- The live runner measures its cooldown in bars but never reports a closed trade, so no cooldown ever starts
  (`LiveOrders.DryRunOnlyReads`).
- The live protocol is safe exactly for venues that can both cancel and protect (`LiveOrders.SafeExactlyWithBothCalls`).
- Weekly candles that open on Monday are never canonical (`Candles.MondayWeeksAreRefused`).
- A packet whose manifest text outgrows the metadata limit is sealed and then refused: exactly then, when its metadata
  states the sealed identity (`Packet.FreshSealVerifies`), and there are such packets (`Packet.OversizedManifestIsSealed`).

## Model

| member | source | states |
|---|---|---|
| `Resample.ResampleComposes` | automation-hub/backtest.py:70-116 | Resampling by g1 and then g2 is resampling by g1·g2, on every input list and all group sizes from 1, including which inputs are refused and why |
| `Resample.ResampleGroupsConsecutively` | automation-hub/backtest.py:92-116 | On a regular series each output bar folds exactly `group` consecutive source bars starting on an epoch boundary, no source bar between the first and the last of them is skipped, and fewer than `group` bars are dropped at each end |
| `Resample.ResampledBarsSummarise` | automation-hub/backtest.py:92-116 | Each output bar has the open of the first and the close of the last of its `group` source bars, a high that bounds all their highs and is one of them, a low likewise from below, the sum of their volumes, and the epoch boundary it starts on as its time |
| `Resample.ResampleRefusesExactly` | automation-hub/backtest.py:76-87 | Refused exactly when at least two bars are to be grouped and some bar does not come after the one before it, or else some step differs from the first; groups of one return the bars, and fewer than two bars give none |
| `Resample.FullBucketIsClosed` | automation-hub/backtest.py:107-112 | A bucket that holds `group` source bars lies before the forming bucket, so the count alone already implies the filter on the index |
| `WindowSim.RunWindow` | automation-hub/backtest.py:165-208 | The loop over bars, position and results returns the trades of the step-by-step window for every start, end and warm-up, inside the list or outside it |
| `WindowSim.LaterBarsOnlyAppend` | automation-hub/backtest.py:165-208 | No look-ahead: moving the end of the window later only appends results |
| `WindowSim.OnlyTheWindowMatters` | automation-hub/backtest.py:165-208 | The results depend on nothing but the bars from the earlier of the two starts up to the end of the window, for every start, end and warm-up |
| `WindowSim.EveryBarSeenOnce` | automation-hub/backtest.py:175-207 | The strategy is shown every bar of warm-up and window exactly once and in order, whatever position is held and wherever the bounds lie, clipped as slices are |
| `WindowSim.TradesAreOrderly` | automation-hub/backtest.py:179-207 | Entry indices strictly increase, every trade closes after it was entered and inside the window, and no trade overlaps the next |
| `WindowSim.LongAndShortMirror` | automation-hub/backtest.py:184-195 | Turning prices, signals and strategy upside down leaves every result as it was: the long and the short branches treat stop, target and cost alike |
| `WindowSim.TradesAreExplained` | automation-hub/backtest.py:165-208 | Each trade enters at the levels of a signal with a risk on the bar of that signal and exits on the first later bar whose range reaches stop or target, at -1 R when it reaches the stop and else at the reward, each less the cost; and no signal with a risk is passed over while nothing is held |
| `WalkForward.ComputeMetrics` | automation-hub/backtest.py:135-147 | The single pass computes counts, rates, sums and the deepest drop of the running total |
| `Statistics.FiguresExactly` | automation-hub/backtest.py:135-147 | For every list of results: the win rate counts the positive ones, the average and the net are their mean and sum, the factor times what was lost is what was won and 99 when nothing was lost, and the drop is the worst fall of the running total |
| `Drawdown.DropIsWorstFall` | automation-hub/backtest.py:141-145 | The drop kept by that pass is the largest fall from any point of the running total to a later one, the starting zero included |
| `WalkForward.FirstMaxIsFirstGreatest` | automation-hub/backtest.py:230 | Python's max over the grid: the chosen index scores at least as high as every other and strictly higher than every earlier one |
| `WalkForward.ChooseParams` | automation-hub/backtest.py:224-230 | The parameters taken are the first of the greatest training score |
| `Statistics.GridIsInOrder` | automation-hub/backtest.py:216-229 | The grid holds every target of the first threshold, then every target of the next, which decides between pairs that earned the same |
| `WalkForward.RunWalkForward` | automation-hub/backtest.py:211-238 | The driver reports the metrics of the concatenated test results and one row per fold with the days of its first and last test bar, for all fold starts |
| `Statistics.WalkForwardExactly` | automation-hub/backtest.py:211-238 | There is a fold for every k whose windows fit when they begin k test windows into the series; each reports the days and the figures of the trades right after its training window, warmed up by it, of the first parameter pair none of which earned more in it; and the total is the figures of all these trades |
| `WalkForward.OosTrades` | automation-hub/backtest.py:241-263 | The other driver returns the stamped results of all folds, sorted stably by time |
| `WalkForward.StartsTile` | automation-hub/backtest.py:221-237 | Fold starts advance by exactly one test length for as long as train and test fit, and no later start would fit |
| `WalkForward.TestWindowsTile` | automation-hub/backtest.py:221-237 | Test windows follow each other without gap or overlap, and the trades of all folds have ascending entry indices inside them |
| `WalkForward.SimulatorConforms` | automation-hub/backtest.py:165-208 | The simulator returns strictly ascending entry indices inside its window, which is all the drivers rely on |
| `Folds.SortIsNoOp` | automation-hub/backtest.py:262 | A stable sort of results already in time order changes nothing |
| `WalkForward.SameResults` | automation-hub/backtest.py:211-263 | For bars in non-decreasing time order the two drivers produce the same results in the same order, so the final sort is a no-op |
| `WalkForward.RunBoth` | automation-hub/backtest.py:211-263 | Run side by side, the metrics of the R values of `oos_trades` are the aggregate of `walk_forward` |
| `WalkForward.FoldIsCausal` | automation-hub/backtest.py:222-235 | The parameters of a fold depend only on the bars before its test window, and its trades on no bar after it |
| `Drawdown.DrawdownSeries` | bot/dashboard_report.py:135-142 | Each point is the fall below the highest equity so far as a fraction of it, and 0 while that is not positive |
| `Drawdown.MaxDrawdown` | bot/metrics.py:31-43 | The result is the least point of the drawdown series, or 0 when none is negative: the two implementations agree |
| `Drawdown.PeakIsHighest` | bot/metrics.py:34-38 | The running peak is an upper bound of the values so far and is one of them |
| `Drawdown.WorstOverAllPairs` | bot/metrics.py:31-43 | For equity that is never negative the result is the least (v_j − v_i)/v_i over all i ≤ j with v_i > 0 |
| `Drawdown.PairsOnEveryCurve` | bot/metrics.py:31-43 | On every curve the least pairwise loss is the least of the falls below the peak, taken below the lowest positive value so far wherever equity is negative |
| `Drawdown.PairsExactly` | bot/metrics.py:31-43 | The result is the least pairwise loss if and only if no negative value follows a positive one, or the deepest fall of all ends where all positive values so far are equal |
| `Drawdown.NegativeEquityBreaksPairs` | bot/metrics.py:31-43 | On the curve 1, 2, -2 the result is -2 while the least pairwise loss is -3 |
| `Metrics.ExpectancyIsMean` | bot/metrics.py:108-116 | Average win times win rate plus average loss times the rest is the average result of all trades |
| `Metrics.FactorAgreesWithExpectancy` | bot/metrics.py:100-116 | The profit factor is above one, or infinite, exactly when the expectancy is positive |
| `Statistics.AccountExactly` | bot/metrics.py:100-116 | The win rate counts the gains, and the profit factor times what was lost is what was won: infinite exactly for gains without a loss, zero exactly without a gain |
| `Metrics.ExpectancyIsTheGain` | bot/metrics.py:108-116 | Over a whole backtest, expectancy times the number of booked trades is final equity less starting cash |
| `Risk.RiskManager.OnBar` | bot/risk.py:95-115 | The new state: first anchor, rollover that clears all daily state and the cooldown, then one bar off the cooldown |
| `Risk.RiskManager.Evaluate` | bot/risk.py:117-182 | The verdict of the gates in their order, with at most the anchor set |
| `Risk.RiskManager.OnTradeClosed` | bot/risk.py:184-190 | Basis and daily result take in the trade; a loss starts the cooldown |
| `Risk.SizedRisksTheBudget` | tradexa/risk/position_sizing.py:76-153 | A percentage-sized quantity puts exactly the budget at risk between entry and stop, and at most the configured share of the basis |
| `Risk.DailyLossGate` | bot/risk.py:129-133 | The daily loss gate closes exactly at the anchor times one minus the limit |
| `Risk.ApprovedIsWithinLimits` | bot/risk.py:117-182 | An approval means a positive quantity, no cooldown, a free slot, equity above the daily limit, notional within the cap, and a loss at the stop within the risk share of the basis unless the quantity is fixed |
| `Sizing.ApprovedExactly` | bot/risk.py:117-182 | An entry is approved if and only if the gates are open and sizing has all it asks for, and then for the largest quantity whose loss at the wider of signal stop and range stop stays within the share of the basis that the mode names and within the amount cap, and whose notional stays within the position cap |
| `Risk.CooldownIsHistory` | bot/risk.py:95-115 | Since the last rollover the cooldown is the configured number of bars less the bars since the last losing close, never below zero |
| `Risk.AnchorIsHistory` | bot/risk.py:100-111 | The anchor is the equity of the first bar of the current day, or of a first request made before any bar, constant until the next rollover |
| `Risk.DayAndBasisAreHistory` | bot/risk.py:95-115 | The day's result is the sum of the trades closed since the last rollover, the latest loss is the last losing close since then, and the basis is the configured starting equity, or else that of the first bar, plus every trade closed since |
| `Risk.NoEntryWhileBlocked` | bot/risk.py:117-141 | Over every history, requests before the first bar included, no entry is approved while the cooldown runs or while equity is at or below the daily limit |
| `Paper.PaperBroker.SubmitOrder` | bot/brokers/paper.py:94-99 | Accepted exactly for a positive quantity, and then waiting last |
| `Paper.PaperBroker.OnBar` | bot/brokers/paper.py:178-302 | The fills and the new books: waiting orders of the symbol at the open, then the bracket, then the mark |
| `BrokerFills.BarFillsInOrder` | bot/brokers/paper.py:178-302 | The i-th waiting order of the symbol gives the i-th fill, with its side and quantity, at the bar's open moved against it by the slippage, with the fee on that price; at most one exit follows, which takes the whole position to zero at the level that counts; and every position is then marked at its latest price |
| `BrokerFills.EntryArmsBracket` | bot/brokers/paper.py:194-211 | A fill against the position is an exit, any other an entry; an entry with exit prices arms its own stop and its own target, each in its place, and no other bracket changes |
| `BrokerFills.LevelsCloseExactly` | bot/brokers/paper.py:249-271 | A long position is stopped from below and takes its profit above, a short one the other way round, the configured one first when both are reached, and nothing else closes |
| `BrokerFills.PartIsFilledAtClose` | bot/brokers/paper.py:138-162 | A part is filled at the bar's close, against the position and with slippage and fee, exactly when something remains |
| `BrokerFills.StopMovesInFavour` | bot/brokers/paper.py:113-136 | A stop moves exactly when the new one is positive and nearer to the market, and then nothing but that stop changes |
| `Paper.PaperBroker.PartialClose` | bot/brokers/paper.py:138-162 | A part is closed at the close, refused unless something remains |
| `Paper.PaperBroker.ModifyStop` | bot/brokers/paper.py:113-136 | A stop moves only in favour of the position, and the answer says whether it did |
| `Paper.TotalValue` | bot/brokers/paper.py:359-365 | Equity sums every position once, at its last price or else its average price |
| `Paper.SlippageIsAdverse` | bot/brokers/paper.py:304-305 | Slippage never helps either side |
| `Paper.LevelsAreReached` | bot/brokers/paper.py:249-271 | A stop or target inside the bar's range closes the position, in the configured order when both are; nothing happens strictly between them |
| `Paper.BracketMirrors` | bot/brokers/paper.py:249-271 | Long and short brackets are treated alike: upside down, the same level closes |
| `Paper.AverageLiesBetween` | bot/brokers/paper.py:341-346 | Adding to a position keeps its cost: the new average times the new quantity is what all of it cost, so it lies between the old average and the price paid |
| `Paper.ReducingKeepsAverage` | bot/brokers/paper.py:324-340 | Trading against a position closes it, keeps the average of the rest, or opens the excess at the price of the fill |
| `Paper.BarKeeps` | bot/brokers/paper.py:178-302 | A bar keeps cash and positions equal to what the fills account for, marks equity, and leaves waiting exactly the orders of other symbols |
| `Paper.PartialKeeps` | bot/brokers/paper.py:138-162 | So does a partial close, which never flips or empties the position |
| `Paper.EveryRunIsConsistent` | bot/brokers/paper.py:307-365 | After any sequence of requests: cash is the starting cash less signed notional and fees of all fills, each position is the net of its fills and never empty, and equity is cash plus marked value |
| `Ledger.EveryLedgerIsSound` | bot/backtester.py:318-482 | Against every stream of fills: pending and open never coexist, accepted entry orders are final trades plus open plus pending, and every finished trade is balanced |
| `Ledger.LegIsAccounted` | bot/backtester.py:333-403 | Booking a leg keeps results equal to signed price flow less each fee once, and Σ r·qty·(risk at entry) equal to Σ pnl |
| `Ledger.LastLegBalances` | bot/backtester.py:430-471 | The final leg closes what is left: quantities sum to the plan and entry-fee shares to the entry fee |
| `Ledger.PartKeeps` | bot/backtester.py:343-393 | A partial exit keeps all of that, with its share of the entry fee taken from the open trade |
| `Ledger.StopKeeps` | bot/backtester.py:395-403 | Moving the stop to break-even keeps all of that: R stays measured by the risk at entry |
| `Ledger.ExitKeeps` | bot/backtester.py:430-482 | A final exit keeps all of that |
| `Backtester.Backtester.HandleFill` | bot/backtester.py:420-482 | A fill changes ledger and risk state as specified and nothing else |
| `Backtester.Backtester.ManageOpenTrade` | bot/backtester.py:318-418 | Partial profit, break-even and time exit happen in this order and under these conditions; a trade without entry risk is left alone |
| `Backtester.Backtester.StepBar` | bot/backtester.py:226-294 | One bar through housekeeping, broker, management, strategy and snapshot |
| `Backtester.Backtester.Finish` | bot/backtester.py:301-316 | What is open is closed at the last close and the last equity point restated |
| `Backtester.Backtester.Run` | bot/backtester.py:206-213 | The loop over all bars is the batch function that the statements below are about |
| `TradeStories.EveryTradeHasItsStory` | bot/backtester.py:206-505 | Every trade of every backtest was planned on some bar from the strategy's answer to the bars so far, entered in full at the next open, and reached neither level before its last bar; part of it was closed and its stop moved on the first closes that gained the configured multiple of its risk, long and short alike; and it ended at the level reached, or at the close when the longest holding time or the data ended |
| `Decisions.EngineDecidesExactly` | bot/backtester.py:249-288 | On a bar the engine enters if and only if nothing is pending, open or held, the strategy gives a long or short signal and every gate and bound of sizing lets it through; then for the largest quantity, with the signal's own levels; else nothing changes |
| `EquityCurve.EveryPointIsWorth` | bot/backtester.py:226-316 | Each point of the curve of every backtest is the time of its bar with the starting cash, the results of all trades closed up to it and the open trade at its close; the last is the final equity |
| `Books.GainsFollowSignal` | bot/backtester.py:255-269 | A long signal gains exactly when the exit is above the entry, a short one exactly when it is below |
| `Backtester.AtrIsLocal` | bot/data/indicators.py:21-34 | The average range depends on no bar before the last period and the close before it |
| `Backtester.AtrIsAverageRange` | bot/data/indicators.py:12-34 | Zero up to `period` bars, and from then on the mean of the last `period` true ranges, each the widest of the bar's own range and its reach from the close before |
| `Books.StepKeeps` | bot/backtester.py:226-294 | After each bar the broker holds exactly the open trade, waits for exactly the pending one, and cash is starting cash plus booked results less the cost of what is open |
| `Books.CloseOutKeeps` | bot/backtester.py:484-505 | A forced close keeps the books in step and leaves nothing open |
| `Books.PartCloses` | bot/brokers/paper.py:138-162 | The broker never refuses the partial exit the engine asks for |
| `Books.EveryStepKeeps` | bot/backtester.py:206-294 | So after every bar of every run; the strategy has been shown exactly the bars stepped and the equity curve has one point for each |
| `Books.BooksBalance` | bot/backtester.py:206-316 | At the end of every backtest nothing is open and final equity is cash: the starting cash plus the result of every booked trade, which the last equity point shows |
| `RiskHistory.StepFollows` | bot/backtester.py:226-294 | One bar tells the risk manager of the equity before it and then of each trade it closes in full, and of nothing else |
| `RiskHistory.EveryEntryWasUnblocked` | bot/backtester.py:206-294 | Over every run the risk state is what those bars and closes make of a fresh manager, and every accepted entry order was accepted on a bar on which the cooldown was over and equity above the daily limit |
| `Books.BasisMissesPartials` | bot/backtester.py:358-386 | What the account gained and what the sizing basis gained differ by exactly the booked partial results, which never reach the risk manager |
| `Partials.NoPartsWhenOff` | bot/backtester.py:358-386 | With the partial target at zero no run books a partial trade, and the basis moves by what the account gained |
| `Partials.BasisMissesAPart` | bot/backtester.py:358-386 | For every positive target and every fraction, a run of two bars that ends with basis and account apart |
| `Partials.BasisAgreesExactlyWithoutPartials` | bot/backtester.py:358-386 | Basis and account agree in every run of every configuration with a given target if and only if that target is zero |
| `LiveBot.FinishedLiveIsBatch` | bot/backtester.py:206-232 | Stepping a fresh engine without starting it and then finishing equals the batch run on the same bars |
| `LiveBot.LiveBotRunner.StepOne` | automation-hub/bots/live_runner.py:122-136 | One bar is appended, stepped, synced and shown to the guard |
| `LiveBot.ComputeTodayPnl` | automation-hub/bots/live_runner.py:210-216 | Adding up by day and taking the latest day gives the result of the latest exit day |
| `LiveBot.TodayIsLatestDay` | automation-hub/bots/live_runner.py:210-216 | The result is the sum over the trades closed on the latest day on which any was |
| `LiveBot.LiveBotRunner.Loop` | automation-hub/bots/live_runner.py:117-138 | However the loop ends (feed exhausted, stop flag, guard), the result is the batch backtest on exactly the bars stepped, and it ended at the first bar with a reason to |
| `Merge.PopMin` | bot/multi_backtester.py:154 | The popped entry is less than every other by timestamp, cursor index and symbol |
| `Merge.LessTotal` | bot/multi_backtester.py:145 | That order is total and strict, so two entries are never tied and bars never compared |
| `Merge.OrderVisitsOnce` | bot/multi_backtester.py:153-227 | From any cursors, every remaining bar is visited exactly once and those of one symbol in list order |
| `Merge.OrderIsSorted` | bot/multi_backtester.py:153-227 | For symbols in time order the visits are strictly sorted |
| `Merge.MergeVisitsAllInOrder` | bot/multi_backtester.py:140-227 | Every bar exactly once, each symbol in list order; timestamps never go back if and only if no symbol does; then the order is the only sorted one, whatever the dictionary order |
| `Merge.DictionaryOrderExactly` | bot/multi_backtester.py:13-14 | For feeds in time order: bars of one time are visited in dictionary order if and only if, of two such bars, the one listed first stands earlier in its own list, or as early under the lesser name |
| `Merge.DictionaryOrderFails` | bot/multi_backtester.py:13-14 | Two symbols with one bar each at one time, B listed before A: A is visited first |
| `Portfolio.PopAndPush` | bot/multi_backtester.py:154-227 | A pop and a push keep exactly one head per symbol with bars left on the heap |
| `Portfolio.MultiSymbolBacktester.VisitAll` | bot/multi_backtester.py:153-227 | The heap loop ends and visits the bars in the merge order |
| `Portfolio.MultiSymbolBacktester.HandleFill` | bot/multi_backtester.py:256-296 | A fill changes pending, open, trades and risk state of its symbol only |
| `Portfolio.MultiSymbolBacktester.VisitBar` | bot/multi_backtester.py:153-222 | One visit: clock, history and range of the symbol, broker, decision, equity point |
| `PortfolioRanges.RangeIsOwn` | bot/multi_backtester.py:161-169 | At every visit of every run with range stops the range used is that of the visited symbol's own bars up to this one: zero while there are no more than the period, else the mean of their last true ranges |
| `PortfolioRanges.OtherSymbolsDoNotMatter` | bot/multi_backtester.py:161-169 | Two runs whose feeds agree on a symbol up to some bar measure the same range there, whatever their other feeds and strategies are |
| `Decisions.DeskDecidesExactly` | bot/multi_backtester.py:175-207 | On a visit the engine enters if and only if the symbol itself has nothing pending, open or held, whatever other symbols have, its strategy gives a long or short signal and every gate and bound of sizing lets it through; else nothing changes |
| `Portfolio.MultiSymbolBacktester.ForceCloseAtEnd` | bot/multi_backtester.py:298-316 | Every symbol is closed at its own last close in dictionary order and the last point restated |
| `Portfolio.MultiSymbolBacktester.Run` | bot/multi_backtester.py:134-230 | The whole run is the function that the statements below are about |
| `PortfolioStories.EveryPortfolioTradeHasItsStory` | bot/multi_backtester.py:134-316 | Every trade of every portfolio run has the story of a single-symbol trade on the bars of its own symbol: planned from its own strategy's answer to its own bars so far, entered at its next open, untouched until the first bar that reaches a level and closed there, or else at its own last close |
| `PortfolioCurve.EveryMarkIsWorth` | bot/multi_backtester.py:134-254 | Every visit marks the account with the starting cash, the results of all trades closed by then and every open trade at the latest close shown of its own symbol |
| `PortfolioBooks.EveryDeskIsAccounted` | bot/multi_backtester.py:183-203 | Against every stream of fills: nothing is both pending and open, and accepted entry orders are trades plus open plus pending |
| `PortfolioBooks.FeedKeeps` | bot/multi_backtester.py:173-175 | A bar keeps the engine and the broker in step across all symbols: positions, waiting orders, cash, basis and equity |
| `PortfolioBooks.CloseSymbolKeeps` | bot/multi_backtester.py:298-314 | A forced close takes exactly its own symbol out of both books |
| `PortfolioRuns.VisitKeeps` | bot/multi_backtester.py:153-222 | So does a whole visit, which touches the record of its own symbol and time only |
| `PortfolioRuns.PortfolioBooksBalance` | bot/multi_backtester.py:229-231 | At the end of every run nothing is open, final equity is cash, that is starting cash plus every result, and accepted orders are trades plus those still waiting |
| `PortfolioRuns.BasisFollowsAccount` | bot/multi_backtester.py:294-296 | The sizing basis has moved by exactly what the account gained |
| `PortfolioRuns.PortfolioClock` | bot/multi_backtester.py:156-220 | `on_bar` fires once per equity point; its times strictly increase if and only if every symbol is in time order; then there is one point per distinct time, the equity after the last visit at that time |
| `PortfolioRuns.PlotCollapses` | bot/multi_backtester.py:209-220 | Overwriting the last point collapses marks in time order to the last mark of each time |
| `PortfolioRuns.EndRestatesLastPoint` | bot/multi_backtester.py:314-316 | Closing out restates the last equity point only, as the final equity |
| `PortfolioRuns.PerSymbolTotals` | bot/multi_backtester.py:236-244 | Trade counts and results per symbol add up to those of the portfolio |
| `PortfolioRiskHistory.EveryVisitWasUnblocked` | bot/multi_backtester.py:156-203 | After any visits the shared risk state is what the times and closes told to it make of a fresh manager, and a visit accepts an order only with the cooldown over and equity above the daily limit |
| `EngineAgreement.StepAlike` | bot/multi_backtester.py:153-222 | On one symbol a visit does to orders, trades, broker, risk state and curve what a bar does in the single-symbol engine |
| `EngineAgreement.EnginesAgree` | bot/multi_backtester.py:134-230 | On one symbol with strictly increasing times and no trade management, the portfolio engine and the single-symbol engine book the same trades, draw the same curve and end with the same broker and risk state |
| `LiveOrders.LiveRunner.Reconcile` | bot/live.py:70-87 | The mirror follows the venue, and the answer says whether they agreed |
| `LiveOrders.LiveRunner.VerifyFill` | bot/live.py:180-192 | The total of the order's own fills, 0 when they cannot be read |
| `LiveOrders.LiveRunner.SettleEntry` | bot/live.py:136-178 | Confirm, resolve, protect or stop, in the order of the calls |
| `LiveOrders.LiveRunner.HandleBar` | bot/live.py:94-178 | One bar, with every call to the venue and every answer on the trace |
| `LiveOrders.LiveRunner.RunLoop` | bot/live.py:90-178 | The loop is the function that the statements below are about |
| `LiveEntries.EveryOrderFollowsASignal` | bot/live.py:94-134 | Over every run against every venue, each order submitted is that of a signal the strategy gave on a prefix of the bars shown: its symbol, bought exactly when long, its stop and target, a positive quantity within the position cap of the account read right before, with no position found in between |
| `LiveEntries.BarSendsExactly` | bot/live.py:94-137 | A bar sends an order if and only if account and position can be read, the signal is long or short, neither venue nor runner holds a position, the risk manager allows it and it is no dry run |
| `LiveEntries.OrderIsLargest` | bot/live.py:114-134 | The order of a bar is for the largest quantity that risk share, amount cap and position cap allow on the account just read |
| `LiveEntries.BeliefFollowsVenue` | bot/live.py:70-88 | A signal bar that reads the position and sends nothing leaves the runner in the market exactly when the venue holds a quantity other than zero, long or short |
| `LiveProtection.EveryEntryIsFollowedUp` | bot/live.py:133-173 | Over every run against every venue: right after each entry its fills are asked for; exactly the sum of the entry's own fills is protected, or when there are none the entry is resolved and what the venue then accepts is protected; and nothing else ever is |
| `LiveOrders.EveryRunIsSafe` | bot/live.py:94-178 | Against every venue that can cancel and protect: an entry is submitted only right after the position was read as none with the mirror false and with every earlier returned entry protected or cancelled; what is protected is what filled |
| `LiveOrders.RefusalBetweenEntries` | bot/live.py:70-87 | Between a protected entry and the next one there is a signal bar on which the venue was flat and no entry was submitted |
| `LiveOrders.RunEndsRightly` | bot/live.py:144-171 | Against every venue the loop stops exactly when a call left the venue's state unknown, and no call follows it |
| `LiveOrders.DryRunOnlyReads` | bot/live.py:129-131 | A dry run only reads; and in every run the cooldown stays zero, because no closed trade is ever reported to the risk manager |
| `LiveOrders.SafeExactlyWithBothCalls` | bot/live.py:139-171 | The protocol is safe on all runs of all venues if and only if venues offer both calls |
| `Candles.Normalize` | automation-hub/data/historical.py:86 | All rows made canonical, or the error of the first that is malformed |
| `Candles.Manifest` | automation-hub/data/historical.py:75-105 | The candles of the manifest: each once, strictly in time order, exactly those of the rows; or the error |
| `CandleRules.ManifestExactly` | automation-hub/data/historical.py:61-106 | There is a manifest if and only if each row is a candle whose open and close lie between low and high, on a multiple of its timeframe, and no two rows of one time differ; it lists exactly the candles the rows spell out |
| `Candles.ManifestIsCanonical` | automation-hub/data/historical.py:75-105 | The result depends on the set of rows alone, so reordering and exact duplicates change nothing; it is refused exactly when a row is malformed or two rows of one time differ |
| `Candles.ManifestOfManifest` | automation-hub/data/historical.py:75-105 | The manifest of a manifest's own candles is the same manifest |
| `Candles.MondayWeeksAreRefused` | automation-hub/data/historical.py:61-72 | Weekly candles that open on Monday are always refused, since the 1w grid starts on the epoch's Thursday |
| `Candles.IndexRows` | automation-hub/data/historical.py:117-124 | A conflict is reported exactly when two candles of one time differ, else every time has its row |
| `Candles.Evaluate` | automation-hub/data/historical.py:126-136 | The walk over the grid counts the points without a candle and collects the others in order |
| `Candles.WarmupRows` | automation-hub/data/historical.py:139-140 | Exactly the rows inside the warm-up window, in the order given, repetitions included |
| `Candles.SliceCandles` | automation-hub/data/historical.py:108-146 | Success exactly when the period is whole, the rows are clean and no grid point is missing, else the error with the number missing; evaluation[i] sits at start + i·interval |
| `CandleRules.SliceExactly` | automation-hub/data/historical.py:108-148 | On consistent rows and a period of whole intervals the slice fails for the missing grid points alone and counts them, else it returns the row of each grid point and the number of rows that repeat an earlier time |
| `CandleRules.WarmupExactly` | automation-hub/data/historical.py:138-139 | The warm-up is every row that opens within the given number of intervals before the start, once each and in the order given, and no other |
| `Candles.SliceIsAligned` | automation-hub/data/historical.py:108-146 | On success the start is aligned although it is never checked, and the warm-up lies strictly before it |
| `Integrity.Verify` | automation-hub/data/integrity.py:14-53 | The counters, gaps and verdict of a series |
| `CandleRules.ReportExactly` | automation-hub/data/integrity.py:14-53 | The counters are the numbers of places where a candle repeats the time before it or is broken, and the verdict is bad exactly for any of these or when more than 1.005 per cent of the whole series is missing |
| `CandleRules.ReportListsGaps` | automation-hub/data/integrity.py:32-53 | The report lists, in order and up to the limit, the gaps at exactly the places more than one and a half steps after their neighbour, and adds up what all of them miss |
| `CandleRules.GapExactly` | automation-hub/data/integrity.py:32-41 | Two neighbours more than one and a half steps apart make a gap of the nearest whole number of steps less one, ties to the even number |
| `Integrity.RepeatsAreDuplicates` | automation-hub/data/integrity.py:33-34 | In chronological order the duplicate counter is candles less distinct times |
| `Integrity.FineMeansWhole` | automation-hub/data/integrity.py:42-48 | The verdict is ok exactly without repeats, broken candles and gaps |
| `Integrity.MissingIsGridLessCandles` | automation-hub/data/integrity.py:35-37 | On the grid the missing total is the number of grid points without a candle |
| `Integrity.VerifierAndSlicerAgree` | automation-hub/data/integrity.py:14-53 | On every aligned, strictly increasing, well-formed series candles plus missing equals the grid points, and slicing the whole range succeeds if and only if nothing is missing, otherwise reporting the same number |
| `History.HistoricalStore.Upsert` | automation-hub/data/historical.py:162-183 | All rows are written in order or none: refused for a malformed row, or in strict mode for a row that differs from the cache before the batch |
| `History.HistoricalStore.GetBars` | automation-hub/data/historical.py:185-202 | The cached bars of the range, each once and in time order, then the tail that Python's slice takes |
| `CandleRules.QueryExactly` | automation-hub/data/historical.py:185-202 | A query returns in increasing time the last of the candles cached in the range, both ends included: as many as asked for, all for none or zero, all but the first -n for a negative n |
| `History.HistoricalStore.LastOpenTime` | automation-hub/data/historical.py:220-227 | The newest cached open time of the series, if any |
| `History.StrictNeverChanges` | automation-hub/data/historical.py:162-183 | A strict write that is not refused changes no cached candle |
| `History.StrictWriteTwice` | automation-hub/data/historical.py:174-181 | Writing the same batch again is accepted if and only if the batch does not contradict itself |
| `History.WrittenIsRead` | automation-hub/data/historical.py:162-202 | What is written to an empty cache is read back: the same candles in the same order |
| `CandleRules.ReadIsGiven` | automation-hub/data/historical.py:162-202 | Read back from an empty cache, each candle has the open time, open, high, low, close and volume of its row |
| `CandleRules.OneNotionOfACandle` | automation-hub/data/forward_market_data.py:35-48 | Given the same values the integrity check, the cache, the manifest and the forward filter agree on what a candle is, but for what each asks for besides: a positive low, the grid, being over and no negative volume |
| `Pager.Finalize` | automation-hub/data/historical.py:39-42 | Exactly the closed rows, in order |
| `Pager.Sync` | automation-hub/data/historical.py:262-296 | The loop ends whatever the fetcher answers; the rows collected are written strictly, or the error leaves the cache alone |
| `PagerRules.CollectedAreClosed` | automation-hub/data/historical.py:271-290 | Whatever the venue answers, every row collected was given by it and had no close time or one before the moment it was given |
| `PagerRules.SyncAnswersExactly` | automation-hub/data/historical.py:288-296 | A supported sync is refused exactly when its first call raised or some collected row is no candle or differs from the cached one of its time; a later call that raises undoes nothing |
| `Pager.SyncCollectsBlock` | automation-hub/data/historical.py:271-287 | Whatever calls fail, a gapless block of the venue's candles ending at the newest closed one; with no failure exactly whole pages up to the target or all of the history, but a single page when it holds the forming candle |
| `Pager.SyncKeepsItsPromise` | automation-hub/data/historical.py:262-296 | The target is met as far as closed candles exist if and only if it is not the case that a candle is forming, more than 999 closed ones exist and more than 999 are wanted |
| `Pager.FormingCandleEndsPaging` | automation-hub/data/historical.py:276-287 | A concrete history of 1001 candles on which 999 are collected although 1000 are wanted and closed |
| `Pager.SameAnswersAgain` | automation-hub/data/historical.py:262-296 | After an accepted sync the same answers are accepted again if and only if no two of the rows hold different candles for one time, else refused as a conflict; no cached candle changes |
| `Pager.SecondSyncIsRefused` | automation-hub/data/historical.py:266-267 | A fetcher whose one page holds two good candles of one time: the first sync is accepted, the second refused |
| `Pager.SyncAgainChangesNothing` | automation-hub/data/historical.py:266-267 | From a venue that keeps its candles a second sync that reaches no further back is accepted and leaves the cache as it was |
| `Pager.SyncAgainExtends` | automation-hub/data/historical.py:266-267 | When the venue has closed more candles since, the next sync is accepted and keeps every cached candle |
| `Pager.Update` | automation-hub/data/historical.py:299-313 | One page after the newest cached candle, or a sync of an empty cache |
| `Pager.UpdateContinues` | automation-hub/data/historical.py:306-311 | The rows of an update continue the cached block without a gap |
| `Pager.SyncedSeriesIsWhole` | automation-hub/data/historical.py:262-296 | What a sync of an empty cache writes is read back as a series that passes the check of gaps and repeats and ends at the newest closed candle |
| `ClosedBars.ValidClosedBars` | automation-hub/data/forward_market_data.py:24-51 | Strictly in time order, for each time the last valid candle given, and nothing else |
| `ClosedBars.LastValidIsGiven` | automation-hub/data/forward_market_data.py:35-50 | That candle is one of those given, complete, sane and over, and none after it of the same time is valid |
| `ClosedBars.FilterIsIdempotent` | automation-hub/data/forward_market_data.py:24-51 | Filtering a result again returns it unchanged |
| `ClosedBars.FilterGrows` | automation-hub/data/forward_market_data.py:47-51 | The result at an earlier time is a prefix of the result at a later one: exactly the candles already over |
| `Packet.ExportsAdmitImagesOnly` | ops/github-release.py:49-55 | Allowing image exports admits the four images at the root and nothing else |
| `PacketRules.PermittedExactly` | ops/github-release.py:42-55 | A release may hold a file exactly when its path is relative and has no hidden or climbing part and the file is neither a journal, key or database nor an archive other than the four images at the root |
| `Packet.SealPacket` | ops/github-release.py:162-176 | Sealed exactly when identity, metadata, names, number and size are in order; the manifest lists every file once |
| `PacketRules.SealedExactly` | ops/github-release.py:162-176 | A packet is sealed if and only if commit and source are 40 and 64 lower-case hexadecimal digits, its source manifest lists no journal, and rows within the limits describe exactly its files, of which there is one and none named like the manifest |
| `Packet.CheckRows` | ops/github-release.py:186-197 | Accepted exactly when every row names a permitted file of that size and digest, no file twice, within the total |
| `Packet.VerifyPacket` | ops/github-release.py:179-204 | Accepted exactly when the manifest holds of the files and the packet states the identity |
| `PacketRules.AcceptedExactly` | ops/github-release.py:179-204 | A packet is accepted if and only if its manifest is within 4 MiB and bears the identity asked for, its rows are at most a thousand and 8 GiB and describe each file not named like the manifest once, permitted and with its size and digest, the source manifest lists no journal, and that manifest, or only without one the publication, states the identity |
| `PacketRules.AcceptedIsSealed` | ops/github-release.py:162-204 | Verification accepts exactly the packets that sealing produces: its manifest is what sealing the packet's own inputs writes in some order of the files, and the metadata states the identity |
| `Packet.SealThenVerify` | ops/github-release.py:162-204 | After sealing, verification accepts if and only if no file except ones named like the manifest was added, removed or changed, the manifest is within the metadata limit, and the packet's metadata states the sealed identity |
| `Packet.FreshSealVerifies` | ops/github-release.py:162-204 | Right after sealing only the manifest's size and the stated identity can make verification refuse |
| `Packet.OversizedManifestIsSealed` | ops/github-release.py:162-204 | A packet of 999 empty files under long paths and a publication that states the identity is sealed and, under any codec that writes out its rows, refused for the size of its manifest alone |
| `GitStatus.ParseStatus` | ops/github-release.py:257-266 | The loop is the function that the statements below are about |
| `GitStatus.ParseInvertsPrint` | ops/github-release.py:257-266 | For every list of entries, renames and copies with their origin included, parsing the printed text returns the last-wins map |
| `GitStatus.LastWinsIsLast` | ops/github-release.py:264 | The status of a path is that of the last entry naming it |
| `GitStatus.MissingOriginLosesNext` | ops/github-release.py:265 | A rename without its origin row swallows the entry after it |
| `GitStatus.MalformedIsRefused` | ops/github-release.py:260-263 | A row too short or without the blank, where a status row is due, refuses the whole payload, whatever was read before it and whatever follows |

## Left out

- Paper.PaperBroker.OnBar: does not model limit orders, trailing stops or order cancellation; the engines submit market orders only and trailing is off by default.
- Risk.SizedRisksTheBudget: covers an instrument without quantity step, minimum, maximum, margin or multiplier, which is what the risk manager asks for; decimal rounding to a step is not modelled.
- Backtester.Backtester.StepBar: does not model events, the reason texts of signals and blocks, or the metrics dictionary.
- LiveBot.LiveBotRunner.Loop: the path on which a step raises is left out, and of the runtime record only trades, curve, daily result and state are kept; confidence, health and regime fields are presentation.
- Portfolio.MultiSymbolBacktester.VisitBar: a symbol with bars but without a strategy gives no signal here, where the original raises; the constructor's check that every strategy has bars is left out.
- WalkForward.RunWalkForward: a date is the number of its UTC day, and the parameter grid may be any non-empty list.
- Candles.Manifest: the digest and the descriptive fields of the manifest are left out; they are functions of the candles returned. Timestamps finer than a millisecond are not modelled, nor are start and end without a timezone.
- Candles.SliceCandles: of the coverage report only the number of repeated rows is kept.
- Integrity.Verify: the percentage is rounded exactly instead of in floating point.
- History.HistoricalStore.Upsert: the database is a map; transactions, connections and table definitions are left out.
- Pager.Sync: the progress callback, the pause between pages and the coverage summary are left out, and a page that raises is told apart only from one that answers.
- Packet.SealPacket: the file map has neither directories nor symbolic links, names are lists of path parts, and the order of the listing is arbitrary instead of sorted.
- Packet.OversizedManifestIsSealed: of the text of a manifest it is supposed only that each row takes its path and at least 132 characters more, as the indented form with a one-digit size and a digest of 64 characters does.
- Packet.VerifyPacket: which names a packet may hold is a parameter, so the statements hold for every such rule; `Packet.Permitted` is the rule of the releases.
- LiveOrders.LiveRunner.HandleBar: the client id, the waiting time and exceptions raised by the strategy are left out; recovery before the loop is outside the trace.
- Sharpe, Sortino and CAGR: square roots and real powers.
- Floating-point rounding, NaN and infinities: values are exact reals, and a value that is not finite is absent.
- The web application, HTTP endpoints, authentication, the database backends, notifications, charts and exports: plumbing and presentation.
- Strategies and the circuit-breaker rules: arbitrary functions here.
