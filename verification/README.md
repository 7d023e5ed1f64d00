# Backtest and signal evaluation, modelled in Dafny

This project models the three passes of `tools.py` over one daily history of a single asset. A position is 1 when the asset is held and 0 when flat.

- **`back_test`** (module `BackTest`, `backtest.dfy`) builds the strategy's equity curve from prices, positions and a transaction-cost rate.
  - Day 0 pays the cost of the opening position.
  - Each later day compounds the price return scaled by the position carried in from the day before, the variable `w`.
  - It also pays the cost of any change of position made that day.
  - The method `BackTestRun` keeps the source's loop and is proved equal to the recurrence `Value` / `Curve`. The lemmas pin down the one-day lag of `w`, the flat curve of a never-invested history and positivity.
- **`position2signal`** (module `Signals`, `signals.dfy`) turns positions into entry (+1), exit (-1) and no-change (0) events.
  - `PositionToSignal` keeps the source's preallocated array filled by index.
  - The lemmas show that the signals are the first differences of 0/1 positions. The decoder `PrefixSums` (running sums) does not exist in the source: it is the inverse that the round-trip lemmas `DecodeEncode` and `EncodeDecode` relate the extractor to, in both directions.
  - For 0/1 positions the nonzero signals alternate, starting with an entry. So an exit always follows an entry, and a single entry-price slot is enough.
- **The main loop of `evaluate_signal`** and its exact aggregates (module `Evaluate`, `evaluate.dfy`).
  - The accumulators are:
    - the MAE and MFE of each entry, with their ±0.1% floors;
    - the holding counters, with the in-place bump of the last counter;
    - the entry count;
    - the single-slot entry price;
    - the profit and loss buckets;
    - the daily drawdown from the running maximum of the equity.
  - Each accumulator has a recursive specification function of the number of days processed. The loop of `EvaluateSignal` keeps all of them as invariants. The loop body is split into four step methods, one for each block of the source's loop body, in the source's order.
  - The aggregates `winning_rate`, `hold_pct` and `max_drawdown` are pinned to their defining expressions over the accumulators, and their ranges are proved.

Prices and equity are exact `real`s, and positions are integers. The source's price table becomes a sequence of `Bar(low, high, close)` with a default integer index.

## Model

| member | source | states |
|---|---|---|
| BackTest.BackTestRun | tools.py:5-18 | the source's loop returns a curve as long as the prices whose day `i` is `Value(i)`: day 0 is `p[0]*(1 - pos[0]*cost)` and each later day multiplies the previous value by `1 + (p[i]/p[i-1]-1)*pos[i-1]` and `1 - abs(pos[i]-pos[i-1])*cost` |
| BackTest.Value | tools.py:11-15 | the recurrence the loop is proved equal to: day 0 is `p[0]*(1 - pos[0]*cost)`, day `i` is day `i-1` times `1 + daily_return` with yesterday's position and `1 - daily_cost`; its properties are the lemmas below |
| BackTest.Curve | tools.py:5-18 | the whole equity curve, `Value` of every day, as long as the prices |
| BackTest.FlatWhenNeverInvested | tools.py:5-18 | with all positions 0, every equity value equals the first price |
| BackTest.FrictionlessStep | tools.py:11-16 | with cost 0, day 0 is the first price and day `i` is exactly day `i-1` times `1 + (p[i]/p[i-1]-1)*pos[i-1]` |
| BackTest.EarnsOnlyYesterdaysPosition | tools.py:13-16 | with cost 0, two position series that agree on days before `i` give the same equity on day `i`: today's position earns nothing today, because `w` is overwritten after the append |
| BackTest.ValuePositive | tools.py:11-15 | positive prices, 0/1 positions and `0 <= cost < 1` keep every equity value positive |
| BackTest.FiveDayScenario | tools.py:5-18 | a concrete five-day curve: the rise of the day the position is taken earns nothing, and the fall after it is closed is avoided |
| Signals.SignalAt | tools.py:26-37 | the day's signal is in {-1,0,1}; it is 1 exactly on day 0 with position 1 or when the position rose by 1, and -1 exactly when it fell by 1 |
| Signals.Signals | tools.py:22-38 | the whole signal series, `SignalAt` of every day, as long as the positions |
| Signals.PositionToSignal | tools.py:22-38 | the array-filling loop returns a series as long as the positions whose every element is `SignalAt` of that day |
| Signals.SignalIsDifference | tools.py:26-37 | on 0/1 positions, `signal[0] == position[0]` and `signal[i] == position[i] - position[i-1]` |
| Signals.SumIsEntriesMinusExits | tools.py:32-37 | the sum of the first `n` signals is the number of entries minus the number of exits among them |
| Signals.PrefixSumRoundTrip | tools.py:22-38 | on 0/1 positions, the sum of the signals up to day `i` is the position of day `i` |
| Signals.OpenTradeCount | tools.py:32-37 | after `n` days, entries minus exits is the position of day `n-1`, so at most one trade is open |
| Signals.ExitsNeverExceedEntries | tools.py:32-37 | on 0/1 positions, exits never outnumber entries, and entries exceed exits by at most one |
| Signals.SignalsAlternate | tools.py:32-37 | an entry comes only when no trade is open, and an exit only when exactly one is |
| Signals.ExitFollowsEntry | tools.py:74-78 | before every exit day there is at least one entry, so the entry price read at line 78 was set at line 75 |
| Signals.DecodeAt | tools.py:22-38 | the decoded signals agree with the 0/1 positions at every day |
| Signals.DecodeEncode | tools.py:22-38 | decoding the signals of a 0/1 series gives the series back |
| Signals.EncodeDecode | tools.py:22-38 | encoding the running sums of a signal series gives the signals back whenever those sums are 0/1 |
| Signals.WorkedExample | tools.py:22-38 | positions `[1,1,0,0,1,0]` give signals `[1,0,-1,0,1,-1]` |
| Evaluate.Min2 | tools.py:61 | Python's two-element `min`: the result is one of the two and at most both |
| Evaluate.Max2 | tools.py:62 | Python's two-element `max`: the result is one of the two and at least both |
| BackTest.Abs | tools.py:14 | `abs` is non-negative and is the value or its negation (also used for `abs(Adverse_move)` at tools.py:64) |
| Evaluate.LowestLow | tools.py:61 | `temp.low.min()` is a low of the window and no low of the window is below it |
| Evaluate.HighestHigh | tools.py:62 | `temp.high.max()` is a high of the window and no high of the window is above it |
| Evaluate.MaxOf | tools.py:85 | `max(strategy_value[:i+1])` is an element of the prefix and no element of it is larger |
| Evaluate.Window | tools.py:59 | the window after day `i` holds exactly `period` bars |
| Evaluate.AdverseMove | tools.py:61 | `Adverse_move`, the lower of the window's lowest-low return and -0.001, is at most -0.001; `AdverseExcursion` characterises its magnitude |
| Evaluate.FavorMove | tools.py:62 | `Favor_move`, the higher of the window's highest-high return and 0.001, is at least 0.001; `FavorableExcursion` characterises it |
| Evaluate.MaeList | tools.py:56-64 | the MAE list after `n` days: one `abs(Adverse_move)` per entry day with a full window after it, so at most `n` values |
| Evaluate.MfeList | tools.py:56-65 | the MFE list after `n` days: one `Favor_move` per entry day with a full window after it, so at most `n` values |
| Evaluate.AdverseExcursion | tools.py:56-64 | the recorded MAE is at least 0.001, at least the fall `1 - low/close` of every bar of the window, and equal to the floor or to one bar's fall |
| Evaluate.FavorableExcursion | tools.py:56-65 | the recorded MFE is at least 0.001, at least the rise `high/close - 1` of every bar of the window, and equal to the floor or to one bar's rise |
| Evaluate.ExcursionsRecorded | tools.py:54-65 | the MAE and MFE lists are always equally long, never longer than the number of entries, and every value in them is at least 0.001 |
| Evaluate.HoldList | tools.py:68-71 | the holding list has one counter per entry; the bump of the last counter always finds one |
| Evaluate.HeldDays | tools.py:68-71 | the number of days `1..n-1` whose previous day was held is below `n` |
| Evaluate.HoldingTotals | tools.py:68-71 | the counters number the entries and sum to the days `i` in `1..n-1` with `position[i-1] == 1`, the day a run is closed included |
| Evaluate.EntryPrice | tools.py:74-76 | the entry-price slot is set exactly when some entry has occurred, and then holds the close of the most recent entry |
| Evaluate.EntryPricePositive | tools.py:75 | with positive closes the stored entry price is positive |
| Evaluate.ReturnSign | tools.py:78-79 | a trade's return is non-negative exactly when the exit close is at least the entry close |
| Evaluate.Gain | tools.py:77-82 | on an exit day the entry price is set, and the gain is non-negative exactly when the exit close is at least the entry close |
| Evaluate.Profits | tools.py:77-80 | the profits bucket after `n` days: the non-negative gains of the exits, in order, no more values than exits |
| Evaluate.Losses | tools.py:77-82 | the losses bucket after `n` days: the negated negative gains of the exits, in order, no more values than exits |
| Evaluate.TradesPartitioned | tools.py:77-82 | each exit lands in exactly one bucket: profits hold non-negative gains, losses positive magnitudes, and together they number the exits, which never exceed the entries |
| Evaluate.DrawdownRange | tools.py:86 | for `0 < value <= max`, `1 - value/max` is in [0,1) and is 0 exactly when the value is the maximum |
| Evaluate.Drawdown | tools.py:85-86 | with positive equity each day's drawdown is in [0,1), and it is 0 exactly when the day's equity is its running maximum |
| Evaluate.Drawdowns | tools.py:85-86 | the drawdown list after `n` days holds exactly one drawdown per day, each in [0,1) |
| Evaluate.BookkeepingConsistent | tools.py:54-86 | the accumulators after the whole pass satisfy every counting invariant: one counter per entry, total held days below the history length, buckets and excursion lists bounded by the entries, value floors, one drawdown per day in [0,1) |
| Evaluate.WinningRate | tools.py:99 | `len(profits)/signal_amount` is in [0,1] for a consistent tally |
| Evaluate.HoldPct | tools.py:96 | `sum(hold_days)/test_trading_days` is in [0,1) for a consistent tally |
| Evaluate.MaxDrawdown | tools.py:101 | `max(drowndown)` is one of the daily drawdowns and no drawdown exceeds it; it is in [0,1) for a consistent tally |
| Evaluate.OneWinningTrade | tools.py:74-82 | one entry at close 10 and one exit at 11 give profits `[0.1]`, no losses, one entry, holding counters `[1]` and a winning rate of 1 |
| Evaluate.RecordExcursions | tools.py:56-65 | one day of the MAE/MFE block takes both lists from their value after `i` days to their value after `i+1` days |
| Evaluate.RecordHolding | tools.py:68-71 | one day of the holding block takes the counters from their value after `i` days to their value after `i+1` days |
| Evaluate.RecordTrade | tools.py:74-82 | one day of the entry/exit block takes the entry price, the entry count and both buckets from their values after `i` days to their values after `i+1` days |
| Evaluate.RecordDrawdown | tools.py:85-86 | one day of the drawdown block appends that day's drawdown |
| Evaluate.EvaluateSignal | tools.py:42-101 | the pass yields exactly the specified accumulators, which are consistent; the report holds the day count, the entry count, `winning_rate == len(profits)/signal_amount` in [0,1], `hold_pct == sum(hold_days)/N` in [0,1) where `sum(hold_days)` is the number of days after a held day, and `max_drawdown` in [0,1), one of the daily drawdowns and at least every one of them |

## Left out

- The averages and statistics (`np.mean`, `np.std`, `np.sqrt`, the fractional power; `MAE_avg`, `MFE_avg`, `E_ratio`, `hold_days_avg`, `profit_over_loss`, `annual_return`, `sharpe`, tools.py:90-105) are not modelled. They are floating-point statistics and irrational operations that cannot be stated exactly over reals.
- The DataFrame report and its column names (tools.py:108-115) are not modelled. They are presentation only. `Report` holds the five fields the model states exactly: day count, entry count, `hold_pct`, `winning_rate` and `max_drawdown`.
- NaN results of `np.mean` on empty lists are not modelled, because the means are not modelled.
- IEEE float rounding is not modelled: prices, equity and gains are exact reals.
- EvaluateSignal: the `ZeroDivisionError` of line 99 when no entry occurs is a precondition (at least one entry), not an error result.
- EvaluateSignal: the caller's `signal` argument is dropped, because line 44 overwrites it with the signals recomputed from the positions.
- The pandas index mix (`.iloc[i]` at line 58 against the label lookup `close[i]` at line 75) is not modelled. The table is a sequence with a default integer index, where both lookups agree.
- EvaluateSignal: the price table, equity and positions must be equally long. The day loop (tools.py:54-86) reads only the first `len(asset_value)` entries of the other two; the statistics at tools.py:104-105, which are not modelled, read the whole equity array.
- EvaluateSignal: `period >= 1` is required. A zero period (or -1) gives an empty window at tools.py:59, where `temp.low.min()` is NaN. A more negative period makes `iloc` count its stop from the end of the table, so the window wraps. The model captures neither.
- EvaluateSignal: closes and equity must be positive. The source divides by the entry close and by the running maximum of the equity.
- EvaluateSignal: positions must be 0/1, as the source's comment at line 41 demands. With other values an exit can come before any entry, and line 78 then reads an unset `cost` (an `UnboundLocalError` in Python). The holding block can likewise bump a counter that does not exist.
- BackTest.BackTestRun: positions are reals and the price divisors must be nonzero. A zero price divisor is not captured: Python floats raise `ZeroDivisionError`, NumPy or pandas series give inf or NaN.
- BackTest.BackTestRun: requires at least one price and a position list exactly as long as the prices. The source raises `IndexError` at tools.py:7 on an empty price series, and it accepts a longer position list and reads only its first `len(asset_value)` entries. The model captures neither the error nor the longer list.
- The day loop's four blocks are step methods that return the updated accumulators, not statements inline in the loop body. The single loop, the order of the blocks and every branch are kept.
