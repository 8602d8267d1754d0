# Stock price simulation: engine and host bookkeeping

A Dafny model of a browser stock-price simulator. It has two sides:

- **The engine** (`public/worker.js`) runs in a popup window. On START_SIMULATION it resolves its parameters, with per-symbol fallbacks. It then steps a geometric-Brownian-motion price once per tick for 100 ticks, floors the price at 1 and tracks the running high and low. Each tick it posts STOCK_UPDATE, HIGH_LOW_UPDATE and PROGRESS_UPDATE. On STOP_SIMULATION or at the 100th step it posts STATUS and SIMULATION_ENDED, then closes.
- **The host page** (`src/App.jsx`, `src/components/StockChart.jsx`) opens one popup per symbol and places it on a three-column grid. Its message reducer records price points per symbol, and it forgets popups that have ended or been closed. Its chart merges incoming series without repeating a timestamp already in its series, and draws only the valid points. Points of one incoming batch are not compared with each other.

Modules:

- `JsValues` (`js_values.dfy`): JavaScript conventions: `Option` for NaN, undefined and null; truncating `%`; integer printing; ASCII `toUpperCase`.
- `Engine` (`engine.dfy`): the engine.
  - Parameter resolution, the step, the extrema, progress and ETA, and `formatTime`.
  - The class `Simulation`. Its fields are the module-scope variables and closure variables of the source, plus the sequence of posted events.
  - `Tick(shock, time, elapsed)` is one firing of the interval:
    - `shock` stands for `sqrt(dt)·Z` and may be any real;
    - `time` is the ISO timestamp;
    - `elapsed` is `Date.now() - startTime`.
  - The ghost fields `prices` and `runStart` record every price of the current run and where its events begin. The class invariant states the floor, the extrema and the STOCK_UPDATE count in terms of these fields.
- `Points` (`points.dfy`): the `{time, price}` point and the validity test shared by the reducer and the chart. Date parsing is a parameter `parses`.
- `Chart` (`chart.dfy`): the dedup merge, and the state update that loops over the incoming stocks. Also the `validData` filter.
- `Host` (`host.dfy`): the `createWorkerWindow` decisions, `handleMessage`, the closed-popup sweep with its loop, `stopSimulation` and `handleAddStock`. `window.open` and `parseFloat` are parameters.

Behaviour of the code that the model keeps:

- The initial price is not floored (public/worker.js:23, 38). A parsed initial price below 1, or a negative one, is kept until the first step. Only the stepped prices are at least 1. With an initial price below 1, `low` stays at that price for the whole run.
- A missing symbol and an empty symbol both resolve to AAPL, because of `symbol || 'AAPL'` (public/worker.js:15).
- The STATUS payload is a bare string (public/worker.js:131, 138).
- Stopping closes the engine's context (public/worker.js:141). After that the engine ignores every command and every tick. A second stop posts nothing.
- The flag test at the top of the tick (public/worker.js:54-57) never fires. The flag is set only by `stopSimulation`, which clears the interval at the same moment (public/worker.js:135-136), so `Tick` tests only whether the interval is active.

## Model

| member | source | states |
|---|---|---|
| JsValues.JsRem | public/worker.js:170 | JavaScript `%` with a positive divisor: the result lies in [0, b) for a non-negative dividend and in (-b, 0] for a negative one |
| JsValues.Digits | public/worker.js:171 | an integer is printed as at least one decimal digit; a single digit exactly when it is below 10; a leading zero only for 0 itself |
| JsValues.DigitsRoundTrip | public/worker.js:171 | reading the printed digits back gives the number |
| JsValues.Decimal | public/worker.js:171 | a template literal prints a minus sign only for a negative integer, then the digits of its magnitude |
| JsValues.UpperChar | src/App.jsx:48 | a lower-case ASCII letter becomes its upper-case letter (code point minus 32); every other character is kept; the result is never a lower-case ASCII letter |
| JsValues.UpperCase | src/App.jsx:48 | same length; every character is upper-cased one by one; lower-case ASCII letters are mapped and nothing else changes |
| Engine.ResolveSymbol | public/worker.js:14-15 | a missing or empty symbol becomes AAPL; any other symbol is kept; the result is never empty |
| Engine.InitialPriceFor | public/worker.js:145-154 | the table price for AAPL, GOOGL, MSFT, AMZN and TSLA; 100 exactly when the symbol is not in the table; always positive |
| Engine.VolatilityFor | public/worker.js:156-165 | the table volatility for the five symbols; 5 exactly when the symbol is not in the table; always positive |
| Engine.ResolveParams | public/worker.js:18-26 | each parseable value is used unchanged; an unparseable one falls back to the symbol's price, 0 for the return, or the symbol's volatility; resolution never fails |
| Engine.DefaultsBySymbol | public/worker.js:22-26 | the fallbacks for each table symbol and for an unknown symbol, and AAPL for a missing or empty symbol |
| Engine.Increment | public/worker.js:70 | the price change is the drift price·μ/100·(1/252) plus the diffusion price·σ/100·shock; with no volatility or no shock it is the drift alone |
| Engine.Step | public/worker.js:70-74 | for every price, parameter set and shock the stepped price is at least 1; the floor applies only when the GBM result is below 1 |
| Engine.SeqMax | public/worker.js:47-48 | an upper bound of every price of the run |
| Engine.SeqMin | public/worker.js:47-48 | a lower bound of every price of the run |
| Engine.SeqMaxAttained | public/worker.js:77 | the maximum is one of the prices |
| Engine.SeqMinAttained | public/worker.js:78 | the minimum is one of the prices |
| Engine.SeqMaxSnoc | public/worker.js:77 | `if (price > highPrice) highPrice = price` yields the maximum of the longer price sequence |
| Engine.SeqMinSnoc | public/worker.js:78 | `if (price < lowPrice) lowPrice = price` yields the minimum of the longer price sequence |
| Engine.ProgressPercent | public/worker.js:119 | `(progress / 100) * 100` is the step count itself, as a percentage; within [0, 100] for at most 100 steps; exactly 100 iff this is the 100th step; positive once a step has run |
| Engine.Remaining | public/worker.js:112-114 | the linear ETA equals elapsed × (100 − progress) / progress; it is non-negative for non-negative elapsed time and 0 on the final step |
| Engine.SplitTime | public/worker.js:167-170 | for a non-negative duration the seconds lie in [0, 59] and minutes × 60 + seconds = ⌊ms / 1000⌋ |
| Engine.NegativeDurationSplit | public/worker.js:167-170 | with a floored minute count and a truncated `%`, −1500 ms splits into −1 minutes and −2 seconds, which do not add up to the whole seconds |
| Engine.FormatTime | public/worker.js:167-171 | for a non-negative duration the text is the minute digits, "m ", the second digits and "s" |
| Engine.FormatTimeReadBack | public/worker.js:167-171 | for a non-negative duration the text parses back into a run of decimal digits for the minutes, with no leading zero, and one or two decimal digits of seconds below 60; read as numbers these give ⌊ms / 1000⌋ |
| Engine.RunningMessage | public/worker.js:131 | the start STATUS text is "Simulating ", the symbol and "..."; the symbol can be read back from it |
| Engine.StoppedMessage | public/worker.js:138 | the stop STATUS text is "Simulation of ", the symbol and " stopped."; the symbol can be read back from it |
| Engine.StopEvents | public/worker.js:138-140 | stopping posts two events: STATUS with the stop text for the symbol, then SIMULATION_ENDED for the symbol |
| Engine.TickEvents | public/worker.js:94-122 | a step posts three events in order: STOCK_UPDATE with symbol, time and price; HIGH_LOW_UPDATE with high, low and current price; PROGRESS_UPDATE with the percent and the formatted ETA |
| Engine.UpdateCountConcat | public/worker.js:95-98 | STOCK_UPDATE counts add up over concatenated event streams |
| Engine.TickEventCount | public/worker.js:95-98 | a step posts exactly one STOCK_UPDATE |
| Engine.StopEventCount | public/worker.js:138-140 | stopping posts no STOCK_UPDATE |
| Engine.CountAfterPosting | public/worker.js:95-98 | posting adds the posted STOCK_UPDATEs to the current run's count |
| Engine.StepKeepsHistory | public/worker.js:59-78 | a floored step keeps the price history: one more step and price, the price at least 1, and the high and low still the maximum and minimum of all prices including the initial one |
| Engine.StepPostingRestoresInvariant | public/worker.js:94-98 | posting the step's STOCK_UPDATE brings the run's count back to its step count |
| Engine.StartEstablishesInvariant | public/worker.js:38-48 | a fresh run starts with one price, the initial one, which is both the high and the low, and no STOCK_UPDATE |
| Engine.QuietPostingKeepsInvariant | public/worker.js:138-140 | posting STATUS and SIMULATION_ENDED keeps the invariant and the run's STOCK_UPDATE count |
| Engine.RunBounds | public/worker.js:59-78 | at every point of a run: at most 100 STOCK_UPDATEs; low ≤ price ≤ high; low ≤ initial price ≤ high; both extremes are prices that occurred; the price is at least 1 once a step has run |
| Engine.Simulation.constructor | public/worker.js:3-7 | symbol AAPL, progress 0, no interval, not stopped, nothing posted |
| Engine.Simulation.Receive | public/worker.js:9-35 | once the context is closed, and for any unrecognised message, nothing changes. Otherwise STOP has exactly Stop's effect: the flag set, the interval cleared, STATUS then SIMULATION_ENDED appended, the run's values kept. START has exactly Start's effect: the resolved symbol and parameters, the reset run, the interval active and one STATUS appended |
| Engine.Simulation.Start | public/worker.js:13-30 | ignored once stopped; otherwise sets the resolved symbol and parameters, price = high = low = initial price, progress 0, the flag cleared and the interval active; appends exactly one STATUS; the new run has no STOCK_UPDATE yet |
| Engine.Simulation.Begin | public/worker.js:37-53 | the reset part of START, with the same new state and invariant |
| Engine.Simulation.Tick | public/worker.js:53-128 | with no active interval nothing changes. Otherwise progress goes up by exactly 1 and the price is `Step` of the old price. The high and low are updated with the new price and the price joins the run's prices. STOCK_UPDATE, HIGH_LOW_UPDATE and PROGRESS_UPDATE are appended, then STATUS and SIMULATION_ENDED exactly when the step is the 100th, which also stops the run. The run's STOCK_UPDATE count goes up by one. Afterwards 1 ≤ price and low ≤ price ≤ high. The invariant (at most 100 steps) is kept |
| Engine.Simulation.Advance | public/worker.js:59-122 | one executed step: the state change followed by its three events |
| Engine.Simulation.Move | public/worker.js:59-78 | the counter, the floored GBM price, the running extrema and the price history after one step |
| Engine.Simulation.Publish | public/worker.js:94-122 | appends exactly TickEvents and restores the invariant |
| Engine.Simulation.Stop | public/worker.js:134-142 | a second stop changes nothing. A first stop sets the flag, clears the interval and appends STATUS then SIMULATION_ENDED, leaving the run's values and its STOCK_UPDATE count as they were |
| Engine.Simulation.Terminate | public/worker.js:134-142 | the body of stopSimulation: the flag is set, the interval cleared, STATUS and SIMULATION_ENDED are appended and the invariant is kept |
| Points.TimeValid | src/App.jsx:144 | a valid time is present and parseable as a date; a missing or empty time is never valid, even when it parses |
| Points.ValidPoint | src/components/StockChart.jsx:54-56 | a valid point has a present, parseable time and a price; a missing or empty time or a missing or NaN price makes it invalid |
| Points.SeriesOf | src/App.jsx:151 | `prev[s] \|\| []`: the recorded series of a symbol, or the empty series when the symbol has none |
| Chart.HasTime | src/components/StockChart.jsx:19 | holds exactly when some point of the series has the given time |
| Chart.Fresh | src/components/StockChart.jsx:17-19 | keeps only incoming points whose time is absent from the existing series, and never more points than came in |
| Chart.MergeSeries | src/components/StockChart.jsx:18-19 | the existing series is a prefix of the merged one, which is longer by at most the incoming count |
| Chart.FreshMembership | src/components/StockChart.jsx:19 | a point is appended iff it is incoming and its time is not in the existing series |
| Chart.FreshConcat | src/components/StockChart.jsx:19 | the filter goes point by point in incoming order: fresh points of a concatenation are the fresh points of each part, in turn |
| Chart.FreshSingle | src/components/StockChart.jsx:19 | one incoming point is appended exactly when its time is new |
| Chart.BatchDuplicatesKept | src/components/StockChart.jsx:19 | two incoming points with the same new time are both appended, because the batch is not compared with itself |
| Chart.FreshOfPresent | src/components/StockChart.jsx:19 | nothing is appended when every incoming time is already present |
| Chart.MergeCoversIncoming | src/components/StockChart.jsx:19 | after a merge every incoming time is present |
| Chart.MergeSeriesIdempotent | src/components/StockChart.jsx:17-19 | merging the same incoming series again changes nothing |
| Chart.MergedChart | src/components/StockChart.jsx:14-23 | the merged chart has exactly the previous stocks plus the incoming ones |
| Chart.MergedChartPerStock | src/components/StockChart.jsx:15-21 | per stock: the previous series (empty when absent) is a prefix and the fresh points follow it; a stock with no incoming data keeps its series, or stays absent |
| Chart.MergedChartIdempotent | src/components/StockChart.jsx:13-23 | merging the same data twice equals merging it once |
| Chart.PartialMergeStep | src/components/StockChart.jsx:16-20 | merging one more stock, reading its series from the partly updated copy, is the merge of one more stock |
| Chart.MergeChartData | src/components/StockChart.jsx:14-23 | the loop over the incoming stocks produces exactly MergedChart |
| Chart.ValidData | src/components/StockChart.jsx:53-57 | returns only drawable points, never more than it was given |
| Chart.ValidDataMembership | src/components/StockChart.jsx:53-57 | a point is kept iff it is in the data and has a truthy, parseable time and a non-null, non-NaN price |
| Chart.ValidDataConcat | src/components/StockChart.jsx:53-57 | the filter keeps order: it distributes over concatenation |
| Chart.ValidDataOfValid | src/components/StockChart.jsx:53-57 | data whose every point is valid is kept in full |
| Host.FieldValue | src/App.jsx:91-93 | blank exactly when the symbol has no custom parameters; otherwise the stored value of that field, NaN included |
| Host.QueryFor | src/App.jsx:86-94 | id and stock as given; a symbol without custom parameters sends three blanks; one with custom parameters sends its three stored values, NaN included |
| Host.PopupPosition | src/App.jsx:96-102 | column n mod 3 at 560 per column, row n div 3 at 680 per row, added to the host window's own screen position (`screenLeft`, `screenTop`); never more than two columns to the right |
| Host.PopupPositionInjective | src/App.jsx:101-102 | different numbers of running popups give different positions |
| Host.CreateWorkerWindow | src/App.jsx:77-123 | refused iff the symbol is already running, and then nothing changes. Otherwise the query and the position are built. With the pop-up blocked nothing is recorded. When it opens, the popup is recorded under the symbol, renamed to the worker id, and every other entry is kept |
| Host.LaunchKeepsRunning | src/App.jsx:117-119 | a successful launch adds exactly one entry |
| Host.HandleMessage | src/App.jsx:126-153 | SIMULATION_ENDED deletes exactly that symbol's popup. A valid STOCK_UPDATE appends `{time, price}` to the end of its symbol's series, creating the series when absent, and leaves the popups and every other series unchanged. An invalid update changes nothing, and neither does one without `stockUpdate` or any other message |
| Host.EndedRemovesOnlyItsEntry | src/App.jsx:131-137 | after SIMULATION_ENDED the symbol is gone, every other popup is kept, no popup is added and the series are untouched |
| Host.HandleMessageKeepsSeriesValid | src/App.jsx:140-152 | if every recorded point is valid before a message, it still is after |
| Host.OpenOnly | src/App.jsx:162-172 | exactly the entries whose popup is not closed, with their values |
| Host.SweepClosed | src/App.jsx:160-173 | the loop deletes precisely the closed entries; `hasChanges` iff some entry was closed; with none closed it returns the identical previous map |
| Host.WindowClosed | src/App.jsx:167 | a popup that closes from outside shows `closed` in its entry; the key set and every other entry are unchanged |
| Host.ClosedWindowForgotten | src/App.jsx:162-172 | after a popup closes from outside, the next sweep removes exactly that entry, and stopping that symbol no longer posts STOP |
| Host.OpenOnlyIdempotent | src/App.jsx:162-172 | a second sweep changes nothing |
| Host.StopSimulation | src/App.jsx:62-75 | STOP is posted iff the symbol has a recorded popup that is not closed. Only then is that entry removed; otherwise the map is unchanged |
| Host.StopKeepsOthers | src/App.jsx:68-72 | every other symbol keeps its entry |
| Host.AddStock | src/App.jsx:45-59 | the upper-cased symbol is appended to the list. The three parsed values are stored under it, every other custom entry is kept, the form is cleared and the sheet closed |
| Host.AddStockAllowsDuplicates | src/App.jsx:49 | adding an already listed symbol lists it one more time |
| Host.AddedStockQuery | src/App.jsx:86-94 | the next launch of an added stock sends the values parsed from the form |
| Host.AsReceived | public/worker.js:95-98 | the engine's STOCK_UPDATE arrives with no `stockUpdate` field. SIMULATION_ENDED arrives with its symbol |
| Host.WorkerUpdatesNeverRecorded | src/App.jsx:140-147 | as written, no engine STOCK_UPDATE changes the host's state |
| Host.AsIntended | src/App.jsx:141-142 | the payload the reducer expects carries the engine's time and price under `stockUpdate` |
| Host.IntendedUpdatesRecorded | src/App.jsx:140-152 | with that payload every engine STOCK_UPDATE with a parseable time is appended to its symbol's series |

## Left out

- Box–Muller and `Math.random` (public/worker.js:64-67) are left out because they are floating-point transcendental numerics. The tick takes the product `sqrt(dt)·Z` as an arbitrary real `shock`. The floor and extrema properties are proved for every finite shock and finite parameters, not for JavaScript's infinities and NaN.
- Engine.Step: the floor at public/worker.js:74 is proved for finite numbers only. In the source `parseFloat("Infinity")` is not NaN, so an initial price of Infinity passes public/worker.js:18-23; the add-stock form can store it (src/App.jsx:53, 91). With return 0 and volatility 0, line 70 computes `Infinity * 0`, which is NaN, and line 71 makes the price NaN. `NaN < 1` is false, so the floor never applies and a STOCK_UPDATE with a NaN price is posted. A `Math.random()` of 0 at lines 65-67 gives an infinite Z and the same path.
- Floating point: reals are exact. There is no `Infinity` and no rounding error, and a number that `parseFloat` returns is modelled as `Some` of a real.
- `toFixed(2)` in the payloads and the percent string (public/worker.js:82, 105-107, 119) is not modelled. Events carry the internal, unrounded values. The internal price is never rounded, as in the source.
- `toISOString` (public/worker.js:81): the timestamp is the `time` argument of `Tick`.
- Timers and clocks: `setInterval`, `clearInterval`, `setTimeout` and `Date.now`. A tick is an explicit call, `scheduled` stands for an active interval, and the elapsed time is an input.
- A START that arrives while a run is active starts a second interval in the source. Both intervals then step the same counter. The model has one interval, so this second START replaces the run.
- `self.close()` is not modelled as an action. Its effect, that nothing is processed afterwards, is folded into `stopped`.
- Window and messaging machinery are not modelled:
  - `window.open`, `postMessage` and `URLSearchParams`/`URL` building are not modelled. The outcome of `window.open` is a parameter, and a query is a datatype rather than a string.
  - The origin check (src/App.jsx:127) is not modelled; every message is taken to come from the host's own origin.
  - The popup page that forwards the engine's messages to the host is not part of this model.
- Host.SweepClosed and Host.StopSimulation: `closed` is live browser state, read through the shared window reference (src/App.jsx:64, 167). The model takes it from the map passed to each call. A popup closing from outside is the separate update Host.WindowClosed, applied by the caller between calls. No other operation of the model sets it.
- Host.StopSimulation: the 500 ms deferral before the popup is closed and its entry deleted is not modelled. The result is the state after the deferred step, and the `workerWindow.close()` effect on the popup object is not modelled.
- Host.CreateWorkerWindow: the source checks for a duplicate and counts the popups on the `runningSimulations` snapshot taken when the callback was created (src/App.jsx:81, 101-102), while the new entry is written into the updater's `prev` (src/App.jsx:119). The model reads and writes one map, so a launch that overlaps a pending state update is not captured.
- Host.SweepClosed: the 1000 ms polling interval is not modelled; the method is one firing of the sweep.
- `console.log` and `console.warn`, and the `marketSummary` demo state, are left out because they do not affect the state.
- The React wiring is not modelled: state setters are functions from the old state to the new one, and `handleStartSimulation`'s loading delay is left out.
- The d3 drawing (src/components/StockChart.jsx:26-170) is left out, as is the `flatMap` that tags each point with its stock (lines 48-50). `validData` is modelled on one series, because the order of `Object.entries` over a JavaScript object has no counterpart in a Dafny map.
- The pure UI components `StockSimulator.jsx`, `AddStockForm.jsx`, `RunningSimulations.jsx` and `Header.jsx` are not part of this model.
- JsValues.UpperChar and JsValues.UpperCase: they upper-case only the ASCII letters, not the full Unicode case mapping of `toUpperCase`.
- Symbol lookup in the JavaScript objects is modelled as map membership. Inherited property names such as `constructor` are ordinary unknown symbols here.
- Date parsing (`new Date(time).getTime()` not NaN) is the parameter `parses`, and `parseFloat` in `handleAddStock` is the parameter `parse`.
- Values whose JavaScript type is not a string or a number are folded into `Option`: `None` stands for undefined, null or NaN.

## Findings

| source | as written | input that shows it | evidently intended | confidence | as-written member | corrected member |
|---|---|---|---|---|---|---|
| src/App.jsx:141-142 | the reducer destructures `payload.stockUpdate`, but the engine posts `{stockSymbol, time, price}` (public/worker.js:97). The field is undefined, destructuring it throws, and no point is recorded | any engine STOCK_UPDATE, e.g. payload `{stockSymbol: "AAPL", time: "2024-01-02T10:00:00.000Z", price: 150}` | the time and price reach the reducer and the point is appended to the symbol's series | medium, not executed; the popup page that relays the messages may reshape them and is not part of this model | Host.AsReceived, Host.WorkerUpdatesNeverRecorded | Host.AsIntended, Host.IntendedUpdatesRecorded |
