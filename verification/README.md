# Trading chart pipeline, modelled in Dafny

This project models the charting core of the trading page
(`src/components/Trading.tsx`).
- The page fetches candles and converts kline rows into candles (epoch milliseconds truncated to seconds).
- It projects the candles per chart style: candles, value points or coloured columns.
- It picks a series kind for each style, falling back to candlesticks when creating the series fails.
- For the `Candles` style it adds a coloured volume histogram and the MA7, MA25 and MA99 trailing moving averages.
- It windows the time scale to the last 50 points on every build and to the last 100 when the coin or timeframe changes.
- It tears down the previous chart and its resize observer before each rebuild.
- It keeps an `isFullscreen` flag in step with the browser's fullscreen state.

Modules:

- `Market`: candles, points, kline rows, `EpochSeconds`, `FormatRows`.
- `Averages`: `calculateMA` as a loop (`CalculateMA`), proved equal to a closed-form moving average (`MovingAverage`). Lemmas cover its bounds and sliding-window behaviour.
- `Projections`: the per-style price projection, the raw hand-over (`setData(candleData)`) and the volume projection, each with per-element lemmas.
- `Dispatch`: the `switch` in `createChartSeries`, mapping a style to a series kind.
- `Surface`: a stand-in for the charting library (lightweight-charts), which is not part of this model.
  - A `Chart` records the series bound to it by index, with each series' kind and data.
  - It also records whether it was removed, its visible logical window and its size.
  - A `ResizeObserver` is either connected or not.
  - `Accepts` says whether a series kind can draw a payload: a candlestick series needs candles, every other kind needs `value` points.
- `Fullscreen`: the flag's transitions, and a trace lemma over toggles (granted or refused) and external exits.
- `Session`: the `ChartSession` class.
  - It holds the component's state and refs (`candleData`, `chartType`, `isFullscreen`, `chartRef`, `seriesRef`, `ma7Ref`, `ma25Ref`, `ma99Ref`).
  - It also holds the teardown React keeps from the last chart-effect run.
  - Its methods are the effects and handlers, proved against the invariant `Valid()`: the refs never alias, the overlay refs name line series, and only the chart whose teardown is pending is alive.

React's scheduling is the caller's job:
- `ChartEffect` runs when `candleData`, the chart type or `isFullscreen` change.
- `SelectionEffect` runs when the coin or timeframe change.
- `RunPendingCleanup` runs on unmount.

The container's size is passed in as parameters, and so is whether the browser reports a fullscreen element. A failure inside `createChartSeries`' `try` block is the flag `createThrows`.

## Model

| member | source | states |
|---|---|---|
| Market.EpochSeconds | src/components/Trading.tsx:85 | the result is the whole second containing the millisecond time: `s*1000 <= ms < s*1000+1000` (floor division) |
| Market.FormatRows | src/components/Trading.tsx:84-91 | one candle per row, in order; each candle's time is its row's time truncated to seconds; open, high, low, close and volume are copied |
| Market.FormatRowsKeepsOrder | src/components/Trading.tsx:84-91 | rows in non-decreasing millisecond order give candles in non-decreasing second order |
| Averages.MovingAverage | src/components/Trading.tsx:68-78 | one point per complete window, `max(0, n-period+1)` in all; point k is stamped with the time of the window's last candle, and its value times the period is the sum of the window's closes |
| Averages.CalculateMA | src/components/Trading.tsx:68-78 | the loop returns `max(0, n-period+1)` points, and point k is the mean of the closes `data[k..k+period]` stamped with the time of the window's last candle |
| Averages.SumClosesAppend | src/components/Trading.tsx:71 | the `reduce` over closes is additive over concatenation |
| Averages.SumClosesBounds | src/components/Trading.tsx:71 | closes in `[lo, hi]` sum to between `n*lo` and `n*hi` |
| Averages.AverageWithinCloses | src/components/Trading.tsx:68-78 | every average lies between the smallest and largest close, so constant closes average to that constant |
| Averages.SlidingWindow | src/components/Trading.tsx:70-75 | consecutive averages differ by the entering close minus the leaving close, divided by the period |
| Averages.AverageTimesIncrease | src/components/Trading.tsx:72-75 | strictly increasing candle times give strictly increasing average times |
| Projections.ToneOf | src/components/Trading.tsx:302 | up exactly when `close >= open` (a tie is up) |
| Projections.PriceProjection | src/components/Trading.tsx:263-282 | one element per candle; what each element is is stated by `PriceProjectionAt` |
| Projections.Raw | src/components/Trading.tsx:356 | one element per candle; what each element is is stated by `RawAt` |
| Projections.VolumeProjection | src/components/Trading.tsx:299-303 | one bar per candle; what each bar is is stated by `VolumeProjectionAt` |
| Projections.PriceProjectionAt | src/components/Trading.tsx:263-282 | element i is `{time, value: close}` for Line/Step line/Area/Baseline, a column of the close coloured by `close >= open` for Columns, and candle i unchanged for every other style |
| Projections.RawAt | src/components/Trading.tsx:356 | `setData(candleData)` hands over candle i as element i |
| Projections.VolumeProjectionAt | src/components/Trading.tsx:299-303 | volume bar i carries candle i's time and volume, coloured up iff `close >= open` |
| Projections.CandleStylesPassThrough | src/components/Trading.tsx:263-282 | for Candles, Hollow candles and unknown styles the price projection equals the raw candles |
| Projections.ColumnsToneMatchesVolume | src/components/Trading.tsx:274-279 | each Columns column has the same tone as the volume bar of the same candle: both come from the same `close >= open` test (the down colours themselves differ) |
| Dispatch.SeriesKindFor | src/components/Trading.tsx:109-185 | Line and Step line give a line series, Area an area series, Baseline a baseline series, Columns a histogram, and every other string (Candles, Hollow candles, the default) a candlestick series; each iff |
| Dispatch.PrimaryKind | src/components/Trading.tsx:189-199 | without a failure, the kind the `switch` chooses; the result is a candlestick series iff creation failed (the `catch` fallback) or the style is drawn with candles anyway |
| Surface.TailWindow | src/components/Trading.tsx:339-342 | the window ends at n and spans `min(n, span)` points, starting at `max(0, n-span)` |
| Surface.ProjectionFitsSeries | src/components/Trading.tsx:109-185 | the series kind chosen for a style can draw every element of that style's projection |
| Session.BuiltSeriesShape | src/components/Trading.tsx:261-337 | a build binds exactly one series with price data (the primary); the volume histogram and the MA7/25/99 lines, with their data, are added iff the style is Candles |
| Session.BuiltSeriesDrawable | src/components/Trading.tsx:186-200 | with candles to show, every series of a build can draw its data iff creating the series did not fail or the style is drawn with candles anyway |
| Session.RawDrawnByCandles | src/components/Trading.tsx:356 | the raw candles are drawable by a candlestick series and, given at least one candle, not by a line series |
| Session.SetSeriesData | src/components/Trading.tsx:356 | `series.setData` changes only that series' data, and only on a live chart; every chart keeps its series and their kinds |
| Session.KeepsTrans | src/components/Trading.tsx:356-364 | two successive `setData` rounds leave unchanged every series named by neither |
| Session.RebindSeries | src/components/Trading.tsx:356-364 | the primary holds the raw candles and each overlay its moving average; on every chart no series is added, removed or changes kind, every other series keeps its data, and a removed chart keeps all its series and data |
| Session.RebindOverlays | src/components/Trading.tsx:358-364 | each overlay holds its moving average; every other series of every chart keeps its data |
| Session.FillOverlays | src/components/Trading.tsx:330-336 | series 2, 3 and 4 hold the MA7, MA25 and MA99 averages |
| Session.ChartSession.constructor | src/components/Trading.tsx:24-40 | no candles, Candles style, not fullscreen, every ref empty |
| Session.ChartSession.SelectChartType | src/components/Trading.tsx:28 | the style becomes the selected one; the invariant holds |
| Session.ChartSession.FetchData | src/components/Trading.tsx:80-96 | a response replaces the candles with its formatted rows; a failed fetch leaves them unchanged |
| Session.ChartSession.CreateChartSeries | src/components/Trading.tsx:102-201 | drops the primary series if it is bound to this chart, then adds a series of the style's kind (a candlestick series if that throws) and points `seriesRef` at it |
| Session.ChartSession.Teardown | src/components/Trading.tsx:348-351 | the observer is disconnected and the chart removed |
| Session.ChartSession.RunPendingCleanup | src/components/Trading.tsx:348-351 | afterwards every chart is removed and every observer disconnected, with its series, data, window and size untouched; with nothing pending it changes nothing |
| Session.ChartSession.AttachVolume | src/components/Trading.tsx:286-305 | adds series 1, a histogram holding the volume projection |
| Session.ChartSession.AddOverlaySeries | src/components/Trading.tsx:307-329 | adds three empty line series 2, 3, 4 and points the MA refs at them |
| Session.ChartSession.AttachMovingAverages | src/components/Trading.tsx:307-337 | series 2, 3, 4 are lines holding the MA7, MA25 and MA99 averages, named by the MA refs |
| Session.ChartSession.PopulateChart | src/components/Trading.tsx:260-343 | the chart's series are exactly the build for the style, and the window covers the last 50 points |
| Session.ChartSession.MountFreshChart | src/components/Trading.tsx:206-261 | the old chart is removed; a fresh chart of the container's size with a connected observer holds the build; the refs stay distinct and the overlay refs still name line series |
| Session.ChartSession.Adopt | src/components/Trading.tsx:245 | the fresh chart becomes `chartRef` and its teardown is pending; the invariant holds |
| Session.ChartSession.BuildChart | src/components/Trading.tsx:203-352 | every earlier chart is removed and keeps its series, data, window and size; one fresh live chart holds the build and the 50-point window, with its teardown pending |
| Session.ChartSession.ChartEffect | src/components/Trading.tsx:203-352 | after the previous teardown every earlier chart is removed and keeps its series, data, window and size on both paths; with no container or no candles the refs stay as they were, no teardown is pending and no chart is created; otherwise one fresh chart holds the build for the style, MA refs are repointed only for Candles, and the window is the last 50 points |
| Session.ChartSession.SelectionEffect | src/components/Trading.tsx:354-372 | when every ref is set, the primary holds the raw candles, each overlay its moving average, and the window is the last 100 points; otherwise nothing changes. Either way every series not named by a ref (the volume histogram) keeps its data, no series is added, removed or changes kind, no chart changes size, only the current chart's window moves (even when that chart has been removed), and a removed chart keeps all its series and data |
| Session.ChartSession.RebindRefs | src/components/Trading.tsx:356-370 | the rebind itself, once every ref is set: the four named series get their data, the current chart shows the last 100 points (even when it has been removed), and nothing else changes |
| Session.ChartSession.RebindSelection | src/components/Trading.tsx:354-372 | the same rebind, guarded on the refs belonging to the current chart, with the same frame as `SelectionEffect`; a chart whose series could all draw their data still can afterwards |
| Session.ChartSession.OnResize | src/components/Trading.tsx:247-256 | a connected observer resizes the current chart and fits its content; no series or data change, no series is added, and every other chart keeps its window and size |
| Session.ChartSession.ToggleFullscreen | src/components/Trading.tsx:42-53 | with no fullscreen element: enter on the container (flag true) if there is one, else nothing; with one: exit, flag false |
| Session.ChartSession.OnFullscreenChange | src/components/Trading.tsx:55-60 | the flag is cleared when no element is fullscreen and kept otherwise |
| Fullscreen.ToggleRequest | src/components/Trading.tsx:42-53 | enter is requested iff there is no fullscreen element and there is a container; exit iff there is a fullscreen element; nothing otherwise |
| Fullscreen.AfterToggle | src/components/Trading.tsx:42-53 | the flag is set when entering is requested, cleared when exiting is, and kept when nothing is requested |
| Fullscreen.AfterChange | src/components/Trading.tsx:55-60 | the flag is cleared when there is no fullscreen element and kept otherwise |
| Fullscreen.FlagFollowsPlatform | src/components/Trading.tsx:42-66 | starting in step, after any sequence of toggles the platform grants and external exits (Escape), the flag equals "an element is fullscreen" |
| Fullscreen.RefusedEnterDesyncs | src/components/Trading.tsx:44-48 | a refused request to enter leaves the flag set with no fullscreen element, and any number of Escape presses leaves it so |
| Fullscreen.RefusedExitDesyncs | src/components/Trading.tsx:49-51 | a refused request to exit leaves the flag cleared while the platform is still fullscreen; the next Escape press puts the two back in step |
| Fullscreen.ExitsIgnoredWithoutElement | src/components/Trading.tsx:55-60 | with no fullscreen element, external exits change neither the platform nor the flag |
| Session.StaleOverlayScenario | src/components/Trading.tsx:354-364 | Candles, then Line, then a coin change: the line series ends up holding raw candles, which it cannot draw |
| Session.CoinChangeKeepsVolume | src/components/Trading.tsx:354-372 | after a Candles build, a coin change leaves the volume histogram holding the volume projection |
| Session.CorrectedRebindScenario | src/components/Trading.tsx:354-364 | the same steps with the corrected guard leave the line series its value points |

## Left out

- The network request, `response.json()`, `Number` and `parseFloat` are not modelled. `FetchData` receives the rows already parsed, or `None` for a failed request. A non-numeric field (NaN) is not modelled.
- Prices and volumes are exact reals, not IEEE doubles. The sums and divisions of the moving average carry no rounding.
- Colours, line widths, titles, price formats, layout and grid options are not modelled; the tone (up/down) stands for the colour. The down colours differ: `#ef5350` for the Candles series and the volume bars, `#ff3b3b` for the Columns style and the Hollow candles' borders and wicks.
- The `Step line` style draws a line series with dotted `lineStyle: 1`, not stepped interpolation. The model only records that it is a line series.
- Session.ChartSession.CreateChartSeries: the removal guard `chart.series.includes(...)` is modelled as "the primary series is bound to this chart". The chart is always fresh, so the guard never fires.
- The outer `try/catch` around the chart build (lines 260-345) is not modelled. The stand-in chart throws nowhere except in `createChartSeries`, via `createThrows`.
- `setData` on a series of a removed chart is a no-op in the stand-in. What the charting library really does there is not part of this model.
- `setVisibleLogicalRange` on a removed chart still moves its window in the stand-in. This happens when a fetch returns no rows: the teardown removes the chart, the effect returns early at line 204 with `chartRef` still naming it, and a coin change then reaches line 370. What the charting library does there is not part of this model.
- A second `remove()` on a removed chart is harmless in the stand-in. On every rebuild this happens: React's teardown has already removed the chart (line 350), and line 207 removes it again. What the library does on a second removal is not part of this model.
- React's rendering, effect scheduling and batching are left to the caller. So are the `fullscreenchange` listener's registration and removal (lines 55-66), and the JSX (menus, order form, sidebar).
- The coin and timeframe selections never change the candles: the fetch always asks for the same market (`type=1`). `data.json` is never used for the chart's candles, only for the sidebar's names and last closes (lines 499-510), which are not modelled. The model reflects this, so `SelectionEffect` re-sends the same candles.
- There is no de-duplication or cancellation of requests, since the code has none.
- Fullscreen.FlagFollowsPlatform: holds only when the platform grants every request. `toggleFullscreen` sets the flag without waiting for `requestFullscreen` (lines 46-47). If that request is refused, the flag stays set with no fullscreen element (`RefusedEnterDesyncs`) until a later toggle. A refused `exitFullscreen` (a refused toggle while there is a fullscreen element, lines 49-51) clears the flag while the platform stays fullscreen, until the next Escape press (`RefusedExitDesyncs`).
- Session.ChartSession.OnResize: the container's content size is passed in, and `entries[0]` is assumed to exist.

## Findings

| source | as written | input that shows it | evidently intended | confidence | as-written member | corrected member |
|---|---|---|---|---|---|---|
| src/components/Trading.tsx:354-364 | the rebind guard checks only that the MA refs are set; the refs are set on a Candles build and never cleared, so after a switch to another style they still name series of the removed chart | build with Candles and one candle, select Line, rebuild, then change coin: `seriesRef.setData(candleData)` hands raw candles to the line series, which has no `value` to draw | rebind only when the overlay refs belong to the current chart (or clear them when the style leaves Candles) | not executed | Session.StaleOverlayScenario | Session.ChartSession.RebindSelection |
