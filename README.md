# Chart render benchmark: a Dafny model

The component renders one random-walk data series through three charting
back-ends (CanvasJS, ECharts, Recharts). It keeps one render-time sample per
back-end and reports which back-end was fastest. This project models its
logic:

- the data generator run on mount: a `for` loop that builds the points of a
  bounded integer random walk;
- the three render handlers and their deferred measurements;
- the chart toggle, which records the selection and runs exactly one handler;
- the ECharts instance, which is disposed before it is re-created;
- the verdict expression over the three samples.

The model has three modules:

- `Charts` (`charts.dfy`): the back-ends, the chart names, and the samples
  as a value. It also holds the verdict function `Decide`, written against a
  reference definition of "first fastest back-end".
- `DataSeries` (`data_series.dfy`): the points and the walk as functions,
  plus the `[x, y]` pair series passed to ECharts.
- `BenchmarkApp` (`app.dfy`): the component state as class `App`, with the
  handlers as methods. Two client methods replay typical sessions.

The randomness becomes an input: a sequence of integer steps, each in
[-5, 5]. `RandomStep` shows that `Math.round(r * 10 - 5)` lies in that range
for every `r` in [0, 1). `RandomSteps` turns any sequence of such draws
into a step sequence that meets the bound `ComponentDidMount` requires
(`BoundedSteps`). The clock and the zero-delay timer also become
inputs. A handler appends its back-end to `pendingTimers`. A later
`RunNextTimer(elapsed)` step runs the oldest pending callback, and `elapsed`
stands for `endTime - startTime`.

Three points in which the model follows the code, where one might expect otherwise:

- `currentChart` holds whatever string the toggle was given, not only one of
  the three back-ends. An unknown name is stored and runs no handler.
- Selecting ECharts twice leaves one more init than disposals. Every
  selection disposes the previous instance, if there is one, and creates a
  new one. So after at least one ECharts selection exactly one instance is
  live, and inits = disposals + 1. Before the first one, inits = disposals = 0.
- The generator takes no seed; the step sequence plays that role.

The truthiness gate is modelled as written: a measured sample of 0 ms reads
as "not yet recorded" (`ZeroSampleHidesVerdict`).

## Model

| member | source | states |
|---|---|---|
| `Charts.ParseChart` | src/App.js:91-97 | the toggle's dispatch picks a back-end only for the exact name of that back-end, and picks none for any string that names no back-end |
| `Charts.ParseChartName` | src/App.js:91-97 | a chart name selects back-end `b` if and only if it is `b`'s name |
| `Charts.RenderTimes.With` | src/App.js:24-26 | recording a sample sets that back-end's sample and keeps the other two |
| `Charts.Min3` | src/App.js:160 | `Math.min` of three samples is at most each of them and equal to one of them |
| `Charts.Decide` | src/App.js:158-170 | the verdict expression, a gated argmin: "not yet recorded" exactly when some sample is falsy (0), and otherwise a back-end whose sample is at most every other; `VerdictIsFirstFastest` ties it to `IsFirstFastest` |
| `Charts.Message` | src/App.js:158-170 | the rendered text is "Render times not yet recorded." exactly for the unmeasured verdict, and otherwise it is the winner's name followed by " is the most efficient." |
| `Charts.VerdictGate` | src/App.js:158-170 | the verdict is "not yet recorded" exactly when at least one of the three samples is 0 |
| `Charts.ZeroSampleHidesVerdict` | src/App.js:158-170 | a sample of 0 for any back-end forces "not yet recorded", whatever the other two samples are |
| `Charts.VerdictIsFirstFastest` | src/App.js:158-166 | with all samples non-zero, the verdict names `b` if and only if `b` has a minimal sample and every back-end before it in the order CanvasJS, ECharts, Recharts is strictly slower |
| `Charts.WinnerIsFastest` | src/App.js:160-166 | with all samples non-zero, there is always a winner, and its sample equals the minimum |
| `Charts.VerdictExamples` | src/App.js:158-166 | 12/8/15 ms gives ECharts; the tie 10/10/20 ms gives CanvasJS |
| `Charts.TwoSamplesLeaveVerdictOpen` | src/App.js:158-170 | starting from all-zero samples, recording any two samples still gives "not yet recorded" |
| `DataSeries.RandomStep` | src/App.js:81 | `Math.round(r * 10 - 5)` lies in [-5, 5] for every draw `r` in [0, 1) |
| `DataSeries.RandomSteps` | src/App.js:80-81 | one draw of `Math.random()` per point gives a step sequence of the same length, each step `Math.round(r * 10 - 5)` of its draw, all within the step bound |
| `DataSeries.Walk` | src/App.js:78-83 | the walk from a start value: each step moves `y` and then records a point, giving one point per step |
| `DataSeries.Generate` | src/App.js:77-83 | the series generated from the start value 100: one point per step, point `i` at `x == i` |
| `DataSeries.WalkShape` | src/App.js:80-83 | the `x` values of a walk are consecutive indices starting at `from` |
| `DataSeries.WalkValue` | src/App.js:78-82 | point `k` has `y` equal to 100 plus the sum of the first `k + 1` steps |
| `DataSeries.WalkIncrement` | src/App.js:81-82 | consecutive points differ in `y` by exactly the step between them |
| `DataSeries.GeneratedSeries` | src/App.js:77-83 | with bounded steps, the first `y` lies in [95, 105] and each later `y` is within 5 of the previous one (the length and `x == i` are the contract of `Generate`) |
| `DataSeries.GeneratedDrift` | src/App.js:78-82 | the walk is not clamped, but point `k` lies within `5 * (k + 1)` of the start value |
| `DataSeries.Series` | src/App.js:50 | the `.map(point => [point.x, point.y])` of the ECharts option: one pair per point |
| `DataSeries.SeriesShape` | src/App.js:50 | pair `i` of the ECharts series is `[x, y]` of point `i`, in order |
| `DataSeries.SeriesRoundTrip` | src/App.js:50 | mapping points to pairs loses nothing: reading the pairs back gives the points |
| `BenchmarkApp.App.constructor` | src/App.js:9-18 | initial state: all samples 0, `currentChart` is "CanvasJS", the verdict is "not yet recorded" and its text "Render times not yet recorded.", no ECharts instance |
| `BenchmarkApp.App.RecordSample` | src/App.js:22-72 | the body of each of the three deferred callbacks (lines 24-26, 59-61, 69-71): it overwrites only its own back-end's sample, and no other field changes |
| `BenchmarkApp.App.RunNextTimer` | src/App.js:22-72 | any of the three `setTimeout` callbacks (lines 22-27, 57-62, 67-72): the oldest pending measurement runs and records `elapsed` for its back-end |
| `BenchmarkApp.App.HandleCanvasRender` | src/App.js:20-28 | schedules exactly one CanvasJS measurement and changes nothing else |
| `BenchmarkApp.App.HandleRechartsRender` | src/App.js:65-73 | schedules exactly one Recharts measurement and changes nothing else |
| `BenchmarkApp.App.DisposeECharts` | src/App.js:33-35 | disposing removes the live instance and counts one disposal |
| `BenchmarkApp.App.InitECharts` | src/App.js:38-40 | `init` makes a new instance, with no option yet, the live one and counts one init |
| `BenchmarkApp.App.SetOption` | src/App.js:42-55 | `setOption` puts the given series on the live instance |
| `BenchmarkApp.App.HandleEChartsRender` | src/App.js:30-63 | disposes the previous instance if one exists, creates one, and gives it the data points as pairs. Afterwards exactly one instance is live, inits = disposals + live still holds, and one ECharts measurement is scheduled |
| `BenchmarkApp.App.HandleChartToggle` | src/App.js:89-99 | sets `currentChart` to the given name and runs exactly the handler it names (none for an unknown name). Samples and data are untouched, and the ECharts state changes only when ECharts is named |
| `BenchmarkApp.App.GenerateData` | src/App.js:77-83 | the generation loop yields exactly the walk of the given steps |
| `BenchmarkApp.App.ComponentDidMount` | src/App.js:75-87 | mounting generates 100000 points with `x == i`, a first `y` in [95, 105] and moves of at most 5, then schedules the first CanvasJS measurement |
| `BenchmarkApp.RepeatedEChartsSelection` | src/App.js:30-40 | after mounting and `n >= 1` ECharts selections on a fresh component: `n` inits, `n - 1` disposals, one live instance |
| `BenchmarkApp.BenchmarkSession` | src/App.js:75-98 | after mounting and selecting each back-end once, each measurement finishing before the next selection, the verdict is that of the last sample of each back-end |

## Left out

- JSX rendering, layout, styling and the button wiring, apart from the verdict expression: none of it is logic.
- The CanvasJS, ECharts and Recharts libraries. `echarts.init`, `setOption` and `dispose` are abstract steps that touch only the instance field and the counters. Of the option object, only the series data is kept; the title, tooltip and axis settings are dropped.
- `new Date()` and `setTimeout(..., 0)`, which are wall-clock and asynchronous. The elapsed time is an input to `RunNextTimer`, and the callbacks run in scheduling order.
- `Math.random()` and floating point. The steps are an input sequence of integers in [-5, 5]. `RandomStep` computes with exact reals, not IEEE doubles.
- The CanvasJS `onRef` re-trigger, which depends on the framework's lifecycle.
- React's `setState` batching. A state update is immediate, and the toggle's handler runs after `currentChart` is set.
- The ECharts container element and the renderer choice (`renderer: 'canvas'`), which are only arguments passed to the library.
- `dataPoints` before mount: in JavaScript it is undefined until `componentDidMount` runs. The model starts it as the empty sequence. No click can reach a handler before mount, and in JavaScript the ECharts handler would throw at `this.dataPoints.map` if one did; the client methods mount first.
