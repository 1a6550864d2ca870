/**
 * The benchmark component: its state fields, the three render handlers with
 * their deferred measurements, the chart toggle, the data generation on
 * mount and the ECharts instance it disposes and re-creates.
 *
 * The clock and `setTimeout(..., 0)` are not modelled as such: a handler
 * appends its back-end to `pendingTimers`, and a later `RunNextTimer`
 * step runs the oldest deferred callback with the elapsed time as input.
 */
module BenchmarkApp {
  import opened Charts
  import opened DataSeries

  /** The ECharts instance as the component sees it: which `init` made it, and the series last set on it. */
  datatype EChartsInstance = EChartsInstance(id: nat, series: seq<(int, int)>)

  class App {
    var canvasRenderTime: int
    var echartsRenderTime: int
    var rechartsRenderTime: int
    var currentChart: string
    var dataPoints: seq<Point>
    var echartsInstance: Option<EChartsInstance>
    /** How many times `echarts.init` and `dispose` have been called. */
    var echartsInits: nat
    var echartsDisposals: nat
    /** The deferred measurement callbacks not yet run, oldest first. */
    var pendingTimers: seq<Backend>

    /** The three timing fields as one value. */
    function Times(): RenderTimes
      reads this
    {
      RenderTimes(canvasRenderTime, echartsRenderTime, rechartsRenderTime)
    }

    /** The number of ECharts instances created and not yet disposed. */
    function LiveInstances(): nat
      reads this
    {
      if echartsInstance.Some? then 1 else 0
    }

    /**
     * Every created instance but the live one has been disposed, so at most
     * one instance is live, and the live one is the most recently created.
     */
    ghost predicate Valid()
      reads this
    {
      && echartsInits == echartsDisposals + LiveInstances()
      && (echartsInstance.Some? ==> echartsInstance.value.id == echartsInits - 1)
    }

    /** The initial state: CanvasJS selected, no samples, no chart instance. */
    constructor ()
      ensures Valid()
      ensures Times() == Unrecorded && currentChart == Name(CanvasJS)
      ensures Decide(Times()) == NotYetRecorded
      ensures Message(Decide(Times())) == "Render times not yet recorded."
      ensures dataPoints == [] && pendingTimers == []
      ensures echartsInstance == None && echartsInits == 0 && echartsDisposals == 0
    {
      canvasRenderTime, echartsRenderTime, rechartsRenderTime := 0, 0, 0;
      currentChart := "CanvasJS";
      dataPoints := [];
      echartsInstance := None;
      echartsInits, echartsDisposals := 0, 0;
      pendingTimers := [];
    }

    /** The body of a deferred callback: overwrite the sample of back-end `b` only. */
    method RecordSample(b: Backend, elapsed: int)
      requires Valid()
      modifies this`canvasRenderTime, this`echartsRenderTime, this`rechartsRenderTime
      ensures Valid()
      ensures Times() == old(Times()).With(b, elapsed)
    {
      match b
      case CanvasJS => canvasRenderTime := elapsed;
      case ECharts => echartsRenderTime := elapsed;
      case Recharts => rechartsRenderTime := elapsed;
    }

    /** The event loop runs the oldest deferred callback, `elapsed` ms after its handler started. */
    method RunNextTimer(elapsed: int)
      requires Valid() && pendingTimers != []
      modifies this`pendingTimers, this`canvasRenderTime, this`echartsRenderTime, this`rechartsRenderTime
      ensures Valid()
      ensures pendingTimers == old(pendingTimers)[1..]
      ensures Times() == old(Times()).With(old(pendingTimers)[0], elapsed)
    {
      var b := pendingTimers[0];
      pendingTimers := pendingTimers[1..];
      RecordSample(b, elapsed);
    }

    /** CanvasJS renders declaratively; the handler only schedules its measurement. */
    method HandleCanvasRender()
      requires Valid()
      modifies this`pendingTimers
      ensures Valid()
      ensures pendingTimers == old(pendingTimers) + [CanvasJS]
    {
      pendingTimers := pendingTimers + [CanvasJS];
    }

    /** Recharts renders declaratively; the handler only schedules its measurement. */
    method HandleRechartsRender()
      requires Valid()
      modifies this`pendingTimers
      ensures Valid()
      ensures pendingTimers == old(pendingTimers) + [Recharts]
    {
      pendingTimers := pendingTimers + [Recharts];
    }

    /**
     * `instance.dispose()` on the live instance. This step and `InitECharts`
     * each break `Valid()` on their own; they are called only from
     * `HandleEChartsRender`, which restores it.
     */
    method DisposeECharts()
      requires echartsInstance.Some?
      modifies this`echartsInstance, this`echartsDisposals
      ensures echartsInstance == None
      ensures echartsDisposals == old(echartsDisposals) + 1
    {
      echartsInstance := None;
      echartsDisposals := echartsDisposals + 1;
    }

    /** `echarts.init(...)`: a new instance, with no option set yet, becomes the live one. */
    method InitECharts()
      modifies this`echartsInstance, this`echartsInits
      ensures echartsInstance == Some(EChartsInstance(old(echartsInits), []))
      ensures echartsInits == old(echartsInits) + 1
    {
      echartsInstance := Some(EChartsInstance(echartsInits, []));
      echartsInits := echartsInits + 1;
    }

    /** `instance.setOption(option)`, keeping only the series data of the option. */
    method SetOption(series: seq<(int, int)>)
      requires echartsInstance.Some?
      modifies this`echartsInstance
      ensures echartsInstance == Some(old(echartsInstance).value.(series := series))
    {
      echartsInstance := Some(echartsInstance.value.(series := series));
    }

    /**
     * Dispose the previous instance if there is one, create a new one, give it
     * the data points as `[x, y]` pairs, and schedule the measurement.
     */
    method HandleEChartsRender()
      requires Valid()
      modifies this`echartsInstance, this`echartsInits, this`echartsDisposals, this`pendingTimers
      ensures Valid() && LiveInstances() == 1
      ensures echartsInits == old(echartsInits) + 1
      ensures echartsDisposals == old(echartsDisposals) + old(LiveInstances())
      ensures echartsInstance == Some(EChartsInstance(old(echartsInits), Series(dataPoints)))
      ensures pendingTimers == old(pendingTimers) + [ECharts]
    {
      if echartsInstance.Some? {
        DisposeECharts();
      }
      InitECharts();
      SetOption(Series(dataPoints));
      pendingTimers := pendingTimers + [ECharts];
    }

    /**
     * Select a chart by name, then run exactly the render handler of the
     * back-end it names; a name of no back-end runs none.
     */
    method HandleChartToggle(chartType: string)
      requires Valid()
      modifies this
      ensures Valid()
      ensures currentChart == chartType
      ensures Times() == old(Times()) && dataPoints == old(dataPoints)
      ensures ParseChart(chartType).None? ==> pendingTimers == old(pendingTimers)
      ensures ParseChart(chartType).Some? ==> pendingTimers == old(pendingTimers) + [ParseChart(chartType).value]
      ensures ParseChart(chartType) == Some(ECharts) ==>
        && echartsInits == old(echartsInits) + 1
        && echartsDisposals == old(echartsDisposals) + old(LiveInstances())
        && echartsInstance == Some(EChartsInstance(old(echartsInits), Series(dataPoints)))
      ensures ParseChart(chartType) != Some(ECharts) ==>
        && echartsInits == old(echartsInits)
        && echartsDisposals == old(echartsDisposals)
        && echartsInstance == old(echartsInstance)
    {
      currentChart := chartType;
      if chartType == "ECharts" {
        HandleEChartsRender();
      } else if chartType == "Recharts" {
        HandleRechartsRender();
      } else if chartType == "CanvasJS" {
        HandleCanvasRender();
      }
    }

    /** The generation loop: `limit` points of the random walk driven by `steps`. */
    method GenerateData(limit: nat, steps: seq<int>)
      requires Valid() && |steps| == limit
      modifies this`dataPoints
      ensures Valid()
      ensures dataPoints == Generate(steps)
    {
      var y := StartY;
      dataPoints := [];
      for i := 0 to limit
        invariant dataPoints + Walk(y, i, steps[i..]) == Generate(steps)
      {
        assert steps[i..][1..] == steps[i + 1..];
        ghost var rest := Walk(y + steps[i], i + 1, steps[i + 1..]);
        assert Walk(y, i, steps[i..]) == [Point(i, y + steps[i])] + rest;
        assert dataPoints + ([Point(i, y + steps[i])] + rest) == (dataPoints + [Point(i, y + steps[i])]) + rest;
        y := y + steps[i];
        dataPoints := dataPoints + [Point(i, y)];
      }
      assert steps[limit..] == [];
    }

    /**
     * Mounting: generate the series from `Limit` bounded random steps, then
     * start the first CanvasJS measurement.
     */
    method ComponentDidMount(steps: seq<int>)
      requires Valid() && |steps| == Limit && BoundedSteps(steps)
      modifies this`dataPoints, this`pendingTimers
      ensures Valid()
      ensures dataPoints == Generate(steps)
      ensures |dataPoints| == Limit
      ensures forall i :: 0 <= i < Limit ==> dataPoints[i].x == i
      ensures StartY - MaxStep <= dataPoints[0].y <= StartY + MaxStep
      ensures forall i :: 0 < i < Limit ==> -MaxStep <= dataPoints[i].y - dataPoints[i - 1].y <= MaxStep
      ensures pendingTimers == old(pendingTimers) + [CanvasJS]
    {
      GenerateData(Limit, steps);
      GeneratedSeries(steps);
      HandleCanvasRender();
    }
  }

  /**
   * Mounting a fresh component, then selecting ECharts `n` times: every selection creates
   * one instance and disposes the one before it, so `n > 0` selections leave
   * `n` inits, `n - 1` disposals and one live instance.
   */
  method RepeatedEChartsSelection(steps: seq<int>, n: nat) returns (inits: nat, disposals: nat, live: nat)
    requires |steps| == Limit && BoundedSteps(steps)
    ensures inits == n
    ensures disposals == if n == 0 then 0 else n - 1
    ensures live == if n == 0 then 0 else 1
  {
    var app := new App();
    app.ComponentDidMount(steps);
    var i := 0;
    while i < n
      invariant 0 <= i <= n
      invariant app.Valid()
      invariant app.echartsInits == i
      invariant app.LiveInstances() == if i == 0 then 0 else 1
    {
      app.HandleChartToggle("ECharts");
      i := i + 1;
    }
    inits, disposals, live := app.echartsInits, app.echartsDisposals, app.LiveInstances();
  }

  /**
   * A whole session on a fresh component: mount, let the first CanvasJS
   * measurement finish after `first` ms, then select ECharts, Recharts and
   * CanvasJS in turn, each measurement finishing before the next selection.
   * The verdict is that of the last sample of each back-end.
   */
  method BenchmarkSession(steps: seq<int>, first: int, canvas: int, echarts: int, recharts: int)
    returns (v: Verdict)
    requires |steps| == Limit && BoundedSteps(steps)
    ensures v == Decide(RenderTimes(canvas, echarts, recharts))
  {
    var app := new App();
    app.ComponentDidMount(steps);
    app.RunNextTimer(first);
    app.HandleChartToggle("ECharts");
    app.RunNextTimer(echarts);
    app.HandleChartToggle("Recharts");
    app.RunNextTimer(recharts);
    app.HandleChartToggle("CanvasJS");
    app.RunNextTimer(canvas);
    v := Decide(app.Times());
  }
}
