/**
 * The three charting back-ends, the chart names the toggle buttons pass,
 * the per-back-end render-time samples and the verdict the component shows
 * under the charts.
 */
module Charts {

  datatype Option<T> = None | Some(value: T)

  /** The three interchangeable rendering back-ends, in the component's fixed order. */
  datatype Backend = CanvasJS | ECharts | Recharts

  /** Position of a back-end in the tie-break order CanvasJS, ECharts, Recharts. */
  function Rank(b: Backend): nat
  {
    match b
    case CanvasJS => 0
    case ECharts => 1
    case Recharts => 2
  }

  /** The string by which the buttons and `currentChart` name a back-end. */
  function Name(b: Backend): string
  {
    match b
    case CanvasJS => "CanvasJS"
    case ECharts => "ECharts"
    case Recharts => "Recharts"
  }

  /**
   * The dispatch test of the toggle handler: the chart names are compared in
   * the order ECharts, Recharts, CanvasJS; any other string selects no handler.
   */
  function ParseChart(chartType: string): (r: Option<Backend>)
    ensures r.Some? ==> Name(r.value) == chartType
    ensures r.None? ==> forall b :: Name(b) != chartType
  {
    if chartType == "ECharts" then Some(ECharts)
    else if chartType == "Recharts" then Some(Recharts)
    else if chartType == "CanvasJS" then Some(CanvasJS)
    else None
  }

  /** A chart name selects exactly the back-end it names, and nothing else does. */
  lemma ParseChartName(b: Backend, chartType: string)
    ensures ParseChart(chartType) == Some(b) <==> chartType == Name(b)
  {
  }

  /**
   * The three timing fields of the component state, in milliseconds. A sample
   * is a difference of two clock readings, so any integer is possible.
   */
  datatype RenderTimes = RenderTimes(canvas: int, echarts: int, recharts: int)
  {
    /** The sample stored for back-end `b`. */
    function Get(b: Backend): int
    {
      match b
      case CanvasJS => canvas
      case ECharts => echarts
      case Recharts => recharts
    }

    /** Overwrite the sample of back-end `b`; the other two are kept. */
    function With(b: Backend, elapsed: int): (r: RenderTimes)
      ensures r.Get(b) == elapsed
      ensures forall other :: other != b ==> r.Get(other) == Get(other)
    {
      match b
      case CanvasJS => this.(canvas := elapsed)
      case ECharts => this.(echarts := elapsed)
      case Recharts => this.(recharts := elapsed)
    }
  }

  /** The samples the component starts with. */
  const Unrecorded := RenderTimes(0, 0, 0)

  /** JavaScript truthiness of a numeric sample: only 0 is falsy. */
  predicate Truthy(ms: int)
  {
    ms != 0
  }

  /** The gate of the verdict: all three samples are truthy. */
  predicate AllRecorded(t: RenderTimes)
  {
    Truthy(t.canvas) && Truthy(t.echarts) && Truthy(t.recharts)
  }

  /** `Math.min` of three integers. */
  function Min3(a: int, b: int, c: int): (m: int)
    ensures m <= a && m <= b && m <= c
    ensures m == a || m == b || m == c
  {
    if a <= b && a <= c then a else if b <= c then b else c
  }

  /** What the line under the charts reports. */
  datatype Verdict = NotYetRecorded | MostEfficient(winner: Backend)

  /**
   * The verdict expression: behind the truthiness gate, the first back-end in
   * the order CanvasJS, ECharts, Recharts whose sample equals the minimum.
   */
  function Decide(t: RenderTimes): (v: Verdict)
    ensures v.NotYetRecorded? <==> !AllRecorded(t)
    ensures v.MostEfficient? ==> forall other :: t.Get(v.winner) <= t.Get(other)
  {
    if AllRecorded(t) then
      var m := Min3(t.canvas, t.echarts, t.recharts);
      if m == t.canvas then MostEfficient(CanvasJS)
      else if m == t.echarts then MostEfficient(ECharts)
      else MostEfficient(Recharts)
    else
      NotYetRecorded
  }

  /** The text the component renders for a verdict. */
  function Message(v: Verdict): (text: string)
    ensures text == "Render times not yet recorded." <==> v.NotYetRecorded?
    ensures v.MostEfficient? ==> text == Name(v.winner) + " is the most efficient."
  {
    match v
    case NotYetRecorded => "Render times not yet recorded."
    case MostEfficient(b) =>
      var text := Name(b) + " is the most efficient.";
      // index 7 tells every winner text from the unmeasured one
      assert text[7] != "Render times not yet recorded."[7];
      text
  }

  /**
   * Reference definition of the winner: `b` has a minimal sample and every
   * back-end before it in the tie-break order is strictly slower.
   */
  ghost predicate IsFirstFastest(t: RenderTimes, b: Backend)
  {
    && (forall other :: t.Get(b) <= t.Get(other))
    && (forall other :: Rank(other) < Rank(b) ==> t.Get(b) < t.Get(other))
  }

  /** The verdict is "not yet recorded" exactly when some sample is 0. */
  lemma VerdictGate(t: RenderTimes)
    ensures Decide(t) == NotYetRecorded <==> (t.canvas == 0 || t.echarts == 0 || t.recharts == 0)
  {
  }

  /**
   * A sample of 0 for any one back-end hides the comparison, whatever the
   * other two samples are; a genuinely measured 0 ms is not told apart.
   */
  lemma ZeroSampleHidesVerdict(t: RenderTimes, b: Backend)
    requires t.Get(b) == 0
    ensures Decide(t) == NotYetRecorded
  {
  }

  /**
   * Once all three samples are non-zero, the verdict names `b` if and only if
   * `b` is the first fastest back-end.
   */
  lemma VerdictIsFirstFastest(t: RenderTimes, b: Backend)
    requires AllRecorded(t)
    ensures Decide(t) == MostEfficient(b) <==> IsFirstFastest(t, b)
  {
    assert t.Get(CanvasJS) == t.canvas && t.Get(ECharts) == t.echarts && t.Get(Recharts) == t.recharts;
    assert Rank(CanvasJS) == 0 && Rank(ECharts) == 1 && Rank(Recharts) == 2;
  }

  /** The winner's sample is the minimum of the three. */
  lemma WinnerIsFastest(t: RenderTimes)
    requires AllRecorded(t)
    ensures Decide(t).MostEfficient?
    ensures t.Get(Decide(t).winner) == Min3(t.canvas, t.echarts, t.recharts)
  {
  }

  /** Two examples: 12/8/15 ms and the tie 10/10/20 ms. */
  lemma VerdictExamples()
    ensures Decide(RenderTimes(12, 8, 15)) == MostEfficient(ECharts)
    ensures Decide(RenderTimes(10, 10, 20)) == MostEfficient(CanvasJS)
  {
  }

  /**
   * Starting from no samples, recording any two (possibly the same back-end
   * twice) leaves at least one back-end unmeasured.
   */
  lemma TwoSamplesLeaveVerdictOpen(b1: Backend, v1: int, b2: Backend, v2: int)
    ensures Decide(Unrecorded.With(b1, v1).With(b2, v2)) == NotYetRecorded
  {
  }
}
