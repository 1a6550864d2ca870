/**
 * The shared data series: a bounded integer random walk of points, and the
 * `[x, y]` pair list the ECharts option is built from.
 */
module DataSeries {

  /** One generated point: its generation index and the walk's value there. */
  datatype Point = Point(x: int, y: int)

  /** The walk's value before the first step. */
  const StartY := 100

  /** The largest move of one step, in either direction. */
  const MaxStep := 5

  /** The number of points the component generates. */
  const Limit := 100000

  /** A sequence of steps that the random source can produce. */
  predicate BoundedSteps(steps: seq<int>)
  {
    forall i :: 0 <= i < |steps| ==> -MaxStep <= steps[i] <= MaxStep
  }

  /** JavaScript's `Math.round`: halves round towards positive infinity. */
  function JsRound(v: real): int
  {
    (v + 0.5).Floor
  }

  /**
   * One step of the walk from a draw `r` of `Math.random()` in [0, 1):
   * `Math.round(r * 10 - 5)` always lies within the step bound.
   */
  function RandomStep(r: real): (step: int)
    requires 0.0 <= r < 1.0
    ensures -MaxStep <= step <= MaxStep
  {
    JsRound(r * 10.0 - 5.0)
  }

  /**
   * The steps produced by a sequence of draws of `Math.random()`, one draw
   * per generated point; every such sequence is within the step bound.
   */
  function RandomSteps(draws: seq<real>): (steps: seq<int>)
    requires forall i :: 0 <= i < |draws| ==> 0.0 <= draws[i] < 1.0
    ensures |steps| == |draws|
    ensures BoundedSteps(steps)
    ensures forall i :: 0 <= i < |draws| ==> steps[i] == RandomStep(draws[i])
  {
    if draws == [] then [] else [RandomStep(draws[0])] + RandomSteps(draws[1..])
  }

  /**
   * The points produced from the value `y` before them, the index `from` of
   * the first of them, and the remaining steps: each step moves the value
   * first, and the point records the moved value.
   */
  function Walk(y: int, from: nat, steps: seq<int>): (r: seq<Point>)
    ensures |r| == |steps|
    decreases |steps|
  {
    if steps == [] then []
    else
      var next := y + steps[0];
      [Point(from, next)] + Walk(next, from + 1, steps[1..])
  }

  /** The series the component generates from its random steps. */
  function Generate(steps: seq<int>): (r: seq<Point>)
    ensures |r| == |steps|
    ensures forall i :: 0 <= i < |steps| ==> r[i].x == i
  {
    WalkShape(StartY, 0, steps);
    Walk(StartY, 0, steps)
  }

  /** The sum of a sequence of steps. */
  function Sum(s: seq<int>): int
  {
    if s == [] then 0 else s[0] + Sum(s[1..])
  }

  /** The `x` values of a walk count up from `from`. */
  lemma {:induction false} WalkShape(y: int, from: nat, steps: seq<int>)
    ensures forall k :: 0 <= k < |steps| ==> Walk(y, from, steps)[k].x == from + k
    decreases |steps|
  {
    if steps != [] {
      WalkShape(y + steps[0], from + 1, steps[1..]);
    }
  }

  /** Point `k` of a walk holds the start value plus the first `k + 1` steps. */
  lemma {:induction false} WalkValue(y: int, from: nat, steps: seq<int>, k: nat)
    requires k < |steps|
    ensures Walk(y, from, steps)[k].y == y + Sum(steps[..k + 1])
    decreases |steps|
  {
    WalkShape(y, from, steps);
    if k > 0 {
      WalkValue(y + steps[0], from + 1, steps[1..], k - 1);
      assert steps[..k + 1][1..] == steps[1..][..k];
    }
  }

  /** Consecutive points of a walk differ by exactly the step between them. */
  lemma {:induction false} WalkIncrement(y: int, from: nat, steps: seq<int>, k: nat)
    requires 0 < k < |steps|
    ensures Walk(y, from, steps)[k].y - Walk(y, from, steps)[k - 1].y == steps[k]
    decreases |steps|
  {
    WalkShape(y, from, steps);
    WalkShape(y + steps[0], from + 1, steps[1..]);
    if k > 1 {
      WalkIncrement(y + steps[0], from + 1, steps[1..], k - 1);
    }
  }

  /** Bounded steps have a bounded sum. */
  lemma {:induction false} SumBound(s: seq<int>)
    requires BoundedSteps(s)
    ensures -MaxStep * |s| <= Sum(s) <= MaxStep * |s|
  {
    if s != [] {
      assert BoundedSteps(s[1..]) by {
        forall i | 0 <= i < |s[1..]| ensures -MaxStep <= s[1..][i] <= MaxStep {
          assert s[1..][i] == s[i + 1];
        }
      }
      SumBound(s[1..]);
    }
  }

  /**
   * The values of the generated series: the first within one step of the
   * start, and each later one within one step of the one before it.
   */
  lemma GeneratedSeries(steps: seq<int>)
    requires BoundedSteps(steps)
    ensures |steps| > 0 ==> StartY - MaxStep <= Generate(steps)[0].y <= StartY + MaxStep
    ensures forall i :: 0 < i < |steps| ==>
      -MaxStep <= Generate(steps)[i].y - Generate(steps)[i - 1].y <= MaxStep
  {
    forall i | 0 < i < |steps|
      ensures -MaxStep <= Generate(steps)[i].y - Generate(steps)[i - 1].y <= MaxStep
    {
      WalkIncrement(StartY, 0, steps, i);
    }
  }

  /**
   * The walk is not clamped, but after `k + 1` bounded steps it is at most
   * `5 * (k + 1)` away from the start value.
   */
  lemma GeneratedDrift(steps: seq<int>, k: nat)
    requires BoundedSteps(steps)
    requires k < |steps|
    ensures -MaxStep * (k + 1) <= Generate(steps)[k].y - StartY <= MaxStep * (k + 1)
  {
    WalkValue(StartY, 0, steps, k);
    var prefix := steps[..k + 1];
    assert BoundedSteps(prefix) by {
      forall i | 0 <= i < |prefix| ensures -MaxStep <= prefix[i] <= MaxStep {
        assert prefix[i] == steps[i];
      }
    }
    SumBound(prefix);
  }

  /** The ECharts series data: every point mapped to its `[x, y]` pair, in order. */
  function Series(points: seq<Point>): (r: seq<(int, int)>)
    ensures |r| == |points|
  {
    if points == [] then [] else [(points[0].x, points[0].y)] + Series(points[1..])
  }

  /** Reads a pair list back as points. */
  function FromSeries(pairs: seq<(int, int)>): seq<Point>
  {
    if pairs == [] then [] else [Point(pairs[0].0, pairs[0].1)] + FromSeries(pairs[1..])
  }

  /** Pair `i` of the series is point `i`. */
  lemma {:induction false} SeriesShape(points: seq<Point>)
    ensures forall i :: 0 <= i < |points| ==> Series(points)[i] == (points[i].x, points[i].y)
  {
    if points != [] {
      SeriesShape(points[1..]);
    }
  }

  /** Mapping the points to pairs loses nothing: the pairs give the points back. */
  lemma {:induction false} SeriesRoundTrip(points: seq<Point>)
    ensures FromSeries(Series(points)) == points
  {
    if points != [] {
      SeriesRoundTrip(points[1..]);
      assert points == [points[0]] + points[1..];
    }
  }
}
