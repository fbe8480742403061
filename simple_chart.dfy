/**
 * The SVG line chart of one market's predicted costs: fixed canvas constants,
 * linear maps from point index to x and from cost to y (larger costs higher up),
 * and the path through the points.
 */
module SimpleChart {
  import opened Sequences

  const Width: real := 800.0
  const Height: real := 300.0
  const Padding: real := 40.0
  const ChartWidth: real := Width - Padding * 2.0
  const ChartHeight: real := Height - Padding * 2.0

  /** One point handed to the chart: its month label and its cost. */
  datatype DataPoint = DataPoint(month: string, cost: real)

  /** `data.map(d => d.cost)` */
  function Costs(data: seq<DataPoint>): (r: seq<real>)
    ensures |r| == |data|
    ensures forall i :: 0 <= i < |data| ==> r[i] == data[i].cost
  {
    seq(|data|, i requires 0 <= i < |data| => data[i].cost)
  }

  lemma ChartDimensions()
    ensures ChartWidth == 720.0 && ChartHeight == 220.0
  {
  }

  /** `yScale`. Divides by `maxCost - minCost`, so the two must differ. */
  function YScale(cost: real, minCost: real, maxCost: real): (y: real)
    requires maxCost != minCost
    ensures (Height - Padding - y) * (maxCost - minCost) == (cost - minCost) * ChartHeight
  {
    var t := (cost - minCost) / (maxCost - minCost);
    assert t * (maxCost - minCost) == cost - minCost;
    ChartHeight - t * ChartHeight + Padding
  }

  /** `xScale`. Divides by `data.length - 1`, so there must be at least two points. */
  function XScale(index: nat, count: nat): (x: real)
    requires count >= 2
    ensures (x - Padding) * (count - 1) as real == index as real * ChartWidth
  {
    var t := index as real / (count - 1) as real;
    assert t * (count - 1) as real == index as real;
    t * ChartWidth + Padding
  }

  /** The first point sits on the left padding, the last on the right edge of the plot area. */
  lemma XScaleEndpoints(count: nat)
    requires count >= 2
    ensures XScale(0, count) == 40.0
    ensures XScale(count - 1, count) == 760.0
  {
  }

  /** Later points lie further right. */
  lemma XScaleIncreasing(i: nat, j: nat, count: nat)
    requires count >= 2 && i < j
    ensures XScale(i, count) < XScale(j, count)
  {
    var d := (count - 1) as real;
    assert i as real / d < j as real / d by {
      DivStrictlyIncreasing(i as real, j as real, d);
    }
  }

  lemma DivStrictlyIncreasing(a: real, b: real, d: real)
    requires a < b && d > 0.0
    ensures a / d < b / d
  {
    assert b / d - a / d == (b - a) / d;
    assert (b - a) / d > 0.0;
  }

  /** The three axis labels (minimum, midpoint, maximum) sit at the bottom, middle and top. */
  lemma YScaleAxisPositions(minCost: real, maxCost: real)
    requires maxCost > minCost
    ensures var labels := AxisLabelCosts(minCost, maxCost);
      && YScale(labels[0], minCost, maxCost) == 260.0
      && YScale(labels[1], minCost, maxCost) == 150.0
      && YScale(labels[2], minCost, maxCost) == 40.0
  {
    var span := maxCost - minCost;
    assert ((minCost + maxCost) / 2.0 - minCost) / span == 0.5;
    SelfDiv(span);
  }

  /** Higher costs are drawn higher (smaller y). */
  lemma YScaleDecreasing(c1: real, c2: real, minCost: real, maxCost: real)
    requires maxCost > minCost && c1 < c2
    ensures YScale(c1, minCost, maxCost) > YScale(c2, minCost, maxCost)
  {
    DivStrictlyIncreasing(c1 - minCost, c2 - minCost, maxCost - minCost);
  }

  /** Costs between the minimum and the maximum land inside the plot area, [40, 260]. */
  lemma YScaleBounds(cost: real, minCost: real, maxCost: real)
    requires minCost <= cost <= maxCost && maxCost > minCost
    ensures 40.0 <= YScale(cost, minCost, maxCost) <= 260.0
  {
    UnitFraction(cost - minCost, maxCost - minCost);
  }

  /** Indices of the data land inside the plot area, [40, 760]. */
  lemma XScaleBounds(index: nat, count: nat)
    requires count >= 2 && index < count
    ensures 40.0 <= XScale(index, count) <= 760.0
  {
    UnitFraction(index as real, (count - 1) as real);
  }

  lemma SelfDiv(d: real)
    requires d != 0.0
    ensures d / d == 1.0
  {
  }

  /** A share of a positive whole that does not exceed it lies in [0, 1], and is 1 only for the whole. */
  lemma UnitFraction(a: real, d: real)
    requires 0.0 <= a <= d && d > 0.0
    ensures 0.0 <= a / d <= 1.0
    ensures a / d == 1.0 <==> a == d
  {
    SelfDiv(d);
    assert d / d - a / d == (d - a) / d;
    assert (d - a) / d >= 0.0;
    if a / d == 1.0 {
      assert (d - a) / d == 0.0;
      assert d - a == ((d - a) / d) * d;
    }
  }

  /** One command of the SVG path: `M x y` or `L x y`. */
  datatype PathCommand = MoveTo(x: real, y: real) | LineTo(x: real, y: real)

  /** `linePath`: one command per point, a move to the first point and a line to each later one. */
  function LinePath(data: seq<DataPoint>): (path: seq<PathCommand>)
    requires |data| >= 2 && MaxOf(Costs(data)) != MinOf(Costs(data))
    ensures |path| == |data|
    ensures path[0].MoveTo?
    ensures forall i :: 1 <= i < |path| ==> path[i].LineTo?
  {
    var minCost := MinOf(Costs(data));
    var maxCost := MaxOf(Costs(data));
    seq(|data|, i requires 0 <= i < |data| =>
      var x := XScale(i, |data|);
      var y := YScale(data[i].cost, minCost, maxCost);
      if i == 0 then MoveTo(x, y) else LineTo(x, y))
  }

  /** Every point of the path lies inside the plot area, and the path runs left to right. */
  lemma LinePathInBounds(data: seq<DataPoint>)
    requires |data| >= 2 && MaxOf(Costs(data)) != MinOf(Costs(data))
    ensures var path := LinePath(data);
      && (forall i :: 0 <= i < |path| ==>
            40.0 <= path[i].x <= 760.0 && 40.0 <= path[i].y <= 260.0)
      && (forall i, j :: 0 <= i < j < |path| ==> path[i].x < path[j].x)
  {
    var path := LinePath(data);
    var costs := Costs(data);
    var minCost := MinOf(costs);
    var maxCost := MaxOf(costs);
    assert minCost <= costs[0] <= maxCost;
    forall i | 0 <= i < |path| ensures 40.0 <= path[i].x <= 760.0 && 40.0 <= path[i].y <= 260.0 {
      XScaleBounds(i, |data|);
      assert minCost <= costs[i] <= maxCost;
      YScaleBounds(data[i].cost, minCost, maxCost);
    }
    forall i, j | 0 <= i < j < |path| ensures path[i].x < path[j].x {
      XScaleIncreasing(i, j, |data|);
    }
  }

  /** The costs written beside the y axis: minimum, midpoint and maximum. */
  function AxisLabelCosts(minCost: real, maxCost: real): (r: seq<real>)
    ensures |r| == 3
    ensures r[0] == minCost && r[2] == maxCost
    ensures r[1] - r[0] == r[2] - r[1]
  {
    [minCost, (minCost + maxCost) / 2.0, maxCost]
  }
}
