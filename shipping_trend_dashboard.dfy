/**
 * The shipping-trend dashboard: the global maximum cost, bar heights relative to it,
 * the list of selected markets, the charts drawn for them and the latest prediction
 * shown for each.
 */
module ShippingTrendDashboard {
  import opened Wrappers
  import opened Sequences
  import opened PredictionData
  import MarketData
  import SimpleChart

  /** `market.trends.map(t => t.cost)` */
  function TrendCosts(ts: seq<Trend>): (r: seq<real>)
    ensures |r| == |ts|
    ensures forall j :: 0 <= j < |ts| ==> r[j] == ts[j].cost
  {
    seq(|ts|, j requires 0 <= j < |ts| => ts[j].cost)
  }

  /** `predictionData.flatMap(market => market.trends.map(t => t.cost))` */
  function AllCosts(preds: seq<MarketPrediction>): (r: seq<real>)
    ensures forall i, j :: 0 <= i < |preds| && 0 <= j < |preds[i].trends| ==> preds[i].trends[j].cost in r
  {
    if preds == [] then []
    else
      var head := TrendCosts(preds[0].trends);
      var rest := AllCosts(preds[1..]);
      assert forall i :: 1 <= i < |preds| ==> preds[i] == preds[1..][i - 1];
      assert forall j :: 0 <= j < |preds[0].trends| ==> preds[0].trends[j].cost == head[j];
      head + rest
  }

  /** The cost of the `j`-th trend of series `i`. */
  predicate IsTrendCost(preds: seq<MarketPrediction>, i: int, j: int, x: real)
  {
    0 <= i < |preds| && 0 <= j < |preds[i].trends| && preds[i].trends[j].cost == x
  }

  /** The flattened list holds exactly the costs of all trends. */
  lemma {:induction false} AllCostsContents(preds: seq<MarketPrediction>)
    ensures forall x :: x in AllCosts(preds) <==> exists i, j :: IsTrendCost(preds, i, j, x)
  {
    if preds != [] {
      AllCostsContents(preds[1..]);
      var head := TrendCosts(preds[0].trends);
      forall x ensures x in AllCosts(preds) <==> exists i, j :: IsTrendCost(preds, i, j, x) {
        if x in head {
          var j :| 0 <= j < |head| && head[j] == x;
          assert IsTrendCost(preds, 0, j, x);
        } else if x in AllCosts(preds[1..]) {
          var i, j :| IsTrendCost(preds[1..], i, j, x);
          assert IsTrendCost(preds, i + 1, j, x);
        }
        if exists i, j :: IsTrendCost(preds, i, j, x) {
          var i, j :| IsTrendCost(preds, i, j, x);
          if i == 0 {
            assert head[j] == x;
          } else {
            assert IsTrendCost(preds[1..], i - 1, j, x);
          }
        }
      }
    }
  }

  /** There are no costs at all exactly when every series is empty. */
  lemma AllCostsEmpty(preds: seq<MarketPrediction>)
    ensures AllCosts(preds) == [] <==> forall i :: 0 <= i < |preds| ==> preds[i].trends == []
  {
    AllCostsContents(preds);
    forall i | 0 <= i < |preds| && preds[i].trends != []
      ensures preds[i].trends[0].cost in AllCosts(preds)
    {
      assert IsTrendCost(preds, i, 0, preds[i].trends[0].cost);
    }
    if AllCosts(preds) != [] {
      var x := AllCosts(preds)[0];
      assert x in AllCosts(preds);
      var i, j :| IsTrendCost(preds, i, j, x);
    }
  }

  /** Every trend cost is at most the maximum of the flattened list. */
  lemma AllCostsBounded(preds: seq<MarketPrediction>)
    requires AllCosts(preds) != []
    ensures forall i, j :: 0 <= i < |preds| && 0 <= j < |preds[i].trends| ==>
      preds[i].trends[j].cost <= MaxOf(AllCosts(preds))
  {
    AllCostsContents(preds);
    forall i, j | 0 <= i < |preds| && 0 <= j < |preds[i].trends|
      ensures preds[i].trends[j].cost <= MaxOf(AllCosts(preds))
    {
      var x := preds[i].trends[j].cost;
      assert IsTrendCost(preds, i, j, x);
      assert x in AllCosts(preds);
    }
  }

  /**
   * `maxCost`: `Math.max` over every cost of every market. With no costs at all
   * JavaScript's `Math.max()` is -Infinity; that case is `None` here.
   */
  function MaxTrendCost(preds: seq<MarketPrediction>): (r: Option<real>)
    ensures r.None? <==> forall i :: 0 <= i < |preds| ==> preds[i].trends == []
    ensures r.Some? ==> forall i, j :: 0 <= i < |preds| && 0 <= j < |preds[i].trends| ==>
      preds[i].trends[j].cost <= r.value
    ensures r.Some? ==> exists i, j :: IsTrendCost(preds, i, j, r.value)
  {
    var costs := AllCosts(preds);
    AllCostsEmpty(preds);
    AllCostsContents(preds);
    if costs == [] then None
    else
      AllCostsBounded(preds);
      Some(MaxOf(costs))
  }

  /** One bar of the dashboard: month label, cost and height as a percentage of the maximum. */
  datatype ProcessedPoint = ProcessedPoint(month: string, cost: real, height: real)

  datatype ProcessedMarket = ProcessedMarket(marketId: string, data: seq<ProcessedPoint>)

  /** `trends.map(trend => ({ month, cost, height: cost / maxCost * 100 }))` */
  function ProcessTrends(ts: seq<Trend>, maxCost: real): (r: seq<ProcessedPoint>)
    requires maxCost != 0.0
    ensures |r| == |ts|
    ensures forall j :: 0 <= j < |ts| ==>
      r[j].month == ts[j].month && r[j].cost == ts[j].cost && r[j].height * maxCost == ts[j].cost * 100.0
  {
    seq(|ts|, j requires 0 <= j < |ts| => ProcessedPoint(ts[j].month, ts[j].cost, ts[j].cost / maxCost * 100.0))
  }

  /**
   * `processedData`: the same markets in the same order, each with one point per trend
   * keeping its month and cost, and a height that is the cost as a percentage of the
   * maximum. Heights divide by the maximum, which must not be 0.
   */
  function ProcessedData(preds: seq<MarketPrediction>): (r: seq<ProcessedMarket>)
    requires MaxTrendCost(preds) != Some(0.0)
    ensures |r| == |preds|
    ensures forall i :: 0 <= i < |preds| ==>
      r[i].marketId == preds[i].marketId && |r[i].data| == |preds[i].trends|
    ensures forall i, j :: 0 <= i < |preds| && 0 <= j < |preds[i].trends| ==>
      r[i].data[j].month == preds[i].trends[j].month && r[i].data[j].cost == preds[i].trends[j].cost
    ensures MaxTrendCost(preds).Some? ==>
      forall i, j :: 0 <= i < |preds| && 0 <= j < |preds[i].trends| ==>
        r[i].data[j].height == preds[i].trends[j].cost / MaxTrendCost(preds).value * 100.0
  {
    match MaxTrendCost(preds)
    case None =>
      seq(|preds|, i requires 0 <= i < |preds| => ProcessedMarket(preds[i].marketId, []))
    case Some(maxCost) =>
      seq(|preds|, i requires 0 <= i < |preds| =>
        ProcessedMarket(preds[i].marketId, ProcessTrends(preds[i].trends, maxCost)))
  }

  /** A positive cost over a maximum it does not exceed, as a percentage. */
  lemma PercentOfMaximum(cost: real, maxCost: real)
    requires 0.0 < cost <= maxCost
    ensures 0.0 < cost / maxCost * 100.0 <= 100.0
    ensures cost / maxCost * 100.0 == 100.0 <==> cost == maxCost
  {
    SimpleChart.UnitFraction(cost, maxCost);
    assert cost / maxCost > 0.0;
  }

  /** With positive costs every height lies in (0, 100], and it is 100 exactly at the maximum. */
  lemma HeightBounds(preds: seq<MarketPrediction>, i: nat, j: nat)
    requires forall a, b :: 0 <= a < |preds| && 0 <= b < |preds[a].trends| ==> preds[a].trends[b].cost > 0.0
    requires i < |preds| && j < |preds[i].trends|
    ensures MaxTrendCost(preds).Some? && MaxTrendCost(preds).value > 0.0
    ensures var point := ProcessedData(preds)[i].data[j];
      && 0.0 < point.height <= 100.0
      && (point.height == 100.0 <==> point.cost == MaxTrendCost(preds).value)
  {
    var maxCost := MaxTrendCost(preds).value;
    var cost := preds[i].trends[j].cost;
    var point := ProcessedData(preds)[i].data[j];
    assert point == ProcessTrends(preds[i].trends, maxCost)[j];
    PercentOfMaximum(cost, maxCost);
  }

  /** `processedData.filter(market => selectedMarkets.includes(market.marketId))` */
  function ChartMarkets(processed: seq<ProcessedMarket>, selected: seq<string>): (r: seq<ProcessedMarket>)
    ensures forall m :: m in r <==> m in processed && m.marketId in selected
    ensures IsSubsequence(r, processed)
  {
    if processed == [] then []
    else
      var rest := ChartMarkets(processed[1..], selected);
      assert forall m :: m in processed <==> m == processed[0] || m in processed[1..];
      if processed[0].marketId in selected then [processed[0]] + rest
      else
        SubsequenceSkip(rest, processed);
        rest
  }

  /** `predictionData.find(m => m.marketId === marketId)`: the first series of that market. */
  function FindPrediction(preds: seq<MarketPrediction>, marketId: string): (r: Option<MarketPrediction>)
    ensures r.None? <==> forall i :: 0 <= i < |preds| ==> preds[i].marketId != marketId
    ensures r.Some? ==> r.value.marketId == marketId
    ensures r.Some? ==>
      exists i :: 0 <= i < |preds| && preds[i] == r.value && (forall k :: 0 <= k < i ==> preds[k].marketId != marketId)
  {
    if preds == [] then None
    else if preds[0].marketId == marketId then Some(preds[0])
    else
      var r := FindPrediction(preds[1..], marketId);
      assert forall i :: 1 <= i < |preds| ==> preds[i] == preds[1..][i - 1];
      r
  }

  /** `find(..)?.trends.slice(-1)[0]`: the last trend of that series, absent when there is
      no series for the market or its series is empty. */
  function LatestTrend(preds: seq<MarketPrediction>, marketId: string): (r: Option<Trend>)
    ensures r.Some? <==> FindPrediction(preds, marketId).Some? && FindPrediction(preds, marketId).value.trends != []
    ensures r.Some? ==> var ts := FindPrediction(preds, marketId).value.trends; r.value == ts[|ts| - 1]
  {
    match FindPrediction(preds, marketId)
    case None => None
    case Some(p) => if p.trends == [] then None else Some(p.trends[|p.trends| - 1])
  }

  /** `(latestTrend?.confidence || 0) * 100`: the confidence as a percentage, 0 when absent. */
  function DisplayedConfidence(t: Option<Trend>): (r: real)
    ensures t.None? ==> r == 0.0
    ensures t.Some? && 0.0 < t.value.confidence <= 1.0 ==> 0.0 < r <= 100.0
    ensures t.Some? ==> r == t.value.confidence * 100.0
  {
    match t
    case None => 0.0
    case Some(trend) => trend.confidence * 100.0
  }

  /** The dashboard's one state cell: the markets whose charts are shown, in selection order. */
  class Dashboard {
    var selectedMarkets: seq<string>

    /** The toggle buttons list the markets of the cost table, so only those can be selected. */
    ghost predicate Valid()
      reads this
    {
      && NoDuplicates(selectedMarkets)
      && forall i :: 0 <= i < |selectedMarkets| ==> selectedMarkets[i] in MarketData.Markets
    }

    constructor ()
      ensures Valid() && selectedMarkets == ["china", "japan"]
    {
      selectedMarkets := ["china", "japan"];
    }

    /** A market button's `onClick`: deselect the market if selected, append it otherwise. */
    method ToggleMarket(marketId: string)
      requires Valid() && marketId in MarketData.Markets
      modifies this
      ensures Valid()
      ensures selectedMarkets == Toggle(old(selectedMarkets), marketId)
    {
      ToggleNoDuplicates(selectedMarkets, marketId);
      if marketId in selectedMarkets {
        selectedMarkets := RemoveAll(selectedMarkets, marketId);
      } else {
        selectedMarkets := selectedMarkets + [marketId];
      }
      assert forall i :: 0 <= i < |selectedMarkets| ==> selectedMarkets[i] in old(selectedMarkets) || selectedMarkets[i] == marketId;
    }
  }

  /** Over the shipped predictions the maximum is 3.4 (USA, December 2025) and the minimum 1.8. */
  lemma PredictionExtremes()
    ensures MaxTrendCost(Predictions) == Some(3.4)
    ensures |AllCosts(Predictions)| > 0 && MinOf(AllCosts(Predictions)) == 1.8
  {
    CostRanges();
    AllCostsContents(Predictions);
    assert IsTrendCost(Predictions, 2, 12, 3.4);
    assert IsTrendCost(Predictions, 1, 6, 1.8);
    var costs := AllCosts(Predictions);
    forall k | 0 <= k < |costs| ensures 1.8 <= costs[k] <= 3.4 {
      assert costs[k] in costs;
      var i, j :| IsTrendCost(Predictions, i, j, costs[k]);
    }
    MaxOfUnique(costs, 3.4);
    MinOfUnique(costs, 1.8);
  }

  /** Every market that can be selected has a series whose latest entry is December 2025,
      the month the "Latest Prediction (Dec 2025)" caption names. */
  lemma LatestIsDecember2025(marketId: string)
    requires marketId in MarketData.Markets
    ensures LatestTrend(Predictions, marketId).Some?
    ensures var t := LatestTrend(Predictions, marketId).value;
      IsMonthLabel(t.month) && MonthNumber(t.month) == 2025 * 12 + 11
  {
    PredictionsShape();
    assert Predictions[0].marketId == "china";
    assert marketId == "china" || marketId == "japan" || marketId == "usa";
    var p := FindPrediction(Predictions, marketId).value;
    assert p in Predictions;
    WellFormedSeriesMonths(p.trends);
  }

  /** Only markets of the cost table are ever charted, so the singapore series, which has
      predictions but no button, never is. */
  lemma OnlySelectableMarketsCharted(processed: seq<ProcessedMarket>, selected: seq<string>)
    requires forall i :: 0 <= i < |selected| ==> selected[i] in MarketData.Markets
    ensures forall m :: m in ChartMarkets(processed, selected) ==> m.marketId in MarketData.Markets
    ensures forall m :: m in ChartMarkets(processed, selected) ==> m.marketId != "singapore"
  {
    assert "singapore" !in MarketData.Markets;
  }
}
