# Lobster export demo — a verified model of its calculation layer

This project models the logic under the UI of a small React demo for Australian
lobster exporters, and proves properties of it. It covers:

- the **export cost calculator**: form validation, a four-part cost breakdown, and the
  `error` / `breakdown` state cells;
- the **market-closure simulator**: a list of closed markets, plus a map from each closed
  market to an analysis of the open alternatives, costed and sorted cheapest first, with
  threshold-based "advantages";
- the **shipping-trend dashboard**: the global maximum cost, bar heights as a percentage
  of it, the selection toggle, the chart filter and the latest-prediction lookup;
- the **SVG line chart**: canvas constants, the index→x and cost→y scales, the path
  commands and the axis-label values;
- the **trade-scenario panel**: a status branch over its own constant tables, and
  first-letter capitalisation of market labels;
- the two **constant tables**: the three-market cost table and the four prediction series.

All amounts are `real`. A text field's value enters the model already parsed, as an
`Option<real>` (`None` for a blank field).

State that the components keep with `useState` is modelled as a class. Each event handler
is a method that runs as one sequential transition on that state.

Modules and files:

| file | module | models |
|---|---|---|
| wrappers.dfy | Wrappers | `Option` and `Result` |
| sequences.dfy | Sequences | the toggle idiom `includes ? filter : [...prev, id]`, `Math.max` / `Math.min` |
| market_types.dfy | MarketTypes | `RegulationRequirement`, `ShippingCost`, `MarketData`, `CostBreakdown` |
| market_data.dfy | MarketData | the `marketData` table |
| cost_calculator.dfy | CostCalculator | `calculateCosts` and its state |
| market_simulator.dfy | MarketSimulator | `calculateTotalCost`, `generateAdvantages`, `toggleMarketClosure`, `analyzeAlternatives`, the quantity handler |
| simple_chart.dfy | SimpleChart | `SimpleChart`'s scales, path and labels |
| prediction_data.dfy | PredictionData | the `predictionData` series |
| shipping_trend_dashboard.dfy | ShippingTrendDashboard | `maxCost`, `processedData`, selection, filter, latest trend |
| trade_scenario.dfy | TradeScenario | the `markets` / `costs` tables and the panel |

## Model

| member | source | states |
|---|---|---|
| CostCalculator.RegulatoryCost | components/CostCalculator/CostCalculator.tsx:44 | The sum of the regulation costs: non-negative when every cost is, and then at least each single cost |
| CostCalculator.Validate | components/CostCalculator/CostCalculator.tsx:24-38 | The checks run in order: an empty destination gives NoDestination. Otherwise a blank or ≤ 0 quantity gives InvalidQuantity. Otherwise an unknown key gives MarketNotFound. Success holds exactly when the key is known and the quantity is positive, and yields that market and quantity |
| CostCalculator.Calculator.constructor | components/CostCalculator/CostCalculator.tsx:15-18 | Both fields start empty; breakdown and error start null |
| CostCalculator.Calculator.SetDestination | components/CostCalculator/CostCalculator.tsx:68-76 | The select stores the chosen destination, one of its options: the blank placeholder or a key of the market table |
| CostCalculator.Calculator.SetQuantity | components/CostCalculator/CostCalculator.tsx:84 | The field stores the (parsed) quantity |
| CostCalculator.Calculator.CalculateCosts | components/CostCalculator/CostCalculator.tsx:20-60 | The error is null exactly when validation succeeds. On failure the error holds that check's message and the previous breakdown is unchanged. On success the breakdown is ComputeBreakdown of the market and quantity |
| CostCalculator.ComputeBreakdown | components/CostCalculator/CostCalculator.tsx:40-52 | The total is the sum of the four components, and the regulatory part is the fold over the market's regulations |
| CostCalculator.Message | components/CostCalculator/CostCalculator.tsx:25-36 | Each refusal has its own text: a text names exactly one refusal |
| CostCalculator.TotalIsLinear | components/CostCalculator/CostCalculator.tsx:41-51 | total = (price·(1+tariff) + per-kg rate)·qty + flat shipping + regulatory sum |
| CostCalculator.BreakdownBounds | components/CostCalculator/CostCalculator.tsx:46-52 | With non-negative market data and qty > 0, all four components are ≥ 0 and the total is ≥ each of them |
| CostCalculator.TotalMonotone | components/CostCalculator/CostCalculator.tsx:41-51 | With non-negative rates, a larger quantity never gives a smaller total |
| CostCalculator.TableRegulatoryCosts | data/marketData.ts:9-53 | The regulatory sums are China 400, Japan 200, USA 300 |
| CostCalculator.ChinaAtHundred | data/marketData.ts:4-25 | China at 100 kg breaks down as 5000 + 750 + 1000 + 400 = 7150 |
| MarketData.TableShape | data/marketData.ts:3-60 | Exactly the keys china, japan, usa, listed once each in insertion order, and each record's id is its key |
| MarketData.TableIdsOnce | data/marketData.ts:3-60 | Each key occurs exactly once in the ordered key list, and nothing else does |
| MarketData.TableValuesInRange | data/marketData.ts:7-58 | Every tariff is in [0, 1], and every price, rate and regulation cost is positive (so each market is non-negative) |
| MarketSimulator.TotalCost | components/MarketSimulator/MarketSimulator.tsx:25-32 | `calculateTotalCost` equals the total of the calculator's breakdown for the same market and quantity |
| MarketSimulator.Advantages | components/MarketSimulator/MarketSimulator.tsx:34-40 | At most three flags, in push order. "Lower shipping costs" iff per-kg ≤ 2.5, "Lower tariff rates" iff tariff ≤ 0.15, "Simpler regulatory requirements" iff at most one regulation; no other value |
| MarketSimulator.GenerateAdvantages | components/MarketSimulator/MarketSimulator.tsx:34-40 | The push sequence builds exactly the flag list above |
| MarketSimulator.EffectiveQuantity | components/MarketSimulator/MarketSimulator.tsx:64 | `parseFloat(q) \|\| 100`: a non-zero parsed value is kept; a missing or zero one becomes 100; the result is never 0 |
| MarketSimulator.OpenIds | components/MarketSimulator/MarketSimulator.tsx:67-68 | Every id kept is from the list, is not the closed market and is not already closed |
| MarketSimulator.OpenIdsCount | components/MarketSimulator/MarketSimulator.tsx:67-68 | The filter keeps each other open id exactly as often as it occurs, and drops the closed market and the closures |
| MarketSimulator.MakeAlternative | components/MarketSimulator/MarketSimulator.tsx:69-75 | An alternative carries its market's id and name, the calculator's total for that market as estimatedCost, and netCostDifference = estimatedCost − closedMarketCost |
| MarketSimulator.MakeAlternatives | components/MarketSimulator/MarketSimulator.tsx:69-75 | The map gives exactly one alternative per open id |
| MarketSimulator.MakeAlternativesAt | components/MarketSimulator/MarketSimulator.tsx:69-75 | The map gives one alternative per open id, in order, each built from its own market |
| MarketSimulator.Insert | components/MarketSimulator/MarketSimulator.tsx:76 | Inserting adds one entry: the result holds the new entry and the old ones, and nothing else |
| MarketSimulator.SortByCost | components/MarketSimulator/MarketSimulator.tsx:76 | The sort keeps the length and holds exactly the entries it was given |
| MarketSimulator.SortByCostSorted | components/MarketSimulator/MarketSimulator.tsx:76 | The sort orders alternatives by estimated cost, ascending |
| MarketSimulator.SortByCostPermutes | components/MarketSimulator/MarketSimulator.tsx:76 | The sort is a permutation (same multiset of alternatives) |
| MarketSimulator.SortByCostKeepsIds | components/MarketSimulator/MarketSimulator.tsx:76 | The sort keeps each market id exactly as often as it occurs |
| MarketSimulator.InsertSorted | components/MarketSimulator/MarketSimulator.tsx:76 | Inserting into a sorted list keeps it sorted |
| MarketSimulator.InsertPermutes | components/MarketSimulator/MarketSimulator.tsx:76 | Inserting adds exactly the one element |
| MarketSimulator.Analyze | components/MarketSimulator/MarketSimulator.tsx:63-85 | closedMarketCost is the calculator's total for the closed market, and the alternatives are listed cheapest first |
| MarketSimulator.RankedAlternatives | components/MarketSimulator/MarketSimulator.tsx:65-76 | The open alternatives come out sorted by estimated cost |
| MarketSimulator.AnalyzeOffersOpenMarkets | components/MarketSimulator/MarketSimulator.tsx:67-68 | An id is offered exactly once iff it is a known market, not the analysed one and not already closed; otherwise never |
| MarketSimulator.AnalyzeEntries | components/MarketSimulator/MarketSimulator.tsx:65-75 | closedMarketCost is the calculator's total for the closed market. Each alternative is a known market with its own name, the calculator's total as estimatedCost, netCostDifference = estimatedCost − closedMarketCost, and its own advantages |
| MarketSimulator.Simulator.constructor | components/MarketSimulator/MarketSimulator.tsx:12-23 | Quantity "100", no closures, no analyses |
| MarketSimulator.Simulator.ToggleMarketClosure | components/MarketSimulator/MarketSimulator.tsx:42-61 | The closure list is toggled. Reopening deletes only that market's analysis. Closing stores a fresh analysis for it, computed with the closures from before the toggle. Every other analysis is unchanged, and the state invariant (no duplicate closures; analyses keyed exactly by the closures) is kept |
| MarketSimulator.Simulator.ChangeQuantity | components/MarketSimulator/MarketSimulator.tsx:97-101 | Corrected handler: stores the quantity and recomputes every closed market's analysis at the new effective quantity. The closures and the set of analysed markets are unchanged |
| MarketSimulator.Simulator.ChangeQuantityAsWritten | components/MarketSimulator/MarketSimulator.tsx:97-101 | The handler as the component runs it: every analysis is recomputed at the previous effective quantity |
| MarketSimulator.StaleQuantityExample | components/MarketSimulator/MarketSimulator.tsx:97-100 | With China closed and the field moved from 100 to 200, the handler as written stores cost 7150; the new quantity gives 13400 |
| MarketSimulator.StaleQuantityScenario | components/MarketSimulator/MarketSimulator.tsx:42-101 | On a fresh simulator: close China, enter 200. The handler as written leaves China costed at 7150 (100 kg); the corrected handler on the same state gives 13400 |
| MarketSimulator.TableTotals | data/marketData.ts:4-59 | Totals are China 62.5q + 900, Japan 53.75q + 650, USA 55.8q + 900 |
| MarketSimulator.TableCostOrder | data/marketData.ts:4-59 | For every q > 0: Japan < USA < China |
| MarketSimulator.TableAdvantages | data/marketData.ts:8-57 | China earns only lower shipping, Japan all three, the USA lower tariff and simpler regulation |
| MarketSimulator.CloseChinaOpenIds | components/MarketSimulator/MarketSimulator.tsx:67-68 | With nothing else closed, closing China leaves japan, usa |
| MarketSimulator.CloseChinaAlternatives | components/MarketSimulator/MarketSimulator.tsx:69-75 | At 100 kg the alternatives are Japan 6025 (−1125, three flags) and USA 6480 (−670, two flags) |
| MarketSimulator.SortTwoOrdered | components/MarketSimulator/MarketSimulator.tsx:76 | Two alternatives already in cost order stay in that order |
| MarketSimulator.CloseChinaExample | components/MarketSimulator/MarketSimulator.tsx:63-76 | Closing China at the default quantity: 7150, then Japan 6025 (−1125), then USA 6480 (−670) |
| Sequences.RemoveAll | components/MarketSimulator/MarketSimulator.tsx:45 | `filter(id => id !== x)`: the result is a subsequence of the list (order kept) that holds x zero times and every other value exactly as often as the list does |
| Sequences.RemoveAllNoDuplicates | components/MarketSimulator/MarketSimulator.tsx:45 | Removal keeps a list free of duplicates |
| Sequences.Toggle | components/MarketSimulator/MarketSimulator.tsx:44-46 | A toggle flips the membership of its id; every other value occurs exactly as often as before; a removal keeps the others in order (a subsequence) |
| Sequences.ToggleKeepsOthers | components/MarketSimulator/MarketSimulator.tsx:44-46 | With the toggled id struck out, the list before and after is the same sequence: the others keep their relative order |
| Sequences.ToggleTwiceRestores | components/MarketSimulator/MarketSimulator.tsx:44-46 | Closing an open market and reopening it restores the list exactly |
| Sequences.ToggleNoDuplicates | components/MarketSimulator/MarketSimulator.tsx:44-46 | A toggle keeps a list free of duplicates |
| Sequences.SubsequenceSkip | components/ShippingTrendDashboard/ShippingTrendDashboard.tsx:77-79 | Skipping an element of the source keeps a filter result a subsequence |
| Sequences.MaxOf | components/ShippingTrendDashboard/SimpleChart.tsx:28 | `Math.max` of a non-empty list is one of its elements and ≥ all of them |
| Sequences.MinOf | components/ShippingTrendDashboard/SimpleChart.tsx:29 | `Math.min` of a non-empty list is one of its elements and ≤ all of them |
| Sequences.MaxOfUnique | components/ShippingTrendDashboard/SimpleChart.tsx:28 | Any element that bounds the list from above is its maximum |
| Sequences.MinOfUnique | components/ShippingTrendDashboard/SimpleChart.tsx:29 | Any element that bounds the list from below is its minimum |
| SimpleChart.Costs | components/ShippingTrendDashboard/SimpleChart.tsx:28 | One cost per point, in order |
| SimpleChart.ChartDimensions | components/ShippingTrendDashboard/SimpleChart.tsx:21-25 | The plot area is 720 × 220 |
| SimpleChart.XScale | components/ShippingTrendDashboard/SimpleChart.tsx:32-33 | x is the affine image of the index: (x − 40)·(count − 1) = index·720 |
| SimpleChart.YScale | components/ShippingTrendDashboard/SimpleChart.tsx:30-31 | y is the affine image of the cost, upside down: (260 − y)·(max − min) = (cost − min)·220 |
| SimpleChart.XScaleEndpoints | components/ShippingTrendDashboard/SimpleChart.tsx:32-33 | The first index maps to x = 40, the last to x = 760 |
| SimpleChart.XScaleIncreasing | components/ShippingTrendDashboard/SimpleChart.tsx:32-33 | x strictly increases with the index |
| SimpleChart.XScaleBounds | components/ShippingTrendDashboard/SimpleChart.tsx:32-33 | Every index of the data maps into [40, 760] |
| SimpleChart.YScaleAxisPositions | components/ShippingTrendDashboard/SimpleChart.tsx:30-31 | The three axis labels (minimum, midpoint, maximum) sit at y = 260, 150, 40 |
| SimpleChart.YScaleDecreasing | components/ShippingTrendDashboard/SimpleChart.tsx:30-31 | With max > min, a larger cost is drawn higher (smaller y) |
| SimpleChart.YScaleBounds | components/ShippingTrendDashboard/SimpleChart.tsx:28-31 | Every cost between the minimum and the maximum maps into [40, 260] |
| SimpleChart.LinePath | components/ShippingTrendDashboard/SimpleChart.tsx:36-42 | One command per point: a move to the first and a line to each later one |
| SimpleChart.LinePathInBounds | components/ShippingTrendDashboard/SimpleChart.tsx:36-42 | Every path point lies in the plot area, and x runs strictly left to right |
| SimpleChart.AxisLabelCosts | components/ShippingTrendDashboard/SimpleChart.tsx:68 | Three label values: the minimum, then the point halfway, then the maximum |
| PredictionData.CostRanges | data/predictionData.ts:7-73 | Every predicted cost lies in [1.8, 3.4]. USA's December 2025 entry is 3.4. Japan's and Singapore's June 2025 entries are 1.8 |
| PredictionData.SeriesMonthsEarly | data/predictionData.ts:7-11 | The shared labels 2024-12 … 2025-04 are valid labels, the i-th naming the month i months after December 2024 |
| PredictionData.SeriesMonthsMiddle | data/predictionData.ts:12-15 | Likewise for 2025-05 … 2025-08 |
| PredictionData.SeriesMonthsLate | data/predictionData.ts:16-19 | Likewise for 2025-09 … 2025-12 |
| PredictionData.LabelledSeriesMonths | data/predictionData.ts:7-19 | A series carrying the thirteen shared labels in order runs month by month from December 2024 |
| PredictionData.WellFormedSeriesMonths | data/predictionData.ts:7-19 | In a well-formed series each month directly follows the previous one, and the 13th is December 2025 |
| PredictionData.ChinaMonths | data/predictionData.ts:7-19 | China's entry i is the i-th month after December 2024 |
| PredictionData.ChinaPositive | data/predictionData.ts:7-19 | China's costs are positive and its confidences lie in (0, 1] |
| PredictionData.ChinaConfidence | data/predictionData.ts:7-19 | China's confidence never rises |
| PredictionData.ChinaWellFormed | data/predictionData.ts:7-19 | China's series has 13 consecutive months from 2024-12, positive costs and non-increasing confidence |
| PredictionData.JapanMonths | data/predictionData.ts:25-37 | Japan's entry i is the i-th month after December 2024 |
| PredictionData.JapanPositive | data/predictionData.ts:25-37 | Japan's costs are positive and its confidences lie in (0, 1] |
| PredictionData.JapanConfidence | data/predictionData.ts:25-37 | Japan's confidence never rises |
| PredictionData.JapanWellFormed | data/predictionData.ts:25-37 | Japan's series is well formed, as for China |
| PredictionData.UsaMonths | data/predictionData.ts:43-55 | The USA's entry i is the i-th month after December 2024 |
| PredictionData.UsaPositive | data/predictionData.ts:43-55 | The USA's costs are positive and its confidences lie in (0, 1] |
| PredictionData.UsaConfidence | data/predictionData.ts:43-55 | The USA's confidence never rises |
| PredictionData.UsaWellFormed | data/predictionData.ts:43-55 | The USA's series is well formed, as for China |
| PredictionData.SingaporeMonths | data/predictionData.ts:61-73 | Singapore's entry i is the i-th month after December 2024 |
| PredictionData.SingaporePositive | data/predictionData.ts:61-73 | Singapore's costs are positive and its confidences lie in (0, 1] |
| PredictionData.SingaporeConfidence | data/predictionData.ts:61-73 | Singapore's confidence never rises |
| PredictionData.SingaporeWellFormed | data/predictionData.ts:61-73 | Singapore's series is well formed, as for China |
| PredictionData.PredictionsShape | data/predictionData.ts:3-76 | Four series, in the order china, japan, usa, singapore, each well formed |
| ShippingTrendDashboard.TrendCosts | components/ShippingTrendDashboard/ShippingTrendDashboard.tsx:25 | One cost per trend, in order |
| ShippingTrendDashboard.AllCosts | components/ShippingTrendDashboard/ShippingTrendDashboard.tsx:24-26 | Every trend cost of every market is in the flattened list |
| ShippingTrendDashboard.AllCostsContents | components/ShippingTrendDashboard/ShippingTrendDashboard.tsx:23-27 | The flattened list holds exactly the costs of all trends of all markets |
| ShippingTrendDashboard.AllCostsEmpty | components/ShippingTrendDashboard/ShippingTrendDashboard.tsx:23-27 | The flattened list is empty iff every series is empty |
| ShippingTrendDashboard.AllCostsBounded | components/ShippingTrendDashboard/ShippingTrendDashboard.tsx:23-27 | Every trend cost is at most the maximum of the flattened list |
| ShippingTrendDashboard.MaxTrendCost | components/ShippingTrendDashboard/ShippingTrendDashboard.tsx:23-27 | `maxCost` is ≥ every trend cost of every market and equals one of them. It is absent (`Math.max()` of nothing) iff there are no trends |
| ShippingTrendDashboard.ProcessTrends | components/ShippingTrendDashboard/ShippingTrendDashboard.tsx:32-39 | One point per trend, with the same month and cost and height·maxCost = cost·100 |
| ShippingTrendDashboard.ProcessedData | components/ShippingTrendDashboard/ShippingTrendDashboard.tsx:30-40 | The same markets in the same order, the same number of points per market, each keeping its month and cost, with height = cost / maxCost · 100 |
| ShippingTrendDashboard.PercentOfMaximum | components/ShippingTrendDashboard/ShippingTrendDashboard.tsx:38 | For 0 < cost ≤ max, cost/max·100 is in (0, 100] and is 100 iff cost = max |
| ShippingTrendDashboard.HeightBounds | components/ShippingTrendDashboard/ShippingTrendDashboard.tsx:30-39 | With positive costs, every processed height is in (0, 100], and it is 100 exactly at the maximum |
| ShippingTrendDashboard.ChartMarkets | components/ShippingTrendDashboard/ShippingTrendDashboard.tsx:77-79 | A market is charted iff it is in the processed data and selected, in processed-data order (a subsequence) |
| ShippingTrendDashboard.FindPrediction | components/ShippingTrendDashboard/ShippingTrendDashboard.tsx:94-95 | `find`: absent iff no series has the id; otherwise the first series with that id |
| ShippingTrendDashboard.LatestTrend | components/ShippingTrendDashboard/ShippingTrendDashboard.tsx:94-96 | The last entry of the market's series; absent iff there is no series or it is empty |
| ShippingTrendDashboard.DisplayedConfidence | components/ShippingTrendDashboard/ShippingTrendDashboard.tsx:107 | confidence·100, or 0 when absent; in (0, 100] for a confidence in (0, 1] |
| ShippingTrendDashboard.Dashboard.constructor | components/ShippingTrendDashboard/ShippingTrendDashboard.tsx:20 | The selection starts as china, japan |
| ShippingTrendDashboard.Dashboard.ToggleMarket | components/ShippingTrendDashboard/ShippingTrendDashboard.tsx:61-65 | The selection is toggled (removed if present, appended if absent). It stays duplicate-free and within the table's markets |
| ShippingTrendDashboard.PredictionExtremes | components/ShippingTrendDashboard/ShippingTrendDashboard.tsx:23-27 | Over the shipped predictions `maxCost` is 3.4 and the minimum cost is 1.8 |
| ShippingTrendDashboard.LatestIsDecember2025 | components/ShippingTrendDashboard/ShippingTrendDashboard.tsx:94-102 | Every selectable market has a latest prediction, and it is December 2025, the month the caption names |
| ShippingTrendDashboard.OnlySelectableMarketsCharted | components/ShippingTrendDashboard/ShippingTrendDashboard.tsx:57-79 | With only table markets selectable, only table markets are charted; the singapore series never is |
| TradeScenario.UpperChar | components/TradeScenario/TradeScenario.tsx:46 | Lower-case ASCII letters become their capitals; any other character is unchanged |
| TradeScenario.UpperString | components/TradeScenario/TradeScenario.tsx:46 | `toUpperCase`: same length, each character upper-cased |
| TradeScenario.Capitalize | components/TradeScenario/TradeScenario.tsx:34 | The same length, the first character upper-cased, the rest unchanged |
| TradeScenario.DestinationOptions | components/TradeScenario/TradeScenario.tsx:33-36 | One option per market key, in key order, valued by the key and labelled by its capitalisation |
| TradeScenario.CostsCoverMarkets | components/TradeScenario/TradeScenario.tsx:8-20 | Every market key and every listed alternative has a costs entry, and the keys list matches the table |
| TradeScenario.AlternativeCards | components/TradeScenario/TradeScenario.tsx:51-59 | One card per alternative, in order, with that alternative's own freight and tariff |
| TradeScenario.ShowDestination | components/TradeScenario/TradeScenario.tsx:41-67 | No panel iff the destination is empty. Otherwise the status is upper-cased. A closed market shows its alternatives' cards and not its own costs; an open one shows its own costs and no alternatives |
| TradeScenario.OnlyChinaClosed | components/TradeScenario/TradeScenario.tsx:8-13 | Only china is closed, every status is open or closed, and china's alternatives are japan, singapore, vietnam |
| TradeScenario.CapitalizedKeys | components/TradeScenario/TradeScenario.tsx:33-36 | The labels are China, Japan, Singapore, Vietnam |
| TradeScenario.ChinaShowsAlternatives | components/TradeScenario/TradeScenario.tsx:48-61 | Choosing china shows "CLOSED" and the cards Japan 4500/10 %, Singapore 3500/5 %, Vietnam 3000/15 % |
| TradeScenario.Scenario.constructor | components/TradeScenario/TradeScenario.tsx:23 | The destination starts empty |
| TradeScenario.Scenario.HandleDestinationChange | components/TradeScenario/TradeScenario.tsx:25-27 | The selected key becomes the destination |

## Left out

- Rendering: all JSX, design-system components, SVG attributes and the chart's hover state. These are display only.
- Scheduling of React state: each handler is one sequential transition. Batching, and calling `analyzeAlternatives` inside a state updater, are not modelled. Closing a market analyses it against the closure list from before the toggle, as the component does.
- `parseFloat` and number formatting: a field's text enters as an already-parsed `Option<real>`. Partial parses, `toFixed(2)`, template-string output and the `Date`/`toLocaleDateString` month names are outside the model; months stay as "YYYY-MM" labels.
- CostCalculator.Calculator.CalculateCosts: a non-blank quantity that parses to NaN passes the source's check and yields a NaN breakdown. `real` has no NaN, so that path is not modelled.
- IEEE-754 rounding: money, heights and coordinates are exact reals.
- CostCalculator.Calculator.SetDestination: takes only the select's values (the blank placeholder or a table key). A key that every JavaScript object inherits, such as "toString", would pass the `marketData[destination]` lookup, make line 42 throw, and reach the `catch` block, which logs and sets "An error occurred while calculating costs". Neither that path nor the `catch` block is modelled.
- The `status`, `demandLevel`, `seasonalDemand` and `alternativeMarkets` fields and the `MarketStatus` / `MarketRecommendation` types: the table never fills them and nothing computes them. No recommendation scoring is modelled.
- MarketSimulator.SortByCost: proved sorted and a permutation. That it keeps equal-cost entries in their original order, as `Array.prototype.sort` does, is not proved.
- SimpleChart.LinePath: produces the list of move/line commands, not the joined `d` string.
- SimpleChart.YScale / SimpleChart.XScale: the source divides by max − min and by length − 1 unguarded. The model takes max ≠ min and at least two points as preconditions; the NaN/Infinity coordinates JavaScript would produce otherwise are not modelled.
- ShippingTrendDashboard.ProcessedData: the height is a number, not the string with "%" appended. The month label is kept raw.
- TradeScenario.UpperChar: upper-cases ASCII a–z only, which covers every key in the table; full Unicode case mapping is not modelled.
- TradeScenario.Scenario.HandleDestinationChange: takes one of the select's values; other strings cannot reach it from the UI.
- The page and home-page components hold no logic and are not part of this model.

## Findings

| source | as written | input that shows it | evidently intended | confidence | as-written member | corrected member |
|---|---|---|---|---|---|---|
| components/MarketSimulator/MarketSimulator.tsx:97-100 | The quantity field calls `setQuantity` and then re-analyses every closed market through the closure of the current render, which still reads the previous `quantity` | China closed, quantity changed from "100" to "200": the stored analysis keeps closedMarketCost 7150 instead of 13400 | Re-analyse at the quantity just entered | high (not executed) | MarketSimulator.Simulator.ChangeQuantityAsWritten, MarketSimulator.StaleQuantityExample, MarketSimulator.StaleQuantityScenario | MarketSimulator.Simulator.ChangeQuantity |
