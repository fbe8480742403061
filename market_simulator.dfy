/**
 * The market-closure simulator: closing a market produces an analysis of the
 * remaining open markets, each costed for the current quantity, compared with
 * the closed market and sorted from cheapest to dearest.
 */
module MarketSimulator {
  import opened Wrappers
  import opened MarketTypes
  import opened MarketData
  import opened Sequences
  import CostCalculator

  /** `calculateTotalCost`: the same formula as the cost calculator, total only. */
  function TotalCost(marketId: string, qty: real): (r: real)
    requires marketId in Markets
    ensures r == CostCalculator.ComputeBreakdown(Markets[marketId], qty).total
  {
    var market := Markets[marketId];
    var baseCost := market.basePrice * qty;
    var shippingCost := market.shippingCost.baseRate + market.shippingCost.perKgRate * qty;
    var tariffCost := baseCost * market.tariffRate;
    var regulatoryCost := CostCalculator.RegulatoryCost(market.regulations);
    baseCost + shippingCost + tariffCost + regulatoryCost
  }

  const LowerShipping: string := "Lower shipping costs"
  const LowerTariff: string := "Lower tariff rates"
  const SimplerRegulation: string := "Simpler regulatory requirements"

  /** Position of an advantage in the fixed order in which `generateAdvantages` pushes them. */
  function AdvantageRank(a: string): nat
  {
    if a == LowerShipping then 0 else if a == LowerTariff then 1 else 2
  }

  /** `generateAdvantages`: the threshold flags of one market, in a fixed order. */
  function Advantages(m: Market): (r: seq<string>)
    ensures |r| <= 3
    ensures LowerShipping in r <==> m.shippingCost.perKgRate <= 2.5
    ensures LowerTariff in r <==> m.tariffRate <= 0.15
    ensures SimplerRegulation in r <==> |m.regulations| <= 1
    ensures forall a :: a in r ==> a == LowerShipping || a == LowerTariff || a == SimplerRegulation
    ensures forall i, j :: 0 <= i < j < |r| ==> AdvantageRank(r[i]) < AdvantageRank(r[j])
  {
    var shipping := if m.shippingCost.perKgRate <= 2.5 then [LowerShipping] else [];
    var tariff := if m.tariffRate <= 0.15 then [LowerTariff] else [];
    var regulation := if |m.regulations| <= 1 then [SimplerRegulation] else [];
    shipping + tariff + regulation
  }

  /** `generateAdvantages` as written: start from an empty list and push each flag whose
      threshold the market meets. */
  method GenerateAdvantages(m: Market) returns (advantages: seq<string>)
    ensures advantages == Advantages(m)
  {
    advantages := [];
    if m.shippingCost.perKgRate <= 2.5 {
      advantages := advantages + [LowerShipping];
    }
    if m.tariffRate <= 0.15 {
      advantages := advantages + [LowerTariff];
    }
    if |m.regulations| <= 1 {
      advantages := advantages + [SimplerRegulation];
    }
  }

  /** `parseFloat(quantity) || 100`: a missing (NaN) or zero quantity falls back to 100 kg. */
  function EffectiveQuantity(parsed: Option<real>): (q: real)
    ensures q != 0.0
    ensures parsed.Some? && parsed.value != 0.0 ==> q == parsed.value
    ensures parsed.None? || parsed.value == 0.0 ==> q == 100.0
  {
    if parsed.Some? && parsed.value != 0.0 then parsed.value else 100.0
  }

  /** One open market offered as a substitute for a closed one. */
  datatype Alternative = Alternative(
    marketId: string,
    name: string,
    estimatedCost: real,
    netCostDifference: real,
    advantages: seq<string>)

  /** The analysis stored for one closed market. */
  datatype Analysis = Analysis(closedMarketCost: real, alternatives: seq<Alternative>)

  /** `.filter(([id]) => id !== marketId && !simulatedClosures.includes(id))` over the ids. */
  function OpenIds(ids: seq<string>, marketId: string, closures: seq<string>): (r: seq<string>)
    ensures forall i :: 0 <= i < |r| ==> r[i] in ids && r[i] != marketId && r[i] !in closures
  {
    if ids == [] then []
    else if ids[0] != marketId && ids[0] !in closures then [ids[0]] + OpenIds(ids[1..], marketId, closures)
    else OpenIds(ids[1..], marketId, closures)
  }

  /** The filter keeps each id other than the closed market and the closures as often as it
      occurs, and drops every other id. */
  lemma {:induction false} OpenIdsCount(ids: seq<string>, marketId: string, closures: seq<string>)
    ensures var r := OpenIds(ids, marketId, closures);
      forall id :: multiset(r)[id] == (if id != marketId && id !in closures then multiset(ids)[id] else 0)
  {
    if ids != [] {
      OpenIdsCount(ids[1..], marketId, closures);
      assert ids == [ids[0]] + ids[1..];
      assert multiset(ids) == multiset{ids[0]} + multiset(ids[1..]);
    }
  }

  /** The `.map(...)` step for one open market. */
  function MakeAlternative(id: string, qty: real, closedMarketCost: real): (r: Alternative)
    requires id in Markets
    ensures r.marketId == id && r.name == Markets[id].name
    ensures r.estimatedCost == CostCalculator.ComputeBreakdown(Markets[id], qty).total
    ensures r.netCostDifference == r.estimatedCost - closedMarketCost
  {
    Alternative(id, Markets[id].name, TotalCost(id, qty),
                TotalCost(id, qty) - closedMarketCost, Advantages(Markets[id]))
  }

  /** The `.map(...)` step: one alternative per open market, in order. */
  function MakeAlternatives(ids: seq<string>, qty: real, closedMarketCost: real): (r: seq<Alternative>)
    requires forall i :: 0 <= i < |ids| ==> ids[i] in Markets
    ensures |r| == |ids|
  {
    if ids == [] then []
    else
      var rest := MakeAlternatives(ids[1..], qty, closedMarketCost);
      [MakeAlternative(ids[0], qty, closedMarketCost)] + rest
  }

  lemma {:induction false} MakeAlternativesAt(ids: seq<string>, qty: real, closedMarketCost: real)
    requires forall i :: 0 <= i < |ids| ==> ids[i] in Markets
    ensures |MakeAlternatives(ids, qty, closedMarketCost)| == |ids|
    ensures forall i :: 0 <= i < |ids| ==>
      MakeAlternatives(ids, qty, closedMarketCost)[i] == MakeAlternative(ids[i], qty, closedMarketCost)
  {
    if ids != [] {
      MakeAlternativesAt(ids[1..], qty, closedMarketCost);
      var r := MakeAlternatives(ids, qty, closedMarketCost);
      assert r == [MakeAlternative(ids[0], qty, closedMarketCost)] + MakeAlternatives(ids[1..], qty, closedMarketCost);
      forall i | 0 < i < |ids| ensures r[i] == MakeAlternative(ids[i], qty, closedMarketCost) {
        assert ids[1..][i - 1] == ids[i];
      }
    }
  }

  function Ids(alts: seq<Alternative>): (r: seq<string>)
  {
    seq(|alts|, i requires 0 <= i < |alts| => alts[i].marketId)
  }

  predicate SortedByCost(alts: seq<Alternative>)
  {
    forall i, j :: 0 <= i < j < |alts| ==> alts[i].estimatedCost <= alts[j].estimatedCost
  }

  /** Inserts `a` into a sorted list, before the first strictly dearer entry. */
  function Insert(a: Alternative, sorted: seq<Alternative>): (r: seq<Alternative>)
    ensures |r| == |sorted| + 1
    ensures forall x :: x in r <==> x == a || x in sorted
  {
    if sorted == [] || a.estimatedCost <= sorted[0].estimatedCost then [a] + sorted
    else [sorted[0]] + Insert(a, sorted[1..])
  }

  /** `.sort((a, b) => a.estimatedCost - b.estimatedCost)`, as an insertion sort. */
  function SortByCost(alts: seq<Alternative>): (r: seq<Alternative>)
    ensures |r| == |alts|
    ensures forall x :: x in r <==> x in alts
  {
    if alts == [] then [] else Insert(alts[0], SortByCost(alts[1..]))
  }

  /** Every entry of `s` costs at least `c`. */
  predicate CostsAtLeast(c: real, s: seq<Alternative>)
  {
    forall k :: 0 <= k < |s| ==> c <= s[k].estimatedCost
  }

  lemma {:induction false} InsertPermutes(a: Alternative, sorted: seq<Alternative>)
    ensures multiset(Insert(a, sorted)) == multiset{a} + multiset(sorted)
  {
    if sorted != [] && a.estimatedCost > sorted[0].estimatedCost {
      assert sorted == [sorted[0]] + sorted[1..];
      InsertPermutes(a, sorted[1..]);
    }
  }

  lemma {:induction false} InsertKeepsIds(a: Alternative, sorted: seq<Alternative>)
    ensures multiset(Ids(Insert(a, sorted))) == multiset{a.marketId} + multiset(Ids(sorted))
  {
    if sorted == [] || a.estimatedCost <= sorted[0].estimatedCost {
      assert Ids([a] + sorted) == [a.marketId] + Ids(sorted);
    } else {
      var tail := sorted[1..];
      InsertKeepsIds(a, tail);
      assert Ids(Insert(a, sorted)) == [sorted[0].marketId] + Ids(Insert(a, tail));
      assert Ids(sorted) == [sorted[0].marketId] + Ids(tail);
    }
  }

  lemma {:induction false} InsertLowerBound(c: real, a: Alternative, sorted: seq<Alternative>)
    requires c <= a.estimatedCost && CostsAtLeast(c, sorted)
    ensures CostsAtLeast(c, Insert(a, sorted))
  {
    if sorted != [] && a.estimatedCost > sorted[0].estimatedCost {
      InsertLowerBound(c, a, sorted[1..]);
    }
  }

  lemma {:induction false} InsertSorted(a: Alternative, sorted: seq<Alternative>)
    requires SortedByCost(sorted)
    ensures SortedByCost(Insert(a, sorted))
  {
    var r := Insert(a, sorted);
    if sorted == [] || a.estimatedCost <= sorted[0].estimatedCost {
      assert CostsAtLeast(a.estimatedCost, sorted);
      forall i, j | 0 <= i < j < |r| ensures r[i].estimatedCost <= r[j].estimatedCost {
        if i > 0 {
          assert r[i] == sorted[i - 1] && r[j] == sorted[j - 1];
        }
      }
    } else {
      var tail := sorted[1..];
      InsertSorted(a, tail);
      assert CostsAtLeast(sorted[0].estimatedCost, tail);
      InsertLowerBound(sorted[0].estimatedCost, a, tail);
      var inserted := Insert(a, tail);
      assert r == [sorted[0]] + inserted;
      forall i, j | 0 <= i < j < |r| ensures r[i].estimatedCost <= r[j].estimatedCost {
        assert r[j] == inserted[j - 1];
        if i > 0 {
          assert r[i] == inserted[i - 1];
        }
      }
    }
  }

  /** The sort orders by cost. */
  lemma {:induction false} SortByCostSorted(alts: seq<Alternative>)
    ensures SortedByCost(SortByCost(alts))
  {
    if alts != [] {
      SortByCostSorted(alts[1..]);
      InsertSorted(alts[0], SortByCost(alts[1..]));
    }
  }

  /** The sort keeps every alternative exactly as often as it occurs. */
  lemma {:induction false} SortByCostPermutes(alts: seq<Alternative>)
    ensures multiset(SortByCost(alts)) == multiset(alts)
  {
    if alts != [] {
      SortByCostPermutes(alts[1..]);
      InsertPermutes(alts[0], SortByCost(alts[1..]));
      assert alts == [alts[0]] + alts[1..];
    }
  }

  /** Hence it keeps every market id exactly as often as it occurs. */
  lemma {:induction false} SortByCostKeepsIds(alts: seq<Alternative>)
    ensures multiset(Ids(SortByCost(alts))) == multiset(Ids(alts))
  {
    if alts != [] {
      SortByCostKeepsIds(alts[1..]);
      InsertKeepsIds(alts[0], SortByCost(alts[1..]));
      assert Ids(alts) == [alts[0].marketId] + Ids(alts[1..]);
    }
  }

  /** `analyzeAlternatives(marketId)` for the given closure list and (effective) quantity. */
  function Analyze(marketId: string, closures: seq<string>, qty: real): (r: Analysis)
    requires marketId in Markets
    ensures r.closedMarketCost == CostCalculator.ComputeBreakdown(Markets[marketId], qty).total
    ensures SortedByCost(r.alternatives)
  {
    Analysis(TotalCost(marketId, qty), RankedAlternatives(marketId, closures, qty))
  }

  /** The open markets other than `marketId`, as alternatives, cheapest first. */
  function RankedAlternatives(marketId: string, closures: seq<string>, qty: real): (r: seq<Alternative>)
    requires marketId in Markets
    ensures SortedByCost(r)
  {
    var closedMarketCost := TotalCost(marketId, qty);
    var open := OpenIds(MarketIds, marketId, closures);
    assert forall i :: 0 <= i < |open| ==> open[i] in Markets;
    var unsorted := MakeAlternatives(open, qty, closedMarketCost);
    SortByCostSorted(unsorted);
    SortByCost(unsorted)
  }

  /** Every known market other than the closed one and those already closed is offered
      exactly once, and no other market is offered. */
  lemma AnalyzeOffersOpenMarkets(marketId: string, closures: seq<string>, qty: real)
    requires marketId in Markets
    ensures var offered := Ids(Analyze(marketId, closures, qty).alternatives);
      forall id :: multiset(offered)[id] == (if id in Markets && id != marketId && id !in closures then 1 else 0)
  {
    var open := OpenIds(MarketIds, marketId, closures);
    var unsorted := MakeAlternatives(open, qty, TotalCost(marketId, qty));
    var offered := Ids(SortByCost(unsorted));
    assert offered == Ids(Analyze(marketId, closures, qty).alternatives);
    MakeAlternativesAt(open, qty, TotalCost(marketId, qty));
    assert Ids(unsorted) == open;
    SortByCostKeepsIds(unsorted);
    assert multiset(offered) == multiset(open);
    forall id ensures multiset(offered)[id] == (if id in Markets && id != marketId && id !in closures then 1 else 0) {
      OpenIdsCount(MarketIds, marketId, closures);
      TableIdsOnce(id);
    }
  }

  /** The closed market and each alternative are costed with the calculator's formula,
      each alternative is compared with the closed market and carries its own advantages. */
  lemma AnalyzeEntries(marketId: string, closures: seq<string>, qty: real)
    requires marketId in Markets
    ensures var a := Analyze(marketId, closures, qty);
      && a.closedMarketCost == CostCalculator.ComputeBreakdown(Markets[marketId], qty).total
      && (forall alt :: alt in a.alternatives ==>
            && alt.marketId in Markets
            && alt.name == Markets[alt.marketId].name
            && alt.estimatedCost == CostCalculator.ComputeBreakdown(Markets[alt.marketId], qty).total
            && alt.netCostDifference == alt.estimatedCost - a.closedMarketCost
            && alt.advantages == Advantages(Markets[alt.marketId]))
  {
    var closedMarketCost := TotalCost(marketId, qty);
    var open := OpenIds(MarketIds, marketId, closures);
    var unsorted := MakeAlternatives(open, qty, closedMarketCost);
    MakeAlternativesAt(open, qty, closedMarketCost);
    SortByCostPermutes(unsorted);
    forall alt | alt in SortByCost(unsorted)
      ensures alt.marketId in Markets && alt == MakeAlternative(alt.marketId, qty, closedMarketCost)
    {
      assert alt in multiset(unsorted);
    }
  }

  /** The component's state. `analyses` maps each closed market to its analysis. */
  class Simulator {
    var quantity: Option<real>
    var closures: seq<string>
    var analyses: map<string, Analysis>

    /** Closures are known markets, listed once each, and exactly the closed markets have an analysis. */
    ghost predicate Valid()
      reads this
    {
      && NoDuplicates(closures)
      && (forall i :: 0 <= i < |closures| ==> closures[i] in Markets)
      && (forall id :: id in analyses <==> id in closures)
    }

    constructor ()
      ensures Valid()
      ensures quantity == Some(100.0) && closures == [] && analyses == map[]
    {
      quantity := Some(100.0);
      closures := [];
      analyses := map[];
    }

    /**
     * `toggleMarketClosure`: reopening drops the market from the list and deletes
     * its analysis; closing appends it and stores a fresh analysis for it. No
     * other analysis changes.
     */
    method ToggleMarketClosure(marketId: string)
      requires Valid() && marketId in Markets
      modifies this`closures, this`analyses
      ensures Valid()
      ensures closures == Toggle(old(closures), marketId)
      ensures marketId in old(closures) ==> analyses == old(analyses) - {marketId}
      ensures marketId !in old(closures) ==>
        analyses == old(analyses)[marketId := Analyze(marketId, old(closures), EffectiveQuantity(quantity))]
    {
      ToggleNoDuplicates(closures, marketId);
      if marketId in closures {
        closures := RemoveAll(closures, marketId);
        analyses := analyses - {marketId};
      } else {
        var analysis := Analyze(marketId, closures, EffectiveQuantity(quantity));
        closures := closures + [marketId];
        analyses := analyses[marketId := analysis];
      }
    }

    /**
     * The quantity field's `onChange`: store the new quantity and recompute the
     * analysis of every closed market, one after another.
     */
    method ChangeQuantity(q: Option<real>)
      requires Valid()
      modifies this`quantity, this`analyses
      ensures Valid()
      ensures quantity == q && closures == old(closures)
      ensures analyses.Keys == old(analyses).Keys
      ensures forall id :: id in analyses ==> analyses[id] == Analyze(id, closures, EffectiveQuantity(q))
    {
      quantity := q;
      var qty := EffectiveQuantity(q);
      for i := 0 to |closures|
        modifies this`analyses
        invariant analyses.Keys == old(analyses).Keys
        invariant forall id :: id in closures[..i] ==> analyses[id] == Analyze(id, closures, qty)
      {
        var id := closures[i];
        assert closures[..i + 1] == closures[..i] + [id];
        analyses := analyses[id := Analyze(id, closures, qty)];
      }
      assert closures[..|closures|] == closures;
    }

    /**
     * The quantity `onChange` as the component runs it: `analyzeAlternatives` is the
     * closure of the render in which the field still held the previous text, so every
     * analysis is recomputed with the previous quantity, not the one just entered.
     */
    method ChangeQuantityAsWritten(q: Option<real>)
      requires Valid()
      modifies this`quantity, this`analyses
      ensures Valid()
      ensures quantity == q && closures == old(closures)
      ensures analyses.Keys == old(analyses).Keys
      ensures forall id :: id in analyses ==> analyses[id] == Analyze(id, closures, EffectiveQuantity(old(quantity)))
    {
      var staleQty := EffectiveQuantity(quantity);
      quantity := q;
      for i := 0 to |closures|
        modifies this`analyses
        invariant analyses.Keys == old(analyses).Keys
        invariant forall id :: id in closures[..i] ==> analyses[id] == Analyze(id, closures, staleQty)
      {
        var id := closures[i];
        assert closures[..i + 1] == closures[..i] + [id];
        analyses := analyses[id := Analyze(id, closures, staleQty)];
      }
      assert closures[..|closures|] == closures;
    }
  }

  /** Under the shared formula each market's total is linear in the quantity. */
  lemma TableTotals(q: real)
    ensures TotalCost("china", q) == 62.5 * q + 900.0
    ensures TotalCost("japan", q) == 53.75 * q + 650.0
    ensures TotalCost("usa", q) == 55.8 * q + 900.0
  {
    CostCalculator.TableRegulatoryCosts();
  }

  /** At any positive quantity Japan is cheapest, then the USA, then China. */
  lemma TableCostOrder(q: real)
    requires q > 0.0
    ensures TotalCost("japan", q) < TotalCost("usa", q) < TotalCost("china", q)
  {
    TableTotals(q);
  }

  /** China earns only the shipping flag, Japan all three, the USA tariff and regulation. */
  lemma TableAdvantages()
    ensures Advantages(China) == [LowerShipping]
    ensures Advantages(Japan) == [LowerShipping, LowerTariff, SimplerRegulation]
    ensures Advantages(Usa) == [LowerTariff, SimplerRegulation]
  {
  }

  /** China closed, the field changed from 100 to 200 kg: the analysis the component
      stores still costs China at 100 kg (7150), where 200 kg costs 13400. */
  lemma StaleQuantityExample()
    ensures Analyze("china", ["china"], EffectiveQuantity(Some(100.0))).closedMarketCost == 7150.0
    ensures Analyze("china", ["china"], EffectiveQuantity(Some(200.0))).closedMarketCost == 13400.0
  {
    TableTotals(100.0);
    TableTotals(200.0);
  }

  /**
   * The whole session on a fresh simulator: close China at the default 100 kg, then
   * enter 200 kg. The handler as written leaves China's analysis costed at 100 kg;
   * the corrected handler, run next on the same state, costs it at 200 kg.
   */
  method StaleQuantityScenario() returns (asWritten: real, corrected: real)
    ensures asWritten == 7150.0 && corrected == 13400.0
  {
    var sim := new Simulator();
    sim.ToggleMarketClosure("china");
    assert sim.closures == ["china"];
    sim.ChangeQuantityAsWritten(Some(200.0));
    asWritten := sim.analyses["china"].closedMarketCost;
    sim.ChangeQuantity(Some(200.0));
    corrected := sim.analyses["china"].closedMarketCost;
    StaleQuantityExample();
  }

  /** With nothing else closed, closing China leaves Japan and the USA open, in table order. */
  lemma CloseChinaOpenIds()
    ensures OpenIds(MarketIds, "china", []) == ["japan", "usa"]
  {
  }

  /** The two alternatives to China at 100 kg, before sorting. */
  lemma CloseChinaAlternatives()
    ensures MakeAlternatives(["japan", "usa"], 100.0, 7150.0) == [
      Alternative("japan", "Japan", 6025.0, -1125.0, [LowerShipping, LowerTariff, SimplerRegulation]),
      Alternative("usa", "USA", 6480.0, -670.0, [LowerTariff, SimplerRegulation])]
  {
    TableTotals(100.0);
    TableAdvantages();
  }

  /** Two alternatives already cheapest-first are left as they are by the sort. */
  lemma SortTwoOrdered(a: Alternative, b: Alternative)
    requires a.estimatedCost <= b.estimatedCost
    ensures SortByCost([a, b]) == [a, b]
  {
    assert [a, b][1..] == [b];
    assert SortByCost([b]) == [b];
  }

  /** Closing China at the default 100 kg: 7150 against Japan 6025 (-1125) and the USA 6480 (-670). */
  lemma CloseChinaExample()
    ensures Analyze("china", [], EffectiveQuantity(Some(100.0))) ==
      Analysis(7150.0, [
        Alternative("japan", "Japan", 6025.0, -1125.0, [LowerShipping, LowerTariff, SimplerRegulation]),
        Alternative("usa", "USA", 6480.0, -670.0, [LowerTariff, SimplerRegulation])])
  {
    TableTotals(100.0);
    CloseChinaOpenIds();
    CloseChinaAlternatives();
    SortTwoOrdered(
      Alternative("japan", "Japan", 6025.0, -1125.0, [LowerShipping, LowerTariff, SimplerRegulation]),
      Alternative("usa", "USA", 6480.0, -670.0, [LowerTariff, SimplerRegulation]));
  }
}
