/** The constant table of the three markets the cost calculator and the simulator know. */
module MarketData {
  import opened MarketTypes

  const China: Market := Market(
    "china", "China", 50.0, 0.20,
    [ RegulationRequirement("Health Certificate", 250.0, "Required health certification for seafood imports"),
      RegulationRequirement("Export Permit", 150.0, "Standard export permit") ],
    ShippingCost(500.0, 2.5))

  const Japan: Market := Market(
    "japan", "Japan", 45.0, 0.15,
    [ RegulationRequirement("Quality Certification", 200.0, "JAS certification requirement") ],
    ShippingCost(450.0, 2.0))

  const Usa: Market := Market(
    "usa", "USA", 48.0, 0.10,
    [ RegulationRequirement("FDA Registration", 300.0, "FDA import registration") ],
    ShippingCost(600.0, 3.0))

  /** The record `marketData`, keyed by market id. */
  const Markets: map<string, Market> := map["china" := China, "japan" := Japan, "usa" := Usa]

  /** The keys of `marketData` in insertion order, the order `Object.entries` visits them. */
  const MarketIds: seq<string> := ["china", "japan", "usa"]

  /** Exactly the three markets, listed once each, and every record's id is its key. */
  lemma TableShape()
    ensures Markets.Keys == {"china", "japan", "usa"}
    ensures forall id :: id in Markets <==> id in MarketIds
    ensures |MarketIds| == 3 && MarketIds[0] != MarketIds[1] && MarketIds[0] != MarketIds[2] && MarketIds[1] != MarketIds[2]
    ensures forall id :: id in Markets ==> Markets[id].id == id
  {
  }

  /** Every key occurs once in the id list, and nothing else occurs in it. */
  lemma TableIdsOnce(id: string)
    ensures multiset(MarketIds)[id] == if id in Markets then 1 else 0
  {
    assert multiset(MarketIds) == multiset{"china", "japan", "usa"};
  }

  /** Tariffs are fractions in [0, 1]; every price, rate and regulation cost is positive. */
  lemma TableValuesInRange()
    ensures forall id :: id in Markets ==>
      && 0.0 <= Markets[id].tariffRate <= 1.0
      && Markets[id].basePrice > 0.0
      && Markets[id].shippingCost.baseRate > 0.0
      && Markets[id].shippingCost.perKgRate > 0.0
      && (forall i :: 0 <= i < |Markets[id].regulations| ==> Markets[id].regulations[i].cost > 0.0)
    ensures forall id :: id in Markets ==> NonNegativeMarket(Markets[id])
  {
  }
}
