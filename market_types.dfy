/** The record shapes shared by the cost calculator and the market simulator. */
module MarketTypes {

  /** A flat-cost compliance requirement attached to a market. */
  datatype RegulationRequirement = RegulationRequirement(name: string, cost: real, description: string)

  /** Shipping charge: a flat amount plus an amount per kilogram. */
  datatype ShippingCost = ShippingCost(baseRate: real, perKgRate: real)

  /** One export destination. `tariffRate` is a fraction (0.20 means 20%). */
  datatype Market = Market(
    id: string,
    name: string,
    basePrice: real,
    tariffRate: real,
    regulations: seq<RegulationRequirement>,
    shippingCost: ShippingCost)

  /** The four cost components of one export and their sum. */
  datatype CostBreakdown = CostBreakdown(
    baseCost: real,
    shippingCost: real,
    tariffCost: real,
    regulatoryCost: real,
    total: real)

  /** Every rate, price and regulation cost of `m` is non-negative. */
  predicate NonNegativeMarket(m: Market)
  {
    && m.basePrice >= 0.0
    && m.tariffRate >= 0.0
    && m.shippingCost.baseRate >= 0.0
    && m.shippingCost.perKgRate >= 0.0
    && forall i :: 0 <= i < |m.regulations| ==> m.regulations[i].cost >= 0.0
  }
}
