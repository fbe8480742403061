/**
 * The export-cost calculator: validation of the form (destination, quantity),
 * the four-part cost breakdown, and the `error` / `breakdown` state cells
 * that `calculateCosts` updates.
 */
module CostCalculator {
  import opened Wrappers
  import opened MarketTypes
  import opened MarketData

  /** `regulations.reduce((sum, reg) => sum + reg.cost, 0)`: a left fold over the list. */
  function RegulatoryCost(regs: seq<RegulationRequirement>): (r: real)
    ensures (forall i :: 0 <= i < |regs| ==> regs[i].cost >= 0.0) ==> r >= 0.0
    ensures (forall i :: 0 <= i < |regs| ==> regs[i].cost >= 0.0) ==>
              forall i :: 0 <= i < |regs| ==> regs[i].cost <= r
  {
    if regs == [] then 0.0
    else
      var init := regs[..|regs| - 1];
      assert forall i :: 0 <= i < |init| ==> init[i] == regs[i];
      RegulatoryCost(init) + regs[|regs| - 1].cost
  }

  /** The breakdown `calculateCosts` builds for market `m` and quantity `qty` (kg). */
  function ComputeBreakdown(m: Market, qty: real): (b: CostBreakdown)
    ensures b.total == b.baseCost + b.shippingCost + b.tariffCost + b.regulatoryCost
    ensures b.regulatoryCost == RegulatoryCost(m.regulations)
  {
    var baseCost := m.basePrice * qty;
    var shippingCost := m.shippingCost.baseRate + m.shippingCost.perKgRate * qty;
    var tariffCost := baseCost * m.tariffRate;
    var regulatoryCost := RegulatoryCost(m.regulations);
    CostBreakdown(baseCost, shippingCost, tariffCost, regulatoryCost,
                  baseCost + shippingCost + tariffCost + regulatoryCost)
  }

  /** The total, written as one linear function of the quantity: the slope is
      price * (1 + tariff) + per-kg rate, the intercept the flat costs. */
  lemma TotalIsLinear(m: Market, qty: real)
    ensures ComputeBreakdown(m, qty).total ==
      (m.basePrice * (1.0 + m.tariffRate) + m.shippingCost.perKgRate) * qty
      + m.shippingCost.baseRate + RegulatoryCost(m.regulations)
  {
    var p, t, k, s, g := m.basePrice, m.tariffRate, m.shippingCost.perKgRate, m.shippingCost.baseRate, RegulatoryCost(m.regulations);
    assert ComputeBreakdown(m, qty).total == p * qty + (s + k * qty) + (p * qty) * t + g;
    Rearrange(p, t, k, s, g, qty);
  }

  /** The algebra behind `TotalIsLinear`, on plain numbers: price `p`, tariff `t`,
      per-kg rate `k`, flat shipping `s`, regulatory sum `g`, quantity `q`. */
  lemma Rearrange(p: real, t: real, k: real, s: real, g: real, q: real)
    ensures p * q + (s + k * q) + (p * q) * t + g == (p * (1.0 + t) + k) * q + s + g
  {
    assert p * (1.0 + t) == p + p * t;
    assert (p + p * t + k) * q == p * q + (p * t) * q + k * q;
    assert (p * t) * q == (p * q) * t;
  }

  /** With non-negative market data and a positive quantity, every component is
      non-negative and the total is at least each of them. */
  lemma BreakdownBounds(m: Market, qty: real)
    requires NonNegativeMarket(m) && qty > 0.0
    ensures var b := ComputeBreakdown(m, qty);
      && b.baseCost >= 0.0 && b.shippingCost >= 0.0 && b.tariffCost >= 0.0 && b.regulatoryCost >= 0.0
      && b.total >= b.baseCost && b.total >= b.shippingCost
      && b.total >= b.tariffCost && b.total >= b.regulatoryCost
  {
    var base := m.basePrice * qty;
    assert base >= 0.0 by { MulNonNegative(m.basePrice, qty); }
    assert m.shippingCost.perKgRate * qty >= 0.0 by { MulNonNegative(m.shippingCost.perKgRate, qty); }
    assert base * m.tariffRate >= 0.0 by { MulNonNegative(base, m.tariffRate); }
  }

  lemma MulNonNegative(a: real, b: real)
    requires a >= 0.0 && b >= 0.0
    ensures a * b >= 0.0
  {
  }

  /** For non-negative rates, the total never decreases when the quantity grows. */
  lemma TotalMonotone(m: Market, q1: real, q2: real)
    requires NonNegativeMarket(m) && q1 <= q2
    ensures ComputeBreakdown(m, q1).total <= ComputeBreakdown(m, q2).total
  {
    TotalIsLinear(m, q1);
    TotalIsLinear(m, q2);
    var slope := m.basePrice * (1.0 + m.tariffRate) + m.shippingCost.perKgRate;
    assert slope >= 0.0 by { MulNonNegative(m.basePrice, 1.0 + m.tariffRate); }
    LineMonotone(slope, m.shippingCost.baseRate + RegulatoryCost(m.regulations), q1, q2,
                 ComputeBreakdown(m, q1).total, ComputeBreakdown(m, q2).total);
  }

  /** A line with a non-negative slope never falls. */
  lemma LineMonotone(slope: real, flat: real, q1: real, q2: real, t1: real, t2: real)
    requires slope >= 0.0 && q1 <= q2
    requires t1 == slope * q1 + flat && t2 == slope * q2 + flat
    ensures t1 <= t2
  {
    MulNonNegative(slope, q2 - q1);
  }

  /** Why `calculateCosts` refuses to compute. */
  datatype CalcError = NoDestination | InvalidQuantity | MarketNotFound

  /** The text shown for each refusal; no two refusals share a text. */
  function Message(e: CalcError): (r: string)
    ensures r == "Please select a destination" <==> e == NoDestination
    ensures r == "Please enter a valid quantity" <==> e == InvalidQuantity
    ensures r == "Market data not found" <==> e == MarketNotFound
  {
    match e
    case NoDestination => "Please select a destination"
    case InvalidQuantity => "Please enter a valid quantity"
    case MarketNotFound => "Market data not found"
  }

  /**
   * The three checks of `calculateCosts`, in their order. The quantity is the
   * field's parsed value, `None` when the field is blank.
   */
  function Validate(destination: string, quantity: Option<real>): (r: Result<(Market, real), CalcError>)
    ensures destination == "" ==> r == Err(NoDestination)
    ensures destination != "" && (quantity.None? || quantity.value <= 0.0) ==> r == Err(InvalidQuantity)
    ensures r == Err(MarketNotFound) <==>
      destination != "" && quantity.Some? && quantity.value > 0.0 && destination !in Markets
    ensures r.Ok? <==> destination in Markets && quantity.Some? && quantity.value > 0.0
    ensures r.Ok? ==> r.value == (Markets[destination], quantity.value)
  {
    assert "" !in Markets;
    if destination == "" then Err(NoDestination)
    else if quantity.None? || quantity.value <= 0.0 then Err(InvalidQuantity)
    else if destination !in Markets then Err(MarketNotFound)
    else Ok((Markets[destination], quantity.value))
  }

  /** The component's state: the two form fields and the two result cells. */
  class Calculator {
    var destination: string
    var quantity: Option<real>
    var breakdown: Option<CostBreakdown>
    var error: Option<string>

    constructor ()
      ensures destination == "" && quantity == None && breakdown == None && error == None
    {
      destination := "";
      quantity := None;
      breakdown := None;
      error := None;
    }

    /** The destination select's `onChange`: its options are the blank
        placeholder and the keys of the market table. */
    method SetDestination(d: string)
      requires d == "" || d in Markets
      modifies this`destination
      ensures destination == d
    {
      destination := d;
    }

    /** The quantity field's `onChange`, with the text already parsed. */
    method SetQuantity(q: Option<real>)
      modifies this`quantity
      ensures quantity == q
    {
      quantity := q;
    }

    /**
     * `calculateCosts`: clear the error, then either report the first failed
     * check and keep the previous breakdown, or store the new breakdown and
     * leave the error cleared.
     */
    method CalculateCosts()
      modifies this`error, this`breakdown
      ensures error.None? <==> Validate(destination, quantity).Ok?
      ensures Validate(destination, quantity).Err? ==>
        error == Some(Message(Validate(destination, quantity).error)) && breakdown == old(breakdown)
      ensures Validate(destination, quantity).Ok? ==>
        breakdown == Some(ComputeBreakdown(Markets[destination], quantity.value))
    {
      error := None;

      if destination == "" {
        assert Validate(destination, quantity) == Err(NoDestination);
        error := Some(Message(NoDestination));
        return;
      }

      if quantity.None? || quantity.value <= 0.0 {
        assert Validate(destination, quantity) == Err(InvalidQuantity);
        error := Some(Message(InvalidQuantity));
        return;
      }

      if destination !in Markets {
        assert Validate(destination, quantity) == Err(MarketNotFound);
        error := Some(Message(MarketNotFound));
        return;
      }

      assert Validate(destination, quantity).Ok?;
      var market := Markets[destination];
      var qty := quantity.value;
      breakdown := Some(ComputeBreakdown(market, qty));
    }
  }

  /** The regulatory sums of the three markets. */
  lemma TableRegulatoryCosts()
    ensures RegulatoryCost(China.regulations) == 400.0
    ensures RegulatoryCost(Japan.regulations) == 200.0
    ensures RegulatoryCost(Usa.regulations) == 300.0
  {
    assert China.regulations[..1] == [China.regulations[0]];
    assert [China.regulations[0]][..0] == [];
  }

  /** China at 100 kg: 5000 + 750 + 1000 + 400 = 7150. */
  lemma ChinaAtHundred()
    ensures ComputeBreakdown(China, 100.0) == CostBreakdown(5000.0, 750.0, 1000.0, 400.0, 7150.0)
  {
    TableRegulatoryCosts();
  }
}
