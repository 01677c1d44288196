/**
 * Simple cost of goods sold (src/cogs.ts): purchase, shipping and labour
 * added and rounded to the cent, with an optional per-unit figure.
 */
module Cogs {
  import opened Wrappers
  import opened Utils

  /** The three cost figures and an optional unit count. */
  datatype COGSInput = COGSInput(
    purchaseCost: real,
    shippingCost: real,
    laborCost: real,
    quantity: Option<real>)

  /** The three inputs, echoed. */
  datatype COGSBreakdown = COGSBreakdown(purchaseCost: real, shippingCost: real, laborCost: real)

  /** The rounded total, the optional per-unit cost and the breakdown. */
  datatype COGSResult = COGSResult(
    totalCOGS: real,
    costPerUnit: Option<real>,
    breakdown: COGSBreakdown)

  /** JavaScript truthiness of `quantity && quantity > 0`: a positive unit count was given. */
  predicate HasPositiveQuantity(quantity: Option<real>) {
    quantity.Some? && quantity.value > 0.0
  }

  /**
   * `calculateCOGS`. The source writes the cent rounding out with `Math.round`
   * instead of calling `roundCents`; the contract states that the two agree.
   */
  function CalculateCOGS(input: COGSInput): (result: COGSResult)
    ensures result.totalCOGS == RoundCents(input.purchaseCost + input.shippingCost + input.laborCost)
    ensures NearestCent(result.totalCOGS, input.purchaseCost + input.shippingCost + input.laborCost)
    ensures result.breakdown.purchaseCost == input.purchaseCost
    ensures result.breakdown.shippingCost == input.shippingCost
    ensures result.breakdown.laborCost == input.laborCost
    ensures result.costPerUnit.Some? <==> HasPositiveQuantity(input.quantity)
    ensures result.costPerUnit.Some? ==>
      NearestCent(result.costPerUnit.value, result.totalCOGS / input.quantity.value)
  {
    var rawTotal := input.purchaseCost + input.shippingCost + input.laborCost;
    var totalCOGS := MathRound(rawTotal * 100.0) as real / 100.0;
    var costPerUnit :=
      if HasPositiveQuantity(input.quantity)
      then Some(MathRound((totalCOGS / input.quantity.value) * 100.0) as real / 100.0)
      else None;
    COGSResult(
      totalCOGS,
      costPerUnit,
      COGSBreakdown(input.purchaseCost, input.shippingCost, input.laborCost))
  }

  /** A result computed with a unit count divides the total already rounded to the cent. */
  lemma CostPerUnitFromRoundedTotal(input: COGSInput)
    requires HasPositiveQuantity(input.quantity)
    ensures CalculateCOGS(input).costPerUnit
      == Some(RoundCents(RoundCents(input.purchaseCost + input.shippingCost + input.laborCost)
                         / input.quantity.value))
  {
    var r := CalculateCOGS(input);
    RoundCentsCharacterized(r.totalCOGS / input.quantity.value, r.costPerUnit.value);
  }

  /** Adding the unit count changes only the per-unit figure. */
  lemma QuantityOnlyAffectsCostPerUnit(input: COGSInput, quantity: Option<real>)
    ensures CalculateCOGS(input.(quantity := quantity)).totalCOGS == CalculateCOGS(input).totalCOGS
    ensures CalculateCOGS(input.(quantity := quantity)).breakdown == CalculateCOGS(input).breakdown
  {
  }
}
