/**
 * The small pure rules of the prediction service: the affordability
 * classifier, the lease overage fee and the driving-style and terrain
 * adjustment of an electric vehicle's consumption.
 */
module TcoRules {
  import opened Wrappers
  import opened TcoModel

  // ---------------------------------------------------------------------------
  // Affordability
  // ---------------------------------------------------------------------------

  datatype Rating = Excellent | Good | Fair | Stretched

  /** The affordability record: monthly figures, share of income and the verdicts on it. */
  datatype Affordability = Affordability(
    monthlyCost: real,
    monthlyIncome: real,
    percentageOfIncome: real,
    rating: Rating,
    isAffordable: bool,
    recommendedMaxMonthly: real,
    overBudget: bool)

  /** Position of a rating from best (0) to worst (3). */
  function RatingRank(r: Rating): nat
  {
    match r
    case Excellent => 0
    case Good => 1
    case Fair => 2
    case Stretched => 3
  }

  /** The four tiers, each bound inclusive. */
  function RatingFor(pct: real): Rating
  {
    if pct <= 10.0 then Excellent
    else if pct <= 15.0 then Good
    else if pct <= 20.0 then Fair
    else Stretched
  }

  /**
   * `_calculate_affordability`: the monthly cost as a share of the monthly
   * gross income (0 when there is no positive income), rated against the
   * 10/15/20 per cent tiers and the 15 per cent guideline. The transaction
   * type is accepted and not used.
   */
  function CalculateAffordability(annualCost: real, grossIncome: real, transactionType: string): (a: Affordability)
    ensures a.monthlyCost * 12.0 == annualCost
    ensures a.monthlyIncome * 12.0 == grossIncome
    ensures grossIncome > 0.0 ==> a.percentageOfIncome * grossIncome == annualCost * 100.0
    ensures grossIncome <= 0.0 ==> a.percentageOfIncome == 0.0
    ensures a.rating == Excellent <==> a.percentageOfIncome <= 10.0
    ensures a.rating == Good <==> 10.0 < a.percentageOfIncome <= 15.0
    ensures a.rating == Fair <==> 15.0 < a.percentageOfIncome <= 20.0
    ensures a.rating == Stretched <==> 20.0 < a.percentageOfIncome
    ensures a.isAffordable <==> a.percentageOfIncome <= 20.0
    ensures a.overBudget <==> a.percentageOfIncome > 15.0
    ensures a.recommendedMaxMonthly * 80.0 == grossIncome
  {
    var monthlyCost := annualCost / 12.0;
    var monthlyIncome := grossIncome / 12.0;
    var pct := if monthlyIncome > 0.0 then monthlyCost / monthlyIncome * 100.0 else 0.0;
    var rating := RatingFor(pct);
    Affordability(monthlyCost, monthlyIncome, pct, rating, rating != Stretched, monthlyIncome * 0.15, pct > 15.0)
  }

  /** With the income fixed and positive, a dearer plan never gets a better rating. */
  lemma AffordabilityMonotone(cost1: real, cost2: real, grossIncome: real)
    requires grossIncome > 0.0 && cost1 <= cost2
    ensures RatingRank(CalculateAffordability(cost1, grossIncome, "purchase").rating)
         <= RatingRank(CalculateAffordability(cost2, grossIncome, "purchase").rating)
  {
    var a1 := CalculateAffordability(cost1, grossIncome, "purchase");
    var a2 := CalculateAffordability(cost2, grossIncome, "purchase");
    assert a1.percentageOfIncome * grossIncome <= a2.percentageOfIncome * grossIncome;
    assert a1.percentageOfIncome <= a2.percentageOfIncome;
  }

  /** Over budget exactly when the rating is Fair or Stretched, and unaffordable only when Stretched. */
  lemma OverBudgetMeansFairOrWorse(annualCost: real, grossIncome: real, transactionType: string)
    ensures CalculateAffordability(annualCost, grossIncome, transactionType).overBudget
        <==> RatingRank(CalculateAffordability(annualCost, grossIncome, transactionType).rating) >= 2
    ensures !CalculateAffordability(annualCost, grossIncome, transactionType).isAffordable
        <==> CalculateAffordability(annualCost, grossIncome, transactionType).rating == Stretched
  {
  }

  // ---------------------------------------------------------------------------
  // Lease overage
  // ---------------------------------------------------------------------------

  const OverageFeePerMile: real := 0.25

  /**
   * `_calculate_lease_fees_and_penalties`: 25 cents for each mile driven
   * over the allowance; the lease year and the vehicle value play no part.
   */
  function CalculateLeaseFeesAndPenalties(actualMileage: int, allowedMileage: int, leaseYear: int, vehicleValue: real): (fees: real)
    ensures fees >= 0.0
    ensures actualMileage <= allowedMileage ==> fees == 0.0
    ensures actualMileage > allowedMileage ==> fees * 4.0 == (actualMileage - allowedMileage) as real
  {
    var overage := if actualMileage - allowedMileage > 0 then actualMileage - allowedMileage else 0;
    overage as real * OverageFeePerMile
  }

  /** Driving more never lowers the fee, and only the two mileages matter. */
  lemma LeaseFeesMonotone(actual1: int, actual2: int, allowed: int, year1: int, year2: int, value1: real, value2: real)
    requires actual1 <= actual2
    ensures CalculateLeaseFeesAndPenalties(actual1, allowed, year1, value1)
         <= CalculateLeaseFeesAndPenalties(actual2, allowed, year2, value2)
  {
  }

  // ---------------------------------------------------------------------------
  // Driving style and terrain
  // ---------------------------------------------------------------------------

  const DefaultDrivingStyle: string := "normal"
  const DefaultTerrain: string := "flat"

  /** Efficiency multiplier of a driving style; an unknown style counts as normal. */
  function DrivingStyleMultiplier(style: string): (m: real)
    ensures 0.85 <= m <= 1.15
  {
    if style == "gentle" then 1.15
    else if style == "normal" then 1.0
    else if style == "aggressive" then 0.85
    else 1.0
  }

  /** Efficiency multiplier of a terrain; an unknown terrain counts as 1.0. */
  function TerrainMultiplier(terrain: string): (m: real)
    ensures 0.95 <= m <= 1.05
  {
    if terrain == "flat" then 1.05
    else if terrain == "hilly" then 0.95
    else 1.0
  }

  function CombinedMultiplier(style: string, terrain: string): (m: real)
    ensures 0.8075 <= m <= 1.2075
  {
    DrivingStyleMultiplier(style) * TerrainMultiplier(terrain)
  }

  /**
   * The EV consumption (kWh per 100 miles) after the driving adjustment: a
   * multiplier above 1 means better efficiency, so the consumption is divided
   * by it.
   */
  function AdjustedEvEfficiency(efficiency: real, style: string, terrain: string): (adjusted: real)
    ensures adjusted * CombinedMultiplier(style, terrain) == efficiency
    ensures efficiency > 0.0 ==> adjusted > 0.0
  {
    efficiency / CombinedMultiplier(style, terrain)
  }

  /** On the same terrain, aggressive driving needs more energy than normal, and normal more than gentle. */
  lemma AggressiveUsesMoreEnergy(efficiency: real, terrain: string)
    requires efficiency > 0.0
    ensures AdjustedEvEfficiency(efficiency, "aggressive", terrain) > AdjustedEvEfficiency(efficiency, "normal", terrain)
    ensures AdjustedEvEfficiency(efficiency, "normal", terrain) > AdjustedEvEfficiency(efficiency, "gentle", terrain)
  {
    var t := TerrainMultiplier(terrain);
    var a := AdjustedEvEfficiency(efficiency, "aggressive", terrain);
    var n := AdjustedEvEfficiency(efficiency, "normal", terrain);
    var g := AdjustedEvEfficiency(efficiency, "gentle", terrain);
    assert a * (0.85 * t) == n * (1.0 * t) == g * (1.15 * t);
  }

  /** In the same style, hilly terrain needs more energy than flat. */
  lemma HillsUseMoreEnergy(efficiency: real, style: string)
    requires efficiency > 0.0
    ensures AdjustedEvEfficiency(efficiency, style, "hilly") > AdjustedEvEfficiency(efficiency, style, "flat")
  {
    var s := DrivingStyleMultiplier(style);
    var h := AdjustedEvEfficiency(efficiency, style, "hilly");
    var f := AdjustedEvEfficiency(efficiency, style, "flat");
    assert h * (s * 0.95) == f * (s * 1.05);
  }

  /** The vehicle is electric when the request says so, or else when the vehicle database does. */
  predicate IsElectric(req: Request, chars: VehicleCharacteristics)
  {
    req.isElectric == Some(true) || chars.isElectric.GetOr(false)
  }

  // ---------------------------------------------------------------------------
  // Fuel and energy
  // ---------------------------------------------------------------------------

  /** The fuel calculator's query for a petrol vehicle: 25 mpg and $3.50 a gallon unless given. */
  function FuelQueryFor(req: Request, chars: VehicleCharacteristics, mileage: int): FuelQuery
  {
    FuelQuery(mileage, chars.mpg.GetOr(25.0), req.fuelPrice.GetOr(3.50),
              req.drivingStyle.GetOr(DefaultDrivingStyle), req.terrain.GetOr(DefaultTerrain))
  }

  /** The EV calculator's query: the consumption after the driving adjustment, 12 cents a kWh and mixed charging unless given. */
  function ElectricityQueryFor(req: Request, mileage: int, efficiency: real): ElectricityQuery
  {
    var adjusted := AdjustedEvEfficiency(efficiency, req.drivingStyle.GetOr(DefaultDrivingStyle), req.terrain.GetOr(DefaultTerrain));
    ElectricityQuery(mileage, adjusted, req.electricityRate.GetOr(0.12), req.chargingPreference.GetOr("mixed"))
  }

  /**
   * A purchase year's energy cost: electricity at the adjusted consumption
   * for an electric vehicle, fuel otherwise.
   */
  function EnergyCost(req: Request, chars: VehicleCharacteristics, engines: Engines,
                      make: string, model: string, modelYear: int, mileage: int): real
  {
    if IsElectric(req, chars) then
      engines.annualElectricityCost(ElectricityQueryFor(req, mileage, engines.evEfficiency(EfficiencyQuery(make, model, modelYear))))
    else
      engines.annualFuelCost(FuelQueryFor(req, chars, mileage))
  }
}
