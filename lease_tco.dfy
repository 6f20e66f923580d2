/**
 * `_calculate_lease_tco`: the cost of a lease, year by year, split into
 * lease payments, maintenance, insurance, fuel and mileage fees, with the
 * total (down payment included), the yearly and monthly averages, the cost
 * per mile and the affordability verdict.
 *
 * Every request key has a default here, so no key is ever missing; the one
 * exception the lease raises is the `NameError` of an electric vehicle,
 * whose adjusted consumption the lease never computes.
 */
module LeaseTco {
  import opened Wrappers
  import opened TcoModel
  import opened TcoRules

  // ---------------------------------------------------------------------------
  // The report
  // ---------------------------------------------------------------------------

  datatype LeaseCategory = LeasePayments | LeaseMaintenance | LeaseInsurance | LeaseFuelEnergy | FeesPenalties

  /** One row of the lease breakdown. */
  datatype LeaseYear = LeaseYear(
    year: int,
    ownershipYear: int,
    leaseYear: int,
    vehicleAge: int,
    vehicleModelYear: int,
    leasePayment: real,
    maintenance: real,
    maintenanceActivities: seq<Service>,
    cumulativeMileage: int,
    insurance: real,
    fuelEnergy: real,
    feesPenalties: real,
    totalAnnualCost: real)

  datatype LeaseTotals = LeaseTotals(
    leasePayments: real, maintenance: real, insurance: real, fuelEnergy: real, feesPenalties: real)

  datatype LeaseSummary = LeaseSummary(
    totalLeaseCost: real,
    averageAnnualCost: real,
    averageMonthlyCost: real,
    costPerMile: real,
    downPayment: real)

  datatype LeaseParameters = LeaseParameters(
    leaseTerm: int, monthlyPayment: real, annualMileageLimit: int, drivingStyle: string, terrain: string)

  datatype LeaseReport = LeaseReport(
    summary: LeaseSummary,
    annualBreakdown: seq<LeaseYear>,
    categoryTotals: LeaseTotals,
    maintenanceSchedule: seq<MaintenanceYear>,
    vehicleCharacteristics: VehicleCharacteristics,
    affordability: Affordability,
    analysisParameters: LeaseParameters)

  function LeaseAmount(row: LeaseYear, c: LeaseCategory): real
  {
    match c
    case LeasePayments => row.leasePayment
    case LeaseMaintenance => row.maintenance
    case LeaseInsurance => row.insurance
    case LeaseFuelEnergy => row.fuelEnergy
    case FeesPenalties => row.feesPenalties
  }

  /** A category's total over the rows, added up in row order. */
  function LeaseTotal(rows: seq<LeaseYear>, c: LeaseCategory): real
  {
    if |rows| == 0 then 0.0 else LeaseTotal(rows[..|rows| - 1], c) + LeaseAmount(rows[|rows| - 1], c)
  }

  function LeaseTotalsOf(rows: seq<LeaseYear>): LeaseTotals
  {
    LeaseTotals(LeaseTotal(rows, LeasePayments), LeaseTotal(rows, LeaseMaintenance), LeaseTotal(rows, LeaseInsurance),
                LeaseTotal(rows, LeaseFuelEnergy), LeaseTotal(rows, FeesPenalties))
  }

  // ---------------------------------------------------------------------------
  // What the loop reads
  // ---------------------------------------------------------------------------

  /** The request's values with the lease's defaults, and the maintenance schedule computed before the loop. */
  datatype LeaseContext = LeaseContext(
    req: Request,
    chars: VehicleCharacteristics,
    engines: Engines,
    regional: real,
    leaseTerm: int,
    monthlyPayment: real,
    downPayment: real,
    mileageLimit: int,
    maintenance: seq<MaintenanceYear>)

  /** The term: `lease_term`, else `analysis_years`, else 3 years. */
  function LeaseTerm(req: Request): int
  {
    req.leaseTerm.GetOr(req.analysisYears.GetOr(3))
  }

  /** $400 a month, nothing down and 12,000 miles a year unless given; maintenance priced at the mileage limit from 0 miles. */
  function LeaseContextFor(req: Request, chars: VehicleCharacteristics, engines: Engines, regional: real): LeaseContext
  {
    var term := LeaseTerm(req);
    var limit := req.annualMileageLimit.GetOr(12000);
    LeaseContext(
      req, chars, engines, regional, term, req.monthlyPayment.GetOr(400.0), req.downPayment.GetOr(0.0), limit,
      engines.maintenanceSchedule(MaintenanceQuery(limit, term, 0, req.make.GetOr("Unknown"),
                                                   req.drivingStyle.GetOr(DefaultDrivingStyle), req.model.GetOr("Unknown"))))
  }

  /** The value the lease insures: `trim_msrp`, else `purchase_price`, else $40,000. */
  function LeasedVehicleValue(req: Request): real
  {
    req.trimMsrp.GetOr(req.purchasePrice.GetOr(40000.0))
  }

  /**
   * The lease's insurance query, the same every year: make "Unknown", model
   * year 2024, age 25, California, one vehicle unless given; always
   * comprehensive, at the mileage limit, without a model.
   */
  function LeaseInsuranceQuery(ctx: LeaseContext): InsuranceQuery
  {
    var req := ctx.req;
    InsuranceQuery(LeasedVehicleValue(req), req.make.GetOr("Unknown"), req.year.GetOr(2024), req.userAge.GetOr(25),
                   req.state.GetOr("CA"), "comprehensive", ctx.mileageLimit, req.numHouseholdVehicles.GetOr(1),
                   ctx.regional, None)
  }

  /** The miles the lease allows over `years` years. */
  function LeaseMiles(mileageLimit: int, years: int): int
  {
    mileageLimit * years
  }

  /** Row `y` of a lease of a vehicle that is not electric. */
  function LeaseYearAt(ctx: LeaseContext, y: int): LeaseYear
    requires y >= 1
  {
    var req := ctx.req;
    var ownershipYear := FirstOwnershipYear + (y - 1);
    var payment := ctx.monthlyPayment * 12.0;
    var maintenance := if y <= |ctx.maintenance| then ctx.maintenance[y - 1].totalYearCost else 0.0;
    var activities := if y <= |ctx.maintenance| then ctx.maintenance[y - 1].services else [];
    var insurance := ctx.engines.annualPremium(LeaseInsuranceQuery(ctx));
    var fuel := ctx.engines.annualFuelCost(FuelQueryFor(req, ctx.chars, ctx.mileageLimit));
    var fees := CalculateLeaseFeesAndPenalties(req.annualMileage.GetOr(ctx.mileageLimit), ctx.mileageLimit, y,
                                               LeasedVehicleValue(req));
    LeaseYear(y, ownershipYear, y, ownershipYear - req.year.GetOr(2024), req.year.GetOr(2024), payment, maintenance,
              activities, LeaseMiles(ctx.mileageLimit, y), insurance, fuel, fees, payment + maintenance + insurance + fuel + fees)
  }

  /** The first `n` rows. */
  function LeaseBreakdown(ctx: LeaseContext, n: nat): seq<LeaseYear>
  {
    seq(n, i requires 0 <= i < n => LeaseYearAt(ctx, i + 1))
  }


  /** The summary: the categories plus the down payment, averaged per year and per month (0 for a term of 0 or less). */
  function LeaseSummaryOf(ctx: LeaseContext, totals: LeaseTotals): LeaseSummary
  {
    var total := totals.leasePayments + totals.maintenance + totals.insurance + totals.fuelEnergy + totals.feesPenalties
                 + ctx.downPayment;
    var term := ctx.leaseTerm;
    var miles := LeaseMiles(ctx.mileageLimit, term);
    LeaseSummary(
      total,
      if term > 0 then total / term as real else 0.0,
      if term > 0 then total / (term * 12) as real else 0.0,
      if miles > 0 then total / miles as real else 0.0,
      ctx.downPayment)
  }

  function LeaseReportOf(ctx: LeaseContext, rows: seq<LeaseYear>): LeaseReport
  {
    var totals := LeaseTotalsOf(rows);
    var summary := LeaseSummaryOf(ctx, totals);
    var req := ctx.req;
    LeaseReport(
      summary, rows, totals, ctx.maintenance, ctx.chars,
      CalculateAffordability(summary.averageAnnualCost, req.grossIncome.GetOr(60000.0), "lease"),
      LeaseParameters(ctx.leaseTerm, ctx.monthlyPayment, ctx.mileageLimit,
                      req.drivingStyle.GetOr(DefaultDrivingStyle), req.terrain.GetOr(DefaultTerrain)))
  }

  /**
   * The lease report, or the `NameError` of an electric vehicle: the lease
   * passes the consumption of an electric vehicle to the EV calculator
   * without ever computing it, so any lease of at least one year of an
   * electric vehicle fails.
   */
  function LeaseTcoOf(req: Request, chars: VehicleCharacteristics, engines: Engines, regional: real)
    : Result<LeaseReport, TcoError>
  {
    var ctx := LeaseContextFor(req, chars, engines, regional);
    if ctx.leaseTerm >= 1 && IsElectric(req, chars) then Failure(UnboundName("adjusted_ev_efficiency"))
    else Success(LeaseReportOf(ctx, LeaseBreakdown(ctx, if ctx.leaseTerm > 0 then ctx.leaseTerm else 0)))
  }

  // ---------------------------------------------------------------------------
  // The service's loop
  // ---------------------------------------------------------------------------

  /** `_calculate_lease_tco`. */
  method CalculateLeaseTco(req: Request, chars: VehicleCharacteristics, engines: Engines, regional: real)
    returns (r: Result<LeaseReport, TcoError>)
    ensures r == LeaseTcoOf(req, chars, engines, regional)
  {
    var leaseTerm := req.leaseTerm.GetOr(req.analysisYears.GetOr(3));
    var monthlyPayment := req.monthlyPayment.GetOr(400.0);
    var downPayment := req.downPayment.GetOr(0.0);
    var annualMileageLimit := req.annualMileageLimit.GetOr(12000);
    var drivingStyle := req.drivingStyle.GetOr(DefaultDrivingStyle);
    var terrain := req.terrain.GetOr(DefaultTerrain);
    var maintenance := engines.maintenanceSchedule(MaintenanceQuery(
      annualMileageLimit, leaseTerm, 0, req.make.GetOr("Unknown"), drivingStyle, req.model.GetOr("Unknown")));
    var ctx := LeaseContext(req, chars, engines, regional, leaseTerm, monthlyPayment, downPayment,
                            annualMileageLimit, maintenance);
    assert ctx == LeaseContextFor(req, chars, engines, regional);

    var breakdown: seq<LeaseYear> := [];
    var totals := LeaseTotals(0.0, 0.0, 0.0, 0.0, 0.0);
    var year := 1;
    while year <= leaseTerm
      invariant 1 <= year <= (if leaseTerm > 0 then leaseTerm else 0) + 1
      invariant year > 1 ==> !IsElectric(req, chars)
      invariant breakdown == LeaseBreakdown(ctx, year - 1)
      invariant totals == LeaseTotalsOf(breakdown)
    {
      var isElectric := req.isElectric == Some(true) || chars.isElectric.GetOr(false);
      if isElectric {
        return Failure(UnboundName("adjusted_ev_efficiency"));
      }
      breakdown, totals := LeaseYearStep(ctx, year, breakdown, totals);
      year := year + 1;
    }
    assert breakdown == LeaseBreakdown(ctx, if leaseTerm > 0 then leaseTerm else 0);
    var summary := LeaseFinalMetrics(ctx, totals);
    var affordability := CalculateAffordability(summary.averageAnnualCost, req.grossIncome.GetOr(60000.0), "lease");
    return Success(LeaseReport(
      summary, breakdown, totals, maintenance, chars, affordability,
      LeaseParameters(leaseTerm, monthlyPayment, annualMileageLimit, drivingStyle, terrain)));
  }

  /** Appends year `year`'s row and adds its amounts to the category totals. */
  method LeaseYearStep(ctx: LeaseContext, year: int, breakdown: seq<LeaseYear>, totals: LeaseTotals)
    returns (breakdown': seq<LeaseYear>, totals': LeaseTotals)
    requires year >= 1
    requires breakdown == LeaseBreakdown(ctx, year - 1)
    requires totals == LeaseTotalsOf(breakdown)
    ensures breakdown' == LeaseBreakdown(ctx, year)
    ensures totals' == LeaseTotalsOf(breakdown')
  {
    var row := LeaseBreakdownYear(ctx, year);
    LeaseBreakdownAppend(ctx, year);
    LeaseTotalAppend(breakdown, row);
    breakdown' := breakdown + [row];
    totals' := totals.(
      leasePayments := totals.leasePayments + row.leasePayment,
      maintenance := totals.maintenance + row.maintenance,
      insurance := totals.insurance + row.insurance,
      fuelEnergy := totals.fuelEnergy + row.fuelEnergy,
      feesPenalties := totals.feesPenalties + row.feesPenalties);
  }

  /** One turn of the loop for a vehicle that is not electric, computed as the service does. */
  method LeaseBreakdownYear(ctx: LeaseContext, year: int) returns (row: LeaseYear)
    requires year >= 1
    ensures row == LeaseYearAt(ctx, year)
  {
    var req := ctx.req;
    var ownershipYear := FirstOwnershipYear + (year - 1);
    var currentMileage := ctx.mileageLimit * year;
    var annualLeasePayment := ctx.monthlyPayment * 12.0;
    var annualMaintenance: real;
    var activities: seq<Service>;
    if year <= |ctx.maintenance| {
      annualMaintenance := ctx.maintenance[year - 1].totalYearCost;
      activities := ctx.maintenance[year - 1].services;
    } else {
      annualMaintenance := 0.0;
      activities := [];
    }
    var vehicleValue := req.trimMsrp.GetOr(req.purchasePrice.GetOr(40000.0));
    var annualInsurance := ctx.engines.annualPremium(InsuranceQuery(
      vehicleValue, req.make.GetOr("Unknown"), req.year.GetOr(2024), req.userAge.GetOr(25), req.state.GetOr("CA"),
      "comprehensive", ctx.mileageLimit, req.numHouseholdVehicles.GetOr(1), ctx.regional, None));
    var drivingStyle := req.drivingStyle.GetOr(DefaultDrivingStyle);
    var terrain := req.terrain.GetOr(DefaultTerrain);
    var annualFuel := ctx.engines.annualFuelCost(FuelQuery(
      ctx.mileageLimit, ctx.chars.mpg.GetOr(25.0), req.fuelPrice.GetOr(3.50), drivingStyle, terrain));
    var annualFees := CalculateLeaseFeesAndPenalties(req.annualMileage.GetOr(ctx.mileageLimit), ctx.mileageLimit,
                                                     year, vehicleValue);
    var totalAnnual := annualLeasePayment + annualMaintenance + annualInsurance + annualFuel + annualFees;
    row := LeaseYear(year, ownershipYear, year, ownershipYear - req.year.GetOr(2024), req.year.GetOr(2024),
                     annualLeasePayment, annualMaintenance, activities, currentMileage, annualInsurance, annualFuel,
                     annualFees, totalAnnual);
  }

  /** The summary metrics after the loop, computed as the service does. */
  method LeaseFinalMetrics(ctx: LeaseContext, totals: LeaseTotals) returns (summary: LeaseSummary)
    ensures summary == LeaseSummaryOf(ctx, totals)
  {
    var leaseTerm := ctx.leaseTerm;
    var totalLeaseCost := totals.leasePayments + totals.maintenance + totals.insurance + totals.fuelEnergy
                          + totals.feesPenalties + ctx.downPayment;
    var averageAnnualCost := if leaseTerm > 0 then totalLeaseCost / leaseTerm as real else 0.0;
    var averageMonthlyCost := if leaseTerm > 0 then totalLeaseCost / (leaseTerm * 12) as real else 0.0;
    var totalMiles := ctx.mileageLimit * leaseTerm;
    assert totalMiles == LeaseMiles(ctx.mileageLimit, leaseTerm);
    var costPerMile := if totalMiles > 0 then totalLeaseCost / totalMiles as real else 0.0;
    summary := LeaseSummary(totalLeaseCost, averageAnnualCost, averageMonthlyCost, costPerMile, ctx.downPayment);
  }

  /** The first `n` rows are the first `n - 1` and row `n`. */
  lemma LeaseBreakdownAppend(ctx: LeaseContext, n: nat)
    requires n >= 1
    ensures LeaseBreakdown(ctx, n) == LeaseBreakdown(ctx, n - 1) + [LeaseYearAt(ctx, n)]
  {
  }

  /** Adding a row adds its amount to every category's total. */
  lemma LeaseTotalAppend(rows: seq<LeaseYear>, row: LeaseYear)
    ensures LeaseTotalsOf(rows + [row]) == LeaseTotalsOf(rows).(
      leasePayments := LeaseTotalsOf(rows).leasePayments + row.leasePayment,
      maintenance := LeaseTotalsOf(rows).maintenance + row.maintenance,
      insurance := LeaseTotalsOf(rows).insurance + row.insurance,
      fuelEnergy := LeaseTotalsOf(rows).fuelEnergy + row.fuelEnergy,
      feesPenalties := LeaseTotalsOf(rows).feesPenalties + row.feesPenalties)
  {
    assert (rows + [row])[..|rows|] == rows;
  }

  // ---------------------------------------------------------------------------
  // What the report promises
  // ---------------------------------------------------------------------------

  /** A lease fails exactly when it runs at least one year and the vehicle is electric. */
  lemma LeaseFailsExactlyWhen(req: Request, chars: VehicleCharacteristics, engines: Engines, regional: real)
    ensures LeaseTcoOf(req, chars, engines, regional).Failure? <==> LeaseTerm(req) >= 1 && IsElectric(req, chars)
    ensures LeaseTcoOf(req, chars, engines, regional).Failure? ==>
      LeaseTcoOf(req, chars, engines, regional).error == UnboundName("adjusted_ev_efficiency")
  {
  }

  /**
   * Row `i` of the lease is lease year `i + 1`: twelve monthly payments, the
   * mileage limit driven each year, maintenance from the schedule (0 past its
   * end), the same premium every year, fuel priced on the mileage limit
   * rather than the miles actually driven, no fee unless the annual mileage
   * exceeds the limit and 25 cents a mile over it, and a total that is the
   * sum of the five categories.
   */
  lemma LeaseRows(ctx: LeaseContext, n: nat)
    ensures |LeaseBreakdown(ctx, n)| == n
    ensures forall i :: 0 <= i < n ==>
      var row := LeaseBreakdown(ctx, n)[i];
      var actual := ctx.req.annualMileage.GetOr(ctx.mileageLimit);
      row.year == i + 1 && row.leaseYear == i + 1
      && row.ownershipYear == FirstOwnershipYear + i
      && row.leasePayment == ctx.monthlyPayment * 12.0
      && row.cumulativeMileage == LeaseMiles(ctx.mileageLimit, i + 1)
      && row.maintenance == (if i < |ctx.maintenance| then ctx.maintenance[i].totalYearCost else 0.0)
      && row.insurance == ctx.engines.annualPremium(LeaseInsuranceQuery(ctx))
      && row.fuelEnergy == ctx.engines.annualFuelCost(FuelQueryFor(ctx.req, ctx.chars, ctx.mileageLimit))
      && (actual <= ctx.mileageLimit ==> row.feesPenalties == 0.0)
      && (actual > ctx.mileageLimit ==> row.feesPenalties * 4.0 == (actual - ctx.mileageLimit) as real)
      && row.totalAnnualCost == row.leasePayment + row.maintenance + row.insurance + row.fuelEnergy + row.feesPenalties
  {
    forall i | 0 <= i < n
      ensures LeaseBreakdown(ctx, n)[i] == LeaseYearAt(ctx, i + 1)
    {
    }
  }

  /** A category with the same amount `k` in every row totals `k` times the number of rows. */
  predicate ColumnConstant(rows: seq<LeaseYear>, c: LeaseCategory, k: real)
  {
    forall i :: 0 <= i < |rows| ==> LeaseAmount(rows[i], c) == k
  }

  lemma {:induction false} ConstantColumn(rows: seq<LeaseYear>, c: LeaseCategory, k: real)
    requires ColumnConstant(rows, c, k)
    ensures LeaseTotal(rows, c) == k * |rows| as real
  {
    if |rows| > 0 {
      ConstantColumn(rows[..|rows| - 1], c, k);
      ScaleStep(k, |rows|);
    }
  }

  lemma ScaleStep(k: real, n: int)
    ensures k * (n - 1) as real + k == k * n as real
  {
    assert n as real == (n - 1) as real + 1.0;
  }

  /** Every year of the lease costs the same in payments, insurance, fuel and fees. */
  lemma LeaseYearsAlike(ctx: LeaseContext, y1: int, y2: int)
    requires y1 >= 1 && y2 >= 1
    ensures LeaseYearAt(ctx, y1).leasePayment == LeaseYearAt(ctx, y2).leasePayment
    ensures LeaseYearAt(ctx, y1).insurance == LeaseYearAt(ctx, y2).insurance
    ensures LeaseYearAt(ctx, y1).fuelEnergy == LeaseYearAt(ctx, y2).fuelEnergy
    ensures LeaseYearAt(ctx, y1).feesPenalties == LeaseYearAt(ctx, y2).feesPenalties
  {
  }

  /** Every row of the breakdown has the first year's amount in a category other than maintenance. */
  lemma RowsLikeFirst(ctx: LeaseContext, rows: seq<LeaseYear>, c: LeaseCategory)
    requires rows == LeaseBreakdown(ctx, |rows|)
    requires c != LeaseMaintenance
    ensures ColumnConstant(rows, c, LeaseAmount(LeaseYearAt(ctx, 1), c))
  {
    forall i | 0 <= i < |rows|
      ensures LeaseAmount(rows[i], c) == LeaseAmount(LeaseYearAt(ctx, 1), c)
    {
      assert rows[i] == LeaseYearAt(ctx, i + 1);
      AmountLikeFirst(ctx, i + 1, c);
    }
  }

  lemma AmountLikeFirst(ctx: LeaseContext, y: int, c: LeaseCategory)
    requires y >= 1 && c != LeaseMaintenance
    ensures LeaseAmount(LeaseYearAt(ctx, y), c) == LeaseAmount(LeaseYearAt(ctx, 1), c)
  {
    LeaseYearsAlike(ctx, y, 1);
  }

  /** Over `n` lease years the fees total a quarter per excess mile each year, and nothing within the limit. */
  lemma FeesColumnTotal(ctx: LeaseContext, n: nat)
    ensures var actual := ctx.req.annualMileage.GetOr(ctx.mileageLimit);
      LeaseTotal(LeaseBreakdown(ctx, n), FeesPenalties)
        == if actual > ctx.mileageLimit then n as real * (actual - ctx.mileageLimit) as real * 0.25 else 0.0
  {
    var rows := LeaseBreakdown(ctx, n);
    var fee := LeaseAmount(LeaseYearAt(ctx, 1), FeesPenalties);
    RowsLikeFirst(ctx, rows, FeesPenalties);
    ConstantColumn(rows, FeesPenalties, fee);
    var actual := ctx.req.annualMileage.GetOr(ctx.mileageLimit);
    if actual > ctx.mileageLimit {
      assert fee == (actual - ctx.mileageLimit) as real * 0.25;
    }
  }

  /**
   * A successful lease has one row per year of its term, its payments total
   * twelve monthly payments a year, and its total cost is the five
   * categories plus the down payment.
   */
  lemma LeaseTotalsFacts(req: Request, chars: VehicleCharacteristics, engines: Engines, regional: real)
    requires LeaseTcoOf(req, chars, engines, regional).Success?
    ensures var report := LeaseTcoOf(req, chars, engines, regional).value;
      var t := report.categoryTotals;
      var term := LeaseTerm(req);
      var n := if term > 0 then term else 0;
      var down := req.downPayment.GetOr(0.0);
      |report.annualBreakdown| == n
      && t.leasePayments == req.monthlyPayment.GetOr(400.0) * 12.0 * n as real
      && report.summary.totalLeaseCost == t.leasePayments + t.maintenance + t.insurance + t.fuelEnergy + t.feesPenalties + down
      && report.summary.downPayment == down
  {
    var ctx := LeaseContextFor(req, chars, engines, regional);
    var n: nat := if ctx.leaseTerm > 0 then ctx.leaseTerm else 0;
    var rows := LeaseBreakdown(ctx, n);
    RowsLikeFirst(ctx, rows, LeasePayments);
    ConstantColumn(rows, LeasePayments, LeaseAmount(LeaseYearAt(ctx, 1), LeasePayments));
    assert LeaseTcoOf(req, chars, engines, regional).value == LeaseReportOf(ctx, rows);
  }

  /**
   * The lease's fees in closed form: a quarter for every mile driven over
   * the limit, in every year of the term; nothing within the limit.
   */
  lemma LeaseFeesTotal(req: Request, chars: VehicleCharacteristics, engines: Engines, regional: real)
    requires LeaseTcoOf(req, chars, engines, regional).Success?
    ensures var t := LeaseTcoOf(req, chars, engines, regional).value.categoryTotals;
      var term := LeaseTerm(req);
      var n := if term > 0 then term else 0;
      var limit := req.annualMileageLimit.GetOr(12000);
      var actual := req.annualMileage.GetOr(limit);
      (actual <= limit ==> t.feesPenalties == 0.0)
      && (actual > limit ==> t.feesPenalties == n as real * (actual - limit) as real * 0.25)
  {
    var ctx := LeaseContextFor(req, chars, engines, regional);
    var n: nat := if ctx.leaseTerm > 0 then ctx.leaseTerm else 0;
    var rows := LeaseBreakdown(ctx, n);
    FeesColumnTotal(ctx, n);
    assert LeaseTcoOf(req, chars, engines, regional).value == LeaseReportOf(ctx, rows);
  }

  /** Driving no more than the limit costs no fees over the whole lease. */
  lemma NoFeesWithinLimit(req: Request, chars: VehicleCharacteristics, engines: Engines, regional: real)
    requires LeaseTcoOf(req, chars, engines, regional).Success?
    requires req.annualMileage.GetOr(req.annualMileageLimit.GetOr(12000)) <= req.annualMileageLimit.GetOr(12000)
    ensures LeaseTcoOf(req, chars, engines, regional).value.categoryTotals.feesPenalties == 0.0
  {
    var ctx := LeaseContextFor(req, chars, engines, regional);
    var n: nat := if ctx.leaseTerm > 0 then ctx.leaseTerm else 0;
    var rows := LeaseBreakdown(ctx, n);
    RowsLikeFirst(ctx, rows, FeesPenalties);
    ConstantColumn(rows, FeesPenalties, LeaseAmount(LeaseYearAt(ctx, 1), FeesPenalties));
    assert LeaseTcoOf(req, chars, engines, regional).value == LeaseReportOf(ctx, rows);
  }

  /**
   * The averages: for a positive term the total spread over the years and
   * over the months (the monthly average one twelfth of the yearly one); 0
   * for a term of 0 or less; the cost per mile spreads the total over the
   * miles the lease allows, and is 0 when there are none.
   */
  lemma LeaseAverages(ctx: LeaseContext, totals: LeaseTotals)
    ensures var s := LeaseSummaryOf(ctx, totals);
      var term := ctx.leaseTerm;
      var miles := LeaseMiles(ctx.mileageLimit, term);
      (term > 0 ==> s.averageAnnualCost * term as real == s.totalLeaseCost
                    && s.averageMonthlyCost * (term * 12) as real == s.totalLeaseCost
                    && s.averageMonthlyCost * 12.0 == s.averageAnnualCost)
      && (term <= 0 ==> s.averageAnnualCost == 0.0 && s.averageMonthlyCost == 0.0)
      && (miles > 0 ==> s.costPerMile * miles as real == s.totalLeaseCost)
      && (miles <= 0 ==> s.costPerMile == 0.0)
  {
    var s := LeaseSummaryOf(ctx, totals);
    var term := ctx.leaseTerm;
    if term > 0 {
      var t := term as real;
      assert s.averageAnnualCost == s.totalLeaseCost / t;
      assert s.averageMonthlyCost == s.totalLeaseCost / (t * 12.0);
    }
  }
}
