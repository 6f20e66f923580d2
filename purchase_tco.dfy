/**
 * `_calculate_purchase_tco`: the cost of owning a bought vehicle, year by
 * year, split into depreciation, maintenance, insurance, fuel or energy and
 * financing, with the totals, the averages, the cost per mile and the
 * affordability verdict.
 *
 * The outside engines come in as `Engines`; the specification function
 * `PurchaseTco` says what the report is, and the loop in
 * `CalculatePurchaseTco` is proved to build exactly that report.
 */
module PurchaseTco {
  import opened Wrappers
  import opened TcoModel
  import opened TcoRules

  // ---------------------------------------------------------------------------
  // The report
  // ---------------------------------------------------------------------------

  datatype Category = Depreciation | Maintenance | Insurance | FuelEnergy | Financing

  /** One row of the annual breakdown. */
  datatype PurchaseYear = PurchaseYear(
    year: int,
    ownershipYear: int,
    vehicleAge: int,
    vehicleModelYear: int,
    cumulativeMileage: int,
    depreciation: real,
    maintenance: real,
    maintenanceActivities: seq<Service>,
    insurance: real,
    fuelEnergy: real,
    financing: real,
    totalAnnualCost: real)

  datatype CategoryTotals = CategoryTotals(
    depreciation: real, maintenance: real, insurance: real, fuelEnergy: real, financing: real)

  datatype PurchaseSummary = PurchaseSummary(
    totalTco: real,
    totalOwnershipCost: real,
    averageAnnualCost: real,
    costPerMile: real,
    finalVehicleValue: real,
    totalDepreciation: real)

  datatype PurchaseParameters = PurchaseParameters(
    analysisYears: int, annualMileage: int, startingMileage: int, purchasePrice: real)

  datatype PurchaseReport = PurchaseReport(
    summary: PurchaseSummary,
    annualBreakdown: seq<PurchaseYear>,
    categoryTotals: CategoryTotals,
    depreciationSchedule: seq<real>,
    maintenanceSchedule: seq<MaintenanceYear>,
    financingSchedule: Option<seq<FinancingYear>>,
    vehicleCharacteristics: VehicleCharacteristics,
    affordability: Affordability,
    analysisParameters: PurchaseParameters)

  function Amount(row: PurchaseYear, c: Category): real
  {
    match c
    case Depreciation => row.depreciation
    case Maintenance => row.maintenance
    case Insurance => row.insurance
    case FuelEnergy => row.fuelEnergy
    case Financing => row.financing
  }

  /** A category's total over the rows, added up in row order. */
  function Total(rows: seq<PurchaseYear>, c: Category): real
  {
    if |rows| == 0 then 0.0 else Total(rows[..|rows| - 1], c) + Amount(rows[|rows| - 1], c)
  }

  function TotalsOf(rows: seq<PurchaseYear>): CategoryTotals
  {
    CategoryTotals(Total(rows, Depreciation), Total(rows, Maintenance), Total(rows, Insurance),
                   Total(rows, FuelEnergy), Total(rows, Financing))
  }

  /** The sum of the rows' own totals. */
  function SumOfAnnualTotals(rows: seq<PurchaseYear>): real
  {
    if |rows| == 0 then 0.0 else SumOfAnnualTotals(rows[..|rows| - 1]) + rows[|rows| - 1].totalAnnualCost
  }

  // ---------------------------------------------------------------------------
  // What the loop reads
  // ---------------------------------------------------------------------------

  /** The price: `price`, else `trim_msrp`, else $30,000. */
  function PurchasePrice(req: Request): real
  {
    req.price.GetOr(req.trimMsrp.GetOr(30000.0))
  }

  /** The number of years analysed: `analysis_years`, else 5. */
  function AnalysisYears(req: Request): int
  {
    req.analysisYears.GetOr(5)
  }

  /** Financing applies when any of five request fields asks for it. */
  predicate IsFinanced(req: Request)
  {
    req.financingEnabled.GetOr(false)
    || req.financingOption == Some("finance")
    || req.paymentMethod == Some("loan")
    || req.financingType == Some("loan")
    || req.loanAmount.GetOr(0.0) > 0.0
  }

  /** The amount borrowed: `loan_amount`, else 80 per cent of the price. */
  function LoanAmount(req: Request, price: real): real
  {
    req.loanAmount.GetOr(price * 0.8)
  }

  /** The loan schedule: only for a financed purchase of a positive amount; 5 per cent over 5 years unless given. */
  function FinancingSchedule(req: Request, engines: Engines, price: real, years: int): Option<seq<FinancingYear>>
  {
    if IsFinanced(req) && LoanAmount(req, price) > 0.0 then
      Some(engines.loanPayments(LoanQuery(LoanAmount(req, price), req.interestRate.GetOr(5.0), req.loanTerm.GetOr(5), years)))
    else None
  }

  /** The request's resolved values and the three schedules computed before the loop. */
  datatype PurchaseContext = PurchaseContext(
    req: Request,
    chars: VehicleCharacteristics,
    engines: Engines,
    regional: real,
    price: real,
    years: int,
    currentMileage: int,
    make: string,
    model: string,
    modelYear: int,
    annualMileage: int,
    depreciation: seq<real>,
    maintenance: seq<MaintenanceYear>,
    financing: Option<seq<FinancingYear>>)

  /** The context of a request that names make, model, year and annual mileage. */
  function ContextFor(req: Request, chars: VehicleCharacteristics, engines: Engines, regional: real): PurchaseContext
    requires req.make.Some? && req.model.Some? && req.year.Some? && req.annualMileage.Some?
  {
    var price := PurchasePrice(req);
    var years := AnalysisYears(req);
    var currentMileage := req.currentMileage.GetOr(0);
    var make := req.make.value;
    var model := req.model.value;
    var modelYear := req.year.value;
    var annualMileage := req.annualMileage.value;
    PurchaseContext(
      req, chars, engines, regional, price, years, currentMileage, make, model, modelYear, annualMileage,
      engines.depreciationSchedule(DepreciationQuery(price, make, model, modelYear, annualMileage, years)),
      engines.maintenanceSchedule(MaintenanceQuery(annualMileage, years, currentMileage, make,
                                                   req.drivingStyle.GetOr(DefaultDrivingStyle), model)),
      FinancingSchedule(req, engines, price, years))
  }

  /** Year `y`'s depreciation: the drop in value from the year before (from the price in year 1). */
  function YearDepreciation(ctx: PurchaseContext, y: int): real
    requires 1 <= y <= |ctx.depreciation|
  {
    if y == 1 then ctx.price - ctx.depreciation[0] else ctx.depreciation[y - 2] - ctx.depreciation[y - 1]
  }

  /** Year `y`'s maintenance: the schedule's cost for the year, 0 past its end. */
  function YearMaintenance(ctx: PurchaseContext, y: int): real
    requires y >= 1
  {
    if y <= |ctx.maintenance| then ctx.maintenance[y - 1].totalYearCost else 0.0
  }

  function YearActivities(ctx: PurchaseContext, y: int): seq<Service>
    requires y >= 1
  {
    if y <= |ctx.maintenance| then ctx.maintenance[y - 1].services else []
  }

  /** Year `y`'s insurance query: the value at the end of the year, age 35, comprehensive, two vehicles unless given. */
  function InsuranceQueryFor(ctx: PurchaseContext, y: int): InsuranceQuery
    requires 1 <= y && ctx.req.state.Some?
  {
    var req := ctx.req;
    InsuranceQuery(
      if y <= |ctx.depreciation| then ctx.depreciation[y - 1] else ctx.price * 0.5,
      ctx.make, ctx.modelYear, req.driverAge.GetOr(35), req.state.value,
      req.coverageType.GetOr("comprehensive"), ctx.annualMileage, req.numHouseholdVehicles.GetOr(2),
      ctx.regional, Some(ctx.model))
  }

  /** Year `y`'s loan payment: the schedule's `annual_payment` (0 if absent), 0 past its end or without a loan. */
  function YearFinancing(ctx: PurchaseContext, y: int): real
    requires y >= 1
  {
    match ctx.financing
    case Some(schedule) => if y <= |schedule| then schedule[y - 1].annualPayment.GetOr(0.0) else 0.0
    case None => 0.0
  }

  /** Row `y` of the breakdown. */
  function PurchaseYearAt(ctx: PurchaseContext, y: int): PurchaseYear
    requires 1 <= y <= |ctx.depreciation| && ctx.req.state.Some?
  {
    var ownershipYear := FirstOwnershipYear + (y - 1);
    var depreciation := YearDepreciation(ctx, y);
    var maintenance := YearMaintenance(ctx, y);
    var insurance := ctx.engines.annualPremium(InsuranceQueryFor(ctx, y));
    var fuel := EnergyCost(ctx.req, ctx.chars, ctx.engines, ctx.make, ctx.model, ctx.modelYear, ctx.annualMileage);
    var financing := YearFinancing(ctx, y);
    PurchaseYear(
      y, ownershipYear, ownershipYear - ctx.modelYear, ctx.modelYear, ctx.currentMileage + ctx.annualMileage * y,
      depreciation, maintenance, YearActivities(ctx, y), insurance, fuel, financing,
      depreciation + maintenance + insurance + fuel + financing)
  }

  /** The first `n` rows. */
  function Breakdown(ctx: PurchaseContext, n: int): seq<PurchaseYear>
    requires 0 <= n <= |ctx.depreciation| && (n == 0 || ctx.req.state.Some?)
  {
    seq(n, i requires 0 <= i < n => PurchaseYearAt(ctx, i + 1))
  }

  /** The miles the analysis covers. */
  function TotalMiles(annualMileage: int, years: int): int
  {
    annualMileage * years
  }

  /** The summary: TCO with depreciation, out-of-pocket cost without it, its yearly average and cost per mile. */
  function SummaryOf(ctx: PurchaseContext, totals: CategoryTotals): PurchaseSummary
    requires ctx.years != 0
  {
    var totalTco := totals.depreciation + totals.maintenance + totals.insurance + totals.fuelEnergy + totals.financing;
    var outOfPocket := totals.maintenance + totals.insurance + totals.fuelEnergy + totals.financing;
    var totalMiles := TotalMiles(ctx.annualMileage, ctx.years);
    var costPerMile := if totalMiles > 0 then outOfPocket / totalMiles as real else 0.0;
    var finalValue := if |ctx.depreciation| > 0 then ctx.depreciation[|ctx.depreciation| - 1] else ctx.price * 0.5;
    PurchaseSummary(totalTco, outOfPocket, outOfPocket / ctx.years as real, costPerMile, finalValue, totals.depreciation)
  }

  /** Affordability of the average out-of-pocket cost against `gross_income` ($60,000 unless given). */
  function PurchaseAffordability(ctx: PurchaseContext, summary: PurchaseSummary): Affordability
  {
    CalculateAffordability(summary.averageAnnualCost, ctx.req.grossIncome.GetOr(60000.0), "purchase")
  }

  function ReportOf(ctx: PurchaseContext, rows: seq<PurchaseYear>): PurchaseReport
    requires ctx.years != 0
  {
    var totals := TotalsOf(rows);
    var summary := SummaryOf(ctx, totals);
    PurchaseReport(
      summary, rows, totals, ctx.depreciation, ctx.maintenance, ctx.financing, ctx.chars,
      PurchaseAffordability(ctx, summary),
      PurchaseParameters(ctx.years, ctx.annualMileage, ctx.currentMileage, ctx.price))
  }

  /**
   * The purchase report, or the exception the service raises: a missing
   * make, model, year or annual mileage (looked up in that order for the
   * depreciation engine); a depreciation schedule with no entry for year 1;
   * a missing state (read for the first year's insurance); a depreciation
   * schedule shorter than the analysis; an analysis of zero years (the
   * average divides by it). A negative number of years gives an empty
   * breakdown.
   */
  function PurchaseTcoOf(req: Request, chars: VehicleCharacteristics, engines: Engines, regional: real)
    : Result<PurchaseReport, TcoError>
  {
    if req.make.None? then Failure(MissingKey("make"))
    else if req.model.None? then Failure(MissingKey("model"))
    else if req.year.None? then Failure(MissingKey("year"))
    else if req.annualMileage.None? then Failure(MissingKey("annual_mileage"))
    else
      var ctx := ContextFor(req, chars, engines, regional);
      if ctx.years >= 1 && |ctx.depreciation| == 0 then Failure(IndexOutOfRange)
      else if ctx.years >= 1 && req.state.None? then Failure(MissingKey("state"))
      else if |ctx.depreciation| < ctx.years then Failure(IndexOutOfRange)
      else if ctx.years == 0 then Failure(DivisionByZero)
      else Success(ReportOf(ctx, Breakdown(ctx, if ctx.years > 0 then ctx.years else 0)))
  }

  // ---------------------------------------------------------------------------
  // The service's loop
  // ---------------------------------------------------------------------------

  /** `_calculate_purchase_tco`. */
  method CalculatePurchaseTco(req: Request, chars: VehicleCharacteristics, engines: Engines, regional: real)
    returns (r: Result<PurchaseReport, TcoError>)
    ensures r == PurchaseTcoOf(req, chars, engines, regional)
  {
    var price := req.price.GetOr(req.trimMsrp.GetOr(30000.0));
    var years := req.analysisYears.GetOr(5);
    var currentMileage := req.currentMileage.GetOr(0);
    if req.make.None? {
      return Failure(MissingKey("make"));
    }
    if req.model.None? {
      return Failure(MissingKey("model"));
    }
    if req.year.None? {
      return Failure(MissingKey("year"));
    }
    if req.annualMileage.None? {
      return Failure(MissingKey("annual_mileage"));
    }
    var make, model, modelYear, annualMileage := req.make.value, req.model.value, req.year.value, req.annualMileage.value;
    var depreciation := engines.depreciationSchedule(DepreciationQuery(price, make, model, modelYear, annualMileage, years));
    var maintenance := engines.maintenanceSchedule(
      MaintenanceQuery(annualMileage, years, currentMileage, make, req.drivingStyle.GetOr(DefaultDrivingStyle), model));
    var financing := LoanSchedule(req, engines, price, years);
    var ctx := PurchaseContext(req, chars, engines, regional, price, years, currentMileage, make, model, modelYear,
                               annualMileage, depreciation, maintenance, financing);
    assert ctx == ContextFor(req, chars, engines, regional);

    var breakdown: seq<PurchaseYear> := [];
    var totals := CategoryTotals(0.0, 0.0, 0.0, 0.0, 0.0);
    var year := 1;
    while year <= years
      invariant 1 <= year <= (if years > 0 then years else 0) + 1
      invariant year - 1 <= |depreciation| && (year == 1 || req.state.Some?)
      invariant breakdown == Breakdown(ctx, year - 1)
      invariant totals == TotalsOf(breakdown)
    {
      if |depreciation| < year {
        return Failure(IndexOutOfRange);
      }
      if req.state.None? {
        return Failure(MissingKey("state"));
      }
      var row := BreakdownYear(ctx, year);
      BreakdownAppend(ctx, year);
      TotalAppend(breakdown, row);
      breakdown := breakdown + [row];
      totals := totals.(
        depreciation := totals.depreciation + row.depreciation,
        maintenance := totals.maintenance + row.maintenance,
        insurance := totals.insurance + row.insurance,
        fuelEnergy := totals.fuelEnergy + row.fuelEnergy,
        financing := totals.financing + row.financing);
      year := year + 1;
    }
    assert breakdown == Breakdown(ctx, if years > 0 then years else 0);
    if years == 0 {
      return Failure(DivisionByZero);
    }
    var summary := FinalMetrics(ctx, totals);
    var affordability := CalculateAffordability(summary.averageAnnualCost, req.grossIncome.GetOr(60000.0), "purchase");
    return Success(PurchaseReport(
      summary, breakdown, totals, depreciation, maintenance, financing, chars, affordability,
      PurchaseParameters(years, annualMileage, currentMileage, price)));
  }

  /** The financing block before the loop: a loan schedule only for a financed purchase of a positive amount. */
  method LoanSchedule(req: Request, engines: Engines, price: real, years: int) returns (financing: Option<seq<FinancingYear>>)
    ensures financing == FinancingSchedule(req, engines, price, years)
  {
    financing := None;
    var isFinanced := req.financingEnabled.GetOr(false) || req.financingOption == Some("finance")
      || req.paymentMethod == Some("loan") || req.financingType == Some("loan") || req.loanAmount.GetOr(0.0) > 0.0;
    if isFinanced {
      var loanAmount := req.loanAmount.GetOr(price * 0.8);
      if loanAmount > 0.0 {
        financing := Some(engines.loanPayments(LoanQuery(loanAmount, req.interestRate.GetOr(5.0), req.loanTerm.GetOr(5), years)));
      }
    }
  }

  /** One turn of the loop: the year's six figures, computed as the service does. */
  method BreakdownYear(ctx: PurchaseContext, year: int) returns (row: PurchaseYear)
    requires 1 <= year <= |ctx.depreciation| && ctx.req.state.Some?
    ensures row == PurchaseYearAt(ctx, year)
  {
    var req := ctx.req;
    var ownershipYear := FirstOwnershipYear + (year - 1);
    var annualDepreciation: real;
    if year == 1 {
      annualDepreciation := ctx.price - ctx.depreciation[year - 1];
    } else {
      annualDepreciation := ctx.depreciation[year - 2] - ctx.depreciation[year - 1];
    }
    var annualMaintenance := 0.0;
    var activities: seq<Service> := [];
    if year <= |ctx.maintenance| {
      annualMaintenance := ctx.maintenance[year - 1].totalYearCost;
      activities := ctx.maintenance[year - 1].services;
    }
    var annualInsurance := ctx.engines.annualPremium(InsuranceQuery(
      if year <= |ctx.depreciation| then ctx.depreciation[year - 1] else ctx.price * 0.5,
      ctx.make, ctx.modelYear, req.driverAge.GetOr(35), req.state.value,
      req.coverageType.GetOr("comprehensive"), ctx.annualMileage, req.numHouseholdVehicles.GetOr(2),
      ctx.regional, Some(ctx.model)));
    var isElectric := req.isElectric == Some(true) || ctx.chars.isElectric.GetOr(false);
    var drivingStyle := req.drivingStyle.GetOr(DefaultDrivingStyle);
    var terrain := req.terrain.GetOr(DefaultTerrain);
    var annualFuel: real;
    if isElectric {
      var evEfficiency := ctx.engines.evEfficiency(EfficiencyQuery(ctx.make, ctx.model, ctx.modelYear));
      var adjustedEvEfficiency := evEfficiency / CombinedMultiplier(drivingStyle, terrain);
      annualFuel := ctx.engines.annualElectricityCost(ElectricityQuery(
        ctx.annualMileage, adjustedEvEfficiency, req.electricityRate.GetOr(0.12), req.chargingPreference.GetOr("mixed")));
    } else {
      annualFuel := ctx.engines.annualFuelCost(FuelQuery(
        ctx.annualMileage, ctx.chars.mpg.GetOr(25.0), req.fuelPrice.GetOr(3.50), drivingStyle, terrain));
    }
    var annualFinancing := 0.0;
    if ctx.financing.Some? && year <= |ctx.financing.value| {
      annualFinancing := ctx.financing.value[year - 1].annualPayment.GetOr(0.0);
    }
    var totalAnnual := annualDepreciation + annualMaintenance + annualInsurance + annualFuel + annualFinancing;
    row := PurchaseYear(
      year, ownershipYear, ownershipYear - ctx.modelYear, ctx.modelYear, ctx.currentMileage + ctx.annualMileage * year,
      annualDepreciation, annualMaintenance, activities, annualInsurance, annualFuel, annualFinancing, totalAnnual);
  }

  /** The final metrics after the loop, computed as the service does. */
  method FinalMetrics(ctx: PurchaseContext, totals: CategoryTotals) returns (summary: PurchaseSummary)
    requires ctx.years != 0
    ensures summary == SummaryOf(ctx, totals)
  {
    var totalTco := totals.depreciation + totals.maintenance + totals.insurance + totals.fuelEnergy + totals.financing;
    var outOfPocketTotal := totals.maintenance + totals.insurance + totals.fuelEnergy + totals.financing;
    var averageAnnualOutOfPocket := outOfPocketTotal / ctx.years as real;
    var totalMiles := ctx.annualMileage * ctx.years;
    var costPerMile := if totalMiles > 0 then outOfPocketTotal / totalMiles as real else 0.0;
    var finalVehicleValue := if |ctx.depreciation| > 0 then ctx.depreciation[|ctx.depreciation| - 1] else ctx.price * 0.5;
    summary := PurchaseSummary(totalTco, outOfPocketTotal, averageAnnualOutOfPocket, costPerMile, finalVehicleValue, totals.depreciation);
  }

  /** The first `n` rows are the first `n - 1` and row `n`. */
  lemma BreakdownAppend(ctx: PurchaseContext, n: int)
    requires 1 <= n <= |ctx.depreciation| && ctx.req.state.Some?
    ensures Breakdown(ctx, n) == Breakdown(ctx, n - 1) + [PurchaseYearAt(ctx, n)]
  {
  }

  /** Adding a row adds its amount to every category's total. */
  lemma TotalAppend(rows: seq<PurchaseYear>, row: PurchaseYear)
    ensures TotalsOf(rows + [row]) == TotalsOf(rows).(
      depreciation := TotalsOf(rows).depreciation + row.depreciation,
      maintenance := TotalsOf(rows).maintenance + row.maintenance,
      insurance := TotalsOf(rows).insurance + row.insurance,
      fuelEnergy := TotalsOf(rows).fuelEnergy + row.fuelEnergy,
      financing := TotalsOf(rows).financing + row.financing)
  {
    assert (rows + [row])[..|rows|] == rows;
  }

  // ---------------------------------------------------------------------------
  // What the report promises
  // ---------------------------------------------------------------------------

  /**
   * The purchase succeeds exactly when make, model, year and annual mileage
   * are given and either the analysis is negative (empty) or it is at least
   * one year long, the state is given and the depreciation schedule covers it.
   */
  lemma PurchaseSucceedsExactlyWhen(req: Request, chars: VehicleCharacteristics, engines: Engines, regional: real)
    ensures PurchaseTcoOf(req, chars, engines, regional).Success? <==>
      req.make.Some? && req.model.Some? && req.year.Some? && req.annualMileage.Some?
      && var years := AnalysisYears(req);
         (years < 0
          || (years >= 1 && req.state.Some?
              && years <= |engines.depreciationSchedule(DepreciationQuery(
                   PurchasePrice(req), req.make.value, req.model.value, req.year.value, req.annualMileage.value, years))|))
  {
  }

  /**
   * Row `i` of the breakdown is ownership year `i + 1`: calendar year 2025 + i,
   * mileage growing by the annual mileage, maintenance from the schedule (0
   * past its end), insurance on the value at the end of the year, financing
   * from the loan schedule (0 past its end or without a loan), and a total
   * that is the sum of the five categories.
   */
  lemma BreakdownRows(ctx: PurchaseContext, n: int)
    requires 0 <= n <= |ctx.depreciation| && (n == 0 || ctx.req.state.Some?)
    ensures |Breakdown(ctx, n)| == n
    ensures forall i :: 0 <= i < n ==>
      var row := Breakdown(ctx, n)[i];
      row.year == i + 1
      && row.ownershipYear == FirstOwnershipYear + i
      && row.vehicleAge == FirstOwnershipYear + i - ctx.modelYear
      && row.cumulativeMileage == ctx.currentMileage + ctx.annualMileage * (i + 1)
      && row.depreciation == YearDepreciation(ctx, i + 1)
      && row.maintenance == (if i < |ctx.maintenance| then ctx.maintenance[i].totalYearCost else 0.0)
      && row.insurance == ctx.engines.annualPremium(InsuranceQueryFor(ctx, i + 1))
      && InsuranceQueryFor(ctx, i + 1).vehicleValue == ctx.depreciation[i]
      && row.fuelEnergy == EnergyCost(ctx.req, ctx.chars, ctx.engines, ctx.make, ctx.model, ctx.modelYear, ctx.annualMileage)
      && row.financing == (if ctx.financing.Some? && i < |ctx.financing.value|
                           then ctx.financing.value[i].annualPayment.GetOr(0.0) else 0.0)
      && row.totalAnnualCost == row.depreciation + row.maintenance + row.insurance + row.fuelEnergy + row.financing
  {
    forall i | 0 <= i < n
      ensures Breakdown(ctx, n)[i] == PurchaseYearAt(ctx, i + 1)
    {
    }
  }

  /** The yearly depreciation over the first `n` years adds up to the price less the value after year `n`. */
  lemma {:induction false} DepreciationTelescopes(ctx: PurchaseContext, n: int)
    requires 1 <= n <= |ctx.depreciation| && ctx.req.state.Some?
    ensures Total(Breakdown(ctx, n), Depreciation) == ctx.price - ctx.depreciation[n - 1]
  {
    var rows := Breakdown(ctx, n);
    BreakdownAppend(ctx, n);
    assert rows[..n - 1] == Breakdown(ctx, n - 1);
    if n > 1 {
      DepreciationTelescopes(ctx, n - 1);
    }
  }

  /** When every row's total is the sum of its categories, the rows' totals add up to the five category totals. */
  lemma {:induction false} AnnualTotalsAddUp(rows: seq<PurchaseYear>)
    requires forall row :: row in rows ==>
      row.totalAnnualCost == row.depreciation + row.maintenance + row.insurance + row.fuelEnergy + row.financing
    ensures SumOfAnnualTotals(rows)
      == Total(rows, Depreciation) + Total(rows, Maintenance) + Total(rows, Insurance)
         + Total(rows, FuelEnergy) + Total(rows, Financing)
  {
    if |rows| > 0 {
      var prefix := rows[..|rows| - 1];
      assert forall row :: row in prefix ==> row in rows;
      AnnualTotalsAddUp(prefix);
      assert rows[|rows| - 1] in rows;
    }
  }

  /** A category that is 0 in every row totals 0. */
  lemma {:induction false} TotalOfZeros(rows: seq<PurchaseYear>, c: Category)
    requires forall row :: row in rows ==> Amount(row, c) == 0.0
    ensures Total(rows, c) == 0.0
  {
    if |rows| > 0 {
      var prefix := rows[..|rows| - 1];
      assert forall row :: row in prefix ==> row in rows;
      TotalOfZeros(prefix, c);
      assert rows[|rows| - 1] in rows;
    }
  }

  /**
   * The summary's arithmetic: the TCO is the out-of-pocket cost plus the
   * depreciation; the average spreads the out-of-pocket cost over the years;
   * the cost per mile spreads it over the miles, and is 0 when there are none.
   */
  lemma SummaryArithmetic(ctx: PurchaseContext, totals: CategoryTotals)
    requires ctx.years != 0
    ensures var s := SummaryOf(ctx, totals);
      var miles := TotalMiles(ctx.annualMileage, ctx.years);
      s.totalTco == s.totalOwnershipCost + s.totalDepreciation
      && s.totalOwnershipCost == totals.maintenance + totals.insurance + totals.fuelEnergy + totals.financing
      && s.totalDepreciation == totals.depreciation
      && s.averageAnnualCost * ctx.years as real == s.totalOwnershipCost
      && (miles > 0 ==> s.costPerMile * miles as real == s.totalOwnershipCost)
      && (miles <= 0 ==> s.costPerMile == 0.0)
  {
    var s := SummaryOf(ctx, totals);
    var miles := TotalMiles(ctx.annualMileage, ctx.years);
    assert s.averageAnnualCost == s.totalOwnershipCost / ctx.years as real;
    if miles > 0 {
      assert s.costPerMile == s.totalOwnershipCost / miles as real;
    }
  }

  /**
   * The summary of a successful purchase: the TCO is the out-of-pocket cost
   * plus the depreciation and equals the rows' totals added up, and the
   * affordability is that of the average out-of-pocket cost.
   */
  lemma PurchaseSummaryFacts(req: Request, chars: VehicleCharacteristics, engines: Engines, regional: real)
    requires PurchaseTcoOf(req, chars, engines, regional).Success?
    ensures var report := PurchaseTcoOf(req, chars, engines, regional).value;
      var s := report.summary;
      var years := AnalysisYears(req);
      |report.annualBreakdown| == (if years > 0 then years else 0)
      && s.totalTco == s.totalOwnershipCost + s.totalDepreciation
      && s.totalTco == SumOfAnnualTotals(report.annualBreakdown)
      && report.affordability == CalculateAffordability(s.averageAnnualCost, req.grossIncome.GetOr(60000.0), "purchase")
  {
    var ctx := ContextFor(req, chars, engines, regional);
    var n := if ctx.years > 0 then ctx.years else 0;
    var rows := Breakdown(ctx, n);
    BreakdownRows(ctx, n);
    assert forall row :: row in rows ==>
      row.totalAnnualCost == row.depreciation + row.maintenance + row.insurance + row.fuelEnergy + row.financing;
    AnnualTotalsAddUp(rows);
    var report := PurchaseTcoOf(req, chars, engines, regional).value;
    assert report == ReportOf(ctx, rows);
    assert report.summary == SummaryOf(ctx, TotalsOf(rows));
    SummaryArithmetic(ctx, TotalsOf(rows));
  }

  /**
   * The summary of a successful purchase against its category totals: the
   * out-of-pocket cost is the four categories other than depreciation, the
   * depreciation is that category's total, and the TCO is the two together.
   */
  lemma PurchaseSummaryTotals(req: Request, chars: VehicleCharacteristics, engines: Engines, regional: real)
    requires PurchaseTcoOf(req, chars, engines, regional).Success?
    ensures var report := PurchaseTcoOf(req, chars, engines, regional).value;
      var s := report.summary;
      var t := report.categoryTotals;
      s.totalOwnershipCost == t.maintenance + t.insurance + t.fuelEnergy + t.financing
      && s.totalDepreciation == t.depreciation
      && s.totalTco == s.totalOwnershipCost + s.totalDepreciation
  {
    var ctx := ContextFor(req, chars, engines, regional);
    var rows := Breakdown(ctx, if ctx.years > 0 then ctx.years else 0);
    assert PurchaseTcoOf(req, chars, engines, regional).value == ReportOf(ctx, rows);
    SummaryArithmetic(ctx, TotalsOf(rows));
  }

  /**
   * A report whose summary agrees with its category totals: the TCO is the
   * out-of-pocket cost (the four categories other than depreciation) plus
   * the depreciation total, and the average annual cost spreads the
   * out-of-pocket cost over `years`.
   */
  predicate SummaryConsistent(p: PurchaseReport, years: int)
  {
    var s := p.summary;
    var t := p.categoryTotals;
    s.totalOwnershipCost == t.maintenance + t.insurance + t.fuelEnergy + t.financing
    && s.totalDepreciation == t.depreciation
    && s.totalTco == s.totalOwnershipCost + s.totalDepreciation
    && s.averageAnnualCost * years as real == s.totalOwnershipCost
  }

  /** Every successful purchase report is consistent over the analysis years. */
  lemma PurchaseConsistent(req: Request, chars: VehicleCharacteristics, engines: Engines, regional: real)
    requires PurchaseTcoOf(req, chars, engines, regional).Success?
    ensures SummaryConsistent(PurchaseTcoOf(req, chars, engines, regional).value, AnalysisYears(req))
  {
    PurchaseSummaryTotals(req, chars, engines, regional);
    PurchaseAverages(req, chars, engines, regional);
  }

  /** The average annual cost spreads the out-of-pocket cost over the years. */
  lemma PurchaseAverages(req: Request, chars: VehicleCharacteristics, engines: Engines, regional: real)
    requires PurchaseTcoOf(req, chars, engines, regional).Success?
    ensures var s := PurchaseTcoOf(req, chars, engines, regional).value.summary;
      s.averageAnnualCost * AnalysisYears(req) as real == s.totalOwnershipCost
  {
    var ctx := ContextFor(req, chars, engines, regional);
    var rows := Breakdown(ctx, if ctx.years > 0 then ctx.years else 0);
    assert PurchaseTcoOf(req, chars, engines, regional).value.summary == SummaryOf(ctx, TotalsOf(rows));
    assert ctx.years == AnalysisYears(req);
    SummaryArithmetic(ctx, TotalsOf(rows));
  }

  /** The cost per mile spreads the out-of-pocket cost over the miles of the analysis, and is 0 when there are none. */
  lemma PurchaseCostPerMile(req: Request, chars: VehicleCharacteristics, engines: Engines, regional: real)
    requires PurchaseTcoOf(req, chars, engines, regional).Success?
    ensures var s := PurchaseTcoOf(req, chars, engines, regional).value.summary;
      var miles := TotalMiles(req.annualMileage.value, AnalysisYears(req));
      (miles > 0 ==> s.costPerMile * miles as real == s.totalOwnershipCost)
      && (miles <= 0 ==> s.costPerMile == 0.0)
  {
    var ctx := ContextFor(req, chars, engines, regional);
    var rows := Breakdown(ctx, if ctx.years > 0 then ctx.years else 0);
    assert PurchaseTcoOf(req, chars, engines, regional).value.summary == SummaryOf(ctx, TotalsOf(rows));
    assert ctx.years == AnalysisYears(req) && ctx.annualMileage == req.annualMileage.value;
    SummaryArithmetic(ctx, TotalsOf(rows));
  }

  /**
   * The total depreciation of a purchase of at least one year is the price
   * less the depreciation schedule's value for the last year, which is the
   * final value when the schedule has exactly one entry per year.
   */
  lemma PurchaseDepreciationFacts(req: Request, chars: VehicleCharacteristics, engines: Engines, regional: real)
    requires PurchaseTcoOf(req, chars, engines, regional).Success?
    requires AnalysisYears(req) >= 1
    ensures var report := PurchaseTcoOf(req, chars, engines, regional).value;
      var s := report.summary;
      var years := AnalysisYears(req);
      s.totalDepreciation == PurchasePrice(req) - report.depreciationSchedule[years - 1]
      && (|report.depreciationSchedule| == years ==> s.finalVehicleValue == PurchasePrice(req) - s.totalDepreciation)
  {
    var ctx := ContextFor(req, chars, engines, regional);
    var rows := Breakdown(ctx, ctx.years);
    DepreciationTelescopes(ctx, ctx.years);
    assert PurchaseTcoOf(req, chars, engines, regional).value == ReportOf(ctx, rows);
  }

  /** Without financing no year carries a loan payment and the financing total is 0. */
  lemma NoFinancingWithoutLoan(req: Request, chars: VehicleCharacteristics, engines: Engines, regional: real)
    requires PurchaseTcoOf(req, chars, engines, regional).Success?
    requires !IsFinanced(req)
    ensures var report := PurchaseTcoOf(req, chars, engines, regional).value;
      report.financingSchedule.None?
      && (forall row :: row in report.annualBreakdown ==> row.financing == 0.0)
      && report.categoryTotals.financing == 0.0
  {
    var ctx := ContextFor(req, chars, engines, regional);
    var n := if ctx.years > 0 then ctx.years else 0;
    var rows := Breakdown(ctx, n);
    BreakdownRows(ctx, n);
    TotalOfZeros(rows, Financing);
  }

  /**
   * A given positive `loan_amount` is always financed, at that amount; a
   * financed purchase without one borrows 80 per cent of the price.
   */
  lemma LoanAmountFacts(req: Request, engines: Engines, price: real, years: int)
    ensures req.loanAmount.Some? && req.loanAmount.value > 0.0 ==>
      FinancingSchedule(req, engines, price, years).Some?
      && FinancingSchedule(req, engines, price, years).value
         == engines.loanPayments(LoanQuery(req.loanAmount.value, req.interestRate.GetOr(5.0), req.loanTerm.GetOr(5), years))
    ensures IsFinanced(req) && req.loanAmount.None? && price > 0.0 ==>
      FinancingSchedule(req, engines, price, years).Some?
      && FinancingSchedule(req, engines, price, years).value
         == engines.loanPayments(LoanQuery(price * 0.8, req.interestRate.GetOr(5.0), req.loanTerm.GetOr(5), years))
    ensures FinancingSchedule(req, engines, price, years).Some? <==> IsFinanced(req) && LoanAmount(req, price) > 0.0
    ensures req.loanAmount.Some? && req.loanAmount.value <= 0.0 ==> FinancingSchedule(req, engines, price, years).None?
    ensures req.loanAmount.None? && price <= 0.0 ==> FinancingSchedule(req, engines, price, years).None?
  {
  }
}
