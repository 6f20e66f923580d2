/**
 * The entry point of the prediction service, which reads the vehicle and
 * routes a request to the purchase or the lease calculation, and the
 * reshaping of a report into the flat keys the display code reads.
 */
module PredictionService {
  import opened Wrappers
  import opened Text
  import opened TcoModel
  import opened TcoRules
  import opened PurchaseTco
  import opened LeaseTco

  /** What `calculate_total_cost_of_ownership` returns: one of the two reports. */
  datatype TcoReport = PurchaseResults(purchase: PurchaseReport) | LeaseResults(lease: LeaseReport)

  // ---------------------------------------------------------------------------
  // Routing
  // ---------------------------------------------------------------------------

  /** A lease is asked for when `transaction_type` ("purchase" unless given), lower-cased, is "lease". */
  predicate IsLeaseRequest(req: Request)
  {
    Lower(req.transactionType.GetOr("purchase")) == "lease"
  }

  /** The vehicle database's answer for the request's make, model, year and (optional) trim. */
  function CharacteristicsFor(req: Request, engines: Engines): VehicleCharacteristics
    requires req.make.Some? && req.model.Some? && req.year.Some?
  {
    engines.characteristics(CharacteristicsQuery(req.make.value, req.model.value, req.year.value, req.trim))
  }

  /**
   * The report for a request, or the exception raised on the way: the
   * vehicle lookup needs make, model and year (read in that order), then the
   * chosen calculation may fail on its own. The regional multiplier is given.
   */
  function TotalCostOfOwnership(req: Request, engines: Engines, regional: real): Result<TcoReport, TcoError>
  {
    if req.make.None? then Failure(MissingKey("make"))
    else if req.model.None? then Failure(MissingKey("model"))
    else if req.year.None? then Failure(MissingKey("year"))
    else
      var chars := CharacteristicsFor(req, engines);
      if IsLeaseRequest(req) then
        match LeaseTcoOf(req, chars, engines, regional)
        case Success(report) => Success(LeaseResults(report))
        case Failure(e) => Failure(e)
      else
        match PurchaseTcoOf(req, chars, engines, regional)
        case Success(report) => Success(PurchaseResults(report))
        case Failure(e) => Failure(e)
  }

  /** `calculate_total_cost_of_ownership`, with the regional multiplier as an input. */
  method CalculateTotalCostOfOwnership(req: Request, engines: Engines, regional: real)
    returns (r: Result<TcoReport, TcoError>)
    ensures r == TotalCostOfOwnership(req, engines, regional)
  {
    if req.make.None? {
      return Failure(MissingKey("make"));
    }
    if req.model.None? {
      return Failure(MissingKey("model"));
    }
    if req.year.None? {
      return Failure(MissingKey("year"));
    }
    var chars := engines.characteristics(CharacteristicsQuery(req.make.value, req.model.value, req.year.value, req.trim));
    if Lower(req.transactionType.GetOr("purchase")) == "lease" {
      var lease := CalculateLeaseTco(req, chars, engines, regional);
      r := if lease.Success? then Success(LeaseResults(lease.value)) else Failure(lease.error);
    } else {
      var purchase := CalculatePurchaseTco(req, chars, engines, regional);
      r := if purchase.Success? then Success(PurchaseResults(purchase.value)) else Failure(purchase.error);
    }
  }

  /** `str.lower()` turns a character into a lower-case letter `x` exactly when it is `x` or its capital. */
  lemma LowerCharIsLetter(c: char, x: char)
    requires 'a' <= x <= 'z'
    ensures LowerChar(c) == x <==> c == x || c == (x as int - 32) as char
  {
  }

  /**
   * The transaction type is matched without regard to case: a request is a
   * lease exactly when it names a five-letter type whose every letter is the
   * lower- or upper-case letter of "lease" at that place; a missing type is
   * a purchase. So "Lease" and "LEASE" are leases, while "leasing" and
   * "Purchase" are purchases.
   */
  lemma LeaseInAnyCase(req: Request)
    ensures IsLeaseRequest(req) <==>
      req.transactionType.Some?
      && |req.transactionType.value| == 5
      && forall i :: 0 <= i < 5 ==>
           req.transactionType.value[i] == "lease"[i] || req.transactionType.value[i] == "LEASE"[i]
  {
    var t := req.transactionType.GetOr("purchase");
    if req.transactionType.None? {
      assert Lower(t)[0] == 'p';
    } else if |t| == 5 {
      forall i | 0 <= i < 5
        ensures Lower(t)[i] == "lease"[i] <==> t[i] == "lease"[i] || t[i] == "LEASE"[i]
      {
        LowerCharIsLetter(t[i], "lease"[i]);
      }
      if forall i :: 0 <= i < 5 ==> Lower(t)[i] == "lease"[i] {
        assert Lower(t) == "lease";
      }
    }
  }

  /**
   * The outcome of a request naming the vehicle: the report of the
   * transaction the request asks for, and a failure exactly when that
   * calculation fails, with its error.
   */
  lemma RoutingFacts(req: Request, engines: Engines, regional: real)
    requires req.make.Some? && req.model.Some? && req.year.Some?
    ensures var r := TotalCostOfOwnership(req, engines, regional);
      var chars := CharacteristicsFor(req, engines);
      (IsLeaseRequest(req) ==>
        (r.Success? <==> LeaseTcoOf(req, chars, engines, regional).Success?)
        && (r.Success? ==> r.value == LeaseResults(LeaseTcoOf(req, chars, engines, regional).value))
        && (r.Failure? ==> r.error == LeaseTcoOf(req, chars, engines, regional).error))
      && (!IsLeaseRequest(req) ==>
        (r.Success? <==> PurchaseTcoOf(req, chars, engines, regional).Success?)
        && (r.Success? ==> r.value == PurchaseResults(PurchaseTcoOf(req, chars, engines, regional).value))
        && (r.Failure? ==> r.error == PurchaseTcoOf(req, chars, engines, regional).error))
  {
  }

  /** The vehicle is looked up first: make, model and year are required whatever the transaction. */
  lemma VehicleKeysFirst(req: Request, engines: Engines, regional: real)
    ensures req.make.None? ==> TotalCostOfOwnership(req, engines, regional) == Failure(MissingKey("make"))
    ensures req.make.Some? && req.model.None? ==> TotalCostOfOwnership(req, engines, regional) == Failure(MissingKey("model"))
    ensures req.make.Some? && req.model.Some? && req.year.None? ==>
      TotalCostOfOwnership(req, engines, regional) == Failure(MissingKey("year"))
  {
  }

  /**
   * A lease needs neither the annual mileage nor the state that a purchase
   * needs: a lease of a vehicle that is not electric never fails, while a
   * purchase without `annual_mileage` always does.
   */
  lemma LeaseNeedsFewerKeys(req: Request, engines: Engines, regional: real)
    requires req.make.Some? && req.model.Some? && req.year.Some?
    ensures IsLeaseRequest(req) && !IsElectric(req, CharacteristicsFor(req, engines)) ==>
      TotalCostOfOwnership(req, engines, regional).Success?
      && TotalCostOfOwnership(req, engines, regional).value.LeaseResults?
    ensures !IsLeaseRequest(req) && req.annualMileage.None? ==>
      TotalCostOfOwnership(req, engines, regional) == Failure(MissingKey("annual_mileage"))
  {
  }

  /**
   * Any lease of at least one year of an electric vehicle, by the request's
   * flag or the vehicle database's, ends in the lease's `NameError`.
   */
  lemma ElectricLeaseFails(req: Request, engines: Engines, regional: real)
    requires req.make.Some? && req.model.Some? && req.year.Some?
    requires IsLeaseRequest(req) && LeaseTerm(req) >= 1
    requires req.isElectric == Some(true) || CharacteristicsFor(req, engines).isElectric == Some(true)
    ensures TotalCostOfOwnership(req, engines, regional) == Failure(UnboundName("adjusted_ev_efficiency"))
  {
    assert IsElectric(req, CharacteristicsFor(req, engines));
  }

  // ---------------------------------------------------------------------------
  // Display
  // ---------------------------------------------------------------------------

  /**
   * The keys of a results dict that the display reshaping reads. A missing
   * `summary`, `category_totals` or `vehicle_characteristics` dict reads as
   * one with every key missing.
   */
  datatype SummaryView = SummaryView(
    totalTco: Option<real>, averageAnnualCost: Option<real>, costPerMile: Option<real>, finalVehicleValue: Option<real>)

  datatype TotalsView = TotalsView(
    depreciation: Option<real>, maintenance: Option<real>, insurance: Option<real>,
    fuelEnergy: Option<real>, financing: Option<real>)

  datatype ResultsView = ResultsView(
    summary: SummaryView, categoryTotals: TotalsView, vehicleCharacteristics: VehicleCharacteristics)

  /** The flat keys the reshaping adds to the results. */
  datatype DisplayFields = DisplayFields(
    totalCost: real,
    annualCost: real,
    costPerMile: real,
    finalValue: real,
    depreciation: real,
    maintenance: real,
    insurance: real,
    energy: real,
    financing: real,
    totalTco: real,
    annualOperatingCost: real,
    isElectric: bool)

  /**
   * `_update_results_structure_for_display` on the keys it reads: the
   * headline cost is out of pocket, without depreciation; the TCO is the
   * summary's when it has one and the out-of-pocket cost plus depreciation
   * otherwise; every missing amount is 0 and a missing electric flag false.
   */
  function UpdateResultsStructureForDisplay(results: ResultsView): (d: DisplayFields)
    ensures d.totalCost == d.maintenance + d.insurance + d.energy + d.financing
    ensures d.annualOperatingCost == d.totalCost
    ensures results.summary.totalTco.None? ==> d.totalTco == d.totalCost + d.depreciation
    ensures results.summary.totalTco.Some? ==> d.totalTco == results.summary.totalTco.value
    ensures d.isElectric <==> results.vehicleCharacteristics.isElectric == Some(true)
    ensures d.annualCost == results.summary.averageAnnualCost.GetOr(0.0)
    ensures d.costPerMile == results.summary.costPerMile.GetOr(0.0)
    ensures d.finalValue == results.summary.finalVehicleValue.GetOr(0.0)
    ensures d.depreciation == results.categoryTotals.depreciation.GetOr(0.0)
    ensures d.maintenance == results.categoryTotals.maintenance.GetOr(0.0)
    ensures d.insurance == results.categoryTotals.insurance.GetOr(0.0)
    ensures d.energy == results.categoryTotals.fuelEnergy.GetOr(0.0)
    ensures d.financing == results.categoryTotals.financing.GetOr(0.0)
  {
    var summary := results.summary;
    var totals := results.categoryTotals;
    var outOfPocket := totals.maintenance.GetOr(0.0) + totals.insurance.GetOr(0.0)
                       + totals.fuelEnergy.GetOr(0.0) + totals.financing.GetOr(0.0);
    DisplayFields(
      outOfPocket,
      summary.averageAnnualCost.GetOr(0.0),
      summary.costPerMile.GetOr(0.0),
      summary.finalVehicleValue.GetOr(0.0),
      totals.depreciation.GetOr(0.0),
      totals.maintenance.GetOr(0.0),
      totals.insurance.GetOr(0.0),
      totals.fuelEnergy.GetOr(0.0),
      totals.financing.GetOr(0.0),
      summary.totalTco.GetOr(outOfPocket + totals.depreciation.GetOr(0.0)),
      outOfPocket,
      results.vehicleCharacteristics.isElectric.GetOr(false))
  }

  /**
   * The keys of a report that the reshaping reads: a purchase report has
   * them all; a lease report has no `total_tco` or `final_vehicle_value` in
   * its summary and no depreciation or financing total.
   */
  function ViewOf(report: TcoReport): ResultsView
  {
    match report
    case PurchaseResults(p) =>
      ResultsView(
        SummaryView(Some(p.summary.totalTco), Some(p.summary.averageAnnualCost), Some(p.summary.costPerMile),
                    Some(p.summary.finalVehicleValue)),
        TotalsView(Some(p.categoryTotals.depreciation), Some(p.categoryTotals.maintenance),
                   Some(p.categoryTotals.insurance), Some(p.categoryTotals.fuelEnergy),
                   Some(p.categoryTotals.financing)),
        p.vehicleCharacteristics)
    case LeaseResults(l) =>
      ResultsView(
        SummaryView(None, Some(l.summary.averageAnnualCost), Some(l.summary.costPerMile), None),
        TotalsView(None, Some(l.categoryTotals.maintenance), Some(l.categoryTotals.insurance),
                   Some(l.categoryTotals.fuelEnergy), None),
        l.vehicleCharacteristics)
  }

  /** A copy of the report with the display keys added (none of them is a key the report already has). */
  datatype DisplayResults = DisplayResults(results: TcoReport, display: DisplayFields)

  function DisplayOf(report: TcoReport): DisplayResults
  {
    DisplayResults(report, UpdateResultsStructureForDisplay(ViewOf(report)))
  }

  /**
   * The display keys of a purchase report whose summary agrees with its
   * category totals.
   */
  lemma PurchaseShown(p: PurchaseReport, years: int)
    requires SummaryConsistent(p, years)
    ensures var d := DisplayOf(PurchaseResults(p)).display;
      d.totalCost == p.summary.totalOwnershipCost
      && d.totalTco == p.summary.totalTco
      && d.totalTco == d.totalCost + d.depreciation
      && d.annualCost * years as real == d.totalCost
      && d.depreciation == p.summary.totalDepreciation
      && d.finalValue == p.summary.finalVehicleValue
  {
    var d := DisplayOf(PurchaseResults(p)).display;
    assert d.annualCost == p.summary.averageAnnualCost;
  }

  /**
   * Shown for a purchase: the out-of-pocket total as the headline cost and
   * the summary's TCO, which is that cost plus depreciation; the annual cost
   * spreads the headline cost over the years.
   */
  lemma PurchaseDisplayFacts(req: Request, chars: VehicleCharacteristics, engines: Engines, regional: real)
    requires PurchaseTcoOf(req, chars, engines, regional).Success?
    ensures var report := PurchaseTcoOf(req, chars, engines, regional).value;
      var d := DisplayOf(PurchaseResults(report)).display;
      d.totalCost == report.summary.totalOwnershipCost
      && d.totalTco == report.summary.totalTco
      && d.totalTco == d.totalCost + d.depreciation
      && d.annualCost * AnalysisYears(req) as real == d.totalCost
  {
    var report := PurchaseTcoOf(req, chars, engines, regional).value;
    PurchaseConsistent(req, chars, engines, regional);
    PurchaseShown(report, AnalysisYears(req));
  }

  /**
   * When the depreciation schedule has one value per year, the depreciation
   * shown for a purchase is the price less the final value shown.
   */
  lemma PurchaseDepreciationShown(req: Request, chars: VehicleCharacteristics, engines: Engines, regional: real)
    requires PurchaseTcoOf(req, chars, engines, regional).Success?
    requires AnalysisYears(req) >= 1
    requires |PurchaseTcoOf(req, chars, engines, regional).value.depreciationSchedule| == AnalysisYears(req)
    ensures var d := DisplayOf(PurchaseResults(PurchaseTcoOf(req, chars, engines, regional).value)).display;
      d.depreciation == PurchasePrice(req) - d.finalValue
  {
    var report := PurchaseTcoOf(req, chars, engines, regional).value;
    PurchaseConsistent(req, chars, engines, regional);
    PurchaseDepreciationFacts(req, chars, engines, regional);
    PurchaseShown(report, AnalysisYears(req));
  }

  /**
   * Shown for a lease: no depreciation, financing or final value; a TCO
   * equal to the headline cost; and a headline cost that is the lease's
   * total less the lease payments, the fees and the down payment.
   */
  lemma LeaseDisplayFacts(req: Request, chars: VehicleCharacteristics, engines: Engines, regional: real)
    requires LeaseTcoOf(req, chars, engines, regional).Success?
    ensures var report := LeaseTcoOf(req, chars, engines, regional).value;
      var d := DisplayOf(LeaseResults(report)).display;
      var term := LeaseTerm(req);
      var n := if term > 0 then term else 0;
      d.depreciation == 0.0 && d.financing == 0.0 && d.finalValue == 0.0
      && d.totalTco == d.totalCost
      && d.totalCost == report.summary.totalLeaseCost
                        - req.monthlyPayment.GetOr(400.0) * 12.0 * n as real
                        - report.categoryTotals.feesPenalties
                        - req.downPayment.GetOr(0.0)
      && d.annualCost == report.summary.averageAnnualCost
  {
    LeaseTotalsFacts(req, chars, engines, regional);
  }
}
