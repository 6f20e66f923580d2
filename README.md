# Vehicle TCO prediction service and ZIP resolver — a Dafny model

This project models two parts of a vehicle total-cost-of-ownership (TCO)
calculator.

**The prediction service** (`services/prediction_service.py`):
- `calculate_total_cost_of_ownership` routes a request to the purchase or
  the lease pipeline.
- The purchase pipeline builds a year-by-year breakdown. Each year holds
  depreciation, maintenance, insurance, fuel or energy, and financing. The
  pipeline sums these into five category totals. It then separates the
  out-of-pocket cost from the full TCO, which also includes depreciation.
- The lease pipeline builds the lease years: payments, maintenance,
  insurance, fuel and mileage-overage fees. It adds the down payment.
- Standalone helpers:
  - a used-vehicle depreciation schedule: rates by age bucket, a brand
    factor, and a floor of 15 % of the price;
  - two maintenance-schedule adjusters, one for purchases (shop, brand and
    regional multipliers, plus a wear line) and one for leases (warranty
    discounts);
  - the wear-cost table;
  - the lease overage fee;
  - the four-tier affordability rating;
  - the reshaping of a result for display.

**The location resolver** (`utils/zip_code_utils.py`):
- five-digit ZIP validation;
- first-match lookups in the metro-area table and the state range table;
- the geography classification;
- the fuel-price and electricity-rate fallbacks (metro, then state, then
  national);
- the combined validate-and-lookup record;
- the regional cost multiplier;
- the nearby-ZIP search, which sorts by distance, keeps the first entry per
  metro, and returns at most five;
- the coverage statistics.

## How the model is organised

Amounts of money are `real`, so the totals, averages and telescoping sums
hold exactly.

The outside engines are fields of the `TcoModel.Engines` datatype. Each one
is a function that receives the record of arguments the service passes to
it. The engines are:
- the depreciation model;
- the maintenance calculator;
- the insurance, fuel and EV calculators;
- the loan service;
- the vehicle database.

The service's defaults are therefore visible in the model:
- the price falls back to `trim_msrp`, then to 30000;
- the loan amount defaults to 0.8 × price;
- the lease uses the mileage limit.

A missing request key is `None`. The Python exceptions the pipelines can
raise become `Failure` values of `TcoModel.TcoError`.

The loops the source runs are Dafny methods with loop invariants. Each
method is proved equal to a specification function:
- `CalculatePurchaseTco` to `PurchaseTcoOf`;
- `CalculateLeaseTco` to `LeaseTcoOf`;
- `CalculateRealisticUsedVehicleDepreciation` to `UsedSchedule`;
- the two adjusters to `AdjustSchedule` and `AdjustLeaseSchedule`;
- `SearchNearbyZipCodes` to `NearbyZipCodes`;
- `GetZipCodeCoverageStats` to `GeographyCounts`.

Lemmas state the properties of those functions.

The ZIP tables `METRO_AREA_RATES`, `STATE_FUEL_PRICES`,
`STATE_ELECTRICITY_RATES` and `ZIP_CODE_RANGES` are encoded in full in
`zip_tables.dfy`, in source order. The state table is a sequence of
(state, ranges) pairs in dict order, because first-match order is
observable.

## Model

| member | source | states |
|---|---|---|
| PredictionService.CalculateTotalCostOfOwnership | services/prediction_service.py:31-57 | Routing equals the specification `TotalCostOfOwnership`: vehicle characteristics first, then lease when the lower-cased transaction type is `lease`, purchase otherwise |
| PredictionService.LeaseInAnyCase | services/prediction_service.py:54-57 | A request goes to the lease pipeline exactly when its transaction type is the five letters of `lease`, each in lower or upper case. A missing type goes to the purchase pipeline |
| PredictionService.RoutingFacts | services/prediction_service.py:37-57 | Once make, model and year are present, the result is the chosen pipeline's report, or that pipeline's error, for both routes |
| PredictionService.VehicleKeysFirst | services/prediction_service.py:38-43 | A missing make, model or year raises KeyError before anything else, in that order |
| PredictionService.LeaseNeedsFewerKeys | services/prediction_service.py:38-57 | A non-electric lease succeeds with only make, model and year; a purchase without `annual_mileage` fails with KeyError('annual_mileage') |
| PredictionService.ElectricLeaseFails | services/prediction_service.py:577-583 | An electric lease of at least one year fails because `adjusted_ev_efficiency` is unbound on the lease path |
| PredictionService.UpdateResultsStructureForDisplay | services/prediction_service.py:802-835 | The display's total cost is out of pocket (maintenance + insurance + energy + financing, no depreciation) and equals the operating cost. Its TCO is the summary's when present, else out of pocket plus depreciation. Missing amounts read as 0 and a missing electric flag as false |
| PredictionService.PurchaseShown | services/prediction_service.py:802-835 | For a purchase report whose summary agrees with its totals, the display's total cost is the summary's ownership cost, and its TCO is the total cost plus depreciation. The annual cost × years is the total cost; depreciation and final value are the summary's |
| PredictionService.PurchaseDisplayFacts | services/prediction_service.py:809-835 | For every successful purchase, the displayed total cost is the out-of-pocket total and the displayed TCO is total cost + depreciation. The displayed annual cost × analysis years is the total cost |
| PredictionService.PurchaseDepreciationShown | services/prediction_service.py:802-835 | When the depreciation schedule has exactly N entries, the displayed depreciation is the purchase price minus the displayed final value |
| PredictionService.LeaseDisplayFacts | services/prediction_service.py:802-835 | For a lease, the displayed depreciation, financing and final value are 0, and the TCO equals the total cost. The total cost is the lease cost minus payments, fees and down payment. The annual cost is the lease average |
| PurchaseTco.CalculatePurchaseTco | services/prediction_service.py:122-355 | The purchase pipeline (engine calls, loan decision, yearly loop with running category totals, summary, affordability) equals the specification `PurchaseTcoOf`, including its KeyError, IndexError and ZeroDivisionError outcomes |
| PurchaseTco.LoanSchedule | services/prediction_service.py:170-188 | The method builds the schedule `FinancingSchedule` defines, whose conditions `LoanAmountFacts` states |
| PurchaseTco.BreakdownYear | services/prediction_service.py:193-299 | One loop iteration produces the specification row of that year |
| PurchaseTco.FinalMetrics | services/prediction_service.py:308-339 | The summary computed from the totals is the specification summary |
| PurchaseTco.BreakdownAppend | services/prediction_service.py:286-299 | The breakdown of n years is that of n-1 years with year n appended |
| PurchaseTco.TotalAppend | services/prediction_service.py:302-306 | Appending a row adds each of its five amounts to the matching category total |
| PurchaseTco.PurchaseSucceedsExactlyWhen | services/prediction_service.py:136-317 | A purchase succeeds iff make, model, year and annual_mileage are present and either N < 0 (empty loop, no division by zero) or N ≥ 1 with `state` present and a depreciation schedule of at least N entries |
| PurchaseTco.BreakdownRows | services/prediction_service.py:193-299 | The breakdown has N rows with years 1..N, ownership years from 2025, cumulative mileage, that year's depreciation (price − first value in year 1, else the drop between consecutive values), maintenance and financing from their schedules or 0 past them. Insurance is priced on that year's value. Energy is electricity at the driving-adjusted EV consumption for an electric vehicle, else fuel, both at the annual mileage. Each row's total is the sum of its five parts |
| PurchaseTco.DepreciationTelescopes | services/prediction_service.py:197-200 | The depreciation over n years telescopes to price − schedule[n-1] |
| PurchaseTco.AnnualTotalsAddUp | services/prediction_service.py:283-306 | The sum of the rows' annual totals is the sum of the five category totals |
| PurchaseTco.TotalOfZeros | services/prediction_service.py:278-280 | A category that is 0 in every row totals 0 |
| PurchaseTco.SummaryArithmetic | services/prediction_service.py:308-321 | TCO = out-of-pocket + depreciation; out-of-pocket is maintenance + insurance + fuel + financing; average × N = out-of-pocket; cost per mile × miles = out-of-pocket when miles > 0, else 0 |
| PurchaseTco.PurchaseSummaryFacts | services/prediction_service.py:302-339 | A successful purchase has max(N,0) rows, and its TCO is out-of-pocket + depreciation. That TCO is also the sum of the rows' annual totals. Affordability is rated on the average annual out-of-pocket cost with the income default 60000 |
| PurchaseTco.PurchaseSummaryTotals | services/prediction_service.py:309-315 | A successful purchase's ownership cost is the four non-depreciation totals, and its depreciation is the depreciation total. Its TCO is their sum |
| PurchaseTco.PurchaseConsistent | services/prediction_service.py:309-339 | Every successful purchase report's summary agrees with its category totals and with N |
| PurchaseTco.PurchaseAverages | services/prediction_service.py:317-318 | The average annual cost × N is the out-of-pocket total |
| PurchaseTco.PurchaseCostPerMile | services/prediction_service.py:320-321 | Cost per mile × (annual mileage × N) is the out-of-pocket total when that product is positive, and 0 otherwise |
| PurchaseTco.PurchaseDepreciationFacts | services/prediction_service.py:197-323 | Total depreciation is price − schedule[N-1]. When the schedule has exactly N entries, the final vehicle value is price − total depreciation |
| PurchaseTco.NoFinancingWithoutLoan | services/prediction_service.py:170-188 | When none of the five loan conditions holds, there is no financing schedule, every row's financing is 0 and so is the total |
| PurchaseTco.LoanAmountFacts | services/prediction_service.py:172-188 | A positive `loan_amount` is financed as given. A financed request without one borrows 0.8 × price when the price is positive. A schedule exists exactly when a loan condition holds and the loan amount (given, else 0.8 × price) is positive. So a given amount ≤ 0, or no amount with a price ≤ 0, gives no schedule |
| LeaseTco.CalculateLeaseTco | services/prediction_service.py:481-664 | The lease pipeline (yearly loop with running category totals, summary, affordability) equals the specification `LeaseTcoOf`, including the electric failure |
| LeaseTco.LeaseYearStep | services/prediction_service.py:517-628 | One loop iteration extends the breakdown by the next year and keeps the totals equal to the column sums |
| LeaseTco.LeaseBreakdownYear | services/prediction_service.py:518-621 | The row built in one iteration is the specification row of that lease year |
| LeaseTco.LeaseFinalMetrics | services/prediction_service.py:631-635 | The summary computed from the totals is the specification summary |
| LeaseTco.LeaseBreakdownAppend | services/prediction_service.py:607-621 | The breakdown of n years is that of n-1 years with year n appended |
| LeaseTco.LeaseTotalAppend | services/prediction_service.py:624-628 | Appending a row adds each of its five amounts to the matching category total |
| LeaseTco.LeaseFailsExactlyWhen | services/prediction_service.py:577-583 | A lease fails iff the term is at least 1 and the vehicle is electric (request flag or characteristics), and then with the unbound-name error |
| LeaseTco.LeaseRows | services/prediction_service.py:517-621 | The lease breakdown has one row per year. Each row has payment 12 × monthly, cumulative mileage = limit × year and maintenance from the schedule or 0. Insurance uses the lease query. Fuel is priced on the mileage limit, not the miles driven. Fees are 0 within the limit and 0.25 per mile over it. The total is the sum of the five parts |
| LeaseTco.ConstantColumn | services/prediction_service.py:624-628 | A category with the same amount k in every row totals k × rows |
| LeaseTco.LeaseYearsAlike | services/prediction_service.py:522-601 | Payment, insurance, fuel and fees are the same in every lease year |
| LeaseTco.LeaseTotalsFacts | services/prediction_service.py:624-650 | A successful lease has max(term,0) rows and payments totalling 12 × monthly × rows. Its total lease cost is the five category totals plus the down payment, which the summary reports |
| LeaseTco.FeesColumnTotal | services/prediction_service.py:596-601 | Over n lease years the fee column totals n × 0.25 × (actual − limit) when over the limit, else 0 |
| LeaseTco.LeaseFeesTotal | services/prediction_service.py:596-650 | A successful lease's fee total is term × 0.25 × (actual − limit) when the actual mileage exceeds the limit, else 0 |
| LeaseTco.NoFeesWithinLimit | services/prediction_service.py:596-601 | When the actual mileage does not exceed the limit, the fee total is 0 |
| LeaseTco.LeaseAverages | services/prediction_service.py:631-635 | For a positive term, average annual × term = total, average monthly × 12·term = total and monthly × 12 = annual. Otherwise both averages are 0. Cost per mile × miles = total when miles > 0, else 0 |
| UsedDepreciation.AnnualRates | services/prediction_service.py:75-83 | Each age bucket has five rates between 2 % and 8 %, non-increasing |
| UsedDepreciation.UsedBrandMultiplier | services/prediction_service.py:85-91 | The brand factor lies in [0.7, 1.2], 1.0 for brands not listed |
| UsedDepreciation.UsedRateBounds | services/prediction_service.py:93-96 | Every adjusted yearly rate lies in [1.4 %, 9.6 %] |
| UsedDepreciation.RateIndex | services/prediction_service.py:95 | Year y uses rate index y-1, and index 4 from year 5 on |
| UsedDepreciation.CalculateRealisticUsedVehicleDepreciation | services/prediction_service.py:59-120 | The loop returns the specification schedule. A missing `year` or `make` raises KeyError('year') or KeyError('make'), in that order |
| UsedDepreciation.YearRate | services/prediction_service.py:95-96 | The rate computed in one iteration is the bucket rate at the clamped index × the brand factor |
| UsedDepreciation.DepreciateOneYear | services/prediction_service.py:98-106 | The new value is the lowered value floored at 15 % of the price, and the year's depreciation is the old value minus the new |
| UsedDepreciation.UsedScheduleAppend | services/prediction_service.py:110-117 | The schedule of n years is that of n-1 years with year n appended |
| UsedDepreciation.StepBounds | services/prediction_service.py:98-106 | One year's step never raises the value and never takes it below the 15 % floor |
| UsedDepreciation.ValueAfterBounds | services/prediction_service.py:93-118 | Every value lies between 15 % of the price and the price, and the values never increase from year to year |
| UsedDepreciation.UsedScheduleTelescopes | services/prediction_service.py:98-118 | The schedule's depreciation sums to price − the final value |
| UsedDepreciation.UsedScheduleFacts | services/prediction_service.py:93-118 | The schedule has max(N,0) entries with years 1..N, ownership years from the current year, ages and rates as the buckets say, and values at or above the floor. Each year's depreciation is the previous value minus the new |
| UsedDepreciation.UsedYearAtFacts | services/prediction_service.py:93-117 | One year's rate, floor and depreciation as above |
| UsedDepreciation.UsedScheduleNeverRises | services/prediction_service.py:98-106 | For a non-negative price, every yearly depreciation is non-negative and no value exceeds the price |
| MaintenanceAdjust.ServiceShopMultiplier | services/prediction_service.py:365-372 | The shop factor lies in [0.5, 1.15], and it is below 1 exactly for `diy` |
| MaintenanceAdjust.WearShopMultiplier | services/prediction_service.py:468-474 | The wear shop factor lies in [1, 1.15] (its table has no `diy`, so `diy` falls to the default) and agrees with the service factor for every other shop |
| MaintenanceAdjust.ClampRegional | services/prediction_service.py:375 | The regional multiplier is clamped into [0.8, 1.3], unchanged inside it |
| MaintenanceAdjust.BrandAdjustedCost | services/prediction_service.py:388-396 | The three brand branches amount to the cost × min(brand, 1.4) |
| MaintenanceAdjust.BaseWearCost | services/prediction_service.py:453-463 | The base wear cost lies in [100, 600], and ages up to 3 fall back to 600 |
| MaintenanceAdjust.BaseWearCostMonotone | services/prediction_service.py:453-463 | From age 4 on the base wear cost never decreases with age |
| MaintenanceAdjust.CalculateYearSpecificWearMaintenance | services/prediction_service.py:448-479 | The wear cost lies between 100 and 690 times brand × regional |
| MaintenanceAdjust.AdjustYearServices | services/prediction_service.py:383-412 | The services loop yields the specification lines and their running total |
| MaintenanceAdjust.AdjustMaintenanceSchedule | services/prediction_service.py:356-446 | The adjuster returns the specification schedule |
| MaintenanceAdjust.AdjustOneYear | services/prediction_service.py:379-444 | One iteration of the years loop yields the specification year |
| MaintenanceAdjust.AdjustServicesPriced | services/prediction_service.py:385-410 | Each line keeps its service name and is priced at cost × min(brand, 1.4) × shop × regional, with total = price × frequency |
| MaintenanceAdjust.AdjustYearFacts | services/prediction_service.py:379-444 | A year keeps its number and regional factor. Its services are the priced lines, plus one wear line exactly when year > 3 and wear > 100, whose cost is that wear amount. Its total is the sum of its lines |
| MaintenanceAdjust.AdjustScheduleFacts | services/prediction_service.py:356-446 | The schedule has one year per base year, with the clamped regional factor, the wear line rule, and the total equal to the lines' sum |
| MaintenanceAdjust.WarrantyDiscount | services/prediction_service.py:681-686 | The warranty share lies in [0.2, 0.6] |
| MaintenanceAdjust.WarrantyDiscountDecreasing | services/prediction_service.py:681-686 | The warranty share never grows with the lease year |
| MaintenanceAdjust.LeaseYearServices | services/prediction_service.py:688-707 | The lease services loop yields the specification lines and their running total |
| MaintenanceAdjust.AdjustLeaseMaintenanceSchedule | services/prediction_service.py:666-734 | The lease adjuster returns the specification schedule |
| MaintenanceAdjust.AdjustOneLeaseYear | services/prediction_service.py:675-732 | One iteration of the lease years loop yields the specification year |
| MaintenanceAdjust.KeptLineSplitsFullCost | services/prediction_service.py:690-703 | A kept line's out-of-pocket total plus the warranty's share is the full dealership price × frequency |
| MaintenanceAdjust.LeaseServicesFacts | services/prediction_service.py:688-707 | Every kept line costs more than 5 and comes from a scheduled service; no service dearer than 5 is dropped, and there are never more lines than services |
| MaintenanceAdjust.AdjustLeaseScheduleFacts | services/prediction_service.py:666-734 | Each lease year keeps its number, the warranty share of that year, shop factor 1.2 and the regional factor as given. Its lines are the kept services, then from year 4 a wear line of 100 × brand × regional. Its total is the lines' sum |
| TcoRules.CalculateAffordability | services/prediction_service.py:749-780 | Monthly amounts are annual / 12. The percentage is cost / income × 100, or 0 for income ≤ 0. The rating is Excellent ≤ 10 < Good ≤ 15 < Fair ≤ 20 < Stretched, with inclusive bounds. Affordable iff ≤ 20, over budget iff > 15, recommended maximum 15 % of monthly income |
| TcoRules.AffordabilityMonotone | services/prediction_service.py:758-770 | At a fixed positive income, a higher cost never gets a better rating |
| TcoRules.OverBudgetMeansFairOrWorse | services/prediction_service.py:758-779 | Over budget iff rated Fair or Stretched; not affordable iff Stretched |
| TcoRules.CalculateLeaseFeesAndPenalties | services/prediction_service.py:736-747 | The fee is never negative. It is 0 within the allowance and 0.25 per mile over it |
| TcoRules.LeaseFeesMonotone | services/prediction_service.py:736-747 | More miles never cost less in fees |
| TcoRules.DrivingStyleMultiplier | services/prediction_service.py:231-245 | The style factor lies in [0.85, 1.15] |
| TcoRules.TerrainMultiplier | services/prediction_service.py:238-246 | The terrain factor lies in [0.95, 1.05] |
| TcoRules.CombinedMultiplier | services/prediction_service.py:244-246 | The combined factor lies in [0.8075, 1.2075] |
| TcoRules.AdjustedEvEfficiency | services/prediction_service.py:248-258 | The adjusted efficiency × the combined factor is the base efficiency, and it stays positive |
| TcoRules.AggressiveUsesMoreEnergy | services/prediction_service.py:231-258 | For a positive efficiency, aggressive > normal > gentle on the same terrain |
| TcoRules.HillsUseMoreEnergy | services/prediction_service.py:238-258 | For a positive efficiency, hilly needs more energy than flat |
| Text.Lower | services/prediction_service.py:54 | Lower-casing keeps the length and maps each character |
| Text.StrLeTotal | utils/zip_code_utils.py:467 | String order is total |
| Text.StrLeTransitive | utils/zip_code_utils.py:467 | String order is transitive |
| ZipCodeUtils.MatchesDigitsThenEndMeaning | utils/zip_code_utils.py:220-221 | The pattern matches iff n digits are followed by the end or by one final newline |
| ZipCodeUtils.ValidateZipCode | utils/zip_code_utils.py:216-221 | Valid iff five ASCII digits, optionally followed by one newline; the empty string is invalid |
| ZipCodeUtils.DigitChar | utils/zip_code_utils.py:480 | Each digit value has a digit character |
| ZipCodeUtils.ZipToInt | utils/zip_code_utils.py:231 | A valid ZIP converts to a number in [0, 99999] |
| ZipCodeUtils.FormatZip | utils/zip_code_utils.py:480 | Zero-padded formatting gives five characters |
| ZipCodeUtils.FormatZipValid | utils/zip_code_utils.py:480-481 | A formatted number is a valid ZIP that converts back to the number |
| ZipCodeUtils.ZipRoundTrip | utils/zip_code_utils.py:231 | Converting a valid ZIP and formatting it back gives its five digits |
| ZipCodeUtils.MetroScan | utils/zip_code_utils.py:234-244 | The scan returns the first row whose inclusive range contains the ZIP, or none |
| ZipCodeUtils.MetroIndex | utils/zip_code_utils.py:228-244 | The metro row found is the first containing the ZIP. None means an invalid format or no containing row |
| ZipCodeUtils.MetroDataAt | utils/zip_code_utils.py:234-244 | Data is found iff some row contains the number, and it is the first such row's data |
| ZipCodeUtils.LookupZipCodeData | utils/zip_code_utils.py:223-244 | Data is found iff the format is valid and some metro row contains the ZIP, and it is the first such row's data |
| ZipCodeUtils.FirstMetroRowUnique | utils/zip_code_utils.py:234-235 | There is only one first matching row |
| ZipCodeUtils.RowsBeforePeninsulaMissEastBay | utils/zip_code_utils.py:16-127 | No row before the Peninsula row overlaps the East Bay range |
| ZipCodeUtils.EastBayRowShadowed | utils/zip_code_utils.py:127-129 | The East Bay row is never the match. Every East Bay ZIP resolves to San Francisco/Peninsula, Urban |
| ZipCodeUtils.RangesContain | utils/zip_code_utils.py:254-255 | A state contains the ZIP iff one of its ranges does |
| ZipCodeUtils.StateScan | utils/zip_code_utils.py:253-258 | The scan returns the first state, in table order, containing the ZIP, or none |
| ZipCodeUtils.DetermineStateFromZip | utils/zip_code_utils.py:246-258 | A state is found iff the format is valid and some state's ranges contain the ZIP, and it is the first such state |
| ZipCodeUtils.GetStateFromZip | utils/zip_code_utils.py:260-262 | The alias gives the same result |
| ZipCodeUtils.StateScanFinds | utils/zip_code_utils.py:253-256 | The first containing entry is the state returned |
| ZipCodeUtils.ConnecticutShadowsNewYork | utils/zip_code_utils.py:169-195 | 06390 lies in a New York range, yet resolves to CT |
| ZipCodeUtils.DistrictShadowsVirginia | utils/zip_code_utils.py:171-209 | 20150 lies in a Virginia range, yet resolves to DC |
| ZipCodeUtils.OklahomaShadowsTexas | utils/zip_code_utils.py:199-206 | 73301 lies in a Texas range, yet resolves to OK |
| ZipCodeUtils.ReportedGeography | utils/zip_code_utils.py:272-274 | A metro geography is reported as Urban, Suburban or Rural, with Mixed as Suburban |
| ZipCodeUtils.GetGeographyTypeFromZip | utils/zip_code_utils.py:264-352 | Always Urban, Suburban or Rural. Suburban for an invalid ZIP; the metro's geography on a metro hit; otherwise Urban iff in an urban range, Rural iff in a rural range and no urban one |
| ZipCodeUtils.TableGet | utils/zip_code_utils.py:362-363 | A state is found iff the table has it, with its value |
| ZipCodeUtils.MetroRowsPricedWithin | utils/zip_code_utils.py:16-136 | Every metro fuel price lies in [3.05, 4.95] and every metro electricity rate in [0.09, 0.42] |
| ZipCodeUtils.StateFuelPricesWithin | utils/zip_code_utils.py:138-148 | Every state fuel price lies in [3.05, 4.95] |
| ZipCodeUtils.StateElectricityRatesWithin | utils/zip_code_utils.py:150-160 | Every state electricity rate lies in [0.10, 0.42] |
| ZipCodeUtils.GetFuelPriceEstimate | utils/zip_code_utils.py:354-366 | The metro price on a metro hit, else the state's price, else 3.50; always in [3.05, 4.95] |
| ZipCodeUtils.GetElectricityRateEstimate | utils/zip_code_utils.py:368-380 | The metro rate on a metro hit, else the state's rate, else 0.15; always in [0.09, 0.42] |
| ZipCodeUtils.ValidateAndLookupLocation | utils/zip_code_utils.py:382-425 | Valid iff a metro or a state is found. The error message is empty exactly on a metro hit, and each error case has its message. Invalid results keep the empty fields and the defaults 3.50 and 0.15. Valid results carry the classified geography (never Mixed) and the fallback price and rate |
| ZipCodeUtils.BaseRegionalMultiplier | utils/zip_code_utils.py:432-443 | 1.15 exactly for Urban, 0.85 exactly for Rural, 1.0 otherwise |
| ZipCodeUtils.GetRegionalCostMultiplier | utils/zip_code_utils.py:427-450 | The base factor × 1.10 for a high-cost state or × 0.90 for a low-cost one; always in [0.765, 1.265] |
| ZipCodeUtils.RegionalMultiplierOrder | utils/zip_code_utils.py:440-450 | High-cost > other > low-cost for the same geography; Urban CA is 1.265 and Rural MS is 0.765 |
| ZipCodeSearch.CandidatesStep | utils/zip_code_utils.py:479-485 | Testing one more ZIP appends its hit, if any |
| ZipCodeSearch.CandidatesAreHits | utils/zip_code_utils.py:479-485 | Every candidate is a metro hit in the searched range, at its distance |
| ZipCodeSearch.CandidatesComplete | utils/zip_code_utils.py:479-485 | Every hit in the searched range is a candidate |
| ZipCodeSearch.InsertByDistancePermutes | utils/zip_code_utils.py:490 | Insertion keeps the same elements |
| ZipCodeSearch.InsertByDistanceSorted | utils/zip_code_utils.py:490 | Insertion keeps the order by distance |
| ZipCodeSearch.InsertByDistanceStable | utils/zip_code_utils.py:490 | Insertion keeps equal distances in their original order |
| ZipCodeSearch.SortByDistanceSorted | utils/zip_code_utils.py:490 | Sorting by distance orders the candidates and keeps the same elements |
| ZipCodeSearch.SortByDistanceStable | utils/zip_code_utils.py:490 | The sort is stable, as Python's `sorted` is |
| ZipCodeSearch.DedupKeeps | utils/zip_code_utils.py:488-494 | De-duplication keeps only input items, covers every (state, metro) key and keeps the first item |
| ZipCodeSearch.DedupDistinct | utils/zip_code_utils.py:488-494 | No two kept items share a (state, metro) key |
| ZipCodeSearch.DedupSorted | utils/zip_code_utils.py:488-494 | De-duplication keeps the order by distance |
| ZipCodeSearch.LookupNumber | utils/zip_code_utils.py:480-481 | Looking up a formatted number gives the first metro row containing it |
| ZipCodeSearch.CollectHits | utils/zip_code_utils.py:479-485 | The range loop collects exactly the candidates |
| ZipCodeSearch.TestOneZip | utils/zip_code_utils.py:480-485 | One loop iteration extends the candidates by one ZIP |
| ZipCodeSearch.KeepFirstPerMetro | utils/zip_code_utils.py:488-494 | The seen-set loop returns the de-duplicated list |
| ZipCodeSearch.SearchNearbyZipCodes | utils/zip_code_utils.py:470-496 | The search returns the specification result |
| ZipCodeSearch.TakeFiveFacts | utils/zip_code_utils.py:496 | Truncation gives at most five items, keeps order and distinct keys, and keeps the first item |
| ZipCodeSearch.SortedUniqueFacts | utils/zip_code_utils.py:487-494 | Sorted-then-de-duplicated candidates are input items, ordered by distance, with distinct keys. Each kept item is the first item of its key in sorted order |
| ZipCodeSearch.NearbyInFacts | utils/zip_code_utils.py:470-496 | At most five results, [] for an invalid ZIP, ordered by distance, distinct keys. Each result is a hit in [10000, 99999) within the radius |
| ZipCodeSearch.KeysMeaning | utils/zip_code_utils.py:488-494 | A key is among the seen keys exactly when some item has it |
| ZipCodeSearch.DedupKeepsOnlyFirst | utils/zip_code_utils.py:488-494 | Every kept item is the first item of its (state, metro) key |
| ZipCodeSearch.DedupKeepsEveryFirst | utils/zip_code_utils.py:488-494 | The first item of every key is kept |
| ZipCodeSearch.FirstIndexOfKey | utils/zip_code_utils.py:488-494 | Every item has a first item of its key at or before it |
| ZipCodeSearch.TopFiveCovers | utils/zip_code_utils.py:487-496 | For any item of a distance-sorted list, the first five de-duplicated items contain one of its key at no greater distance, or are five items all no farther than it |
| ZipCodeSearch.NearbyInComplete | utils/zip_code_utils.py:470-496 | Every hit in [10000, 99999) within the radius is covered: a result of its key at no greater distance, or five results all no farther |
| ZipCodeSearch.NearbyInStartsWithItself | utils/zip_code_utils.py:479-496 | A metro ZIP in the searched range comes first, at distance 0 |
| ZipCodeSearch.NearbyZipCodesFacts | utils/zip_code_utils.py:470-496 | The above over the real table. Each result is a valid five-digit ZIP in [10000, 99998] whose lookup gives its data, at distance abs(ZIP − input) ≤ radius |
| ZipCodeSearch.NearbyZipCodesComplete | utils/zip_code_utils.py:470-496 | Every ZIP in [10000, 99999) within the radius that has table data is covered: a result with its (state, metro) at distance ≤ its own, or five results all that close |
| ZipCodeSearch.NearbyZipCodesStartWithItself | utils/zip_code_utils.py:479-496 | A metro ZIP in [10000, 99998] is its own first result |
| ZipCodeSearch.LowZipsFindNoNeighbours | utils/zip_code_utils.py:479 | ZIPs below 10000 − radius find nothing, for example the metro ZIP 02138 |
| ZipCodeSearch.BumpCounts | utils/zip_code_utils.py:461 | Counting one row raises its label's count by one and the total by one |
| ZipCodeSearch.BumpDistinct | utils/zip_code_utils.py:458-461 | The counter keeps one entry per label |
| ZipCodeSearch.GeographyCountsFacts | utils/zip_code_utils.py:458-461 | The counts have distinct keys, one per lower-cased label. They sum to the row count, and each is that label's number of rows |
| ZipCodeSearch.TableKeys | utils/zip_code_utils.py:467 | The keys of a table, in order |
| ZipCodeSearch.InsertStringKeeps | utils/zip_code_utils.py:467 | Insertion keeps the same strings |
| ZipCodeSearch.InsertStringSorted | utils/zip_code_utils.py:467 | Insertion keeps the strings sorted |
| ZipCodeSearch.SortStringsFacts | utils/zip_code_utils.py:467 | Sorting orders the strings and keeps the same ones |
| ZipCodeSearch.CountGeographies | utils/zip_code_utils.py:458-461 | The counting loop yields the specification counts |
| ZipCodeSearch.GetZipCodeCoverageStats | utils/zip_code_utils.py:452-468 | The statistics report the metro count and the distinct state count. The geography counts sum to the metro count, one per label. The state list is the electricity table's keys, sorted |

## Left out

- The debug `print` block (services/prediction_service.py:127-135) and `test_zip_code_lookup` (utils/zip_code_utils.py:499-547) are not modelled: they only print.
- `_get_calculation_assumptions` (services/prediction_service.py:782-801) is not modelled: it returns a constant dictionary of descriptive strings.
- Clock: the current year of the used-vehicle schedule (`datetime.now().year`) is a parameter. The ownership year 2025 of both pipelines is the constant `FirstOwnershipYear`.
- Floating point: amounts are exact reals, so IEEE-754 rounding is not modelled.
- Engines: the depreciation model, maintenance calculator, insurance, fuel and EV calculators, loan service and `get_vehicle_characteristics` are given functions. Their formulas are not modelled.
- Engine results: only the fields the service reads are kept. A depreciation schedule is its sequence of vehicle values. A maintenance year is its total, year, mileage and services.
- Service wiring: the calculators are always present. Their construction is not modelled.
- PredictionService.CalculateTotalCostOfOwnership: the regional multiplier is an input. The source passes `(zip_code, state)` where `get_regional_cost_multiplier` expects `(geography_type, state)` (services/prediction_service.py:46-49), so the value it computes is not reproduced.
- PredictionService.CalculateTotalCostOfOwnership: `analysis_years` is read but unused in routing; it plays no part.
- Text.Lower: lower-cases ASCII letters only. Python's Unicode case mapping is not modelled.
- ZipCodeUtils.ValidateZipCode: `\d` is modelled as the ASCII digits 0-9. Python also accepts other Unicode digits. The `$` that matches before one trailing newline is modelled.
- PredictionService.UpdateResultsStructureForDisplay: modelled on the keys it reads plus the keys it adds. The copied report is kept whole beside them (`DisplayOf`). A report with other keys than the two pipelines produce is not modelled.
- LeaseTco.CalculateLeaseTco: an electric lease of at least one year is a `Failure(UnboundName("adjusted_ev_efficiency"))`, the NameError the source raises. It is not given a corrected energy cost.
- ZipCodeUtils.FormatZip: its own contract states only the length. Validity and the round trip are in `FormatZipValid` and `ZipRoundTrip`.
- Truthiness: request flags such as `is_electric` and `financing_enabled` are `Option<bool>`. A non-boolean truthy value is not modelled.
