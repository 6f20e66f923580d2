/**
 * The two maintenance-schedule adjusters of the prediction service and the
 * wear-cost table they use: `_adjust_maintenance_schedule` (brand, shop and
 * regional multipliers on a purchased car's schedule, plus a wear line for
 * older cars), `_calculate_year_specific_wear_maintenance`, and
 * `_adjust_lease_maintenance_schedule` (dealership prices less the share the
 * warranty covers in each lease year).
 *
 * Each adjuster is specified by a function over the base schedule, built one
 * year (and inside a year one service) at a time, and implemented by a
 * method with the source's nested loops.
 */
module MaintenanceAdjust {
  import opened Wrappers
  import opened TcoModel

  // ---------------------------------------------------------------------------
  // Multipliers
  // ---------------------------------------------------------------------------

  /** The maintenance calculator's brand table, read with a default of 1.0. */
  function BrandMultiplier(brands: map<string, real>, make: string): real
  {
    if make in brands then brands[make] else 1.0
  }

  /** Shop multiplier on the scheduled services; do-it-yourself pays for parts only. */
  function ServiceShopMultiplier(shopType: string): (m: real)
    ensures 0.5 <= m <= 1.15
    ensures m < 1.0 <==> shopType == "diy"
  {
    if shopType == "dealership" then 1.15
    else if shopType == "independent" then 1.0
    else if shopType == "chain" then 1.05
    else if shopType == "specialty" then 1.1
    else if shopType == "diy" then 0.5
    else 1.0
  }

  /** Shop multiplier on the wear line: the same table without the do-it-yourself discount. */
  function WearShopMultiplier(shopType: string): (m: real)
    ensures 1.0 <= m <= 1.15
    ensures shopType != "diy" ==> m == ServiceShopMultiplier(shopType)
  {
    if shopType == "dealership" then 1.15
    else if shopType == "independent" then 1.0
    else if shopType == "chain" then 1.05
    else if shopType == "specialty" then 1.1
    else 1.0
  }

  /** The regional multiplier held into [0.8, 1.3]. */
  function ClampRegional(regional: real): (c: real)
    ensures 0.8 <= c <= 1.3
    ensures 0.8 <= regional <= 1.3 ==> c == regional
    ensures regional < 0.8 ==> c == 0.8
    ensures regional > 1.3 ==> c == 1.3
  {
    var capped := if regional < 1.3 then regional else 1.3;
    if capped > 0.8 then capped else 0.8
  }

  function Min(a: real, b: real): real
  {
    if a <= b then a else b
  }

  /**
   * One service's price after the brand adjustment: reliable brands (factor
   * below 0.95) and ordinary ones pay the factor, luxury brands (above 1.25)
   * pay it capped at 1.4. The three branches amount to a single cap at 1.4.
   */
  function BrandAdjustedCost(baseCost: real, brand: real): (cost: real)
    ensures cost == baseCost * Min(brand, 1.4)
  {
    if brand < 0.95 then baseCost * brand
    else if brand > 1.25 then baseCost * Min(brand, 1.4)
    else baseCost * brand
  }

  // ---------------------------------------------------------------------------
  // Wear cost
  // ---------------------------------------------------------------------------

  /**
   * Base wear cost by vehicle age, ages above 10 read as 10. The table has
   * no entry below 4, so those ages fall to the 600 default.
   */
  function BaseWearCost(age: int): (cost: real)
    ensures 100.0 <= cost <= 600.0
    ensures age <= 3 ==> cost == 600.0
  {
    var key := if age < 10 then age else 10;
    if key == 4 then 100.0
    else if key == 5 then 150.0
    else if key == 6 then 200.0
    else if key == 7 then 300.0
    else if key == 8 then 400.0
    else if key == 9 then 500.0
    else 600.0
  }

  /** From age 4 on, the base wear cost never falls as the car ages. */
  lemma BaseWearCostMonotone(age1: int, age2: int)
    requires 4 <= age1 <= age2
    ensures BaseWearCost(age1) <= BaseWearCost(age2)
  {
  }

  /** `_calculate_year_specific_wear_maintenance`: base wear cost times brand, shop and regional factors. */
  function CalculateYearSpecificWearMaintenance(age: int, make: string, shopType: string, regional: real, brands: map<string, real>): (wear: real)
    ensures BrandMultiplier(brands, make) > 0.0 && regional > 0.0 ==>
      100.0 * BrandMultiplier(brands, make) * regional <= wear <= 690.0 * BrandMultiplier(brands, make) * regional
  {
    var brand := BrandMultiplier(brands, make);
    var shop := WearShopMultiplier(shopType);
    assert 100.0 <= BaseWearCost(age) * shop <= 690.0;
    BaseWearCost(age) * brand * shop * regional
  }

  // ---------------------------------------------------------------------------
  // Adjusted schedules
  // ---------------------------------------------------------------------------

  /** One service line of an adjusted schedule; only lease schedules record a warranty share. */
  datatype AdjustedService = AdjustedService(
    service: string,
    frequency: int,
    costPerService: real,
    totalCost: real,
    warrantyCovered: Option<real>,
    shopType: string,
    intervalBased: bool)

  /** One year of an adjusted purchase schedule. */
  datatype AdjustedYear = AdjustedYear(
    year: int,
    totalMileage: int,
    startingYearMileage: int,
    endingYearMileage: int,
    services: seq<AdjustedService>,
    totalYearCost: real,
    brandMultiplier: real,
    shopMultiplier: real,
    regionalMultiplier: real)

  /** One year of an adjusted lease schedule. */
  datatype LeaseAdjustedYear = LeaseAdjustedYear(
    year: int,
    totalMileage: int,
    services: seq<AdjustedService>,
    totalYearCost: real,
    warrantyDiscount: real,
    brandMultiplier: real,
    shopMultiplier: real,
    regionalMultiplier: real)

  /** The sum of the lines' total costs. */
  function ServicesCost(lines: seq<AdjustedService>): real
  {
    if |lines| == 0 then 0.0 else ServicesCost(lines[..|lines| - 1]) + lines[|lines| - 1].totalCost
  }

  lemma ServicesCostAppend(lines: seq<AdjustedService>, extra: seq<AdjustedService>)
    requires |extra| <= 1
    ensures ServicesCost(lines + extra) == ServicesCost(lines) + ServicesCost(extra)
  {
    if |extra| == 1 {
      assert (lines + extra)[..|lines + extra| - 1] == lines;
    } else {
      assert lines + extra == lines;
    }
  }

  const WearServiceName: string := "Additional Wear & Tear"
  const LeaseWearServiceName: string := "Minor Wear Items"
  const LeaseShopMultiplier: real := 1.2

  /** One scheduled service of a purchased car, adjusted. */
  function AdjustService(s: Service, brand: real, shop: real, regional: real, shopType: string): AdjustedService
  {
    var cost := BrandAdjustedCost(s.costPerService, brand) * shop * regional;
    AdjustedService(s.service, s.frequency, cost, cost * s.frequency as real, None, shopType, true)
  }

  /** Every scheduled service of a year, adjusted, in order. */
  function AdjustServices(services: seq<Service>, brand: real, shop: real, regional: real, shopType: string): seq<AdjustedService>
  {
    seq(|services|, k requires 0 <= k < |services| => AdjustService(services[k], brand, shop, regional, shopType))
  }

  /** The wear line of a purchased car: present only after year 3 and when it exceeds 100. */
  function WearLines(age: int, wear: real, shopType: string): seq<AdjustedService>
  {
    if age > 3 && wear > 100.0 then [AdjustedService(WearServiceName, 1, wear, wear, None, shopType, false)] else []
  }

  /** One year of `_adjust_maintenance_schedule`, with the regional multiplier already clamped. */
  function AdjustYear(yearData: MaintenanceYear, make: string, shopType: string, regional: real, brands: map<string, real>): AdjustedYear
  {
    var brand := BrandMultiplier(brands, make);
    var shop := ServiceShopMultiplier(shopType);
    var wear := CalculateYearSpecificWearMaintenance(yearData.year, make, shopType, regional, brands);
    var lines := AdjustServices(yearData.services, brand, shop, regional, shopType) + WearLines(yearData.year, wear, shopType);
    AdjustedYear(yearData.year, yearData.totalMileage, yearData.startingYearMileage.GetOr(0),
      yearData.endingYearMileage.GetOr(0), lines, ServicesCost(lines), brand, shop, regional)
  }

  /** `_adjust_maintenance_schedule` as a function: every base year adjusted, in order, after clamping the regional multiplier. */
  function AdjustSchedule(base: seq<MaintenanceYear>, make: string, shopType: string, regionalMultiplier: real, brands: map<string, real>): seq<AdjustedYear>
  {
    seq(|base|, i requires 0 <= i < |base| => AdjustYear(base[i], make, shopType, ClampRegional(regionalMultiplier), brands))
  }

  /** The inner loop of `_adjust_maintenance_schedule`: one year's services and their running total. */
  method AdjustYearServices(services: seq<Service>, brand: real, shop: real, regional: real, shopType: string)
    returns (lines: seq<AdjustedService>, total: real)
    ensures lines == AdjustServices(services, brand, shop, regional, shopType)
    ensures total == ServicesCost(lines)
  {
    lines := [];
    total := 0.0;
    var j := 0;
    while j < |services|
      invariant 0 <= j <= |services|
      invariant |lines| == j
      invariant forall k :: 0 <= k < j ==> lines[k] == AdjustService(services[k], brand, shop, regional, shopType)
      invariant total == ServicesCost(lines)
    {
      var s := services[j];
      var finalCost := BrandAdjustedCost(s.costPerService, brand) * shop * regional;
      var serviceTotal := finalCost * s.frequency as real;
      var line := AdjustedService(s.service, s.frequency, finalCost, serviceTotal, None, shopType, true);
      ServicesCostAppend(lines, [line]);
      lines := lines + [line];
      total := total + serviceTotal;
      j := j + 1;
    }
  }

  /** `_adjust_maintenance_schedule`: the source's loop over the years, with the services loop in a helper. */
  method AdjustMaintenanceSchedule(base: seq<MaintenanceYear>, make: string, shopType: string, regionalMultiplier: real, brands: map<string, real>)
    returns (adjusted: seq<AdjustedYear>)
    ensures adjusted == AdjustSchedule(base, make, shopType, regionalMultiplier, brands)
  {
    var brand := BrandMultiplier(brands, make);
    var shop := ServiceShopMultiplier(shopType);
    var regional := ClampRegional(regionalMultiplier);
    adjusted := [];
    var i := 0;
    while i < |base|
      invariant 0 <= i <= |base|
      invariant |adjusted| == i
      invariant forall k :: 0 <= k < i ==> adjusted[k] == AdjustYear(base[k], make, shopType, regional, brands)
    {
      var year := AdjustOneYear(base[i], make, shopType, regional, brands, brand, shop);
      adjusted := adjusted + [year];
      i := i + 1;
    }
  }

  /** The body of the years loop of `_adjust_maintenance_schedule`: the services, then the wear line of an older car. */
  method AdjustOneYear(yearData: MaintenanceYear, make: string, shopType: string, regional: real, brands: map<string, real>,
                       brand: real, shop: real)
    returns (year: AdjustedYear)
    requires brand == BrandMultiplier(brands, make) && shop == ServiceShopMultiplier(shopType)
    ensures year == AdjustYear(yearData, make, shopType, regional, brands)
  {
    var lines, total := AdjustYearServices(yearData.services, brand, shop, regional, shopType);
    var wearLines: seq<AdjustedService> := [];
    var age := yearData.year;
    if age > 3 {
      var wear := CalculateYearSpecificWearMaintenance(age, make, shopType, regional, brands);
      if wear > 100.0 {
        wearLines := [AdjustedService(WearServiceName, 1, wear, wear, None, shopType, false)];
        total := total + wear;
      }
    }
    ServicesCostAppend(lines, wearLines);
    lines := lines + wearLines;
    year := AdjustedYear(yearData.year, yearData.totalMileage, yearData.startingYearMileage.GetOr(0),
      yearData.endingYearMileage.GetOr(0), lines, total, brand, shop, regional);
  }

  /** Each scheduled service of a purchased car costs its base price times the capped brand, shop and regional factors. */
  lemma AdjustServicesPriced(services: seq<Service>, brand: real, shop: real, regional: real, shopType: string)
    ensures forall k :: 0 <= k < |services| ==>
      var line := AdjustServices(services, brand, shop, regional, shopType)[k];
      line.service == services[k].service
      && line.costPerService == services[k].costPerService * Min(brand, 1.4) * shop * regional
      && line.totalCost == line.costPerService * services[k].frequency as real
  {
    forall k | 0 <= k < |services|
      ensures AdjustServices(services, brand, shop, regional, shopType)[k].costPerService
        == services[k].costPerService * Min(brand, 1.4) * shop * regional
    {
      var c := BrandAdjustedCost(services[k].costPerService, brand);
      assert c == services[k].costPerService * Min(brand, 1.4);
    }
  }

  /**
   * One adjusted year: the same year number, a year cost equal to the sum of
   * its lines, every scheduled service kept in order, and one extra wear
   * line exactly when the year is past 3 and the wear cost exceeds 100.
   */
  lemma AdjustYearFacts(yearData: MaintenanceYear, make: string, shopType: string, regional: real, brands: map<string, real>)
    ensures var y := AdjustYear(yearData, make, shopType, regional, brands);
      y.year == yearData.year
      && y.regionalMultiplier == regional
      && y.totalYearCost == ServicesCost(y.services)
      && |y.services| == |yearData.services|
           + (if yearData.year > 3 && CalculateYearSpecificWearMaintenance(yearData.year, make, shopType, regional, brands) > 100.0 then 1 else 0)
      && y.services[..|yearData.services|]
           == AdjustServices(yearData.services, BrandMultiplier(brands, make), ServiceShopMultiplier(shopType), regional, shopType)
      && (yearData.year > 3 && CalculateYearSpecificWearMaintenance(yearData.year, make, shopType, regional, brands) > 100.0 ==>
            y.services[|yearData.services|].totalCost
              == CalculateYearSpecificWearMaintenance(yearData.year, make, shopType, regional, brands))
  {
    var lines := AdjustServices(yearData.services, BrandMultiplier(brands, make), ServiceShopMultiplier(shopType), regional, shopType);
    var wear := WearLines(yearData.year, CalculateYearSpecificWearMaintenance(yearData.year, make, shopType, regional, brands), shopType);
    assert (lines + wear)[..|lines|] == lines;
  }

  /**
   * What `_adjust_maintenance_schedule` promises, year by year: one adjusted
   * year per base year with the same year number, a regional factor inside
   * [0.8, 1.3], a year cost equal to the sum of its lines, and every
   * scheduled service kept, plus one wear line exactly when the year is past
   * 3 and the wear cost exceeds 100.
   */
  lemma AdjustScheduleFacts(base: seq<MaintenanceYear>, make: string, shopType: string, regionalMultiplier: real, brands: map<string, real>)
    ensures |AdjustSchedule(base, make, shopType, regionalMultiplier, brands)| == |base|
    ensures forall i :: 0 <= i < |base| ==>
      var y := AdjustSchedule(base, make, shopType, regionalMultiplier, brands)[i];
      y.year == base[i].year
      && 0.8 <= y.regionalMultiplier <= 1.3
      && y.totalYearCost == ServicesCost(y.services)
      && |y.services| == |base[i].services|
           + (if base[i].year > 3 && CalculateYearSpecificWearMaintenance(base[i].year, make, shopType, y.regionalMultiplier, brands) > 100.0 then 1 else 0)
  {
  }

  // ---------------------------------------------------------------------------
  // Lease schedule
  // ---------------------------------------------------------------------------

  /** The share of a service the warranty covers in a lease year. */
  function WarrantyDiscount(leaseYear: int): (d: real)
    ensures 0.2 <= d <= 0.6
  {
    if leaseYear <= 2 then 0.6 else if leaseYear <= 3 then 0.4 else 0.2
  }

  /** The warranty share never grows as the lease ages. */
  lemma WarrantyDiscountDecreasing(year1: int, year2: int)
    requires year1 <= year2
    ensures WarrantyDiscount(year2) <= WarrantyDiscount(year1)
  {
  }

  /** The full dealership price of one service in a lease, before the warranty. */
  function LeaseFullCost(s: Service, brand: real, regional: real): real
  {
    s.costPerService * brand * LeaseShopMultiplier * regional
  }

  /** What the lessee pays for one service: the full price less the warranty's share. */
  function LeaseOutOfPocket(s: Service, brand: real, regional: real, discount: real): real
  {
    LeaseFullCost(s, brand, regional) * (1.0 - discount)
  }

  /** The line a lease keeps for a service. */
  function LeaseLine(s: Service, brand: real, regional: real, discount: real): AdjustedService
  {
    var outOfPocket := LeaseOutOfPocket(s, brand, regional, discount);
    AdjustedService(s.service, s.frequency, outOfPocket, outOfPocket * s.frequency as real,
      Some(LeaseFullCost(s, brand, regional) * discount * s.frequency as real), "dealership", true)
  }

  /** The lease lines of one year: a service is kept only when its out-of-pocket cost exceeds 5. */
  function LeaseServices(services: seq<Service>, brand: real, regional: real, discount: real): seq<AdjustedService>
  {
    if |services| == 0 then []
    else
      var n := |services| - 1;
      var kept := LeaseServices(services[..n], brand, regional, discount);
      if LeaseOutOfPocket(services[n], brand, regional, discount) > 5.0 then kept + [LeaseLine(services[n], brand, regional, discount)]
      else kept
  }

  /** The minor wear line of a lease, from year 4 on. */
  function LeaseWearLines(leaseYear: int, brand: real, regional: real): seq<AdjustedService>
  {
    if leaseYear > 3 then
      var wear := 100.0 * brand * regional;
      [AdjustedService(LeaseWearServiceName, 1, wear, wear, Some(0.0), "dealership", false)]
    else []
  }

  /** One year of `_adjust_lease_maintenance_schedule`. */
  function AdjustLeaseYear(yearData: MaintenanceYear, brand: real, regional: real): LeaseAdjustedYear
  {
    var discount := WarrantyDiscount(yearData.year);
    var lines := LeaseServices(yearData.services, brand, regional, discount) + LeaseWearLines(yearData.year, brand, regional);
    LeaseAdjustedYear(yearData.year, yearData.totalMileage, lines, ServicesCost(lines), discount, brand, LeaseShopMultiplier, regional)
  }

  /** `_adjust_lease_maintenance_schedule` as a function: every base year adjusted, in order; the regional multiplier is used as given. */
  function AdjustLeaseSchedule(base: seq<MaintenanceYear>, make: string, regionalMultiplier: real, brands: map<string, real>): seq<LeaseAdjustedYear>
  {
    seq(|base|, i requires 0 <= i < |base| => AdjustLeaseYear(base[i], BrandMultiplier(brands, make), regionalMultiplier))
  }

  /** The inner loop of `_adjust_lease_maintenance_schedule`: the kept lines of one year and their running total. */
  method LeaseYearServices(services: seq<Service>, brand: real, regional: real, discount: real)
    returns (lines: seq<AdjustedService>, total: real)
    ensures lines == LeaseServices(services, brand, regional, discount)
    ensures total == ServicesCost(lines)
  {
    lines := [];
    total := 0.0;
    var j := 0;
    while j < |services|
      invariant 0 <= j <= |services|
      invariant lines == LeaseServices(services[..j], brand, regional, discount)
      invariant total == ServicesCost(lines)
    {
      var s := services[j];
      var outOfPocket := LeaseOutOfPocket(s, brand, regional, discount);
      assert services[..j + 1][..j] == services[..j];
      if outOfPocket > 5.0 {
        var line := LeaseLine(s, brand, regional, discount);
        ServicesCostAppend(lines, [line]);
        lines := lines + [line];
        total := total + outOfPocket * s.frequency as real;
      }
      j := j + 1;
    }
    assert services[..j] == services;
  }

  /** `_adjust_lease_maintenance_schedule`: the source's loop over the years, with the services loop in a helper. */
  method AdjustLeaseMaintenanceSchedule(base: seq<MaintenanceYear>, make: string, regionalMultiplier: real, brands: map<string, real>)
    returns (adjusted: seq<LeaseAdjustedYear>)
    ensures adjusted == AdjustLeaseSchedule(base, make, regionalMultiplier, brands)
  {
    var brand := BrandMultiplier(brands, make);
    ghost var spec := AdjustLeaseSchedule(base, make, regionalMultiplier, brands);
    adjusted := [];
    var i := 0;
    while i < |base|
      invariant 0 <= i <= |base|
      invariant adjusted == spec[..i]
    {
      var year := AdjustOneLeaseYear(base[i], brand, regionalMultiplier);
      assert year == spec[i];
      adjusted := adjusted + [year];
      i := i + 1;
    }
    assert spec[..|base|] == spec;
  }

  /** The body of the years loop of `_adjust_lease_maintenance_schedule`: the kept services, then the wear line after year 3. */
  method AdjustOneLeaseYear(yearData: MaintenanceYear, brand: real, regional: real) returns (year: LeaseAdjustedYear)
    ensures year == AdjustLeaseYear(yearData, brand, regional)
  {
    var leaseYear := yearData.year;
    var discount := WarrantyDiscount(leaseYear);
    var lines, total := LeaseYearServices(yearData.services, brand, regional, discount);
    var wearLines: seq<AdjustedService> := [];
    if leaseYear > 3 {
      var wear := 100.0 * brand * regional;
      wearLines := [AdjustedService(LeaseWearServiceName, 1, wear, wear, Some(0.0), "dealership", false)];
      total := total + wear;
    }
    ServicesCostAppend(lines, wearLines);
    lines := lines + wearLines;
    year := LeaseAdjustedYear(leaseYear, yearData.totalMileage, lines, total, discount, brand, LeaseShopMultiplier, regional);
  }

  /** `line` is what the lease adjuster makes of the scheduled service `s`. */
  predicate KeptLine(s: Service, line: AdjustedService, brand: real, regional: real, discount: real)
  {
    line == LeaseLine(s, brand, regional, discount)
  }

  /** A kept line's out-of-pocket total and the warranty's share add up to the full dealership price. */
  lemma KeptLineSplitsFullCost(s: Service, brand: real, regional: real, discount: real)
    ensures var line := LeaseLine(s, brand, regional, discount);
      line.totalCost + line.warrantyCovered.value == LeaseFullCost(s, brand, regional) * s.frequency as real
  {
    var full := LeaseFullCost(s, brand, regional);
    var f := s.frequency as real;
    calc {
      LeaseLine(s, brand, regional, discount).totalCost + LeaseLine(s, brand, regional, discount).warrantyCovered.value;
      full * (1.0 - discount) * f + full * discount * f;
      full * f;
    }
  }

  /**
   * Every line a lease keeps costs more than 5 out of pocket and is the
   * line of a scheduled service, priced at the dealership rate less the
   * warranty's share; a lease year never has more lines than services
   * scheduled, and a service dearer than 5 out of pocket is never dropped.
   */
  lemma {:induction false} LeaseServicesFacts(services: seq<Service>, brand: real, regional: real, discount: real)
    ensures |LeaseServices(services, brand, regional, discount)| <= |services|
    ensures forall line :: line in LeaseServices(services, brand, regional, discount) ==>
      line.costPerService > 5.0 && exists s :: s in services && KeptLine(s, line, brand, regional, discount)
    ensures forall s :: s in services && LeaseOutOfPocket(s, brand, regional, discount) > 5.0 ==>
      LeaseLine(s, brand, regional, discount) in LeaseServices(services, brand, regional, discount)
    decreases |services|
  {
    if |services| > 0 {
      var n := |services| - 1;
      LeaseServicesFacts(services[..n], brand, regional, discount);
      var last := services[n];
      var kept := LeaseServices(services[..n], brand, regional, discount);
      forall line | line in LeaseServices(services, brand, regional, discount)
        ensures line.costPerService > 5.0 && exists s :: s in services && KeptLine(s, line, brand, regional, discount)
      {
        if line in kept {
          var t :| t in services[..n] && KeptLine(t, line, brand, regional, discount);
          assert t in services;
        } else {
          assert KeptLine(last, line, brand, regional, discount);
        }
      }
      forall s | s in services && LeaseOutOfPocket(s, brand, regional, discount) > 5.0
        ensures LeaseLine(s, brand, regional, discount) in LeaseServices(services, brand, regional, discount)
      {
        if s != last {
          assert s in services[..n];
        }
      }
    }
  }

  /**
   * Every adjusted lease year keeps its base year's number, the warranty
   * share of that year, the dealership shop rate and the regional multiplier
   * as given; its lines are the kept services followed, from year 4 on, by
   * one minor wear line of 100 scaled by brand and region, and its total is
   * the sum of its lines.
   */
  lemma AdjustLeaseScheduleFacts(base: seq<MaintenanceYear>, make: string, regionalMultiplier: real, brands: map<string, real>)
    ensures |AdjustLeaseSchedule(base, make, regionalMultiplier, brands)| == |base|
    ensures forall i :: 0 <= i < |base| ==>
      var y := AdjustLeaseSchedule(base, make, regionalMultiplier, brands)[i];
      var kept := LeaseServices(base[i].services, BrandMultiplier(brands, make), regionalMultiplier, WarrantyDiscount(base[i].year));
      y.year == base[i].year
      && y.warrantyDiscount == WarrantyDiscount(base[i].year)
      && y.shopMultiplier == 1.2
      && y.regionalMultiplier == regionalMultiplier
      && y.totalYearCost == ServicesCost(y.services)
      && |y.services| == |kept| + (if base[i].year > 3 then 1 else 0)
      && y.services[..|kept|] == kept
      && (base[i].year > 3 ==> y.services[|kept|].totalCost == 100.0 * BrandMultiplier(brands, make) * regionalMultiplier)
  {
    var brand := BrandMultiplier(brands, make);
    forall i | 0 <= i < |base|
      ensures var y := AdjustLeaseSchedule(base, make, regionalMultiplier, brands)[i];
        var kept := LeaseServices(base[i].services, brand, regionalMultiplier, WarrantyDiscount(base[i].year));
        y.services[..|kept|] == kept
    {
      var kept := LeaseServices(base[i].services, brand, regionalMultiplier, WarrantyDiscount(base[i].year));
      assert (kept + LeaseWearLines(base[i].year, brand, regionalMultiplier))[..|kept|] == kept;
    }
  }
}
