/**
 * `_calculate_realistic_used_vehicle_depreciation`: a used car loses a
 * share of its current value each year, the share taken from a five-year
 * curve chosen by the car's age at purchase and scaled by a brand factor,
 * and its value never falls below 15 per cent of the purchase price.
 *
 * The current calendar year, which the source reads from the clock, is a
 * parameter.
 */
module UsedDepreciation {
  import opened Wrappers
  import opened TcoModel

  /** One year of the used-car schedule. */
  datatype UsedYear = UsedYear(
    year: int,
    ownershipYear: int,
    vehicleAge: int,
    vehicleValue: real,
    annualDepreciation: real,
    depreciationRate: real)

  /** The yearly rates by age at purchase: up to 3 years, up to 7, older. Each curve flattens. */
  function AnnualRates(ageAtPurchase: int): (rates: seq<real>)
    ensures |rates| == 5
    ensures forall k :: 0 <= k < 5 ==> 0.02 <= rates[k] <= 0.08
    ensures forall k :: 0 < k < 5 ==> rates[k] <= rates[k - 1]
  {
    if ageAtPurchase <= 3 then [0.08, 0.07, 0.06, 0.05, 0.04]
    else if ageAtPurchase <= 7 then [0.05, 0.04, 0.04, 0.03, 0.03]
    else [0.03, 0.02, 0.02, 0.02, 0.02]
  }

  /** Brand factor on the rate: brands that hold their value below 1, luxury brands above; 1.0 otherwise. */
  function UsedBrandMultiplier(make: string): (m: real)
    ensures 0.7 <= m <= 1.2
  {
    if make == "Toyota" then 0.8
    else if make == "Honda" then 0.8
    else if make == "Lexus" then 0.7
    else if make == "BMW" then 1.2
    else if make == "Mercedes-Benz" then 1.2
    else if make == "Audi" then 1.1
    else if make == "Chevrolet" then 1.0
    else if make == "Ford" then 1.0
    else if make == "Hyundai" then 0.9
    else 1.0
  }

  /** The rate of ownership year `year`: the curve's entry (the fifth from year 5 on) times the brand factor. */
  function UsedRate(ageAtPurchase: int, brand: real, year: int): real
    requires year >= 1
  {
    AnnualRates(ageAtPurchase)[RateIndex(year)] * brand
  }

  /** Every rate lies between 1.4 and 9.6 per cent. */
  lemma UsedRateBounds(ageAtPurchase: int, brand: real, year: int)
    requires year >= 1
    requires 0.7 <= brand <= 1.2
    ensures 0.014 <= UsedRate(ageAtPurchase, brand, year) <= 0.096
  {
    var base := AnnualRates(ageAtPurchase)[RateIndex(year)];
    assert 0.02 * brand <= base * brand <= 0.08 * brand;
  }

  /** The curve entry of ownership year `year`: year 1 takes the first, year 5 and later the fifth. */
  function RateIndex(year: int): (k: int)
    requires year >= 1
    ensures 0 <= k < 5
    ensures k == year - 1 || (k == 4 && year > 5)
  {
    if year <= 4 then year - 1 else 4
  }

  function MinInt(a: int, b: int): int
  {
    if a < b then a else b
  }

  const FloorShare: real := 0.15

  /** One year's value before the floor: the current value less its rate. */
  function Lowered(current: real, rate: real): real
  {
    current - current * rate
  }

  /** A value lifted to the floor, 15 per cent of the price, if it fell below. */
  function Floored(value: real, initialValue: real): real
  {
    var floor := initialValue * FloorShare;
    if value < floor then floor else value
  }

  /** The value after `n` years: each year loses its rate, then is lifted to the floor. */
  function ValueAfter(initialValue: real, ageAtPurchase: int, brand: real, n: nat): real
  {
    if n == 0 then initialValue
    else Floored(Lowered(ValueAfter(initialValue, ageAtPurchase, brand, n - 1), UsedRate(ageAtPurchase, brand, n)), initialValue)
  }

  /** The schedule entry of ownership year `y`. */
  function UsedYearAt(initialValue: real, modelYear: int, currentYear: int, make: string, y: int): UsedYear
    requires y >= 1
  {
    var ageAtPurchase := currentYear - modelYear;
    var brand := UsedBrandMultiplier(make);
    var previous := ValueAfter(initialValue, ageAtPurchase, brand, y - 1);
    var value := ValueAfter(initialValue, ageAtPurchase, brand, y);
    var ownershipYear := currentYear + y - 1;
    UsedYear(y, ownershipYear, ownershipYear - modelYear, value, previous - value, UsedRate(ageAtPurchase, brand, y))
  }

  /** The schedule as a function: one entry per year 1..n, none when n <= 0. */
  function UsedSchedule(initialValue: real, modelYear: int, currentYear: int, make: string, n: int): seq<UsedYear>
  {
    var count := if n > 0 then n else 0;
    seq(count, i requires 0 <= i < count => UsedYearAt(initialValue, modelYear, currentYear, make, i + 1))
  }

  /**
   * `_calculate_realistic_used_vehicle_depreciation`: a missing model year
   * or make is a `KeyError`; otherwise the loop carries the current value
   * from year to year.
   */
  method CalculateRealisticUsedVehicleDepreciation(req: Request, initialValue: real, analysisYears: int, currentYear: int)
    returns (r: Result<seq<UsedYear>, TcoError>)
    ensures req.year.None? ==> r == Failure(MissingKey("year"))
    ensures req.year.Some? && req.make.None? ==> r == Failure(MissingKey("make"))
    ensures req.year.Some? && req.make.Some? ==>
      r == Success(UsedSchedule(initialValue, req.year.value, currentYear, req.make.value, analysisYears))
  {
    if req.year.None? {
      return Failure(MissingKey("year"));
    }
    var modelYear := req.year.value;
    var ageAtPurchase := currentYear - modelYear;
    var rates := AnnualRates(ageAtPurchase);
    if req.make.None? {
      return Failure(MissingKey("make"));
    }
    var make := req.make.value;
    var brand := UsedBrandMultiplier(make);
    var schedule: seq<UsedYear> := [];
    var currentValue := initialValue;
    var year := 1;
    while year <= analysisYears
      invariant 1 <= year <= (if analysisYears > 0 then analysisYears else 0) + 1
      invariant schedule == UsedSchedule(initialValue, modelYear, currentYear, make, year - 1)
      invariant currentValue == ValueAfter(initialValue, ageAtPurchase, brand, year - 1)
    {
      var adjustedRate := YearRate(rates, ageAtPurchase, brand, year);
      var newValue, annualDepreciation := DepreciateOneYear(currentValue, adjustedRate, initialValue);
      var ownershipYear := currentYear + year - 1;
      assert newValue == ValueAfter(initialValue, ageAtPurchase, brand, year);
      var entry := UsedYear(year, ownershipYear, ownershipYear - modelYear, newValue, annualDepreciation, adjustedRate);
      assert entry == UsedYearAt(initialValue, modelYear, currentYear, make, year);
      UsedScheduleAppend(initialValue, modelYear, currentYear, make, year);
      schedule := schedule + [entry];
      currentValue := newValue;
      year := year + 1;
    }
    return Success(schedule);
  }

  /** The rate of one loop turn: the curve's entry at `min(year - 1, len(rates) - 1)` times the brand factor. */
  method YearRate(rates: seq<real>, ageAtPurchase: int, brand: real, year: int) returns (adjustedRate: real)
    requires year >= 1 && rates == AnnualRates(ageAtPurchase)
    ensures adjustedRate == UsedRate(ageAtPurchase, brand, year)
  {
    var baseRate := rates[MinInt(year - 1, |rates| - 1)];
    adjustedRate := baseRate * brand;
  }

  /**
   * One turn of the loop: the year's depreciation at `rate`, the new value
   * lifted to the floor, and the depreciation recomputed as the actual drop.
   */
  method DepreciateOneYear(currentValue: real, rate: real, initialValue: real)
    returns (newValue: real, annualDepreciation: real)
    ensures newValue == Floored(Lowered(currentValue, rate), initialValue)
    ensures annualDepreciation == currentValue - newValue
  {
    annualDepreciation := currentValue * rate;
    newValue := currentValue - annualDepreciation;
    var minValue := initialValue * FloorShare;
    newValue := if newValue < minValue then minValue else newValue;
    annualDepreciation := currentValue - newValue;
  }

  /** The schedule of `n` years is the schedule of `n - 1` years and one more entry. */
  lemma UsedScheduleAppend(initialValue: real, modelYear: int, currentYear: int, make: string, n: int)
    requires n >= 1
    ensures UsedSchedule(initialValue, modelYear, currentYear, make, n)
      == UsedSchedule(initialValue, modelYear, currentYear, make, n - 1) + [UsedYearAt(initialValue, modelYear, currentYear, make, n)]
  {
  }

  /** One year at a rate between 0 and 1 keeps a value between the floor and the price, and never raises it. */
  lemma StepBounds(current: real, rate: real, initialValue: real)
    requires initialValue >= 0.0
    requires initialValue * FloorShare <= current <= initialValue
    requires 0.0 <= rate <= 1.0
    ensures initialValue * FloorShare <= Floored(Lowered(current, rate), initialValue) <= current
  {
    assert 0.0 <= current * rate <= current * 1.0;
  }

  /** With a non-negative price, the value stays between the floor and the price and never rises. */
  lemma {:induction false} ValueAfterBounds(initialValue: real, ageAtPurchase: int, brand: real, n: nat)
    requires initialValue >= 0.0 && 0.7 <= brand <= 1.2
    ensures initialValue * FloorShare <= ValueAfter(initialValue, ageAtPurchase, brand, n) <= initialValue
    ensures n > 0 ==> ValueAfter(initialValue, ageAtPurchase, brand, n) <= ValueAfter(initialValue, ageAtPurchase, brand, n - 1)
  {
    if n > 0 {
      ValueAfterBounds(initialValue, ageAtPurchase, brand, n - 1);
      UsedRateBounds(ageAtPurchase, brand, n);
      StepBounds(ValueAfter(initialValue, ageAtPurchase, brand, n - 1), UsedRate(ageAtPurchase, brand, n), initialValue);
    }
  }

  /** The sum of the schedule's yearly depreciation. */
  function TotalDepreciation(schedule: seq<UsedYear>): real
  {
    if |schedule| == 0 then 0.0 else TotalDepreciation(schedule[..|schedule| - 1]) + schedule[|schedule| - 1].annualDepreciation
  }

  /** The yearly depreciation over the first `n` years adds up to the price less the value after `n` years. */
  lemma {:induction false} UsedScheduleTelescopes(initialValue: real, modelYear: int, currentYear: int, make: string, n: nat)
    ensures TotalDepreciation(UsedSchedule(initialValue, modelYear, currentYear, make, n))
      == initialValue - ValueAfter(initialValue, currentYear - modelYear, UsedBrandMultiplier(make), n)
  {
    if n > 0 {
      var s := UsedSchedule(initialValue, modelYear, currentYear, make, n);
      assert s[..n - 1] == UsedSchedule(initialValue, modelYear, currentYear, make, n - 1);
      UsedScheduleTelescopes(initialValue, modelYear, currentYear, make, n - 1);
    }
  }

  /**
   * What the schedule promises: one entry per year 1..N in order, the
   * calendar year and the car's age alongside, each rate the curve's entry
   * for that year (the fifth from year 5 on) times the brand factor, each
   * year's depreciation the drop from the year before, and no value below
   * 15 per cent of the price.
   */
  lemma UsedScheduleFacts(initialValue: real, modelYear: int, currentYear: int, make: string, n: int)
    ensures |UsedSchedule(initialValue, modelYear, currentYear, make, n)| == (if n > 0 then n else 0)
    ensures forall i :: 0 <= i < |UsedSchedule(initialValue, modelYear, currentYear, make, n)| ==>
      var e := UsedSchedule(initialValue, modelYear, currentYear, make, n)[i];
      e.year == i + 1
      && e.ownershipYear == currentYear + i
      && e.vehicleAge == currentYear + i - modelYear
      && e.depreciationRate == AnnualRates(currentYear - modelYear)[RateIndex(i + 1)] * UsedBrandMultiplier(make)
      && e.vehicleValue >= initialValue * FloorShare
      && e.annualDepreciation == (if i == 0 then initialValue
                                  else UsedSchedule(initialValue, modelYear, currentYear, make, n)[i - 1].vehicleValue) - e.vehicleValue
  {
    var s := UsedSchedule(initialValue, modelYear, currentYear, make, n);
    forall i | 0 <= i < |s|
      ensures s[i].depreciationRate == AnnualRates(currentYear - modelYear)[RateIndex(i + 1)] * UsedBrandMultiplier(make)
      ensures s[i].vehicleValue >= initialValue * FloorShare
      ensures s[i].annualDepreciation == (if i == 0 then initialValue else s[i - 1].vehicleValue) - s[i].vehicleValue
    {
      UsedYearAtFacts(initialValue, modelYear, currentYear, make, i + 1);
      assert s[i] == UsedYearAt(initialValue, modelYear, currentYear, make, i + 1);
      if i > 0 {
        assert s[i - 1] == UsedYearAt(initialValue, modelYear, currentYear, make, i);
      }
    }
  }

  /** One entry: its rate, its value above the floor, and its depreciation the drop from the value before. */
  lemma UsedYearAtFacts(initialValue: real, modelYear: int, currentYear: int, make: string, y: int)
    requires y >= 1
    ensures UsedYearAt(initialValue, modelYear, currentYear, make, y).depreciationRate
      == AnnualRates(currentYear - modelYear)[RateIndex(y)] * UsedBrandMultiplier(make)
    ensures UsedYearAt(initialValue, modelYear, currentYear, make, y).vehicleValue >= initialValue * FloorShare
    ensures UsedYearAt(initialValue, modelYear, currentYear, make, y).annualDepreciation
      == (if y == 1 then initialValue else UsedYearAt(initialValue, modelYear, currentYear, make, y - 1).vehicleValue)
         - UsedYearAt(initialValue, modelYear, currentYear, make, y).vehicleValue
  {
  }

  /** With a non-negative price no year's value exceeds the price and no year's depreciation is negative. */
  lemma UsedScheduleNeverRises(initialValue: real, modelYear: int, currentYear: int, make: string, n: int)
    requires initialValue >= 0.0
    ensures forall e :: e in UsedSchedule(initialValue, modelYear, currentYear, make, n) ==>
      e.annualDepreciation >= 0.0 && e.vehicleValue <= initialValue
  {
    var s := UsedSchedule(initialValue, modelYear, currentYear, make, n);
    forall i | 0 <= i < |s|
      ensures s[i].annualDepreciation >= 0.0 && s[i].vehicleValue <= initialValue
    {
      ValueAfterBounds(initialValue, currentYear - modelYear, UsedBrandMultiplier(make), i + 1);
    }
  }
}
