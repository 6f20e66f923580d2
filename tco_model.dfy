/**
 * The data the prediction service works on: the request (a Python dict read
 * with `[]` and `.get`), what the outside engines return, and the errors the
 * service can raise.
 *
 * The engines (depreciation model, maintenance calculator, insurance, fuel and
 * EV calculators, loan service, vehicle database) are not part of this model:
 * each one is a total function the service is given, called with the record of
 * arguments the service passes it.
 */
module TcoModel {
  import opened Wrappers

  /**
   * The request. A key the caller may omit is an `Option`; `None` is a
   * missing key, so `req.price.GetOr(d)` is `input_data.get('price', d)`.
   */
  datatype Request = Request(
    make: Option<string>,
    model: Option<string>,
    year: Option<int>,
    trim: Option<string>,
    zipCode: Option<string>,
    state: Option<string>,
    transactionType: Option<string>,
    analysisYears: Option<int>,
    price: Option<real>,
    trimMsrp: Option<real>,
    purchasePrice: Option<real>,
    currentMileage: Option<int>,
    annualMileage: Option<int>,
    drivingStyle: Option<string>,
    terrain: Option<string>,
    financingEnabled: Option<bool>,
    financingOption: Option<string>,
    paymentMethod: Option<string>,
    financingType: Option<string>,
    loanAmount: Option<real>,
    interestRate: Option<real>,
    loanTerm: Option<int>,
    driverAge: Option<int>,
    userAge: Option<int>,
    coverageType: Option<string>,
    numHouseholdVehicles: Option<int>,
    isElectric: Option<bool>,
    electricityRate: Option<real>,
    chargingPreference: Option<string>,
    fuelPrice: Option<real>,
    grossIncome: Option<real>,
    leaseTerm: Option<int>,
    monthlyPayment: Option<real>,
    downPayment: Option<real>,
    annualMileageLimit: Option<int>)

  /** The two keys of the vehicle database's answer that the service reads. */
  datatype VehicleCharacteristics = VehicleCharacteristics(isElectric: Option<bool>, mpg: Option<real>)

  /** One service line of a maintenance year, as the maintenance calculator gives it. */
  datatype Service = Service(service: string, frequency: int, costPerService: real)

  /** One year of the maintenance calculator's schedule. */
  datatype MaintenanceYear = MaintenanceYear(
    year: int,
    totalMileage: int,
    startingYearMileage: Option<int>,
    endingYearMileage: Option<int>,
    services: seq<Service>,
    totalYearCost: real)

  /** One year of the loan schedule; `annual_payment` may be absent. */
  datatype FinancingYear = FinancingYear(annualPayment: Option<real>)

  datatype CharacteristicsQuery = CharacteristicsQuery(make: string, model: string, year: int, trim: Option<string>)

  datatype DepreciationQuery = DepreciationQuery(
    initialValue: real, make: string, model: string, modelYear: int, annualMileage: int, years: int)

  datatype MaintenanceQuery = MaintenanceQuery(
    annualMileage: int, years: int, startingMileage: int, make: string, drivingStyle: string, model: string)

  datatype InsuranceQuery = InsuranceQuery(
    vehicleValue: real, make: string, vehicleYear: int, driverAge: int, state: string,
    coverageType: string, annualMileage: int, numVehicles: int, regionalMultiplier: real,
    model: Option<string>)

  datatype FuelQuery = FuelQuery(
    annualMileage: int, mpg: real, fuelPrice: real, drivingStyle: string, terrain: string)

  datatype EfficiencyQuery = EfficiencyQuery(make: string, model: string, year: int)

  datatype ElectricityQuery = ElectricityQuery(
    annualMileage: int, vehicleEfficiency: real, electricityRate: real, chargingPreference: string)

  datatype LoanQuery = LoanQuery(loanAmount: real, interestRate: real, loanTermYears: int, analysisYears: int)

  /**
   * The outside engines. The depreciation schedule is given by its
   * `vehicle_value` column, the only one the service reads.
   */
  datatype Engines = Engines(
    characteristics: CharacteristicsQuery -> VehicleCharacteristics,
    depreciationSchedule: DepreciationQuery -> seq<real>,
    maintenanceSchedule: MaintenanceQuery -> seq<MaintenanceYear>,
    annualPremium: InsuranceQuery -> real,
    annualFuelCost: FuelQuery -> real,
    evEfficiency: EfficiencyQuery -> real,
    annualElectricityCost: ElectricityQuery -> real,
    loanPayments: LoanQuery -> seq<FinancingYear>)

  /** The exceptions the service raises: `KeyError`, `IndexError`, `ZeroDivisionError`, `NameError`. */
  datatype TcoError =
    | MissingKey(key: string)
    | IndexOutOfRange
    | DivisionByZero
    | UnboundName(name: string)

  /** The first calendar year of every breakdown: the service writes 2025 as a constant. */
  const FirstOwnershipYear: int := 2025
}
