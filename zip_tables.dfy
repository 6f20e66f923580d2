/**
 * The read-only tables of the ZIP/location resolver (utils/zip_code_utils.py).
 *
 * Every table is kept in source order, because the lookups that read them
 * return the FIRST row that matches.  Long tables are written as the
 * concatenation of the groups the source file itself marks with comments
 * (and, where a group is long, of shorter runs of consecutive rows); the
 * concatenation is exactly the source's list.
 */
module ZipTables {

  /** The geography label of a metro row; `Mixed` is the only label that callers rewrite. */
  datatype Geography = Urban | Suburban | Rural | Mixed

  /** The label as the source spells it. */
  function GeographyName(g: Geography): string
  {
    match g
    case Urban => "Urban"
    case Suburban => "Suburban"
    case Rural => "Rural"
    case Mixed => "Mixed"
  }

  /** One row of METRO_AREA_RATES: an inclusive range of 5-digit ZIP numbers and its data. */
  datatype MetroRow = MetroRow(
    zipStart: int,
    zipEnd: int,
    state: string,
    metroName: string,
    geography: Geography,
    fuelPrice: real,
    electricityRate: real)

  /** An inclusive ZIP-number range `(start, end)`. */
  datatype ZipRange = ZipRange(lo: int, hi: int)

  /** One entry of ZIP_CODE_RANGES: a state and its ranges, in dict order. */
  type StateRanges = (string, seq<ZipRange>)

  /** National fallbacks used when neither a metro row nor a state entry is found. */
  const NationalFuelPrice: real := 3.50
  const NationalElectricityRate: real := 0.15

  // ---------------------------------------------------------------------
  // METRO_AREA_RATES (zip_code_utils.py lines 16-135)
  // ---------------------------------------------------------------------

  /** Northeast (zip_code_utils.py lines 17-24). */
  const Northeast: seq<MetroRow> := [
    MetroRow(2101, 2299, "MA", "Boston Metro", Urban, 3.80, 0.27),
    MetroRow(1701, 1899, "MA", "Worcester/Suburbs", Suburban, 3.75, 0.26),
    MetroRow(6001, 6199, "CT", "Connecticut", Mixed, 3.75, 0.30),
    MetroRow(2801, 2999, "RI", "Providence Metro", Urban, 3.75, 0.28),
    MetroRow(3801, 3999, "NH", "New Hampshire", Mixed, 3.65, 0.23),
    MetroRow(4001, 4999, "ME", "Maine", Mixed, 3.70, 0.16),
    MetroRow(5001, 5999, "VT", "Vermont", Rural, 3.70, 0.17)
  ]

  /** New York (zip_code_utils.py lines 26-32). */
  const NewYork: seq<MetroRow> := [
    MetroRow(10001, 10499, "NY", "Manhattan", Urban, 3.95, 0.26),
    MetroRow(10500, 10999, "NY", "Bronx/Westchester", Urban, 3.90, 0.25),
    MetroRow(11001, 11999, "NY", "Brooklyn/Queens", Urban, 3.90, 0.25),
    MetroRow(12001, 12999, "NY", "Albany/Capital Region", Suburban, 3.75, 0.19),
    MetroRow(13001, 13999, "NY", "Syracuse/Central NY", Suburban, 3.70, 0.18),
    MetroRow(14001, 14999, "NY", "Buffalo/Western NY", Suburban, 3.70, 0.17)
  ]

  /** New Jersey (zip_code_utils.py lines 34-36). */
  const NewJersey: seq<MetroRow> := [
    MetroRow(7001, 7999, "NJ", "Northern NJ Metro", Urban, 3.70, 0.20),
    MetroRow(8001, 8999, "NJ", "Central/Southern NJ", Suburban, 3.65, 0.19)
  ]

  /** Pennsylvania (zip_code_utils.py lines 38-42). */
  const Pennsylvania: seq<MetroRow> := [
    MetroRow(15001, 15999, "PA", "Pittsburgh Metro", Urban, 3.65, 0.15),
    MetroRow(16001, 17999, "PA", "Central PA", Suburban, 3.60, 0.14),
    MetroRow(18001, 18999, "PA", "Northeast PA", Suburban, 3.60, 0.15),
    MetroRow(19001, 19699, "PA", "Philadelphia Metro", Urban, 3.65, 0.17)
  ]

  /** Delaware, Washington DC and Maryland (zip_code_utils.py lines 44-47). */
  const DelawareMaryland: seq<MetroRow> := [
    MetroRow(19700, 19999, "DE", "Delaware", Suburban, 3.45, 0.14),
    MetroRow(20001, 20599, "DC", "Washington DC", Urban, 3.60, 0.16),
    MetroRow(20600, 21999, "MD", "Maryland Metro", Suburban, 3.55, 0.18)
  ]

  /** Virginia (zip_code_utils.py lines 49-51). */
  const Virginia: seq<MetroRow> := [
    MetroRow(22001, 22999, "VA", "Northern Virginia", Suburban, 3.50, 0.14),
    MetroRow(23001, 24699, "VA", "Central/Coastal VA", Suburban, 3.45, 0.13)
  ]

  /** West Virginia (zip_code_utils.py lines 53-54). */
  const WestVirginia: seq<MetroRow> := [
    MetroRow(24700, 26999, "WV", "West Virginia", Rural, 3.40, 0.12)
  ]

  /** Midwest: Ohio, Michigan, Illinois (zip_code_utils.py lines 56-63). */
  const MidwestEast: seq<MetroRow> := [
    MetroRow(43001, 43999, "OH", "Columbus Metro", Urban, 3.40, 0.15),
    MetroRow(44001, 44999, "OH", "Cleveland Metro", Urban, 3.45, 0.16),
    MetroRow(45001, 45999, "OH", "Cincinnati/Dayton", Urban, 3.40, 0.15),
    MetroRow(48001, 48999, "MI", "Detroit Metro", Urban, 3.50, 0.17),
    MetroRow(49001, 49999, "MI", "West/North Michigan", Suburban, 3.45, 0.16),
    MetroRow(60001, 60699, "IL", "Chicago Metro", Urban, 3.60, 0.16),
    MetroRow(61001, 62999, "IL", "Central/Southern IL", Suburban, 3.50, 0.14)
  ]

  /** Midwest: Indiana, Wisconsin, Minnesota, Iowa (zip_code_utils.py lines 64-70). */
  const MidwestNorth: seq<MetroRow> := [
    MetroRow(46001, 46999, "IN", "Indianapolis Metro", Urban, 3.35, 0.14),
    MetroRow(47001, 47999, "IN", "Southern Indiana", Suburban, 3.30, 0.13),
    MetroRow(53001, 53999, "WI", "Milwaukee/Madison", Urban, 3.45, 0.15),
    MetroRow(54001, 54999, "WI", "Northern Wisconsin", Rural, 3.40, 0.14),
    MetroRow(55001, 55999, "MN", "Minneapolis-St Paul", Urban, 3.45, 0.14),
    MetroRow(56001, 56799, "MN", "Southern Minnesota", Rural, 3.40, 0.13),
    MetroRow(50001, 52999, "IA", "Iowa", Mixed, 3.25, 0.12)
  ]

  /** Midwest: Missouri, Kansas, Nebraska, the Dakotas (zip_code_utils.py lines 71-77). */
  const MidwestPlains: seq<MetroRow> := [
    MetroRow(63001, 63999, "MO", "St Louis Metro", Urban, 3.25, 0.13),
    MetroRow(64001, 64999, "MO", "Kansas City Metro", Urban, 3.20, 0.13),
    MetroRow(65001, 65899, "MO", "Central Missouri", Suburban, 3.15, 0.12),
    MetroRow(66001, 67999, "KS", "Kansas", Mixed, 3.15, 0.14),
    MetroRow(68001, 69999, "NE", "Nebraska", Mixed, 3.30, 0.11),
    MetroRow(57001, 57999, "SD", "South Dakota", Rural, 3.35, 0.12),
    MetroRow(58001, 58999, "ND", "North Dakota", Rural, 3.25, 0.11)
  ]

  /** South: Kentucky to South Florida (zip_code_utils.py lines 79-86). */
  const SouthEast: seq<MetroRow> := [
    MetroRow(40001, 42799, "KY", "Kentucky", Mixed, 3.30, 0.11),
    MetroRow(37001, 38599, "TN", "Tennessee", Mixed, 3.20, 0.12),
    MetroRow(27001, 28999, "NC", "North Carolina", Mixed, 3.35, 0.13),
    MetroRow(29001, 29999, "SC", "South Carolina", Mixed, 3.25, 0.14),
    MetroRow(30001, 31999, "GA", "Atlanta Metro", Urban, 3.30, 0.14),
    MetroRow(32001, 32999, "FL", "Central/North Florida", Mixed, 3.40, 0.14),
    MetroRow(33001, 33999, "FL", "South Florida/Miami", Urban, 3.45, 0.15)
  ]

  /** South: Southwest Florida to Oklahoma (zip_code_utils.py lines 87-92). */
  const SouthGulf: seq<MetroRow> := [
    MetroRow(34001, 34999, "FL", "Southwest Florida", Suburban, 3.35, 0.14),
    MetroRow(35001, 36999, "AL", "Alabama", Mixed, 3.20, 0.13),
    MetroRow(38601, 39999, "MS", "Mississippi", Mixed, 3.10, 0.12),
    MetroRow(70001, 71499, "LA", "Louisiana", Mixed, 3.05, 0.11),
    MetroRow(71600, 72999, "AR", "Arkansas", Mixed, 3.10, 0.11),
    MetroRow(73001, 74999, "OK", "Oklahoma", Mixed, 3.15, 0.12)
  ]

  /** Texas (zip_code_utils.py lines 94-99). */
  const Texas: seq<MetroRow> := [
    MetroRow(75001, 75499, "TX", "Dallas-Fort Worth", Urban, 3.25, 0.14),
    MetroRow(76001, 76999, "TX", "Fort Worth/West", Urban, 3.20, 0.13),
    MetroRow(77001, 77599, "TX", "Houston Metro", Urban, 3.20, 0.13),
    MetroRow(78001, 78999, "TX", "Austin/San Antonio", Urban, 3.30, 0.13),
    MetroRow(79001, 79999, "TX", "West Texas", Rural, 3.15, 0.12)
  ]

  /** Mountain West (zip_code_utils.py lines 101-109). */
  const MountainWest: seq<MetroRow> := [
    MetroRow(59001, 59999, "MT", "Montana", Rural, 3.60, 0.12),
    MetroRow(82001, 83199, "WY", "Wyoming", Rural, 3.50, 0.12),
    MetroRow(83200, 83999, "ID", "Idaho", Rural, 3.65, 0.10),
    MetroRow(80001, 81699, "CO", "Colorado", Mixed, 3.50, 0.14),
    MetroRow(87001, 88499, "NM", "New Mexico", Mixed, 3.40, 0.14),
    MetroRow(84001, 84799, "UT", "Utah", Mixed, 3.75, 0.11),
    MetroRow(85001, 86599, "AZ", "Arizona", Mixed, 3.85, 0.14),
    MetroRow(88901, 89999, "NV", "Nevada", Mixed, 4.05, 0.13)
  ]

  /** Pacific Northwest (zip_code_utils.py lines 111-114). */
  const PacificNorthwest: seq<MetroRow> := [
    MetroRow(98001, 99399, "WA", "Western Washington", Mixed, 4.20, 0.10),
    MetroRow(99401, 99499, "WA", "Eastern Washington", Rural, 4.10, 0.09),
    MetroRow(97001, 97999, "OR", "Oregon", Mixed, 4.10, 0.11)
  ]

  /** Alaska (zip_code_utils.py lines 116-117). */
  const Alaska: seq<MetroRow> := [
    MetroRow(99500, 99999, "AK", "Alaska", Rural, 4.15, 0.24)
  ]

  /** California, south (zip_code_utils.py lines 119-125). */
  const CaliforniaSouth: seq<MetroRow> := [
    MetroRow(90001, 90899, "CA", "Los Angeles Metro", Urban, 4.70, 0.28),
    MetroRow(91001, 91899, "CA", "LA Suburbs/Valleys", Suburban, 4.65, 0.27),
    MetroRow(92001, 92199, "CA", "San Diego Metro", Urban, 4.55, 0.38),
    MetroRow(92600, 92899, "CA", "Orange County", Suburban, 4.65, 0.27),
    MetroRow(92200, 92599, "CA", "Inland Empire", Suburban, 4.60, 0.26),
    MetroRow(93500, 93599, "CA", "Inland Empire East", Suburban, 4.55, 0.25)
  ]

  /** California, north (zip_code_utils.py lines 126-131). */
  const CaliforniaNorth: seq<MetroRow> := [
    MetroRow(93001, 93499, "CA", "Central Valley", Suburban, 4.50, 0.24),
    MetroRow(94001, 94999, "CA", "San Francisco/Peninsula", Urban, 4.85, 0.32),
    MetroRow(95001, 95199, "CA", "San Jose/Silicon Valley", Urban, 4.75, 0.30),
    MetroRow(94500, 94799, "CA", "East Bay", Suburban, 4.70, 0.30),
    MetroRow(95200, 95999, "CA", "Sacramento/North CA", Suburban, 4.60, 0.28),
    MetroRow(96001, 96199, "CA", "Northern CA", Rural, 4.55, 0.27)
  ]

  /** Hawaii (zip_code_utils.py lines 133-134). */
  const Hawaii: seq<MetroRow> := [
    MetroRow(96701, 96899, "HI", "Hawaii", Mixed, 4.95, 0.42)
  ]

  /** METRO_AREA_RATES: the groups above, in source order (89 rows). */
  const MetroAreaRates: seq<MetroRow> :=
    Northeast + NewYork + NewJersey + Pennsylvania + DelawareMaryland + Virginia + WestVirginia
    + MidwestEast + MidwestNorth + MidwestPlains + SouthEast + SouthGulf + Texas + MountainWest
    + PacificNorthwest + Alaska + CaliforniaSouth + CaliforniaNorth + Hawaii

  /** Index of the 'San Francisco/Peninsula' row (line 127) and of the 'East Bay' row (line 129). */
  const PeninsulaRow: nat := 83
  const EastBayRow: nat := 85

  // ---------------------------------------------------------------------
  // STATE_FUEL_PRICES (lines 138-147) and STATE_ELECTRICITY_RATES
  // (lines 150-159): dicts, kept as association lists in source order,
  // one constant per source line.
  // ---------------------------------------------------------------------

  const FuelAlToCt: seq<(string, real)> := [("AL", 3.20), ("AK", 4.15), ("AZ", 3.85), ("AR", 3.10), ("CA", 4.65), ("CO", 3.50), ("CT", 3.75)]
  const FuelDeToIn: seq<(string, real)> := [("DE", 3.45), ("FL", 3.40), ("GA", 3.30), ("HI", 4.95), ("ID", 3.65), ("IL", 3.60), ("IN", 3.35)]
  const FuelIaToMa: seq<(string, real)> := [("IA", 3.25), ("KS", 3.15), ("KY", 3.30), ("LA", 3.05), ("ME", 3.70), ("MD", 3.55), ("MA", 3.80)]
  const FuelMiToNv: seq<(string, real)> := [("MI", 3.50), ("MN", 3.45), ("MS", 3.10), ("MO", 3.20), ("MT", 3.60), ("NE", 3.30), ("NV", 4.05)]
  const FuelNhToOh: seq<(string, real)> := [("NH", 3.65), ("NJ", 3.70), ("NM", 3.40), ("NY", 3.90), ("NC", 3.35), ("ND", 3.25), ("OH", 3.40)]
  const FuelOkToTn: seq<(string, real)> := [("OK", 3.15), ("OR", 4.10), ("PA", 3.65), ("RI", 3.75), ("SC", 3.25), ("SD", 3.35), ("TN", 3.20)]
  const FuelTxToWi: seq<(string, real)> := [("TX", 3.25), ("UT", 3.75), ("VT", 3.70), ("VA", 3.45), ("WA", 4.20), ("WV", 3.40), ("WI", 3.45)]
  const FuelWyToDc: seq<(string, real)> := [("WY", 3.50), ("DC", 3.60)]

  const StateFuelPrices: seq<(string, real)> :=
    FuelAlToCt + FuelDeToIn + FuelIaToMa + FuelMiToNv + FuelNhToOh + FuelOkToTn + FuelTxToWi + FuelWyToDc

  const ElectricityAlToCt: seq<(string, real)> := [("AL", 0.13), ("AK", 0.24), ("AZ", 0.14), ("AR", 0.11), ("CA", 0.33), ("CO", 0.14), ("CT", 0.30)]
  const ElectricityDeToIn: seq<(string, real)> := [("DE", 0.14), ("FL", 0.14), ("GA", 0.14), ("HI", 0.42), ("ID", 0.10), ("IL", 0.16), ("IN", 0.14)]
  const ElectricityIaToMa: seq<(string, real)> := [("IA", 0.12), ("KS", 0.14), ("KY", 0.11), ("LA", 0.11), ("ME", 0.16), ("MD", 0.18), ("MA", 0.27)]
  const ElectricityMiToNv: seq<(string, real)> := [("MI", 0.17), ("MN", 0.14), ("MS", 0.12), ("MO", 0.13), ("MT", 0.12), ("NE", 0.11), ("NV", 0.13)]
  const ElectricityNhToOh: seq<(string, real)> := [("NH", 0.23), ("NJ", 0.20), ("NM", 0.14), ("NY", 0.20), ("NC", 0.13), ("ND", 0.11), ("OH", 0.15)]
  const ElectricityOkToTn: seq<(string, real)> := [("OK", 0.12), ("OR", 0.11), ("PA", 0.17), ("RI", 0.28), ("SC", 0.14), ("SD", 0.12), ("TN", 0.12)]
  const ElectricityTxToWi: seq<(string, real)> := [("TX", 0.13), ("UT", 0.11), ("VT", 0.17), ("VA", 0.13), ("WA", 0.10), ("WV", 0.12), ("WI", 0.15)]
  const ElectricityWyToDc: seq<(string, real)> := [("WY", 0.12), ("DC", 0.16)]

  const StateElectricityRates: seq<(string, real)> :=
    ElectricityAlToCt + ElectricityDeToIn + ElectricityIaToMa + ElectricityMiToNv + ElectricityNhToOh
    + ElectricityOkToTn + ElectricityTxToWi + ElectricityWyToDc

  // ---------------------------------------------------------------------
  // ZIP_CODE_RANGES (lines 162-214): a dict from state to ranges, kept as a
  // list of entries in dict (insertion) order, eight entries per constant.
  // ---------------------------------------------------------------------

  const RangesAlToDe: seq<StateRanges> := [
    ("AL", [ZipRange(35000, 36999)]),
    ("AK", [ZipRange(99500, 99999)]),
    ("AZ", [ZipRange(85000, 86599)]),
    ("AR", [ZipRange(71600, 72999), ZipRange(75502, 75502)]),
    ("CA", [ZipRange(90000, 96199)]),
    ("CO", [ZipRange(80000, 81699)]),
    ("CT", [ZipRange(6000, 6999)]),
    ("DE", [ZipRange(19700, 19999)])
  ]

  const RangesDcToIa: seq<StateRanges> := [
    ("DC", [ZipRange(20000, 20599)]),
    ("FL", [ZipRange(32000, 34999)]),
    ("GA", [ZipRange(30000, 31999), ZipRange(39800, 39999)]),
    ("HI", [ZipRange(96700, 96899)]),
    ("ID", [ZipRange(83200, 83999)]),
    ("IL", [ZipRange(60000, 62999)]),
    ("IN", [ZipRange(46000, 47999)]),
    ("IA", [ZipRange(50000, 52999)])
  ]

  const RangesKsToMn: seq<StateRanges> := [
    ("KS", [ZipRange(66000, 67999)]),
    ("KY", [ZipRange(40000, 42799)]),
    ("LA", [ZipRange(70000, 71499)]),
    ("ME", [ZipRange(3900, 4999)]),
    ("MD", [ZipRange(20600, 21999)]),
    ("MA", [ZipRange(1000, 2799), ZipRange(5501, 5599)]),
    ("MI", [ZipRange(48000, 49999)]),
    ("MN", [ZipRange(55000, 56799)])
  ]

  const RangesMsToNm: seq<StateRanges> := [
    ("MS", [ZipRange(38600, 39999)]),
    ("MO", [ZipRange(63000, 65899)]),
    ("MT", [ZipRange(59000, 59999)]),
    ("NE", [ZipRange(68000, 69999)]),
    ("NV", [ZipRange(88900, 89999)]),
    ("NH", [ZipRange(3000, 3899)]),
    ("NJ", [ZipRange(7000, 8999)]),
    ("NM", [ZipRange(87000, 88499)])
  ]

  const RangesNyToRi: seq<StateRanges> := [
    ("NY", [ZipRange(10000, 14999), ZipRange(6390, 6390)]),
    ("NC", [ZipRange(27000, 28999)]),
    ("ND", [ZipRange(58000, 58999)]),
    ("OH", [ZipRange(43000, 45999)]),
    ("OK", [ZipRange(73000, 74999)]),
    ("OR", [ZipRange(97000, 97999)]),
    ("PA", [ZipRange(15000, 19699)]),
    ("RI", [ZipRange(2800, 2999)])
  ]

  const RangesScToWa: seq<StateRanges> := [
    ("SC", [ZipRange(29000, 29999)]),
    ("SD", [ZipRange(57000, 57999)]),
    ("TN", [ZipRange(37000, 38599)]),
    ("TX", [ZipRange(73301, 73301), ZipRange(75000, 79999), ZipRange(88500, 88599)]),
    ("UT", [ZipRange(84000, 84799)]),
    ("VT", [ZipRange(5000, 5999)]),
    ("VA", [ZipRange(20100, 20199), ZipRange(22000, 24699)]),
    ("WA", [ZipRange(98000, 99499)])
  ]

  const RangesWvToWy: seq<StateRanges> := [
    ("WV", [ZipRange(24700, 26999)]),
    ("WI", [ZipRange(53000, 54999)]),
    ("WY", [ZipRange(82000, 83199)])
  ]

  const ZipCodeRanges: seq<StateRanges> :=
    RangesAlToDe + RangesDcToIa + RangesKsToMn + RangesMsToNm + RangesNyToRi + RangesScToWa + RangesWvToWy

  // ---------------------------------------------------------------------
  // Fallback classification lists of get_geography_type_from_zip
  // ---------------------------------------------------------------------

  /** `urban_zip_ranges` (lines 280-327). */
  const UrbanZipRanges: seq<ZipRange> := [
    ZipRange(10001, 10299), ZipRange(11201, 11299), ZipRange(11101, 11199), ZipRange(90001, 90099), ZipRange(90201, 90299),
    ZipRange(91401, 91499), ZipRange(60601, 60661), ZipRange(60007, 60199), ZipRange(77001, 77099), ZipRange(77201, 77299),
    ZipRange(85001, 85099), ZipRange(85201, 85299), ZipRange(19101, 19199), ZipRange(19201, 19299), ZipRange(78201, 78299),
    ZipRange(92101, 92199), ZipRange(75201, 75299), ZipRange(95101, 95199), ZipRange(94301, 94399), ZipRange(78701, 78799),
    ZipRange(32201, 32299), ZipRange(94102, 94199), ZipRange(43201, 43299), ZipRange(28201, 28299), ZipRange(76101, 76199),
    ZipRange(46201, 46299), ZipRange(98101, 98199), ZipRange(80201, 80299), ZipRange(20001, 20099), ZipRange(2101, 2199),
    ZipRange(2201, 2299), ZipRange(79901, 79999), ZipRange(48201, 48299), ZipRange(37201, 37299), ZipRange(97201, 97299),
    ZipRange(38101, 38199), ZipRange(73101, 73199), ZipRange(89101, 89199), ZipRange(40201, 40299), ZipRange(21201, 21299),
    ZipRange(53201, 53299), ZipRange(87101, 87199), ZipRange(85701, 85799), ZipRange(93701, 93799), ZipRange(95801, 95899),
    ZipRange(64101, 64199), ZipRange(30301, 30399), ZipRange(80901, 80999), ZipRange(68101, 68199), ZipRange(27601, 27699),
    ZipRange(33101, 33199), ZipRange(44101, 44199), ZipRange(74101, 74199), ZipRange(55401, 55499), ZipRange(67201, 67299),
    ZipRange(70112, 70199)
  ]

  /** `rural_zip_patterns` (lines 334-345). */
  const RuralZipRanges: seq<ZipRange> := [
    ZipRange(99501, 99999), ZipRange(59001, 59099), ZipRange(82001, 82999), ZipRange(58001, 58099), ZipRange(57001, 57099),
    ZipRange(89001, 89099), ZipRange(83001, 83199), ZipRange(5001, 5099), ZipRange(4001, 4199), ZipRange(24701, 25999)
  ]
}
