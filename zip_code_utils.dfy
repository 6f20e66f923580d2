/**
 * The ZIP/location resolver (utils/zip_code_utils.py): format validation,
 * first-match lookups in the metro and state tables, geography
 * classification, fuel and electricity estimates, the combined location
 * record and the regional cost multiplier.
 */
module ZipCodeUtils {
  import opened Wrappers
  import opened Text
  import opened ZipTables

  // ---------------------------------------------------------------------
  // validate_zip_code
  // ---------------------------------------------------------------------

  /**
   * `re.match(r'^\d{5}$', s)` with `n` digits still to read: after the
   * digits `$` accepts the end of the text or one final newline.
   */
  predicate MatchesDigitsThenEnd(s: string, n: nat)
    decreases n
  {
    if n == 0 then s == "" || s == "\n"
    else s != "" && IsAsciiDigit(s[0]) && MatchesDigitsThenEnd(s[1..], n - 1)
  }

  /** What the pattern accepts: `n` digits, optionally followed by one newline, and nothing else. */
  lemma {:induction false} MatchesDigitsThenEndMeaning(s: string, n: nat)
    ensures MatchesDigitsThenEnd(s, n) <==>
      (|s| == n || (|s| == n + 1 && s[n] == '\n')) && forall i :: 0 <= i < n ==> IsAsciiDigit(s[i])
    decreases n
  {
    if n > 0 && s != [] {
      var t := s[1..];
      MatchesDigitsThenEndMeaning(t, n - 1);
      assert (forall i :: 0 <= i < n - 1 && i < |t| ==> IsAsciiDigit(t[i]))
             <==> (forall i :: 1 <= i < n && i < |s| ==> IsAsciiDigit(s[i])) by {
        assert forall i :: 0 <= i < |t| ==> t[i] == s[i + 1];
      }
    }
  }

  /** validate_zip_code: the empty text is rejected, otherwise the five-digit pattern decides. */
  function ValidateZipCode(zip: string): (ok: bool)
    ensures ok <==> (|zip| == 5 || (|zip| == 6 && zip[5] == '\n'))
                    && forall i :: 0 <= i < 5 ==> IsAsciiDigit(zip[i])
  {
    MatchesDigitsThenEndMeaning(zip, 5);
    if zip == "" then false else MatchesDigitsThenEnd(zip, 5)
  }

  function DigitValue(c: char): int
    requires IsAsciiDigit(c)
  {
    c as int - '0' as int
  }

  function DigitChar(d: int): (c: char)
    requires 0 <= d <= 9
    ensures IsAsciiDigit(c) && DigitValue(c) == d
  {
    ('0' as int + d) as char
  }

  /** `int(zip_code)` on a validated ZIP (Python's `int` ignores the trailing newline). */
  function ZipToInt(zip: string): (n: int)
    requires ValidateZipCode(zip)
    ensures 0 <= n <= 99999
  {
    10000 * DigitValue(zip[0]) + 1000 * DigitValue(zip[1]) + 100 * DigitValue(zip[2])
      + 10 * DigitValue(zip[3]) + DigitValue(zip[4])
  }

  /** `f"{n:05d}"` for a ZIP number: its five decimal digits, most significant first. */
  function FormatZip(n: int): (zip: string)
    requires 0 <= n <= 99999
    ensures |zip| == 5
  {
    var q1 := n / 10;
    var q2 := q1 / 10;
    var q3 := q2 / 10;
    [DigitChar(q3 / 10), DigitChar(q3 % 10), DigitChar(q2 % 10), DigitChar(q1 % 10), DigitChar(n % 10)]
  }

  /** A formatted ZIP number is a valid ZIP that denotes that number. */
  lemma FormatZipValid(n: int)
    requires 0 <= n <= 99999
    ensures ValidateZipCode(FormatZip(n)) && ZipToInt(FormatZip(n)) == n
  {
  }

  /** Formatting the number a valid ZIP denotes gives back its five digits. */
  lemma ZipRoundTrip(zip: string)
    requires ValidateZipCode(zip)
    ensures FormatZip(ZipToInt(zip)) == zip[..5]
  {
    var n := ZipToInt(zip);
    var q1 := 1000 * DigitValue(zip[0]) + 100 * DigitValue(zip[1]) + 10 * DigitValue(zip[2]) + DigitValue(zip[3]);
    var q2 := 100 * DigitValue(zip[0]) + 10 * DigitValue(zip[1]) + DigitValue(zip[2]);
    var q3 := 10 * DigitValue(zip[0]) + DigitValue(zip[1]);
    assert n / 10 == q1 && n % 10 == DigitValue(zip[4]);
    assert q1 / 10 == q2 && q1 % 10 == DigitValue(zip[3]);
    assert q2 / 10 == q3 && q2 % 10 == DigitValue(zip[2]);
    assert q3 / 10 == DigitValue(zip[0]) && q3 % 10 == DigitValue(zip[1]);
    var d := FormatZip(n);
    assert forall i :: 0 <= i < 5 ==> d[i] == zip[i];
  }

  // ---------------------------------------------------------------------
  // lookup_zip_code_data
  // ---------------------------------------------------------------------

  predicate InMetroRow(row: MetroRow, z: int)
  {
    row.zipStart <= z <= row.zipEnd
  }

  /** Row `k` is the first row of `rows` whose range holds `z`. */
  predicate IsFirstMetroRow(rows: seq<MetroRow>, z: int, k: nat)
  {
    k < |rows| && InMetroRow(rows[k], z) && forall j :: 0 <= j < k ==> !InMetroRow(rows[j], z)
  }

  /** The `for ... in METRO_AREA_RATES` loop from row `i` on: the first row whose range holds `z`. */
  function MetroScan(rows: seq<MetroRow>, z: int, i: nat): (k: Option<nat>)
    requires i <= |rows|
    decreases |rows| - i
    ensures k.Some? ==> i <= k.value < |rows| && InMetroRow(rows[k.value], z)
                        && forall j :: i <= j < k.value ==> !InMetroRow(rows[j], z)
    ensures k.None? ==> forall j :: i <= j < |rows| ==> !InMetroRow(rows[j], z)
  {
    if i == |rows| then None
    else if InMetroRow(rows[i], z) then Some(i)
    else MetroScan(rows, z, i + 1)
  }

  /** The metro row a ZIP resolves to: the first one that holds it, none for an invalid ZIP. */
  function MetroIndex(zip: string): (k: Option<nat>)
    ensures k.Some? ==> ValidateZipCode(zip) && IsFirstMetroRow(MetroAreaRates, ZipToInt(zip), k.value)
    ensures k.None? ==> !ValidateZipCode(zip)
                        || forall j :: 0 <= j < |MetroAreaRates| ==> !InMetroRow(MetroAreaRates[j], ZipToInt(zip))
  {
    if !ValidateZipCode(zip) then None else MetroScan(MetroAreaRates, ZipToInt(zip), 0)
  }

  /** The dict lookup_zip_code_data returns; the geography is the row's raw label. */
  datatype ZipData = ZipData(
    state: string,
    metroArea: string,
    geographyType: Geography,
    fuelPrice: real,
    electricityRate: real)

  function RowData(row: MetroRow): ZipData
  {
    ZipData(row.state, row.metroName, row.geography, row.fuelPrice, row.electricityRate)
  }

  /** The loop of lookup_zip_code_data over `rows`: the data of the first row holding `z`. */
  function MetroDataAt(rows: seq<MetroRow>, z: int): (r: Option<ZipData>)
    ensures r.Some? <==> exists j :: 0 <= j < |rows| && InMetroRow(rows[j], z)
    ensures r.Some? ==> exists k: nat :: IsFirstMetroRow(rows, z, k) && r.value == RowData(rows[k])
  {
    match MetroScan(rows, z, 0)
    case None => None
    case Some(k) => Some(RowData(rows[k]))
  }

  /** lookup_zip_code_data: the data of the first metro row holding the ZIP, if any. */
  function LookupZipCodeData(zip: string): (r: Option<ZipData>)
    ensures r.Some? <==> ValidateZipCode(zip)
                         && exists j :: 0 <= j < |MetroAreaRates| && InMetroRow(MetroAreaRates[j], ZipToInt(zip))
    ensures r.Some? ==> exists k: nat :: IsFirstMetroRow(MetroAreaRates, ZipToInt(zip), k)
                                    && r.value == RowData(MetroAreaRates[k])
  {
    if !ValidateZipCode(zip) then None else MetroDataAt(MetroAreaRates, ZipToInt(zip))
  }

  /** Two first matches are the same row. */
  lemma FirstMetroRowUnique(rows: seq<MetroRow>, z: int, k: nat, m: nat)
    requires IsFirstMetroRow(rows, z, k) && IsFirstMetroRow(rows, z, m)
    ensures k == m
  {
  }

  /** No row of `rows[i..]` shares a ZIP number with `lo..hi`, checked row by row. */
  predicate RowsMissRec(rows: seq<MetroRow>, lo: int, hi: int, i: nat)
    requires i <= |rows|
    decreases |rows| - i
  {
    i == |rows| || ((rows[i].zipEnd < lo || hi < rows[i].zipStart) && RowsMissRec(rows, lo, hi, i + 1))
  }

  predicate RowsMiss(rows: seq<MetroRow>, lo: int, hi: int)
  {
    forall j :: 0 <= j < |rows| ==> rows[j].zipEnd < lo || hi < rows[j].zipStart
  }

  lemma {:induction false} RowsMissFromRec(rows: seq<MetroRow>, lo: int, hi: int, i: nat)
    requires i <= |rows| && RowsMissRec(rows, lo, hi, i)
    ensures forall j :: i <= j < |rows| ==> rows[j].zipEnd < lo || hi < rows[j].zipStart
    decreases |rows| - i
  {
    if i < |rows| {
      RowsMissFromRec(rows, lo, hi, i + 1);
    }
  }

  lemma RowsMissGroup(rows: seq<MetroRow>, lo: int, hi: int)
    requires RowsMissRec(rows, lo, hi, 0)
    ensures RowsMiss(rows, lo, hi)
  {
    RowsMissFromRec(rows, lo, hi, 0);
  }

  lemma RowsMissAppend(a: seq<MetroRow>, b: seq<MetroRow>, lo: int, hi: int)
    requires RowsMiss(a, lo, hi) && RowsMiss(b, lo, hi)
    ensures RowsMiss(a + b, lo, hi)
  {
  }

  /** The first 83 metro rows, those before the Peninsula row, share no ZIP number with the East Bay range. */
  lemma RowsBeforePeninsulaMissEastBay()
    ensures RowsMiss(MetroAreaRates[..PeninsulaRow], 94500, 94799)
  {
    var lo, hi := 94500, 94799;
    var east := Northeast + NewYork + NewJersey + Pennsylvania + DelawareMaryland + Virginia + WestVirginia;
    var central := MidwestEast + MidwestNorth + MidwestPlains + SouthEast + SouthGulf + Texas;
    var west := MountainWest + PacificNorthwest + Alaska + CaliforniaSouth;
    EasternRowsMissEastBay(lo, hi);
    CentralRowsMissEastBay(lo, hi);
    WesternRowsMissEastBay(lo, hi);
    RowsMissAppend(east, central, lo, hi);
    RowsMissAppend(east + central, west + CaliforniaNorth[..1], lo, hi);
    assert MetroAreaRates[..PeninsulaRow] == east + central + (west + CaliforniaNorth[..1]);
  }

  lemma EasternRowsMissEastBay(lo: int, hi: int)
    requires lo == 94500 && hi == 94799
    ensures RowsMiss(Northeast + NewYork + NewJersey + Pennsylvania + DelawareMaryland + Virginia + WestVirginia, lo, hi)
  {
    RowsMissGroup(Northeast, lo, hi);
    RowsMissGroup(NewYork, lo, hi);
    RowsMissGroup(NewJersey, lo, hi);
    RowsMissGroup(Pennsylvania, lo, hi);
    RowsMissGroup(DelawareMaryland, lo, hi);
    RowsMissGroup(Virginia, lo, hi);
    RowsMissGroup(WestVirginia, lo, hi);
    var p := Northeast;
    RowsMissAppend(p, NewYork, lo, hi);
    p := p + NewYork;
    RowsMissAppend(p, NewJersey, lo, hi);
    p := p + NewJersey;
    RowsMissAppend(p, Pennsylvania, lo, hi);
    p := p + Pennsylvania;
    RowsMissAppend(p, DelawareMaryland, lo, hi);
    p := p + DelawareMaryland;
    RowsMissAppend(p, Virginia, lo, hi);
    p := p + Virginia;
    RowsMissAppend(p, WestVirginia, lo, hi);
    p := p + WestVirginia;
  }

  lemma CentralRowsMissEastBay(lo: int, hi: int)
    requires lo == 94500 && hi == 94799
    ensures RowsMiss(MidwestEast + MidwestNorth + MidwestPlains + SouthEast + SouthGulf + Texas, lo, hi)
  {
    RowsMissGroup(MidwestEast, lo, hi);
    RowsMissGroup(MidwestNorth, lo, hi);
    RowsMissGroup(MidwestPlains, lo, hi);
    RowsMissGroup(SouthEast, lo, hi);
    RowsMissGroup(SouthGulf, lo, hi);
    RowsMissGroup(Texas, lo, hi);
    var p := MidwestEast;
    RowsMissAppend(p, MidwestNorth, lo, hi);
    p := p + MidwestNorth;
    RowsMissAppend(p, MidwestPlains, lo, hi);
    p := p + MidwestPlains;
    RowsMissAppend(p, SouthEast, lo, hi);
    p := p + SouthEast;
    RowsMissAppend(p, SouthGulf, lo, hi);
    p := p + SouthGulf;
    RowsMissAppend(p, Texas, lo, hi);
    p := p + Texas;
  }

  lemma WesternRowsMissEastBay(lo: int, hi: int)
    requires lo == 94500 && hi == 94799
    ensures RowsMiss(MountainWest + PacificNorthwest + Alaska + CaliforniaSouth + CaliforniaNorth[..1], lo, hi)
  {
    RowsMissGroup(MountainWest, lo, hi);
    RowsMissGroup(PacificNorthwest, lo, hi);
    RowsMissGroup(Alaska, lo, hi);
    RowsMissGroup(CaliforniaSouth, lo, hi);
    var p := MountainWest;
    RowsMissAppend(p, PacificNorthwest, lo, hi);
    p := p + PacificNorthwest;
    RowsMissAppend(p, Alaska, lo, hi);
    p := p + Alaska;
    RowsMissAppend(p, CaliforniaSouth, lo, hi);
    p := p + CaliforniaSouth;
    RowsMissAppend(p, CaliforniaNorth[..1], lo, hi);
  }

  /**
   * The 'East Bay' row (line 129) can never be chosen: its whole range lies
   * inside the earlier 'San Francisco/Peninsula' row (line 127), which is
   * the row every East Bay ZIP resolves to.
   */
  lemma EastBayRowShadowed(zip: string)
    ensures MetroIndex(zip) != Some(EastBayRow)
    ensures ValidateZipCode(zip) && InMetroRow(MetroAreaRates[EastBayRow], ZipToInt(zip)) ==>
              MetroIndex(zip) == Some(PeninsulaRow)
              && LookupZipCodeData(zip).value.metroArea == "San Francisco/Peninsula"
              && LookupZipCodeData(zip).value.geographyType == Urban
  {
    assert MetroAreaRates[PeninsulaRow] == MetroRow(94001, 94999, "CA", "San Francisco/Peninsula", Urban, 4.85, 0.32);
    assert MetroAreaRates[EastBayRow] == MetroRow(94500, 94799, "CA", "East Bay", Suburban, 4.70, 0.30);
    if ValidateZipCode(zip) && InMetroRow(MetroAreaRates[EastBayRow], ZipToInt(zip)) {
      RowsBeforePeninsulaMissEastBay();
      forall j | 0 <= j < PeninsulaRow
        ensures !InMetroRow(MetroAreaRates[j], ZipToInt(zip))
      {
        assert MetroAreaRates[j] == MetroAreaRates[..PeninsulaRow][j];
      }
      assert IsFirstMetroRow(MetroAreaRates, ZipToInt(zip), PeninsulaRow);
      FirstMetroRowUnique(MetroAreaRates, ZipToInt(zip), PeninsulaRow, MetroIndex(zip).value);
    }
  }

  // ---------------------------------------------------------------------
  // determine_state_from_zip
  // ---------------------------------------------------------------------

  predicate InRange(r: ZipRange, z: int)
  {
    r.lo <= z <= r.hi
  }

  /** The inner `for start, end in ranges` loop: some range of the list holds `z`. */
  predicate RangesContain(ranges: seq<ZipRange>, z: int)
    ensures RangesContain(ranges, z) <==> exists j :: 0 <= j < |ranges| && InRange(ranges[j], z)
  {
    if ranges == [] then false
    else
      assert forall j :: 1 <= j < |ranges| ==> ranges[j] == ranges[1..][j - 1];
      InRange(ranges[0], z) || RangesContain(ranges[1..], z)
  }

  /** Entry `k` is the first entry of `table` with a range holding `z`. */
  predicate IsFirstStateEntry(table: seq<StateRanges>, z: int, k: nat)
  {
    k < |table| && RangesContain(table[k].1, z) && forall j :: 0 <= j < k ==> !RangesContain(table[j].1, z)
  }

  /** The outer `for state, ranges in ZIP_CODE_RANGES.items()` loop from entry `i` on. */
  function StateScan(table: seq<StateRanges>, z: int, i: nat): (k: Option<nat>)
    requires i <= |table|
    decreases |table| - i
    ensures k.Some? ==> i <= k.value < |table| && RangesContain(table[k.value].1, z)
                        && forall j :: i <= j < k.value ==> !RangesContain(table[j].1, z)
    ensures k.None? ==> forall j :: i <= j < |table| ==> !RangesContain(table[j].1, z)
  {
    if i == |table| then None
    else if RangesContain(table[i].1, z) then Some(i)
    else StateScan(table, z, i + 1)
  }

  /** determine_state_from_zip: the state of the first dict entry whose ranges hold the ZIP. */
  function DetermineStateFromZip(zip: string): (r: Option<string>)
    ensures r.Some? <==> ValidateZipCode(zip)
                         && exists j :: 0 <= j < |ZipCodeRanges| && RangesContain(ZipCodeRanges[j].1, ZipToInt(zip))
    ensures r.Some? ==> exists k: nat :: IsFirstStateEntry(ZipCodeRanges, ZipToInt(zip), k)
                                         && r.value == ZipCodeRanges[k].0
  {
    if !ValidateZipCode(zip) then None
    else match StateScan(ZipCodeRanges, ZipToInt(zip), 0)
      case None => None
      case Some(k) => Some(ZipCodeRanges[k].0)
  }

  /** get_state_from_zip is an alias of determine_state_from_zip. */
  function GetStateFromZip(zip: string): (r: Option<string>)
    ensures r == DetermineStateFromZip(zip)
  {
    DetermineStateFromZip(zip)
  }

  /** The first `n` entries of `table`, from entry `i` on, hold no range containing `z`. */
  predicate EntriesMissRec(table: seq<StateRanges>, z: int, i: nat, n: nat)
    requires i <= n <= |table|
    decreases n - i
  {
    i == n || (!RangesContain(table[i].1, z) && EntriesMissRec(table, z, i + 1, n))
  }

  predicate EntriesMiss(table: seq<StateRanges>, z: int, n: nat)
  {
    n <= |table| && forall j :: 0 <= j < n ==> !RangesContain(table[j].1, z)
  }

  lemma {:induction false} EntriesMissFromRec(table: seq<StateRanges>, z: int, i: nat, n: nat)
    requires i <= n <= |table| && EntriesMissRec(table, z, i, n)
    ensures forall j :: i <= j < n ==> !RangesContain(table[j].1, z)
    decreases n - i
  {
    if i < n {
      EntriesMissFromRec(table, z, i + 1, n);
    }
  }

  lemma EntriesMissGroup(table: seq<StateRanges>, z: int, n: nat)
    requires n <= |table| && EntriesMissRec(table, z, 0, n)
    ensures EntriesMiss(table, z, n)
  {
    EntriesMissFromRec(table, z, 0, n);
  }

  lemma EntriesMissAppend(a: seq<StateRanges>, b: seq<StateRanges>, z: int, n: nat)
    requires EntriesMiss(a, z, |a|) && EntriesMiss(b, z, n)
    ensures EntriesMiss(a + b, z, |a| + n)
  {
  }

  /** A first match found by other means is the one the scan returns. */
  lemma StateScanFinds(zip: string, k: nat)
    requires ValidateZipCode(zip)
    requires IsFirstStateEntry(ZipCodeRanges, ZipToInt(zip), k)
    ensures DetermineStateFromZip(zip) == Some(ZipCodeRanges[k].0)
  {
  }

  /**
   * Overlapping state ranges are settled by dict order.  ZIP 06390 is
   * listed for both Connecticut and New York and resolves to Connecticut.
   */
  lemma ConnecticutShadowsNewYork()
    ensures RangesContain(ZipCodeRanges[32].1, 6390) && ZipCodeRanges[32].0 == "NY"
    ensures DetermineStateFromZip("06390") == Some("CT")
  {
    assert ZipToInt("06390") == 6390;
    EntriesMissGroup(RangesAlToDe, 6390, 6);
    assert ZipCodeRanges[6] == RangesAlToDe[6];
    assert EntriesMiss(ZipCodeRanges, 6390, 6);
    StateScanFinds("06390", 6);
  }

  /** ZIP 20150 is listed for both DC and Virginia and resolves to DC. */
  lemma DistrictShadowsVirginia()
    ensures RangesContain(ZipCodeRanges[46].1, 20150) && ZipCodeRanges[46].0 == "VA"
    ensures DetermineStateFromZip("20150") == Some("DC")
  {
    assert ZipToInt("20150") == 20150;
    EntriesMissGroup(RangesAlToDe, 20150, 8);
    assert ZipCodeRanges[8] == RangesDcToIa[0];
    assert EntriesMiss(ZipCodeRanges, 20150, 8);
    StateScanFinds("20150", 8);
  }

  /** ZIP 73301 is listed for both Oklahoma and Texas and resolves to Oklahoma. */
  lemma OklahomaShadowsTexas()
    ensures RangesContain(ZipCodeRanges[43].1, 73301) && ZipCodeRanges[43].0 == "TX"
    ensures DetermineStateFromZip("73301") == Some("OK")
  {
    assert ZipToInt("73301") == 73301;
    TexasAndOklahomaEntries();
    EntriesBeforeOklahomaMiss(73301);
    StateScanFinds("73301", 36);
  }

  /** Oklahoma is entry 36 of the dict and Texas entry 43. */
  lemma TexasAndOklahomaEntries()
    ensures ZipCodeRanges[36] == RangesNyToRi[4]
    ensures ZipCodeRanges[43] == RangesScToWa[3]
  {
    var p := RangesAlToDe + RangesDcToIa + RangesKsToMn + RangesMsToNm + RangesNyToRi;
    assert |p| == 40;
    assert ZipCodeRanges == p + (RangesScToWa + RangesWvToWy);
  }

  /** The 36 entries before Oklahoma's do not contain 73301. */
  lemma EntriesBeforeOklahomaMiss(z: int)
    requires z == 73301
    ensures EntriesMiss(ZipCodeRanges, z, 36)
  {
    FirstChunksMissAustin();
    LaterChunksMissAustin();
    NewYorkToOhioMissAustin();
    var p := RangesAlToDe;
    EntriesMissAppend(p, RangesDcToIa, z, 8);
    p := p + RangesDcToIa;
    EntriesMissAppend(p, RangesKsToMn, z, 8);
    p := p + RangesKsToMn;
    EntriesMissAppend(p, RangesMsToNm, z, 8);
    p := p + RangesMsToNm;
    EntriesMissAppend(p, RangesNyToRi, z, 4);
    EntriesMissPrefix(p + RangesNyToRi, RangesScToWa + RangesWvToWy, z, 36);
    assert ZipCodeRanges == p + RangesNyToRi + (RangesScToWa + RangesWvToWy);
  }

  lemma FirstChunksMissAustin()
    ensures EntriesMiss(RangesAlToDe, 73301, 8) && EntriesMiss(RangesDcToIa, 73301, 8)
  {
    EntriesMissGroup(RangesAlToDe, 73301, 8);
    EntriesMissGroup(RangesDcToIa, 73301, 8);
  }

  lemma LaterChunksMissAustin()
    ensures EntriesMiss(RangesKsToMn, 73301, 8) && EntriesMiss(RangesMsToNm, 73301, 8)
  {
    EntriesMissGroup(RangesKsToMn, 73301, 8);
    EntriesMissGroup(RangesMsToNm, 73301, 8);
  }

  lemma NewYorkToOhioMissAustin()
    ensures EntriesMiss(RangesNyToRi, 73301, 4)
  {
    EntriesMissGroup(RangesNyToRi, 73301, 4);
  }

  lemma EntriesMissPrefix(a: seq<StateRanges>, b: seq<StateRanges>, z: int, n: nat)
    requires EntriesMiss(a, z, n)
    ensures EntriesMiss(a + b, z, n)
  {
  }

  // ---------------------------------------------------------------------
  // get_geography_type_from_zip
  // ---------------------------------------------------------------------

  /** The label callers are given for a metro row: 'Mixed' is reported as 'Suburban'. */
  function ReportedGeography(g: Geography): (name: string)
    ensures name == "Urban" || name == "Suburban" || name == "Rural"
    ensures g != Mixed ==> name == GeographyName(g)
  {
    if g == Mixed then "Suburban" else GeographyName(g)
  }

  /**
   * get_geography_type_from_zip: 'Suburban' for an invalid ZIP; the metro
   * row's label when there is one; otherwise 'Urban' inside an urban range,
   * 'Rural' inside a rural range, and 'Suburban' for the rest.
   */
  function GetGeographyTypeFromZip(zip: string): (g: string)
    ensures g == "Urban" || g == "Suburban" || g == "Rural"
    ensures !ValidateZipCode(zip) ==> g == "Suburban"
    ensures LookupZipCodeData(zip).Some? ==> g == ReportedGeography(LookupZipCodeData(zip).value.geographyType)
    ensures ValidateZipCode(zip) && LookupZipCodeData(zip).None? ==>
              (g == "Urban" <==> RangesContain(UrbanZipRanges, ZipToInt(zip)))
              && (g == "Rural" <==> !RangesContain(UrbanZipRanges, ZipToInt(zip))
                                    && RangesContain(RuralZipRanges, ZipToInt(zip)))
  {
    if !ValidateZipCode(zip) then "Suburban"
    else match LookupZipCodeData(zip)
      case Some(data) => ReportedGeography(data.geographyType)
      case None =>
        var z := ZipToInt(zip);
        if RangesContain(UrbanZipRanges, z) then "Urban"
        else if RangesContain(RuralZipRanges, z) then "Rural"
        else "Suburban"
  }

  // ---------------------------------------------------------------------
  // get_fuel_price_estimate, get_electricity_rate_estimate
  // ---------------------------------------------------------------------

  /** `table[key]` for a dict kept as its list of entries. */
  function TableGet(table: seq<(string, real)>, key: string): (r: Option<real>)
    ensures r.Some? <==> exists i :: 0 <= i < |table| && table[i].0 == key
    ensures r.Some? ==> exists i :: 0 <= i < |table| && table[i] == (key, r.value)
  {
    if table == [] then None
    else if table[0].0 == key then Some(table[0].1)
    else
      var r := TableGet(table[1..], key);
      assert forall i :: 1 <= i < |table| ==> table[i] == table[1..][i - 1];
      r
  }

  predicate PricedWithin(row: MetroRow)
  {
    3.05 <= row.fuelPrice <= 4.95 && 0.09 <= row.electricityRate <= 0.42
  }

  predicate AllPricedWithin(rows: seq<MetroRow>)
  {
    forall j :: 0 <= j < |rows| ==> PricedWithin(rows[j])
  }

  predicate PricedWithinRec(rows: seq<MetroRow>, i: nat)
    requires i <= |rows|
    decreases |rows| - i
  {
    i == |rows| || (PricedWithin(rows[i]) && PricedWithinRec(rows, i + 1))
  }

  lemma {:induction false} PricedWithinFromRec(rows: seq<MetroRow>, i: nat)
    requires i <= |rows| && PricedWithinRec(rows, i)
    ensures forall j :: i <= j < |rows| ==> PricedWithin(rows[j])
    decreases |rows| - i
  {
    if i < |rows| {
      PricedWithinFromRec(rows, i + 1);
    }
  }

  lemma PricedGroup(rows: seq<MetroRow>)
    requires PricedWithinRec(rows, 0)
    ensures AllPricedWithin(rows)
  {
    PricedWithinFromRec(rows, 0);
  }

  lemma PricedAppend(a: seq<MetroRow>, b: seq<MetroRow>)
    requires AllPricedWithin(a) && AllPricedWithin(b)
    ensures AllPricedWithin(a + b)
  {
  }

  /** Every metro row prices fuel within 3.05..4.95 and electricity within 0.09..0.42. */
  lemma MetroRowsPricedWithin()
    ensures AllPricedWithin(MetroAreaRates)
  {
    EasternRowsPricedWithin();
    CentralRowsPricedWithin();
    WesternRowsPricedWithin();
    var east := Northeast + NewYork + NewJersey + Pennsylvania + DelawareMaryland + Virginia + WestVirginia;
    var central := MidwestEast + MidwestNorth + MidwestPlains + SouthEast + SouthGulf + Texas;
    var west := MountainWest + PacificNorthwest + Alaska + CaliforniaSouth + CaliforniaNorth + Hawaii;
    PricedAppend(east, central);
    PricedAppend(east + central, west);
    assert MetroAreaRates == east + central + west;
  }

  lemma EasternRowsPricedWithin()
    ensures AllPricedWithin(Northeast + NewYork + NewJersey + Pennsylvania + DelawareMaryland + Virginia + WestVirginia)
  {
    PricedGroup(Northeast);
    PricedGroup(NewYork);
    PricedGroup(NewJersey);
    PricedGroup(Pennsylvania);
    PricedGroup(DelawareMaryland);
    PricedGroup(Virginia);
    PricedGroup(WestVirginia);
    var p := Northeast;
    PricedAppend(p, NewYork);
    p := p + NewYork;
    PricedAppend(p, NewJersey);
    p := p + NewJersey;
    PricedAppend(p, Pennsylvania);
    p := p + Pennsylvania;
    PricedAppend(p, DelawareMaryland);
    p := p + DelawareMaryland;
    PricedAppend(p, Virginia);
    p := p + Virginia;
    PricedAppend(p, WestVirginia);
    p := p + WestVirginia;
  }

  lemma CentralRowsPricedWithin()
    ensures AllPricedWithin(MidwestEast + MidwestNorth + MidwestPlains + SouthEast + SouthGulf + Texas)
  {
    PricedGroup(MidwestEast);
    PricedGroup(MidwestNorth);
    PricedGroup(MidwestPlains);
    PricedGroup(SouthEast);
    PricedGroup(SouthGulf);
    PricedGroup(Texas);
    var p := MidwestEast;
    PricedAppend(p, MidwestNorth);
    p := p + MidwestNorth;
    PricedAppend(p, MidwestPlains);
    p := p + MidwestPlains;
    PricedAppend(p, SouthEast);
    p := p + SouthEast;
    PricedAppend(p, SouthGulf);
    p := p + SouthGulf;
    PricedAppend(p, Texas);
    p := p + Texas;
  }

  lemma WesternRowsPricedWithin()
    ensures AllPricedWithin(MountainWest + PacificNorthwest + Alaska + CaliforniaSouth + CaliforniaNorth + Hawaii)
  {
    PricedGroup(MountainWest);
    PricedGroup(PacificNorthwest);
    PricedGroup(Alaska);
    PricedGroup(CaliforniaSouth);
    PricedGroup(CaliforniaNorth);
    PricedGroup(Hawaii);
    var p := MountainWest;
    PricedAppend(p, PacificNorthwest);
    p := p + PacificNorthwest;
    PricedAppend(p, Alaska);
    p := p + Alaska;
    PricedAppend(p, CaliforniaSouth);
    p := p + CaliforniaSouth;
    PricedAppend(p, CaliforniaNorth);
    p := p + CaliforniaNorth;
    PricedAppend(p, Hawaii);
    p := p + Hawaii;
  }

  predicate RatesWithin(table: seq<(string, real)>, lo: real, hi: real)
  {
    forall j :: 0 <= j < |table| ==> lo <= table[j].1 <= hi
  }

  predicate RatesWithinRec(table: seq<(string, real)>, lo: real, hi: real, i: nat)
    requires i <= |table|
    decreases |table| - i
  {
    i == |table| || (lo <= table[i].1 <= hi && RatesWithinRec(table, lo, hi, i + 1))
  }

  lemma {:induction false} RatesWithinFromRec(table: seq<(string, real)>, lo: real, hi: real, i: nat)
    requires i <= |table| && RatesWithinRec(table, lo, hi, i)
    ensures forall j :: i <= j < |table| ==> lo <= table[j].1 <= hi
    decreases |table| - i
  {
    if i < |table| {
      RatesWithinFromRec(table, lo, hi, i + 1);
    }
  }

  lemma RatesWithinGroup(table: seq<(string, real)>, lo: real, hi: real)
    requires RatesWithinRec(table, lo, hi, 0)
    ensures RatesWithin(table, lo, hi)
  {
    RatesWithinFromRec(table, lo, hi, 0);
  }

  lemma RatesWithinAppend(a: seq<(string, real)>, b: seq<(string, real)>, lo: real, hi: real)
    requires RatesWithin(a, lo, hi) && RatesWithin(b, lo, hi)
    ensures RatesWithin(a + b, lo, hi)
  {
  }

  /** Every state average fuel price lies within 3.05..4.95. */
  lemma StateFuelPricesWithin()
    ensures RatesWithin(StateFuelPrices, 3.05, 4.95)
  {
    RatesWithinGroup(FuelAlToCt, 3.05, 4.95);
    RatesWithinGroup(FuelDeToIn, 3.05, 4.95);
    RatesWithinGroup(FuelIaToMa, 3.05, 4.95);
    RatesWithinGroup(FuelMiToNv, 3.05, 4.95);
    RatesWithinGroup(FuelNhToOh, 3.05, 4.95);
    RatesWithinGroup(FuelOkToTn, 3.05, 4.95);
    RatesWithinGroup(FuelTxToWi, 3.05, 4.95);
    RatesWithinGroup(FuelWyToDc, 3.05, 4.95);
    var t := FuelAlToCt;
    RatesWithinAppend(t, FuelDeToIn, 3.05, 4.95);
    t := t + FuelDeToIn;
    RatesWithinAppend(t, FuelIaToMa, 3.05, 4.95);
    t := t + FuelIaToMa;
    RatesWithinAppend(t, FuelMiToNv, 3.05, 4.95);
    t := t + FuelMiToNv;
    RatesWithinAppend(t, FuelNhToOh, 3.05, 4.95);
    t := t + FuelNhToOh;
    RatesWithinAppend(t, FuelOkToTn, 3.05, 4.95);
    t := t + FuelOkToTn;
    RatesWithinAppend(t, FuelTxToWi, 3.05, 4.95);
    t := t + FuelTxToWi;
    RatesWithinAppend(t, FuelWyToDc, 3.05, 4.95);
    t := t + FuelWyToDc;
  }

  /** Every state average electricity rate lies within 0.10..0.42. */
  lemma StateElectricityRatesWithin()
    ensures RatesWithin(StateElectricityRates, 0.10, 0.42)
  {
    RatesWithinGroup(ElectricityAlToCt, 0.10, 0.42);
    RatesWithinGroup(ElectricityDeToIn, 0.10, 0.42);
    RatesWithinGroup(ElectricityIaToMa, 0.10, 0.42);
    RatesWithinGroup(ElectricityMiToNv, 0.10, 0.42);
    RatesWithinGroup(ElectricityNhToOh, 0.10, 0.42);
    RatesWithinGroup(ElectricityOkToTn, 0.10, 0.42);
    RatesWithinGroup(ElectricityTxToWi, 0.10, 0.42);
    RatesWithinGroup(ElectricityWyToDc, 0.10, 0.42);
    var t := ElectricityAlToCt;
    RatesWithinAppend(t, ElectricityDeToIn, 0.10, 0.42);
    t := t + ElectricityDeToIn;
    RatesWithinAppend(t, ElectricityIaToMa, 0.10, 0.42);
    t := t + ElectricityIaToMa;
    RatesWithinAppend(t, ElectricityMiToNv, 0.10, 0.42);
    t := t + ElectricityMiToNv;
    RatesWithinAppend(t, ElectricityNhToOh, 0.10, 0.42);
    t := t + ElectricityNhToOh;
    RatesWithinAppend(t, ElectricityOkToTn, 0.10, 0.42);
    t := t + ElectricityOkToTn;
    RatesWithinAppend(t, ElectricityTxToWi, 0.10, 0.42);
    t := t + ElectricityTxToWi;
    RatesWithinAppend(t, ElectricityWyToDc, 0.10, 0.42);
    t := t + ElectricityWyToDc;
  }

  /**
   * get_fuel_price_estimate: the metro row's price when the ZIP has one,
   * else the state's average, else the national 3.50; never outside the
   * tables' range.
   */
  function GetFuelPriceEstimate(zip: string, state: string): (price: real)
    ensures 3.05 <= price <= 4.95
    ensures LookupZipCodeData(zip).Some? ==> price == LookupZipCodeData(zip).value.fuelPrice
    ensures LookupZipCodeData(zip).None? ==> price == TableGet(StateFuelPrices, state).GetOr(NationalFuelPrice)
  {
    MetroRowsPricedWithin();
    StateFuelPricesWithin();
    match LookupZipCodeData(zip)
    case Some(data) => data.fuelPrice
    case None => TableGet(StateFuelPrices, state).GetOr(NationalFuelPrice)
  }

  /** get_electricity_rate_estimate: as the fuel estimate, over the electricity tables, 0.15 nationally. */
  function GetElectricityRateEstimate(zip: string, state: string): (rate: real)
    ensures 0.09 <= rate <= 0.42
    ensures LookupZipCodeData(zip).Some? ==> rate == LookupZipCodeData(zip).value.electricityRate
    ensures LookupZipCodeData(zip).None? ==> rate == TableGet(StateElectricityRates, state).GetOr(NationalElectricityRate)
  {
    MetroRowsPricedWithin();
    StateElectricityRatesWithin();
    match LookupZipCodeData(zip)
    case Some(data) => data.electricityRate
    case None => TableGet(StateElectricityRates, state).GetOr(NationalElectricityRate)
  }

  // ---------------------------------------------------------------------
  // validate_and_lookup_location
  // ---------------------------------------------------------------------

  /** The dict validate_and_lookup_location returns. */
  datatype LocationResult = LocationResult(
    isValid: bool,
    zipCode: string,
    state: string,
    metroArea: string,
    geographyType: string,
    fuelPrice: real,
    electricityRate: real,
    errorMessage: string)

  const InvalidFormatMessage: string := "Invalid ZIP code format. Please enter 5 digits."
  const StateAveragesMessage: string :=
    "ZIP code recognized but detailed data unavailable. Using state averages."

  function NotFoundMessage(zip: string): string
  {
    "ZIP code " + zip + " not found in database."
  }

  /**
   * validate_and_lookup_location: starts from the defaults and fills the
   * record from the metro row, or failing that from the state averages.
   * A valid record agrees with the estimate functions, never reports
   * 'Mixed', and carries a message exactly when no metro row was found.
   */
  method ValidateAndLookupLocation(zip: string) returns (result: LocationResult)
    ensures result.zipCode == zip
    ensures result.isValid <==> LookupZipCodeData(zip).Some? || DetermineStateFromZip(zip).Some?
    ensures result.errorMessage == "" <==> LookupZipCodeData(zip).Some?
    ensures !ValidateZipCode(zip) ==> result.errorMessage == InvalidFormatMessage
    ensures ValidateZipCode(zip) && !result.isValid ==> result.errorMessage == NotFoundMessage(zip)
    ensures LookupZipCodeData(zip).None? && result.isValid ==> result.errorMessage == StateAveragesMessage
    ensures !result.isValid ==>
              result.state == "" && result.metroArea == "" && result.geographyType == ""
              && result.fuelPrice == NationalFuelPrice && result.electricityRate == NationalElectricityRate
    ensures result.isValid ==>
              result.geographyType == GetGeographyTypeFromZip(zip)
              && result.fuelPrice == GetFuelPriceEstimate(zip, result.state)
              && result.electricityRate == GetElectricityRateEstimate(zip, result.state)
    ensures LookupZipCodeData(zip).Some? ==>
              result.state == LookupZipCodeData(zip).value.state
              && result.metroArea == LookupZipCodeData(zip).value.metroArea
    ensures LookupZipCodeData(zip).None? ==>
              result.metroArea == "" && (result.isValid ==> result.state == DetermineStateFromZip(zip).value)
  {
    result := LocationResult(false, zip, "", "", "", NationalFuelPrice, NationalElectricityRate, "");
    if !ValidateZipCode(zip) {
      result := result.(errorMessage := InvalidFormatMessage);
      return;
    }
    var zipData := LookupZipCodeData(zip);
    if zipData.Some? {
      var data := zipData.value;
      result := result.(isValid := true);
      result := result.(state := data.state);
      result := result.(metroArea := data.metroArea);
      result := result.(geographyType := ReportedGeography(data.geographyType));
      result := result.(fuelPrice := data.fuelPrice);
      result := result.(electricityRate := data.electricityRate);
    } else {
      var state := DetermineStateFromZip(zip);
      if state.Some? {
        result := result.(isValid := true);
        result := result.(state := state.value);
        result := result.(geographyType := GetGeographyTypeFromZip(zip));
        result := result.(fuelPrice := TableGet(StateFuelPrices, state.value).GetOr(NationalFuelPrice));
        result := result.(electricityRate := TableGet(StateElectricityRates, state.value).GetOr(NationalElectricityRate));
        result := result.(errorMessage := StateAveragesMessage);
      } else {
        result := result.(errorMessage := NotFoundMessage(zip));
      }
    }
  }

  // ---------------------------------------------------------------------
  // get_regional_cost_multiplier
  // ---------------------------------------------------------------------

  const HighCostStates: seq<string> := ["CA", "NY", "MA", "CT", "HI", "AK", "NJ"]
  const LowCostStates: seq<string> := ["MS", "AL", "AR", "WV", "OK", "KS", "ND", "SD"]

  /** `base_multipliers.get(geography_type, 1.0)`. */
  function BaseRegionalMultiplier(geographyType: string): (m: real)
    ensures m == 1.15 || m == 1.0 || m == 0.85
    ensures m == 1.15 <==> geographyType == "Urban"
    ensures m == 0.85 <==> geographyType == "Rural"
  {
    if geographyType == "Urban" then 1.15
    else if geographyType == "Suburban" then 1.0
    else if geographyType == "Rural" then 0.85
    else if geographyType == "Mixed" then 1.0
    else 1.0
  }

  /**
   * get_regional_cost_multiplier: the geography's base multiplier, raised
   * 10% in a high-cost state and lowered 10% in a low-cost one.
   */
  function GetRegionalCostMultiplier(geographyType: string, state: string): (m: real)
    ensures 0.765 <= m <= 1.265
    ensures state in HighCostStates ==> m == BaseRegionalMultiplier(geographyType) * 1.10
    ensures state in LowCostStates ==> m == BaseRegionalMultiplier(geographyType) * 0.90
    ensures state !in HighCostStates && state !in LowCostStates ==> m == BaseRegionalMultiplier(geographyType)
  {
    var multiplier := BaseRegionalMultiplier(geographyType);
    if state in HighCostStates then multiplier * 1.10
    else if state in LowCostStates then multiplier * 0.90
    else multiplier
  }

  /**
   * For one geography, a high-cost state costs more than any other state,
   * and a low-cost state less; the extremes 1.265 and 0.765 are reached.
   */
  lemma RegionalMultiplierOrder(geographyType: string, high: string, other: string, low: string)
    requires high in HighCostStates && low in LowCostStates
    requires other !in HighCostStates && other !in LowCostStates
    ensures GetRegionalCostMultiplier(geographyType, high) > GetRegionalCostMultiplier(geographyType, other)
                                                         > GetRegionalCostMultiplier(geographyType, low)
    ensures GetRegionalCostMultiplier("Urban", "CA") == 1.265
    ensures GetRegionalCostMultiplier("Rural", "MS") == 0.765
  {
    forall s | s in HighCostStates
      ensures s !in LowCostStates
    {
    }
  }
}
