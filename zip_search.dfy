/**
 * The two scans of utils/zip_code_utils.py that loop over many rows:
 * search_nearby_zip_codes and get_zip_code_coverage_stats.
 */
module ZipCodeSearch {
  import opened Wrappers
  import opened Text
  import opened ZipTables
  import opened ZipCodeUtils

  // ---------------------------------------------------------------------
  // search_nearby_zip_codes
  // ---------------------------------------------------------------------

  /** One result of the search: the metro data of a ZIP, its text and its distance. */
  datatype NearbyZip = NearbyZip(data: ZipData, zipCode: string, distance: int)

  function Abs(x: int): nat
  {
    if x < 0 then -x else x
  }

  /** First ZIP number the search tests: `max(10000, zip_int - radius)`. */
  function SearchLow(z: int, radius: int): int
  {
    if z - radius > 10000 then z - radius else 10000
  }

  /** End (exclusive) of the tested numbers: `min(99999, zip_int + radius + 1)`. */
  function SearchHigh(z: int, radius: int): int
  {
    if z + radius + 1 < 99999 then z + radius + 1 else 99999
  }

  /*
   * The specification below takes the metro table as a parameter `rows`;
   * search_nearby_zip_codes itself reads METRO_AREA_RATES, which
   * NearbyZipCodes passes in.
   */

  /** The record the first loop appends for ZIP number `u`, when `rows` has data for it. */
  function HitAt(rows: seq<MetroRow>, z: int, u: int): Option<NearbyZip>
    requires 0 <= u <= 99999
  {
    match MetroDataAt(rows, u)
    case None => None
    case Some(data) => Some(NearbyZip(data, FormatZip(u), Abs(u - z)))
  }

  /** `c` is a record the search may produce for a search around `z` over `lo..t-1`. */
  predicate IsHit(rows: seq<MetroRow>, c: NearbyZip, z: int, lo: int, t: int)
  {
    |c.zipCode| == 5 && ValidateZipCode(c.zipCode)
    && lo <= ZipToInt(c.zipCode) < t
    && MetroDataAt(rows, ZipToInt(c.zipCode)) == Some(c.data)
    && c.distance == Abs(ZipToInt(c.zipCode) - z)
  }

  /** The values `f` gives on `lo..t-1`, in order, skipping the numbers it gives nothing for. */
  function Collect<T>(f: int -> Option<T>, lo: int, t: int): seq<T>
    decreases t - lo
  {
    if t <= lo then []
    else Collect(f, lo, t - 1) + (if f(t - 1).Some? then [f(t - 1).value] else [])
  }

  /** Every value `f` gives on `lo..t-1` is collected. */
  lemma {:induction false} CollectComplete<T>(f: int -> Option<T>, lo: int, t: int, u: int)
    requires lo <= u < t && f(u).Some?
    ensures f(u).value in Collect(f, lo, t)
    decreases t - lo
  {
    if u < t - 1 {
      CollectComplete(f, lo, t - 1, u);
    } else {
      assert Collect(f, lo, t) == Collect(f, lo, t - 1) + [f(u).value];
    }
  }

  /** HitAt on every number, nothing outside the five-digit range. */
  function HitFn(rows: seq<MetroRow>, z: int): int -> Option<NearbyZip>
  {
    u => if 0 <= u <= 99999 then HitAt(rows, z, u) else None
  }

  /** What the first loop has collected after testing `lo..t-1`. */
  function Candidates(rows: seq<MetroRow>, z: int, lo: int, t: int): seq<NearbyZip>
    requires 10000 <= lo && (t <= lo || t <= 99999)
  {
    Collect(HitFn(rows, z), lo, t)
  }

  /** One more tested ZIP adds its record, when it has one. */
  lemma CandidatesStep(rows: seq<MetroRow>, z: int, lo: int, t: int)
    requires 10000 <= lo < t <= 99999
    ensures Candidates(rows, z, lo, t)
            == Candidates(rows, z, lo, t - 1) + (if HitAt(rows, z, t - 1).Some? then [HitAt(rows, z, t - 1).value] else [])
  {
    assert HitFn(rows, z)(t - 1) == HitAt(rows, z, t - 1);
  }

  /** Everything collected is a tested ZIP with data, at its distance from the searched ZIP. */
  lemma {:induction false} CandidatesAreHits(rows: seq<MetroRow>, z: int, lo: int, t: int)
    requires 10000 <= lo && (t <= lo || t <= 99999)
    ensures forall c :: c in Candidates(rows, z, lo, t) ==> IsHit(rows, c, z, lo, t)
    decreases t - lo
  {
    if t > lo {
      CandidatesAreHits(rows, z, lo, t - 1);
      CandidatesStep(rows, z, lo, t);
      forall c | c in Candidates(rows, z, lo, t)
        ensures IsHit(rows, c, z, lo, t)
      {
        if c in Candidates(rows, z, lo, t - 1) {
          assert IsHit(rows, c, z, lo, t - 1);
        } else {
          NewHitIsHit(rows, z, lo, t, c);
        }
      }
    }
  }

  lemma NewHitIsHit(rows: seq<MetroRow>, z: int, lo: int, t: int, c: NearbyZip)
    requires 10000 <= lo < t <= 99999
    requires HitAt(rows, z, t - 1) == Some(c)
    ensures IsHit(rows, c, z, lo, t)
  {
    FormatZipValid(t - 1);
  }

  /** Every tested ZIP with data is collected. */
  lemma CandidatesComplete(rows: seq<MetroRow>, z: int, lo: int, t: int, u: int)
    requires 10000 <= lo && (t <= lo || t <= 99999)
    requires lo <= u < t && HitAt(rows, z, u).Some?
    ensures HitAt(rows, z, u).value in Candidates(rows, z, lo, t)
  {
    assert HitFn(rows, z)(u) == HitAt(rows, z, u);
    CollectComplete(HitFn(rows, z), lo, t, u);
  }

  predicate SortedByDistance(s: seq<NearbyZip>)
  {
    forall i, j :: 0 <= i < j < |s| ==> s[i].distance <= s[j].distance
  }

  /** The records of `s` at distance `d`, in order. */
  function AtDistance(s: seq<NearbyZip>, d: int): seq<NearbyZip>
  {
    if s == [] then []
    else AtDistance(s[..|s| - 1], d) + (if s[|s| - 1].distance == d then [s[|s| - 1]] else [])
  }

  /** Puts `x` after every record of the sorted `s` that is not farther than `x`. */
  function InsertByDistance(s: seq<NearbyZip>, x: NearbyZip): seq<NearbyZip>
  {
    if s == [] || s[|s| - 1].distance <= x.distance then s + [x]
    else InsertByDistance(s[..|s| - 1], x) + [s[|s| - 1]]
  }

  /** `sorted(nearby_zips, key=lambda x: x['distance'])`: a stable sort by distance. */
  function SortByDistance(s: seq<NearbyZip>): seq<NearbyZip>
  {
    if s == [] then [] else InsertByDistance(SortByDistance(s[..|s| - 1]), s[|s| - 1])
  }

  lemma AtDistanceAppend(s: seq<NearbyZip>, x: NearbyZip, d: int)
    ensures AtDistance(s + [x], d) == AtDistance(s, d) + (if x.distance == d then [x] else [])
  {
    assert (s + [x])[..|s|] == s;
  }

  lemma {:induction false} InsertByDistancePermutes(s: seq<NearbyZip>, x: NearbyZip)
    ensures multiset(InsertByDistance(s, x)) == multiset(s) + multiset{x}
    decreases |s|
  {
    if s != [] && s[|s| - 1].distance > x.distance {
      var init, last := s[..|s| - 1], s[|s| - 1];
      assert s == init + [last];
      InsertByDistancePermutes(init, x);
      assert InsertByDistance(s, x) == InsertByDistance(init, x) + [last];
    }
  }

  /** A record no nearer than every record of a sorted sequence can follow them. */
  lemma SortedSnoc(s: seq<NearbyZip>, x: NearbyZip)
    requires SortedByDistance(s)
    requires forall c :: c in s ==> c.distance <= x.distance
    ensures SortedByDistance(s + [x])
  {
    forall i, j | 0 <= i < j < |s| + 1
      ensures (s + [x])[i].distance <= (s + [x])[j].distance
    {
      assert (s + [x])[i] == s[i];
      if j < |s| {
        assert (s + [x])[j] == s[j];
      }
    }
  }

  lemma {:induction false} InsertByDistanceSorted(s: seq<NearbyZip>, x: NearbyZip)
    requires SortedByDistance(s)
    ensures SortedByDistance(InsertByDistance(s, x))
    decreases |s|
  {
    if s == [] || s[|s| - 1].distance <= x.distance {
      SortedSnoc(s, x);
    } else {
      var init, last := s[..|s| - 1], s[|s| - 1];
      assert s == init + [last];
      InsertByDistanceSorted(init, x);
      InsertByDistancePermutes(init, x);
      var r := InsertByDistance(init, x);
      forall c | c in r
        ensures c.distance <= last.distance
      {
        assert c in multiset(init) + multiset{x};
        if c in init {
          var i :| 0 <= i < |init| && init[i] == c;
          assert s[i] == c;
        }
      }
      SortedSnoc(r, last);
      assert InsertByDistance(s, x) == r + [last];
    }
  }

  lemma {:induction false} InsertByDistanceStable(s: seq<NearbyZip>, x: NearbyZip, d: int)
    requires SortedByDistance(s)
    ensures AtDistance(InsertByDistance(s, x), d) == AtDistance(s, d) + (if x.distance == d then [x] else [])
    decreases |s|
  {
    if s == [] || s[|s| - 1].distance <= x.distance {
      AtDistanceAppend(s, x, d);
    } else {
      var init, last := s[..|s| - 1], s[|s| - 1];
      assert s == init + [last];
      InsertByDistanceStable(init, x, d);
      AtDistanceAppend(InsertByDistance(init, x), last, d);
      AtDistanceAppend(init, last, d);
    }
  }

  /** The sort orders by distance and keeps exactly the records it is given. */
  lemma {:induction false} SortByDistanceSorted(s: seq<NearbyZip>)
    ensures SortedByDistance(SortByDistance(s))
    ensures multiset(SortByDistance(s)) == multiset(s)
  {
    if s != [] {
      var init, last := s[..|s| - 1], s[|s| - 1];
      assert s == init + [last];
      SortByDistanceSorted(init);
      InsertByDistanceSorted(SortByDistance(init), last);
      InsertByDistancePermutes(SortByDistance(init), last);
    }
  }

  /** The sort is stable: the records at each distance keep their order. */
  lemma {:induction false} SortByDistanceStable(s: seq<NearbyZip>, d: int)
    ensures AtDistance(SortByDistance(s), d) == AtDistance(s, d)
  {
    if s != [] {
      var init := s[..|s| - 1];
      SortByDistanceStable(init, d);
      SortByDistanceSorted(init);
      InsertByDistanceStable(SortByDistance(init), s[|s| - 1], d);
    }
  }

  /** The `(state, metro_area)` pair the search deduplicates on. */
  function MetroKey(c: NearbyZip): (string, string)
  {
    (c.data.state, c.data.metroArea)
  }

  function Keys(s: seq<NearbyZip>): set<(string, string)>
  {
    if s == [] then {} else Keys(s[..|s| - 1]) + {MetroKey(s[|s| - 1])}
  }

  /** The second loop: the first record of each metro key, in order. */
  function Dedup(s: seq<NearbyZip>): seq<NearbyZip>
  {
    if s == [] then []
    else
      var kept := Dedup(s[..|s| - 1]);
      if MetroKey(s[|s| - 1]) in Keys(kept) then kept else kept + [s[|s| - 1]]
  }

  /** The key of every record is among the keys. */
  lemma {:induction false} KeyInKeys(s: seq<NearbyZip>, i: int)
    requires 0 <= i < |s|
    ensures MetroKey(s[i]) in Keys(s)
    decreases |s|
  {
    if i < |s| - 1 {
      KeyInKeys(s[..|s| - 1], i);
      assert s[..|s| - 1][i] == s[i];
    }
  }

  /** Deduplication keeps only records of the input, starting with its first, and loses no key. */
  lemma {:induction false} DedupKeeps(s: seq<NearbyZip>)
    ensures forall c :: c in Dedup(s) ==> c in s
    ensures Keys(Dedup(s)) == Keys(s)
    ensures s != [] ==> Dedup(s) != [] && Dedup(s)[0] == s[0]
  {
    if s != [] {
      var init := s[..|s| - 1];
      DedupKeeps(init);
      if init != [] {
        assert init[0] == s[0];
      }
    }
  }

  /** No two records kept by deduplication share a metro key. */
  lemma {:induction false} DedupDistinct(s: seq<NearbyZip>)
    ensures forall i, j :: 0 <= i < j < |Dedup(s)| ==> MetroKey(Dedup(s)[i]) != MetroKey(Dedup(s)[j])
  {
    if s != [] {
      var init, last := s[..|s| - 1], s[|s| - 1];
      DedupDistinct(init);
      var kept := Dedup(init);
      if MetroKey(last) !in Keys(kept) {
        assert Dedup(s) == kept + [last];
        forall i, j | 0 <= i < j < |kept| + 1
          ensures MetroKey((kept + [last])[i]) != MetroKey((kept + [last])[j])
        {
          assert (kept + [last])[i] == kept[i];
          if j == |kept| {
            KeyInKeys(kept, i);
          } else {
            assert (kept + [last])[j] == kept[j];
          }
        }
      }
    }
  }

  /** Deduplicating records sorted by distance leaves them sorted. */
  lemma {:induction false} DedupSorted(s: seq<NearbyZip>)
    requires SortedByDistance(s)
    ensures SortedByDistance(Dedup(s))
  {
    if s != [] {
      var init, last := s[..|s| - 1], s[|s| - 1];
      assert SortedByDistance(init) by {
        assert forall i :: 0 <= i < |init| ==> init[i] == s[i];
      }
      DedupSorted(init);
      DedupKeeps(init);
      var kept := Dedup(init);
      if MetroKey(last) !in Keys(kept) {
        assert Dedup(s) == kept + [last];
        forall i, j | 0 <= i < j < |kept| + 1
          ensures (kept + [last])[i].distance <= (kept + [last])[j].distance
        {
          if j == |kept| {
            var c := kept[i];
            assert c in init;
            var m :| 0 <= m < |init| && init[m] == c;
            assert s[m] == c;
          } else {
            assert (kept + [last])[i] == kept[i] && (kept + [last])[j] == kept[j];
          }
        }
      }
    }
  }

  /** `s[k]` is the first record of `s` with its metro key. */
  predicate FirstOfKey(s: seq<NearbyZip>, k: int)
  {
    0 <= k < |s| && forall j :: 0 <= j < k ==> MetroKey(s[j]) != MetroKey(s[k])
  }

  /** A key is among the keys exactly when some record carries it. */
  lemma {:induction false} KeysMeaning(s: seq<NearbyZip>, key: (string, string))
    ensures key in Keys(s) <==> exists i :: 0 <= i < |s| && MetroKey(s[i]) == key
    decreases |s|
  {
    if s != [] {
      var init := s[..|s| - 1];
      KeysMeaning(init, key);
      if key in Keys(init) {
        var i :| 0 <= i < |init| && MetroKey(init[i]) == key;
        assert MetroKey(s[i]) == key;
      }
      forall i | 0 <= i < |s| && MetroKey(s[i]) == key
        ensures key in Keys(s)
      {
        KeyInKeys(s, i);
      }
    }
  }

  /** Dropping the last record does not change which earlier records are first of their key. */
  lemma FirstOfKeyInit(s: seq<NearbyZip>, k: int)
    requires 0 <= k < |s| - 1
    ensures FirstOfKey(s[..|s| - 1], k) <==> FirstOfKey(s, k)
  {
    assert forall j :: 0 <= j <= k ==> s[..|s| - 1][j] == s[j];
  }

  /** The last record is the first of its key exactly when no earlier record has that key. */
  lemma FirstOfKeyLast(s: seq<NearbyZip>)
    requires s != []
    ensures FirstOfKey(s, |s| - 1) <==> MetroKey(s[|s| - 1]) !in Keys(s[..|s| - 1])
  {
    var init := s[..|s| - 1];
    KeysMeaning(init, MetroKey(s[|s| - 1]));
    assert forall j :: 0 <= j < |init| ==> init[j] == s[j];
  }

  /** Every record deduplication keeps is the first of its metro key in the input. */
  lemma {:induction false} DedupKeepsOnlyFirst(s: seq<NearbyZip>)
    ensures forall c :: c in Dedup(s) ==> exists k :: FirstOfKey(s, k) && s[k] == c
    decreases |s|
  {
    if s != [] {
      var init, last := s[..|s| - 1], s[|s| - 1];
      DedupKeepsOnlyFirst(init);
      DedupKeeps(init);
      var kept := Dedup(init);
      forall c | c in Dedup(s)
        ensures exists k :: FirstOfKey(s, k) && s[k] == c
      {
        if c in kept {
          var k :| FirstOfKey(init, k) && init[k] == c;
          FirstOfKeyInit(s, k);
          assert s[k] == c;
        } else {
          FirstOfKeyLast(s);
          assert FirstOfKey(s, |s| - 1) && s[|s| - 1] == c;
        }
      }
    }
  }

  /** Deduplication keeps the first record of every metro key. */
  lemma {:induction false} DedupKeepsEveryFirst(s: seq<NearbyZip>)
    ensures forall k :: FirstOfKey(s, k) ==> s[k] in Dedup(s)
    decreases |s|
  {
    if s != [] {
      var init := s[..|s| - 1];
      DedupKeepsEveryFirst(init);
      DedupKeeps(init);
      forall k | FirstOfKey(s, k)
        ensures s[k] in Dedup(s)
      {
        if k < |init| {
          FirstOfKeyInit(s, k);
          assert s[k] == init[k] && init[k] in Dedup(init);
        } else {
          FirstOfKeyLast(s);
        }
      }
    }
  }

  /** The first record whose key is that of `s[m]` sits at or before `m`. */
  lemma {:induction false} FirstIndexOfKey(s: seq<NearbyZip>, m: int) returns (k: int)
    requires 0 <= m < |s|
    ensures k <= m && FirstOfKey(s, k) && MetroKey(s[k]) == MetroKey(s[m])
    decreases m
  {
    if forall j :: 0 <= j < m ==> MetroKey(s[j]) != MetroKey(s[m]) {
      k := m;
    } else {
      var j :| 0 <= j < m && MetroKey(s[j]) == MetroKey(s[m]);
      k := FirstIndexOfKey(s, j);
    }
  }

  /** `unique_zips[:5]`. */
  function TakeFive(s: seq<NearbyZip>): seq<NearbyZip>
  {
    if |s| <= 5 then s else s[..5]
  }

  /** search_nearby_zip_codes over the table `rows`: sort the hits, keep one per metro, at most five. */
  function NearbyIn(rows: seq<MetroRow>, zip: string, radius: int): seq<NearbyZip>
  {
    if !ValidateZipCode(zip) then []
    else
      var z := ZipToInt(zip);
      TakeFive(Dedup(SortByDistance(Candidates(rows, z, SearchLow(z, radius), SearchHigh(z, radius)))))
  }

  /** search_nearby_zip_codes as a value. */
  function NearbyZipCodes(zip: string, radius: int): seq<NearbyZip>
  {
    NearbyIn(MetroAreaRates, zip, radius)
  }

  /** `lookup_zip_code_data(f"{test_zip:05d}")`: the metro data of a ZIP number. */
  method LookupNumber(u: int) returns (data: Option<ZipData>)
    requires 0 <= u <= 99999
    ensures data == MetroDataAt(MetroAreaRates, u)
  {
    FormatZipValid(u);
    data := LookupZipCodeData(FormatZip(u));
  }

  /** The first loop of search_nearby_zip_codes: test each number of `lo..hi-1` against the metro table. */
  method CollectHits(z: int, lo: int, hi: int) returns (nearby: seq<NearbyZip>)
    requires 10000 <= lo && hi <= 99999
    ensures nearby == Candidates(MetroAreaRates, z, lo, hi)
  {
    nearby := [];
    var t := lo;
    while t < hi
      invariant lo <= t && (t <= hi || t == lo)
      invariant nearby == Candidates(MetroAreaRates, z, lo, t)
      decreases hi - t
    {
      nearby := TestOneZip(z, lo, t, nearby);
      t := t + 1;
    }
  }

  /** One turn of the first loop: ZIP `t`, with metro data, is recorded at its distance from `z`. */
  method TestOneZip(z: int, lo: int, t: int, nearby: seq<NearbyZip>) returns (nearby': seq<NearbyZip>)
    requires 10000 <= lo <= t < 99999
    requires nearby == Candidates(MetroAreaRates, z, lo, t)
    ensures nearby' == Candidates(MetroAreaRates, z, lo, t + 1)
  {
    var zipText := FormatZip(t);
    var data := LookupNumber(t);
    CandidatesStep(MetroAreaRates, z, lo, t + 1);
    if data.Some? {
      nearby' := nearby + [NearbyZip(data.value, zipText, Abs(t - z))];
    } else {
      nearby' := nearby;
    }
  }

  /** The second loop of search_nearby_zip_codes: keep the first record of each metro key. */
  method KeepFirstPerMetro(sorted: seq<NearbyZip>) returns (unique: seq<NearbyZip>)
    ensures unique == Dedup(sorted)
  {
    var seen: set<(string, string)> := {};
    unique := [];
    var i := 0;
    while i < |sorted|
      invariant 0 <= i <= |sorted|
      invariant unique == Dedup(sorted[..i])
      invariant seen == Keys(unique)
    {
      var item := sorted[i];
      assert sorted[..i + 1][..i] == sorted[..i];
      if MetroKey(item) !in seen {
        seen := seen + {MetroKey(item)};
        assert (unique + [item])[..|unique|] == unique;
        unique := unique + [item];
      }
      i := i + 1;
    }
    assert sorted[..|sorted|] == sorted;
  }

  /** search_nearby_zip_codes: collect the hits, sort them by distance, keep one per metro, return five. */
  method SearchNearbyZipCodes(zip: string, radius: int) returns (result: seq<NearbyZip>)
    ensures result == NearbyZipCodes(zip, radius)
  {
    if !ValidateZipCode(zip) {
      return [];
    }
    var z := ZipToInt(zip);
    var nearby := CollectHits(z, SearchLow(z, radius), SearchHigh(z, radius));
    var unique := KeepFirstPerMetro(SortByDistance(nearby));
    result := TakeFive(unique);
  }

  /** The first five keep the order, the distinct keys and the first record. */
  lemma TakeFiveFacts(s: seq<NearbyZip>)
    ensures |TakeFive(s)| <= 5
    ensures forall c :: c in TakeFive(s) ==> c in s
    ensures SortedByDistance(s) ==> SortedByDistance(TakeFive(s))
    ensures (forall i, j :: 0 <= i < j < |s| ==> MetroKey(s[i]) != MetroKey(s[j])) ==>
              forall i, j :: 0 <= i < j < |TakeFive(s)| ==> MetroKey(TakeFive(s)[i]) != MetroKey(TakeFive(s)[j])
    ensures s != [] ==> TakeFive(s) != [] && TakeFive(s)[0] == s[0]
  {
  }

  /** What sorting and deduplicating the collected records keeps of them. */
  lemma SortedUniqueFacts(cands: seq<NearbyZip>)
    ensures forall c :: c in Dedup(SortByDistance(cands)) ==> c in cands
    ensures SortedByDistance(Dedup(SortByDistance(cands)))
    ensures forall i, j :: 0 <= i < j < |Dedup(SortByDistance(cands))| ==>
              MetroKey(Dedup(SortByDistance(cands))[i]) != MetroKey(Dedup(SortByDistance(cands))[j])
    ensures forall c :: c in Dedup(SortByDistance(cands)) ==>
              exists k :: FirstOfKey(SortByDistance(cands), k) && SortByDistance(cands)[k] == c
  {
    var sorted := SortByDistance(cands);
    SortByDistanceSorted(cands);
    DedupKeeps(sorted);
    DedupDistinct(sorted);
    DedupSorted(sorted);
    DedupKeepsOnlyFirst(sorted);
    forall c | c in Dedup(sorted)
      ensures c in cands
    {
      assert c in multiset(sorted);
    }
  }

  /**
   * Over any table: every result is a ZIP with data within the radius, at
   * the distance given; there are at most five, nearest first, and no two
   * share a state and metro area.  An invalid ZIP gives no results.
   */
  lemma NearbyInFacts(rows: seq<MetroRow>, zip: string, radius: int)
    ensures |NearbyIn(rows, zip, radius)| <= 5
    ensures !ValidateZipCode(zip) ==> NearbyIn(rows, zip, radius) == []
    ensures SortedByDistance(NearbyIn(rows, zip, radius))
    ensures forall i, j :: 0 <= i < j < |NearbyIn(rows, zip, radius)| ==>
              MetroKey(NearbyIn(rows, zip, radius)[i]) != MetroKey(NearbyIn(rows, zip, radius)[j])
    ensures forall c :: c in NearbyIn(rows, zip, radius) ==>
              ValidateZipCode(zip) && IsHit(rows, c, ZipToInt(zip), 10000, 99999) && c.distance <= radius
  {
    if ValidateZipCode(zip) {
      var z := ZipToInt(zip);
      var lo, hi := SearchLow(z, radius), SearchHigh(z, radius);
      var cands := Candidates(rows, z, lo, hi);
      CandidatesAreHits(rows, z, lo, hi);
      SortedUniqueFacts(cands);
      var unique := Dedup(SortByDistance(cands));
      TakeFiveFacts(unique);
      forall c | c in TakeFive(unique)
        ensures IsHit(rows, c, z, 10000, 99999) && c.distance <= radius
      {
        assert c in cands;
        assert IsHit(rows, c, z, lo, hi);
      }
    }
  }

  /**
   * After sorting, keeping one record per key and taking five, a record of
   * the sorted list is represented by a kept record of its key at no
   * greater distance, or else five records at no greater distance fill the
   * answer.
   */
  lemma TopFiveCovers(sorted: seq<NearbyZip>, m: int)
    requires SortedByDistance(sorted) && 0 <= m < |sorted|
    ensures (exists r :: r in TakeFive(Dedup(sorted)) && MetroKey(r) == MetroKey(sorted[m]) && r.distance <= sorted[m].distance)
            || (|TakeFive(Dedup(sorted))| == 5
                && forall r :: r in TakeFive(Dedup(sorted)) ==> r.distance <= sorted[m].distance)
  {
    var k := FirstIndexOfKey(sorted, m);
    DedupKeepsEveryFirst(sorted);
    DedupSorted(sorted);
    var unique := Dedup(sorted);
    var p :| 0 <= p < |unique| && unique[p] == sorted[k];
    assert sorted[k].distance <= sorted[m].distance;
    if p < 5 {
      assert TakeFive(unique)[p] == unique[p];
    } else {
      forall r | r in TakeFive(unique)
        ensures r.distance <= sorted[m].distance
      {
        var i :| 0 <= i < 5 && TakeFive(unique)[i] == r;
        assert unique[i] == r;
      }
    }
  }

  /**
   * Over any table: a ZIP with data within the radius is never passed over
   * for a farther one. Either a result of its metro key is at most as far
   * away, or the search returned five results, none of them farther.
   */
  lemma NearbyInComplete(rows: seq<MetroRow>, zip: string, radius: int, u: int)
    requires ValidateZipCode(zip)
    requires 10000 <= u < 99999 && Abs(u - ZipToInt(zip)) <= radius
    requires HitAt(rows, ZipToInt(zip), u).Some?
    ensures var h := HitAt(rows, ZipToInt(zip), u).value;
      (exists r :: r in NearbyIn(rows, zip, radius) && MetroKey(r) == MetroKey(h) && r.distance <= h.distance)
      || (|NearbyIn(rows, zip, radius)| == 5
          && forall r :: r in NearbyIn(rows, zip, radius) ==> r.distance <= h.distance)
  {
    var z := ZipToInt(zip);
    var lo, hi := SearchLow(z, radius), SearchHigh(z, radius);
    var h := HitAt(rows, z, u).value;
    var cands := Candidates(rows, z, lo, hi);
    CandidatesComplete(rows, z, lo, hi, u);
    var sorted := SortByDistance(cands);
    SortByDistanceSorted(cands);
    assert h in multiset(sorted);
    var m :| 0 <= m < |sorted| && sorted[m] == h;
    TopFiveCovers(sorted, m);
    assert NearbyIn(rows, zip, radius) == TakeFive(Dedup(sorted));
  }

  /** Over any table: a ZIP from 10000 to 99998 with data finds itself first, at distance 0. */
  lemma NearbyInStartsWithItself(rows: seq<MetroRow>, zip: string, radius: int)
    requires ValidateZipCode(zip) && MetroDataAt(rows, ZipToInt(zip)).Some?
    requires 10000 <= ZipToInt(zip) < 99999 && radius >= 0
    ensures NearbyIn(rows, zip, radius) != []
    ensures NearbyIn(rows, zip, radius)[0]
            == NearbyZip(MetroDataAt(rows, ZipToInt(zip)).value, FormatZip(ZipToInt(zip)), 0)
  {
    var z := ZipToInt(zip);
    var lo, hi := SearchLow(z, radius), SearchHigh(z, radius);
    var self := NearbyZip(MetroDataAt(rows, z).value, FormatZip(z), 0);
    var cands := Candidates(rows, z, lo, hi);
    assert HitAt(rows, z, z) == Some(self);
    CandidatesComplete(rows, z, lo, hi, z);
    CandidatesAreHits(rows, z, lo, hi);
    var sorted := SortByDistance(cands);
    SortByDistanceSorted(cands);
    DedupKeeps(sorted);
    TakeFiveFacts(Dedup(sorted));
    assert self in multiset(sorted);
    var k :| 0 <= k < |sorted| && sorted[k] == self;
    var first := sorted[0];
    assert first in multiset(cands);
    assert IsHit(rows, first, z, lo, hi);
    assert first.distance <= sorted[k].distance;
    assert ZipToInt(first.zipCode) == z;
    ZipRoundTrip(first.zipCode);
    assert first.zipCode == first.zipCode[..5];
  }

  /**
   * Every result is a ZIP with metro data within the radius, at the
   * distance given; there are at most five, nearest first, and no two
   * share a state and metro area.  An invalid ZIP gives no results.
   */
  lemma NearbyZipCodesFacts(zip: string, radius: int)
    ensures |NearbyZipCodes(zip, radius)| <= 5
    ensures !ValidateZipCode(zip) ==> NearbyZipCodes(zip, radius) == []
    ensures SortedByDistance(NearbyZipCodes(zip, radius))
    ensures forall i, j :: 0 <= i < j < |NearbyZipCodes(zip, radius)| ==>
              MetroKey(NearbyZipCodes(zip, radius)[i]) != MetroKey(NearbyZipCodes(zip, radius)[j])
    ensures forall c :: c in NearbyZipCodes(zip, radius) ==>
              ValidateZipCode(zip) && |c.zipCode| == 5 && ValidateZipCode(c.zipCode)
              && 10000 <= ZipToInt(c.zipCode) < 99999
              && LookupZipCodeData(c.zipCode) == Some(c.data)
              && c.distance == Abs(ZipToInt(c.zipCode) - ZipToInt(zip)) <= radius
  {
    NearbyInFacts(MetroAreaRates, zip, radius);
    forall c | c in NearbyZipCodes(zip, radius)
      ensures LookupZipCodeData(c.zipCode) == Some(c.data)
    {
      assert IsHit(MetroAreaRates, c, ZipToInt(zip), 10000, 99999);
    }
  }

  /**
   * A ZIP from 10000 to 99998 that has metro data finds itself first, at
   * distance 0, for any radius that is not negative.
   */
  lemma NearbyZipCodesStartWithItself(zip: string, radius: int)
    requires ValidateZipCode(zip) && LookupZipCodeData(zip).Some?
    requires 10000 <= ZipToInt(zip) < 99999 && radius >= 0
    ensures NearbyZipCodes(zip, radius) != []
    ensures NearbyZipCodes(zip, radius)[0]
            == NearbyZip(LookupZipCodeData(zip).value, FormatZip(ZipToInt(zip)), 0)
  {
    NearbyInStartsWithItself(MetroAreaRates, zip, radius);
  }

  /**
   * A ZIP from 10000 to 99998 with metro data, within the radius, is found
   * through its metro area at a distance no greater than its own, unless
   * five results at no greater distance fill the answer.
   */
  lemma NearbyZipCodesComplete(zip: string, radius: int, u: int)
    requires ValidateZipCode(zip)
    requires 10000 <= u < 99999 && Abs(u - ZipToInt(zip)) <= radius
    requires LookupZipCodeData(FormatZip(u)).Some?
    ensures var data := LookupZipCodeData(FormatZip(u)).value;
      (exists r :: r in NearbyZipCodes(zip, radius)
                   && MetroKey(r) == (data.state, data.metroArea) && r.distance <= Abs(u - ZipToInt(zip)))
      || (|NearbyZipCodes(zip, radius)| == 5
          && forall r :: r in NearbyZipCodes(zip, radius) ==> r.distance <= Abs(u - ZipToInt(zip)))
  {
    FormatZipValid(u);
    assert HitAt(MetroAreaRates, ZipToInt(zip), u).Some?;
    NearbyInComplete(MetroAreaRates, zip, radius, u);
  }

  /**
   * The search never tests numbers below 10000: a ZIP whose number plus the
   * radius stays below 10000 gets no results, even one with metro data,
   * such as 02138 in the Boston row.
   */
  lemma LowZipsFindNoNeighbours(zip: string, radius: int)
    requires ValidateZipCode(zip) && ZipToInt(zip) + radius < 10000
    ensures NearbyZipCodes(zip, radius) == []
    ensures LookupZipCodeData("02138").Some? && NearbyZipCodes("02138", 10) == []
  {
    assert ZipToInt("02138") == 2138;
    assert InMetroRow(MetroAreaRates[0], 2138);
  }

  // ---------------------------------------------------------------------
  // get_zip_code_coverage_stats
  // ---------------------------------------------------------------------

  /** The dict get_zip_code_coverage_stats returns; the geography counts keep dict insertion order. */
  datatype CoverageStats = CoverageStats(
    totalMetroAreas: nat,
    statesCovered: nat,
    coverageByGeography: seq<(string, nat)>,
    statesList: seq<string>)

  /** `counts[key] = counts.get(key, 0) + 1` on a dict kept as its list of entries. */
  function Bump(counts: seq<(string, nat)>, key: string): seq<(string, nat)>
  {
    if counts == [] then [(key, 1)]
    else if counts[0].0 == key then [(key, counts[0].1 + 1)] + counts[1..]
    else [counts[0]] + Bump(counts[1..], key)
  }

  /** The lower-cased geography label a row is counted under. */
  function CountedLabel(row: MetroRow): string
  {
    Lower(GeographyName(row.geography))
  }

  /** The geography counts after the loop has seen `rows`. */
  function GeographyCounts(rows: seq<MetroRow>): seq<(string, nat)>
  {
    if rows == [] then [] else Bump(GeographyCounts(rows[..|rows| - 1]), CountedLabel(rows[|rows| - 1]))
  }

  /** How many of `rows` are counted under `name`. */
  function LabelCount(rows: seq<MetroRow>, name: string): nat
  {
    if rows == [] then 0
    else LabelCount(rows[..|rows| - 1], name) + (if CountedLabel(rows[|rows| - 1]) == name then 1 else 0)
  }

  function CountTotal(counts: seq<(string, nat)>): nat
  {
    if counts == [] then 0 else counts[0].1 + CountTotal(counts[1..])
  }

  /** `counts.get(key, 0)`. */
  function CountOf(counts: seq<(string, nat)>, key: string): nat
  {
    if counts == [] then 0 else if counts[0].0 == key then counts[0].1 else CountOf(counts[1..], key)
  }

  /** The keys of a dict kept as its list of entries. */
  function KeysOf(counts: seq<(string, nat)>): set<string>
  {
    if counts == [] then {} else {counts[0].0} + KeysOf(counts[1..])
  }

  /** No key occurs twice, as in a dict. */
  predicate DistinctKeys(counts: seq<(string, nat)>)
  {
    counts == [] || (counts[0].0 !in KeysOf(counts[1..]) && DistinctKeys(counts[1..]))
  }

  /** The labels the rows are counted under. */
  function LabelsOf(rows: seq<MetroRow>): set<string>
  {
    if rows == [] then {} else LabelsOf(rows[..|rows| - 1]) + {CountedLabel(rows[|rows| - 1])}
  }

  /** A bump adds one to the key's count and to the total, and adds the key if it was missing. */
  lemma {:induction false} BumpCounts(counts: seq<(string, nat)>, key: string)
    ensures CountTotal(Bump(counts, key)) == CountTotal(counts) + 1
    ensures forall k :: CountOf(Bump(counts, key), k) == CountOf(counts, k) + (if k == key then 1 else 0)
    ensures KeysOf(Bump(counts, key)) == KeysOf(counts) + {key}
    decreases |counts|
  {
    if counts != [] {
      var rest := counts[1..];
      if counts[0].0 == key {
        assert Bump(counts, key)[1..] == rest;
      } else {
        BumpCounts(rest, key);
        assert Bump(counts, key)[1..] == Bump(rest, key);
      }
    }
  }

  /** A bump keeps the keys distinct. */
  lemma {:induction false} BumpDistinct(counts: seq<(string, nat)>, key: string)
    requires DistinctKeys(counts)
    ensures DistinctKeys(Bump(counts, key))
    decreases |counts|
  {
    if counts != [] {
      var rest := counts[1..];
      if counts[0].0 == key {
        assert Bump(counts, key)[1..] == rest;
      } else {
        BumpDistinct(rest, key);
        BumpCounts(rest, key);
        assert Bump(counts, key)[1..] == Bump(rest, key);
      }
    }
  }

  /**
   * The geography counts hold one entry for each label that occurs, each
   * with the number of rows under that label, and add up to the number
   * of rows.
   */
  lemma {:induction false} GeographyCountsFacts(rows: seq<MetroRow>)
    ensures DistinctKeys(GeographyCounts(rows))
    ensures KeysOf(GeographyCounts(rows)) == LabelsOf(rows)
    ensures CountTotal(GeographyCounts(rows)) == |rows|
    ensures forall k :: CountOf(GeographyCounts(rows), k) == LabelCount(rows, k)
  {
    if rows != [] {
      var init := rows[..|rows| - 1];
      GeographyCountsFacts(init);
      BumpCounts(GeographyCounts(init), CountedLabel(rows[|rows| - 1]));
      BumpDistinct(GeographyCounts(init), CountedLabel(rows[|rows| - 1]));
    }
  }

  /** `[k for k, _ in table]`: the keys of a dict kept as its list of entries. */
  function TableKeys(table: seq<(string, real)>): (keys: seq<string>)
    ensures |keys| == |table| && forall i :: 0 <= i < |table| ==> keys[i] == table[i].0
  {
    if table == [] then [] else [table[0].0] + TableKeys(table[1..])
  }

  predicate SortedStrings(s: seq<string>)
  {
    forall i, j :: 0 <= i < j < |s| ==> StrLe(s[i], s[j])
  }

  function InsertString(s: seq<string>, x: string): seq<string>
  {
    if s == [] || StrLe(x, s[0]) then [x] + s else [s[0]] + InsertString(s[1..], x)
  }

  /** Python's `sorted` on a list of strings. */
  function SortStrings(s: seq<string>): seq<string>
  {
    if s == [] then [] else InsertString(SortStrings(s[1..]), s[0])
  }

  lemma {:induction false} InsertStringKeeps(s: seq<string>, x: string)
    ensures multiset(InsertString(s, x)) == multiset(s) + multiset{x}
    decreases |s|
  {
    if s != [] && !StrLe(x, s[0]) {
      InsertStringKeeps(s[1..], x);
      assert s == [s[0]] + s[1..];
    }
  }

  lemma {:induction false} InsertStringSorted(s: seq<string>, x: string)
    requires SortedStrings(s)
    ensures SortedStrings(InsertString(s, x))
    decreases |s|
  {
    if s == [] {
    } else if StrLe(x, s[0]) {
      var out := [x] + s;
      forall i, j | 0 <= i < j < |out|
        ensures StrLe(out[i], out[j])
      {
        if i == 0 {
          if j > 1 {
            StrLeTransitive(x, s[0], s[j - 1]);
          }
        } else {
          assert out[i] == s[i - 1] && out[j] == s[j - 1];
        }
      }
    } else {
      var rest := s[1..];
      assert SortedStrings(rest) by {
        forall i, j | 0 <= i < j < |rest|
          ensures StrLe(rest[i], rest[j])
        {
          assert rest[i] == s[i + 1] && rest[j] == s[j + 1];
        }
      }
      InsertStringSorted(rest, x);
      InsertStringKeeps(rest, x);
      StrLeTotal(x, s[0]);
      var r := InsertString(rest, x);
      forall j | 0 <= j < |r|
        ensures StrLe(s[0], r[j])
      {
        assert r[j] in multiset(rest) + multiset{x};
        if r[j] != x {
          assert r[j] in rest;
          var m :| 0 <= m < |rest| && rest[m] == r[j];
          assert s[m + 1] == r[j];
        }
      }
      var out := [s[0]] + r;
      assert InsertString(s, x) == out;
      forall i, j | 0 <= i < j < |out|
        ensures StrLe(out[i], out[j])
      {
        if i > 0 {
          assert out[i] == r[i - 1] && out[j] == r[j - 1];
        }
      }
    }
  }

  /** The sorted list is in order and has exactly the input's strings. */
  lemma {:induction false} SortStringsFacts(s: seq<string>)
    ensures SortedStrings(SortStrings(s))
    ensures multiset(SortStrings(s)) == multiset(s)
  {
    if s != [] {
      SortStringsFacts(s[1..]);
      InsertStringSorted(SortStrings(s[1..]), s[0]);
      InsertStringKeeps(SortStrings(s[1..]), s[0]);
      assert s == [s[0]] + s[1..];
    }
  }

  /** `{metro[2] for metro in METRO_AREA_RATES}`. */
  function StatesOf(rows: seq<MetroRow>): set<string>
  {
    set i | 0 <= i < |rows| :: rows[i].state
  }

  /** The loop of get_zip_code_coverage_stats: count the rows by lower-cased geography label. */
  method CountGeographies(rows: seq<MetroRow>) returns (counts: seq<(string, nat)>)
    ensures counts == GeographyCounts(rows)
  {
    counts := [];
    var i := 0;
    while i < |rows|
      invariant 0 <= i <= |rows|
      invariant counts == GeographyCounts(rows[..i])
    {
      assert rows[..i + 1][..i] == rows[..i];
      counts := Bump(counts, CountedLabel(rows[i]));
      i := i + 1;
    }
    assert rows[..|rows|] == rows;
  }

  /**
   * get_zip_code_coverage_stats: the row count, the number of distinct
   * states, the per-geography counts, and the sorted keys of the
   * electricity table.
   */
  method GetZipCodeCoverageStats() returns (stats: CoverageStats)
    ensures stats.totalMetroAreas == |MetroAreaRates|
    ensures stats.statesCovered == |StatesOf(MetroAreaRates)|
    ensures stats.coverageByGeography == GeographyCounts(MetroAreaRates)
    ensures DistinctKeys(stats.coverageByGeography)
    ensures KeysOf(stats.coverageByGeography) == LabelsOf(MetroAreaRates)
    ensures CountTotal(stats.coverageByGeography) == stats.totalMetroAreas
    ensures forall k :: CountOf(stats.coverageByGeography, k) == LabelCount(MetroAreaRates, k)
    ensures SortedStrings(stats.statesList)
    ensures multiset(stats.statesList) == multiset(TableKeys(StateElectricityRates))
  {
    var counts := CountGeographies(MetroAreaRates);
    GeographyCountsFacts(MetroAreaRates);
    var keys := TableKeys(StateElectricityRates);
    SortStringsFacts(keys);
    stats := CoverageStats(|MetroAreaRates|, |StatesOf(MetroAreaRates)|, counts, SortStrings(keys));
  }
}
