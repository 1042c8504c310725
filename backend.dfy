/**
 * The Flask service (app.py): the region list, the crop list, and the station
 * lookup with its date filter, fallback chain and response assembly. The
 * database is an oracle that answers each query with no result, no rows, or
 * rows; the SQL text itself is not modelled.
 */
module Backend {
  import opened Wrappers
  import Strings
  import opened Records

  // ---------------------------------------------------------------------
  // Python string operations: str.strip(), str.split(','), ordering
  // ---------------------------------------------------------------------

  /** The characters `str.isspace()` accepts, which `str.strip()` removes. */
  predicate IsSpace(c: char)
  {
    || c == ' ' || ('\t' <= c <= '\r') || ('\U{1C}' <= c <= '\U{1F}')
    || c == '\U{85}' || c == '\U{A0}' || c == '\U{1680}'
    || ('\U{2000}' <= c <= '\U{200A}') || c == '\U{2028}' || c == '\U{2029}'
    || c == '\U{202F}' || c == '\U{205F}' || c == '\U{3000}'
  }

  function LStrip(s: string): (r: string)
    ensures |r| <= |s| && r == s[|s| - |r|..]
    ensures r == [] || !IsSpace(r[0])
    ensures forall i :: 0 <= i < |s| - |r| ==> IsSpace(s[i])
  {
    if s != [] && IsSpace(s[0]) then LStrip(s[1..]) else s
  }

  function RStrip(s: string): (r: string)
    ensures |r| <= |s| && r == s[..|r|]
    ensures r == [] || !IsSpace(r[|r| - 1])
    ensures forall i :: |r| <= i < |s| ==> IsSpace(s[i])
  {
    if s != [] && IsSpace(s[|s| - 1]) then RStrip(s[..|s| - 1]) else s
  }

  /** `s.strip()`: the slice left after removing leading and trailing whitespace. */
  function Strip(s: string): (r: string)
    ensures r == [] || (!IsSpace(r[0]) && !IsSpace(r[|r| - 1]))
    ensures exists i, j :: 0 <= i <= j <= |s| && r == s[i..j] && AllSpace(s[..i]) && AllSpace(s[j..])
  {
    var left := LStrip(s);
    var r := RStrip(left);
    var i := |s| - |left|;
    var j := i + |r|;
    assert r == s[i..j];
    assert AllSpace(s[..i]) && AllSpace(s[j..]);
    r
  }

  predicate AllSpace(s: string)
  {
    forall k :: 0 <= k < |s| ==> IsSpace(s[k])
  }

  /** The first index of `c` in `s`, or `|s|`. */
  function IndexOf(s: string, c: char): (i: nat)
    ensures i <= |s|
    ensures i < |s| ==> s[i] == c
    ensures c !in s[..i]
  {
    if s == [] then 0 else if s[0] == c then 0 else 1 + IndexOf(s[1..], c)
  }

  /** `s.split(sep)` for a one-character separator: always at least one piece, none holding `sep`. */
  function Split(s: string, sep: char): (r: seq<string>)
    ensures |r| >= 1
    ensures forall k :: 0 <= k < |r| ==> sep !in r[k]
    decreases |s|
  {
    var i := IndexOf(s, sep);
    if i == |s| then [s] else [s[..i]] + Split(s[i + 1..], sep)
  }

  /** `sep.join(pieces)`. */
  function Join(pieces: seq<string>, sep: char): string
  {
    if pieces == [] then [] else if |pieces| == 1 then pieces[0] else pieces[0] + [sep] + Join(pieces[1..], sep)
  }

  /** Splitting loses nothing: joining the pieces gives the text back. */
  lemma {:induction false} JoinSplit(s: string, sep: char)
    ensures Join(Split(s, sep), sep) == s
    decreases |s|
  {
    var i := IndexOf(s, sep);
    if i < |s| {
      var rest := Split(s[i + 1..], sep);
      var pieces := [s[..i]] + rest;
      assert Split(s, sep) == pieces;
      assert pieces[1..] == rest;
      assert Join(pieces, sep) == s[..i] + [sep] + Join(rest, sep);
      JoinSplit(s[i + 1..], sep);
      assert s == s[..i] + [sep] + s[i + 1..];
    } else {
      assert Split(s, sep) == [s];
    }
  }

  /** `[region.strip() for region in loc.split(',')]`. */
  function RegionPieces(loc: string): (r: seq<string>)
    ensures |r| == |Split(loc, ',')|
    ensures forall k :: 0 <= k < |r| ==> r[k] == Strip(Split(loc, ',')[k])
  {
    StripAll(Split(loc, ','))
  }

  function StripAll(parts: seq<string>): (r: seq<string>)
    ensures |r| == |parts|
    ensures forall k :: 0 <= k < |r| ==> r[k] == Strip(parts[k])
  {
    if parts == [] then [] else [Strip(parts[0])] + StripAll(parts[1..])
  }

  /** Python's `<` on `str`: lexicographic by code point, a proper prefix first. */
  predicate StrLess(a: string, b: string)
    decreases |a|
  {
    if a == [] then b != []
    else if b == [] then false
    else if a[0] != b[0] then a[0] < b[0]
    else StrLess(a[1..], b[1..])
  }

  lemma {:induction false} StrLessIrreflexive(a: string)
    ensures !StrLess(a, a)
    decreases |a|
  {
    if a != [] {
      StrLessIrreflexive(a[1..]);
    }
  }

  lemma {:induction false} StrLessTransitive(a: string, b: string, c: string)
    requires StrLess(a, b) && StrLess(b, c)
    ensures StrLess(a, c)
    decreases |a|
  {
    if a != [] && b != [] && c != [] && a[0] == b[0] && b[0] == c[0] {
      StrLessTransitive(a[1..], b[1..], c[1..]);
    }
  }

  lemma {:induction false} StrLessTotal(a: string, b: string)
    requires a != b
    ensures StrLess(a, b) || StrLess(b, a)
    decreases |a|
  {
    if a != [] && b != [] && a[0] == b[0] {
      assert a == [a[0]] + a[1..] && b == [b[0]] + b[1..];
      StrLessTotal(a[1..], b[1..]);
    }
  }

  lemma StrLessAsymmetric(a: string, b: string)
    requires StrLess(a, b)
    ensures !StrLess(b, a)
  {
    if StrLess(b, a) {
      StrLessTransitive(a, b, a);
      StrLessIrreflexive(a);
    }
  }

  predicate StrictlyAscending(s: seq<string>)
  {
    forall i, j :: 0 <= i < j < |s| ==> StrLess(s[i], s[j])
  }

  /** Strictly ascending lists hold no value twice. */
  lemma AscendingHasNoDuplicates(s: seq<string>)
    requires StrictlyAscending(s)
    ensures forall i, j :: 0 <= i < j < |s| ==> s[i] != s[j]
  {
    forall i, j | 0 <= i < j < |s|
      ensures s[i] != s[j]
    {
      if s[i] == s[j] {
        StrLessIrreflexive(s[i]);
      }
    }
  }

  /** Insert `x` into a strictly ascending list unless it is already there. */
  function InsertUnique(x: string, s: seq<string>): (r: seq<string>)
    requires StrictlyAscending(s)
    ensures StrictlyAscending(r)
    ensures forall y :: y in r <==> y == x || y in s
  {
    if s == [] then [x]
    else if x == s[0] then s
    else if StrLess(x, s[0]) then
      assert forall j :: 0 < j < |s| ==> StrLess(x, s[j]) by {
        forall j | 0 < j < |s| ensures StrLess(x, s[j]) {
          StrLessTransitive(x, s[0], s[j]);
        }
      }
      [x] + s
    else
      StrLessTotal(x, s[0]);
      var rest := InsertUnique(x, s[1..]);
      assert forall y :: y in rest ==> StrLess(s[0], y) by {
        forall y | y in rest ensures StrLess(s[0], y) {
          if y != x {
            var j :| 0 <= j < |s[1..]| && s[1..][j] == y;
            assert s[j + 1] == y;
          }
        }
      }
      var r := [s[0]] + rest;
      assert forall i, j :: 0 <= i < j < |r| ==> StrLess(r[i], r[j]) by {
        forall i, j | 0 <= i < j < |r| ensures StrLess(r[i], r[j]) {
          if i == 0 {
            assert r[j] in rest;
          } else {
            assert r[i] == rest[i - 1] && r[j] == rest[j - 1];
          }
        }
      }
      assert s == [s[0]] + s[1..];
      r
  }

  /** `sorted(list(set(xs)))`. */
  function SortedUnique(xs: seq<string>): (r: seq<string>)
    ensures StrictlyAscending(r)
    ensures forall y :: y in r <==> y in xs
  {
    if xs == [] then []
    else
      assert xs == [xs[0]] + xs[1..];
      InsertUnique(xs[0], SortedUnique(xs[1..]))
  }

  /** A strictly ascending list is determined by its elements, so `sorted(list(set(xs)))` has one answer. */
  lemma {:induction false} AscendingUnique(a: seq<string>, b: seq<string>)
    requires StrictlyAscending(a) && StrictlyAscending(b)
    requires forall y :: y in a <==> y in b
    ensures a == b
    decreases |a|
  {
    assert a == [] <==> b == [] by {
      if a != [] {
        assert a[0] in b;
      }
      if b != [] {
        assert b[0] in a;
      }
    }
    if a != [] {
      assert a[0] == b[0] by {
        if a[0] != b[0] {
          assert a[0] in b;
          var j :| 0 <= j < |b| && b[j] == a[0];
          assert b[0] in a;
          var i :| 0 <= i < |a| && a[i] == b[0];
          assert j > 0 && i > 0;
          StrLessAsymmetric(a[0], a[i]);
        }
      }
      forall y
        ensures y in a[1..] <==> y in b[1..]
      {
        if y in a[1..] {
          var i :| 0 <= i < |a[1..]| && a[1..][i] == y;
          assert a[i + 1] == y;
          StrLessIrreflexive(a[0]);
          assert y in b;
          var j :| 0 <= j < |b| && b[j] == y;
          assert j != 0;
          assert b[1..][j - 1] == y;
        }
        if y in b[1..] {
          var j :| 0 <= j < |b[1..]| && b[1..][j] == y;
          assert b[j + 1] == y;
          StrLessIrreflexive(b[0]);
          assert y in a;
          var i :| 0 <= i < |a| && a[i] == y;
          assert i != 0;
          assert a[1..][i - 1] == y;
        }
      }
      AscendingUnique(a[1..], b[1..]);
      assert a == [a[0]] + a[1..] && b == [b[0]] + b[1..];
    }
  }

  // ---------------------------------------------------------------------
  // Query results and the database oracle
  // ---------------------------------------------------------------------

  /** `execute_query`'s answer: `None` on failure, otherwise a (possibly empty) frame. */
  type QueryResult<T> = Option<seq<T>>

  /** `result is None or result.empty`. */
  predicate NoRows<T>(r: QueryResult<T>)
  {
    r.None? || |r.value| == 0
  }

  // ---------------------------------------------------------------------
  // /api/regions and /api/crops
  // ---------------------------------------------------------------------

  /** Some row among the first `k` has `r` among the pieces `pieces` makes of it. */
  predicate InSomeRow<T>(rows: seq<T>, pieces: T -> seq<string>, k: nat, r: string)
    requires k <= |rows|
  {
    exists j :: 0 <= j < k && r in pieces(rows[j])
  }

  lemma InSomeRowStep<T>(rows: seq<T>, pieces: T -> seq<string>, k: nat)
    requires k < |rows|
    ensures forall r :: InSomeRow(rows, pieces, k + 1, r) <==> InSomeRow(rows, pieces, k, r) || r in pieces(rows[k])
  {
    forall r
      ensures InSomeRow(rows, pieces, k + 1, r) <==> InSomeRow(rows, pieces, k, r) || r in pieces(rows[k])
    {
      if InSomeRow(rows, pieces, k + 1, r) {
        var j :| 0 <= j < k + 1 && r in pieces(rows[j]);
        if j < k {
          assert InSomeRow(rows, pieces, k, r);
        }
      }
      if InSomeRow(rows, pieces, k, r) {
        var j :| 0 <= j < k && r in pieces(rows[j]);
        assert 0 <= j < k + 1;
      }
    }
  }

  /** `get_regions`: the distinct stripped comma-separated pieces of all station locations, ascending. */
  method GetRegions(locationResult: QueryResult<string>) returns (uniqueLocations: seq<string>)
    ensures StrictlyAscending(uniqueLocations)
    ensures NoRows(locationResult) ==> uniqueLocations == []
    ensures forall r :: r in uniqueLocations <==>
      locationResult.Some? && InSomeRow(locationResult.value, RegionPieces, |locationResult.value|, r)
  {
    var allLocations: seq<string> := [];
    if !NoRows(locationResult) {
      var rows := locationResult.value;
      var k := 0;
      while k < |rows|
        invariant 0 <= k <= |rows|
        invariant forall r :: r in allLocations <==> InSomeRow(rows, RegionPieces, k, r)
      {
        var regions := RegionPieces(rows[k]);
        InSomeRowStep(rows, RegionPieces, k);
        allLocations := allLocations + regions;
        k := k + 1;
      }
    }
    uniqueLocations := SortedUnique(allLocations);
  }

  /** `get_crops`: the query's crop names, or none when the query gave nothing. */
  function GetCrops(cropResult: QueryResult<string>): (cropTypes: seq<string>)
    ensures NoRows(cropResult) ==> cropTypes == []
    ensures !NoRows(cropResult) ==> cropTypes == cropResult.value
  {
    if !NoRows(cropResult) then cropResult.value else []
  }

  // ---------------------------------------------------------------------
  // /get_random_station
  // ---------------------------------------------------------------------

  /** `request.form.get(key)`: the first value sent under `key`. */
  function FormGet(form: FormBody, key: string): (r: Option<string>)
    ensures r.None? <==> forall i :: 0 <= i < |form| ==> form[i].0 != key
    ensures r.Some? ==> (key, r.value) in form
    ensures r.Some? ==> exists i :: 0 <= i < |form| && form[i] == (key, r.value) && forall j :: 0 <= j < i ==> form[j].0 != key
  {
    if form == [] then None
    else if form[0].0 == key then Some(form[0].1)
    else FormGet(form[1..], key)
  }

  /** `selected_region`: interpolated into the query, so a missing region reads as the text `None`. */
  function SelectedRegion(form: FormBody): (r: string)
    ensures FormGet(form, "region").Some? ==> r == FormGet(form, "region").value
    ensures FormGet(form, "region").None? ==> r == "None"
  {
    FormGet(form, "region").GetOr("None")
  }

  /** `request.form.get('crop', '')`; likewise the two dates. */
  function SelectedCrop(form: FormBody): (r: string)
    ensures FormGet(form, "crop").Some? ==> r == FormGet(form, "crop").value
    ensures FormGet(form, "crop").None? ==> r == ""
  {
    FormGet(form, "crop").GetOr("")
  }

  function StartDateOf(form: FormBody): (r: string)
    ensures FormGet(form, "start_date").Some? ==> r == FormGet(form, "start_date").value
    ensures FormGet(form, "start_date").None? ==> r == ""
  {
    FormGet(form, "start_date").GetOr("")
  }

  function EndDateOf(form: FormBody): (r: string)
    ensures FormGet(form, "end_date").Some? ==> r == FormGet(form, "end_date").value
    ensures FormGet(form, "end_date").None? ==> r == ""
  {
    FormGet(form, "end_date").GetOr("")
  }

  /** The date restriction added to a query. */
  datatype DateClause = NoDateFilter | Between(start: string, end: string) | OnOrAfter(start: string) | OnOrBefore(end: string)

  function LowerBound(c: DateClause): Option<string>
  {
    match c
    case Between(s, _) => Some(s)
    case OnOrAfter(s) => Some(s)
    case _ => None
  }

  function UpperBound(c: DateClause): Option<string>
  {
    match c
    case Between(_, e) => Some(e)
    case OnOrBefore(e) => Some(e)
    case _ => None
  }

  /** `date_conditions`: the clause bounds the dates by exactly the non-empty dates supplied. */
  function DateConditions(startDate: string, endDate: string): (c: DateClause)
    ensures LowerBound(c) == if startDate != "" then Some(startDate) else None
    ensures UpperBound(c) == if endDate != "" then Some(endDate) else None
    ensures c.NoDateFilter? <==> startDate == "" && endDate == ""
  {
    if startDate != "" && endDate != "" then Between(startDate, endDate)
    else if startDate != "" then OnOrAfter(startDate)
    else if endDate != "" then OnOrBefore(endDate)
    else NoDateFilter
  }

  /** The station queries: the joined one (with or without the crop filter) and the plain region one. */
  datatype StationQuery =
    | JoinedStationQuery(region: string, crop: Option<string>, dates: DateClause)
    | RegionStationQuery(region: string)

  /** The first `station_query`: the crop filter is there if and only if a crop was selected. */
  function InitialStationQuery(region: string, crop: string, dates: DateClause): (q: StationQuery)
    ensures q.JoinedStationQuery? && q.region == region && q.dates == dates
    ensures q.crop.Some? <==> crop != ""
    ensures q.crop.Some? ==> q.crop.value == crop
  {
    if crop != "" then JoinedStationQuery(region, Some(crop), dates) else JoinedStationQuery(region, None, dates)
  }

  /** The queries tried in order until one has rows. */
  function Attempts(region: string, crop: string, dates: DateClause): (qs: seq<StationQuery>)
    ensures |qs| == if crop != "" then 3 else 2
    ensures qs[0] == InitialStationQuery(region, crop, dates)
    ensures crop != "" ==> qs[1] == JoinedStationQuery(region, None, dates)
    ensures qs[|qs| - 1] == RegionStationQuery(region)
  {
    [InitialStationQuery(region, crop, dates)]
    + (if crop != "" then [JoinedStationQuery(region, None, dates)] else [])
    + [RegionStationQuery(region)]
  }

  datatype StationRow = StationRow(stationName: string, location: string)
  datatype DateRow = DateRow(year: nat, month: nat, day: nat)
  /** `precip` is the text `str()` gives for the column value. */
  datatype CombinedRow = CombinedRow(avgAirTemp: real, precip: string, maxSoilTemp: real, minSoilTemp: real)
  /** `precipIsNumber`: the `precip` value is a number, so the row's columns are all numeric. */
  datatype WeatherRow = WeatherRow(year: nat, month: nat, day: nat, avgAirTemp: real, precip: string, precipIsNumber: bool)
  datatype SoilRow = SoilRow(year: nat, month: nat, day: nat, maxSoilTemp: real, minSoilTemp: real)

  datatype DateQuery = DateQuery(station: string, dates: DateClause)
  datatype CombinedQuery = CombinedQuery(station: string, year: nat, month: nat, day: nat)

  /** The database, as the answers it gives to each query of this endpoint. */
  datatype Db = Db(
    stations: StationQuery -> QueryResult<StationRow>,
    dates: DateQuery -> QueryResult<DateRow>,
    combined: CombinedQuery -> QueryResult<CombinedRow>,
    weather: string -> QueryResult<WeatherRow>,
    soil: string -> QueryResult<SoilRow>)

  /** The first row of the first query that has rows. */
  function FirstHit(stations: StationQuery -> QueryResult<StationRow>, qs: seq<StationQuery>): (r: Option<StationRow>)
    ensures r.None? <==> forall i :: 0 <= i < |qs| ==> NoRows(stations(qs[i]))
  {
    if qs == [] then None
    else if !NoRows(stations(qs[0])) then Some(stations(qs[0]).value[0])
    else FirstHit(stations, qs[1..])
  }

  /** The date query's own filter, built by its own if-chain: the same restriction as the station query's. */
  function DateQueryFor(stationName: string, startDate: string, endDate: string): (q: DateQuery)
    ensures q.station == stationName
    ensures q.dates == DateConditions(startDate, endDate)
  {
    if startDate != "" && endDate != "" then DateQuery(stationName, Between(startDate, endDate))
    else if startDate != "" then DateQuery(stationName, OnOrAfter(startDate))
    else if endDate != "" then DateQuery(stationName, OnOrBefore(endDate))
    else DateQuery(stationName, NoDateFilter)
  }

  /** `f"{year}-{month}-{day}"`: digits and exactly the two separating dashes. */
  function DateText(year: nat, month: nat, day: nat): (r: string)
    ensures forall i :: 0 <= i < |r| ==> r[i] == '-' || Strings.IsDigit(r[i])
    ensures |r| > |Strings.NatToString(year)| && r[|Strings.NatToString(year)|] == '-'
  {
    Strings.NatToString(year) + "-" + Strings.NatToString(month) + "-" + Strings.NatToString(day)
  }

  /** In `a + "-" + rest`, with no dash in `a`, the first dash is the one right after `a`. */
  lemma {:induction false} FirstDashAfter(a: string, rest: string)
    requires forall i :: 0 <= i < |a| ==> a[i] != '-'
    ensures IndexOf(a + "-" + rest, '-') == |a|
  {
    if a != [] {
      assert (a + "-" + rest)[1..] == a[1..] + "-" + rest;
      FirstDashAfter(a[1..], rest);
    }
  }

  /** Splitting at the first dash: a dash-free head before `-` is determined by the text. */
  lemma SplitAtFirstDash(a: string, rest: string, b: string, rest': string)
    requires forall i :: 0 <= i < |a| ==> a[i] != '-'
    requires forall i :: 0 <= i < |b| ==> b[i] != '-'
    requires a + "-" + rest == b + "-" + rest'
    ensures a == b && rest == rest'
  {
    var s := a + "-" + rest;
    FirstDashAfter(a, rest);
    FirstDashAfter(b, rest');
    assert a == s[..|a|] && b == s[..|b|];
    assert rest == s[|a| + 1..] && rest' == s[|b| + 1..];
  }

  lemma NoDash(n: nat)
    ensures forall i :: 0 <= i < |Strings.NatToString(n)| ==> Strings.NatToString(n)[i] != '-'
  {
  }

  /** Three dash-free-headed parts joined by dashes can be read back apart. */
  lemma DashJoinInjective(a1: string, b1: string, c1: string, a2: string, b2: string, c2: string)
    requires forall i :: 0 <= i < |a1| ==> a1[i] != '-'
    requires forall i :: 0 <= i < |b1| ==> b1[i] != '-'
    requires forall i :: 0 <= i < |a2| ==> a2[i] != '-'
    requires forall i :: 0 <= i < |b2| ==> b2[i] != '-'
    requires a1 + "-" + b1 + "-" + c1 == a2 + "-" + b2 + "-" + c2
    ensures a1 == a2 && b1 == b2 && c1 == c2
  {
    assert a1 + "-" + b1 + "-" + c1 == a1 + "-" + (b1 + "-" + c1);
    assert a2 + "-" + b2 + "-" + c2 == a2 + "-" + (b2 + "-" + c2);
    SplitAtFirstDash(a1, b1 + "-" + c1, a2, b2 + "-" + c2);
    SplitAtFirstDash(b1, c1, b2, c2);
  }

  /** The date text determines the date: distinct (year, month, day) triples print differently. */
  lemma DateTextInjective(y1: nat, m1: nat, d1: nat, y2: nat, m2: nat, d2: nat)
    requires DateText(y1, m1, d1) == DateText(y2, m2, d2)
    ensures y1 == y2 && m1 == m2 && d1 == d2
  {
    NoDash(y1);
    NoDash(m1);
    NoDash(y2);
    NoDash(m2);
    DashJoinInjective(Strings.NatToString(y1), Strings.NatToString(m1), Strings.NatToString(d1),
                      Strings.NatToString(y2), Strings.NatToString(m2), Strings.NatToString(d2));
    Strings.NatToStringInjective(y1, y2);
    Strings.NatToStringInjective(m1, m2);
    Strings.NatToStringInjective(d1, d2);
  }

  /** Python's `str()` of an integer-valued float: its digits, then `.0`. */
  function FloatText(n: nat): (r: string)
    ensures |r| >= 3 && r[|r| - 2..] == ".0"
    ensures r[..|r| - 2] == Strings.NatToString(n)
  {
    Strings.NatToString(n) + ".0"
  }

  /**
   * `f"{year}-{month}-{day}"` over fields taken from a row whose columns are all numeric:
   * pandas gives such a row as one float series, so each field prints as a float.
   */
  function FloatDateText(year: nat, month: nat, day: nat): (r: string)
    ensures forall i :: 0 <= i < |r| ==> r[i] == '-' || r[i] == '.' || Strings.IsDigit(r[i])
    ensures '.' in r
  {
    assert FloatText(year)[|FloatText(year)| - 2] == '.';
    FloatText(year) + "-" + FloatText(month) + "-" + FloatText(day)
  }

  /** The date text of a fallback row: float text when the row was read as floats, integer text otherwise. */
  function RowDateText(allNumeric: bool, year: nat, month: nat, day: nat): (r: string)
    ensures allNumeric ==> r == FloatDateText(year, month, day)
    ensures !allNumeric ==> r == DateText(year, month, day)
  {
    if allNumeric then FloatDateText(year, month, day) else DateText(year, month, day)
  }

  /** A float-rendered date is never integer text: it cannot read as any `year-month-day` of whole numbers. */
  lemma FloatDateNotIntegerText(y1: nat, m1: nat, d1: nat, y2: nat, m2: nat, d2: nat)
    ensures FloatDateText(y1, m1, d1) != DateText(y2, m2, d2)
  {
    var f := FloatDateText(y1, m1, d1);
    var t := DateText(y2, m2, d2);
    var i :| 0 <= i < |f| && f[i] == '.';
    if |f| == |t| {
      assert t[i] != '.';
    }
  }

  lemma FloatTextNoDash(n: nat)
    ensures forall i :: 0 <= i < |FloatText(n)| ==> FloatText(n)[i] != '-'
  {
    NoDash(n);
  }

  /** Distinct dates still give distinct float texts. */
  lemma FloatDateTextInjective(y1: nat, m1: nat, d1: nat, y2: nat, m2: nat, d2: nat)
    requires FloatDateText(y1, m1, d1) == FloatDateText(y2, m2, d2)
    ensures y1 == y2 && m1 == m2 && d1 == d2
  {
    FloatTextNoDash(y1);
    FloatTextNoDash(m1);
    FloatTextNoDash(y2);
    FloatTextNoDash(m2);
    DashJoinInjective(FloatText(y1), FloatText(m1), FloatText(d1), FloatText(y2), FloatText(m2), FloatText(d2));
    Strings.NatToStringInjective(y1, y2);
    Strings.NatToStringInjective(m1, m2);
    Strings.NatToStringInjective(d1, d2);
  }

  datatype WeatherInfo = WeatherInfo(date: string, avgTemp: real, precipitation: string)
  datatype SoilInfo = SoilInfo(date: string, maxSoilTemp: real, minSoilTemp: real)

  /** The JSON reply: the error object, or the response dict (`None` weather/soil is `{}`). */
  datatype StationResponse =
    | NoStation(error: string)
    | StationFound(name: string, location: string, crop: Option<string>, weather: Option<WeatherInfo>, soil: Option<SoilInfo>)

  const NoStationMessage: string := "No stations found for the selected region. Try a different region."

  /** The weather and soil parts of the response for a chosen station, as lines 136-257 fill them. */
  ghost predicate ReadingsFor(db: Db, stationName: string, startDate: string, endDate: string,
                              weather: Option<WeatherInfo>, soil: Option<SoilInfo>)
  {
    var dateResult := db.dates(DateQueryFor(stationName, startDate, endDate));
    if !NoRows(dateResult) then
      var d := dateResult.value[0];
      var combined := db.combined(CombinedQuery(stationName, d.year, d.month, d.day));
      if !NoRows(combined) then
        var row := combined.value[0];
        && weather == Some(WeatherInfo(DateText(d.year, d.month, d.day), row.avgAirTemp, row.precip))
        && soil == Some(SoilInfo(DateText(d.year, d.month, d.day), row.maxSoilTemp, row.minSoilTemp))
      else weather == None && soil == None
    else
      var w := db.weather(stationName);
      var s := db.soil(stationName);
      && weather == (if NoRows(w) then None
                     else Some(WeatherInfo(RowDateText(w.value[0].precipIsNumber, w.value[0].year, w.value[0].month, w.value[0].day),
                                           w.value[0].avgAirTemp, w.value[0].precip)))
      && soil == (if NoRows(s) then None
                  else Some(SoilInfo(FloatDateText(s.value[0].year, s.value[0].month, s.value[0].day),
                                     s.value[0].maxSoilTemp, s.value[0].minSoilTemp)))
  }

  /** Lines 84-134: try the station queries in order; `None` is the error reply. */
  method FindStation(db: Db, region: string, crop: string, dates: DateClause) returns (station: Option<StationRow>)
    ensures station == FirstHit(db.stations, Attempts(region, crop, dates))
  {
    ghost var qs := Attempts(region, crop, dates);
    ghost var last := [RegionStationQuery(region)];
    assert last[1..] == [];
    assert crop == "" ==> qs[1..] == last;
    assert crop != "" ==> qs[1..] == [JoinedStationQuery(region, None, dates)] + last && qs[1..][1..] == last;
    assert FirstHit(db.stations, last) == if NoRows(db.stations(last[0])) then None else Some(db.stations(last[0]).value[0]);
    var stationResult := db.stations(InitialStationQuery(region, crop, dates));
    if NoRows(stationResult) {
      assert FirstHit(db.stations, qs) == FirstHit(db.stations, qs[1..]);
      if crop != "" {
        stationResult := db.stations(JoinedStationQuery(region, None, dates));
        if NoRows(stationResult) {
          assert FirstHit(db.stations, qs[1..]) == FirstHit(db.stations, last);
        }
      }
      if NoRows(stationResult) {
        stationResult := db.stations(RegionStationQuery(region));
        if NoRows(stationResult) {
          return None;
        }
      }
    }
    station := Some(stationResult.value[0]);
  }

  /** Lines 136-257: the response dict, filled in place. */
  method AssembleResponse(db: Db, station: StationRow, crop: string, startDate: string, endDate: string)
    returns (response: StationResponse)
    ensures response.StationFound?
    ensures response.name == station.stationName && response.location == station.location
    ensures response.crop == if crop != "" then Some(crop) else None
    ensures ReadingsFor(db, station.stationName, startDate, endDate, response.weather, response.soil)
  {
    var stationName := station.stationName;
    var randomDateResult := db.dates(DateQueryFor(stationName, startDate, endDate));
    response := StationFound(stationName, station.location, None, None, None);
    if crop != "" {
      response := response.(crop := Some(crop));
    }
    if !NoRows(randomDateResult) {
      var d := randomDateResult.value[0];
      var combinedData := db.combined(CombinedQuery(stationName, d.year, d.month, d.day));
      if !NoRows(combinedData) {
        var dataRow := combinedData.value[0];
        response := response.(weather := Some(WeatherInfo(DateText(d.year, d.month, d.day), dataRow.avgAirTemp, dataRow.precip)));
        response := response.(soil := Some(SoilInfo(DateText(d.year, d.month, d.day), dataRow.maxSoilTemp, dataRow.minSoilTemp)));
      }
    } else {
      var weatherData := db.weather(stationName);
      if !NoRows(weatherData) {
        var w := weatherData.value[0];
        response := response.(weather := Some(WeatherInfo(RowDateText(w.precipIsNumber, w.year, w.month, w.day), w.avgAirTemp, w.precip)));
      }
      var soilData := db.soil(stationName);
      if !NoRows(soilData) {
        var s := soilData.value[0];
        response := response.(soil := Some(SoilInfo(FloatDateText(s.year, s.month, s.day), s.maxSoilTemp, s.minSoilTemp)));
      }
    }
  }

  /** `get_random_station`. */
  method GetRandomStation(db: Db, form: FormBody) returns (response: StationResponse)
    ensures var hit := FirstHit(db.stations, Attempts(SelectedRegion(form), SelectedCrop(form),
                                                      DateConditions(StartDateOf(form), EndDateOf(form))));
            && (response.NoStation? <==> hit.None?)
            && (response.NoStation? ==> response.error == NoStationMessage)
            && (response.StationFound? ==>
                  && response.name == hit.value.stationName && response.location == hit.value.location
                  && response.crop == (if SelectedCrop(form) != "" then Some(SelectedCrop(form)) else None)
                  && ReadingsFor(db, response.name, StartDateOf(form), EndDateOf(form), response.weather, response.soil))
  {
    var selectedRegion := SelectedRegion(form);
    var selectedCrop := SelectedCrop(form);
    var startDate := StartDateOf(form);
    var endDate := EndDateOf(form);
    var dateConditions := DateConditions(startDate, endDate);
    var station := FindStation(db, selectedRegion, selectedCrop, dateConditions);
    if station.None? {
      return NoStation(NoStationMessage);
    }
    response := AssembleResponse(db, station.value, selectedCrop, startDate, endDate);
  }

  /** When one row supplied both readings, the weather and soil dates are the same text. */
  lemma CombinedReadingsShareDate(db: Db, stationName: string, startDate: string, endDate: string,
                                  weather: Option<WeatherInfo>, soil: Option<SoilInfo>)
    requires ReadingsFor(db, stationName, startDate, endDate, weather, soil)
    requires !NoRows(db.dates(DateQueryFor(stationName, startDate, endDate)))
    ensures weather.Some? <==> soil.Some?
    ensures weather.Some? ==> weather.value.date == soil.value.date
  {
  }

  /**
   * Without a combined date, the soil date (and the weather date, when `precip` is a number)
   * comes from a float row, so it is not the whole-number `year-month-day` text of any date.
   */
  lemma FallbackDatesAreFloatText(db: Db, stationName: string, startDate: string, endDate: string,
                                  weather: Option<WeatherInfo>, soil: Option<SoilInfo>)
    requires ReadingsFor(db, stationName, startDate, endDate, weather, soil)
    requires NoRows(db.dates(DateQueryFor(stationName, startDate, endDate)))
    ensures soil.Some? ==> forall y: nat, m: nat, d: nat :: soil.value.date != DateText(y, m, d)
    ensures weather.Some? && db.weather(stationName).value[0].precipIsNumber ==>
      forall y: nat, m: nat, d: nat :: weather.value.date != DateText(y, m, d)
  {
    if soil.Some? {
      var row := db.soil(stationName).value[0];
      forall y: nat, m: nat, d: nat ensures soil.value.date != DateText(y, m, d) {
        FloatDateNotIntegerText(row.year, row.month, row.day, y, m, d);
      }
    }
    if weather.Some? && db.weather(stationName).value[0].precipIsNumber {
      var row := db.weather(stationName).value[0];
      forall y: nat, m: nat, d: nat ensures weather.value.date != DateText(y, m, d) {
        FloatDateNotIntegerText(row.year, row.month, row.day, y, m, d);
      }
    }
  }

  /** The station reply is an error only after every query tried came back empty. */
  lemma ErrorOnlyWhenAllEmpty(db: Db, region: string, crop: string, dates: DateClause)
    ensures FirstHit(db.stations, Attempts(region, crop, dates)).None? <==>
      && NoRows(db.stations(InitialStationQuery(region, crop, dates)))
      && (crop != "" ==> NoRows(db.stations(JoinedStationQuery(region, None, dates))))
      && NoRows(db.stations(RegionStationQuery(region)))
  {
    var qs := Attempts(region, crop, dates);
    if crop != "" {
      assert forall i :: 0 <= i < |qs| ==> qs[i] == qs[0] || qs[i] == qs[1] || qs[i] == qs[2];
    } else {
      assert forall i :: 0 <= i < |qs| ==> qs[i] == qs[0] || qs[i] == qs[1];
    }
  }
}
