/**
 * The contributions screen (src/components/ContributionsScreen.tsx): the
 * date-range filter over the list it is given, and the edit state
 * (`editId`, `editData`, `dateRange`) with its transitions.
 */
module ContributionsScreen {
  import opened Wrappers
  import opened Records
  import Strings
  import Seqs
  import App

  // ---------------------------------------------------------------------
  // Calendar dates, as `new Date("YYYY-MM-DD")` reads them
  // ---------------------------------------------------------------------

  datatype CalendarDate = CalendarDate(year: nat, month: nat, day: nat)

  predicate IsLeapYear(y: nat)
  {
    y % 4 == 0 && (y % 100 != 0 || y % 400 == 0)
  }

  function DaysInMonth(y: nat, m: nat): nat
  {
    if m == 2 then (if IsLeapYear(y) then 29 else 28)
    else if m in {4, 6, 9, 11} then 30
    else 31
  }

  predicate WellFormed(d: CalendarDate)
  {
    d.year <= 9999 && 1 <= d.month <= 12 && 1 <= d.day <= DaysInMonth(d.year, d.month)
  }

  /** Chronological order, which on calendar dates is the lexicographic order of (year, month, day). */
  predicate DateLe(a: CalendarDate, b: CalendarDate)
  {
    a.year < b.year
    || (a.year == b.year && (a.month < b.month || (a.month == b.month && a.day <= b.day)))
  }

  lemma DateLeIsTotalOrder(a: CalendarDate, b: CalendarDate, c: CalendarDate)
    ensures DateLe(a, a)
    ensures DateLe(a, b) && DateLe(b, a) ==> a == b
    ensures DateLe(a, b) && DateLe(b, c) ==> DateLe(a, c)
    ensures DateLe(a, b) || DateLe(b, a)
  {
  }

  /** `width` decimal digits of `n`, with leading zeros. */
  function FixedDigits(n: nat, width: nat): (s: string)
    ensures |s| == width
    ensures forall i :: 0 <= i < |s| ==> Strings.IsDigit(s[i])
    decreases width
  {
    if width == 0 then [] else FixedDigits(n / 10, width - 1) + [Strings.DigitChar(n % 10)]
  }

  function Pow10(k: nat): nat
  {
    if k == 0 then 1 else 10 * Pow10(k - 1)
  }

  lemma {:induction false} FixedDigitsValue(n: nat, width: nat)
    requires n < Pow10(width)
    ensures Strings.DecimalValue(FixedDigits(n, width)) == n
    decreases width
  {
    if width > 0 {
      var s := FixedDigits(n, width);
      assert s[..|s| - 1] == FixedDigits(n / 10, width - 1);
      FixedDigitsValue(n / 10, width - 1);
    }
  }

  lemma DigitCharValue(c: char)
    requires Strings.IsDigit(c)
    ensures Strings.DigitChar(Strings.DigitValue(c)) == c
  {
    var d := Strings.DigitValue(c);
    assert d < 10;
    assert "0123456789"[d] == '0' + (d as char) by {
      if d == 0 {} else if d == 1 {} else if d == 2 {} else if d == 3 {} else if d == 4 {}
      else if d == 5 {} else if d == 6 {} else if d == 7 {} else if d == 8 {} else {}
    }
  }

  lemma LastDigit(v: nat, dv: nat)
    requires dv < 10
    ensures (v * 10 + dv) / 10 == v && (v * 10 + dv) % 10 == dv
  {
  }

  lemma {:induction false} DigitsFixedValue(t: string)
    requires forall i :: 0 <= i < |t| ==> Strings.IsDigit(t[i])
    ensures FixedDigits(Strings.DecimalValue(t), |t|) == t
    decreases |t|
  {
    if t != [] {
      var front := t[..|t| - 1];
      var v := Strings.DecimalValue(front);
      var c := t[|t| - 1];
      var dv := Strings.DigitValue(c);
      DigitsFixedValue(front);
      DigitCharValue(c);
      LastDigit(v, dv);
      assert FixedDigits(v * 10 + dv, |t|) == FixedDigits(v, |front|) + [Strings.DigitChar(dv)];
      assert t == front + [c];
    }
  }

  /** `YYYY-MM-DD`. */
  function FormatIsoDate(d: CalendarDate): string
  {
    FixedDigits(d.year, 4) + "-" + FixedDigits(d.month, 2) + "-" + FixedDigits(d.day, 2)
  }

  /**
   * The date an ISO `YYYY-MM-DD` string denotes; `None` for any other text
   * (an Invalid Date, whose comparisons are all false).
   */
  function ParseIsoDate(s: string): (r: Option<CalendarDate>)
    ensures r.Some? ==> WellFormed(r.value) && FormatIsoDate(r.value) == s
  {
    if |s| == 10 && s[4] == '-' && s[7] == '-'
       && (forall i :: 0 <= i < 10 && i != 4 && i != 7 ==> Strings.IsDigit(s[i]))
    then
      var d := CalendarDate(Strings.DecimalValue(s[..4]), Strings.DecimalValue(s[5..7]), Strings.DecimalValue(s[8..]));
      if WellFormed(d) then
        DigitsFixedValue(s[..4]);
        DigitsFixedValue(s[5..7]);
        DigitsFixedValue(s[8..]);
        assert s == s[..4] + "-" + s[5..7] + "-" + s[8..];
        Some(d)
      else None
    else None
  }

  /** Every well-formed date is read back from its ISO text. */
  lemma ParseFormatRoundTrip(d: CalendarDate)
    requires WellFormed(d)
    ensures ParseIsoDate(FormatIsoDate(d)) == Some(d)
  {
    var s := FormatIsoDate(d);
    FormatShape(d);
    assert Pow10(4) == 10000 && Pow10(2) == 100;
    FixedDigitsValue(d.year, 4);
    FixedDigitsValue(d.month, 2);
    FixedDigitsValue(d.day, 2);
  }

  /** The ISO text has the shape the parser checks, with the three fields at their offsets. */
  lemma FormatShape(d: CalendarDate)
    ensures var s := FormatIsoDate(d);
      && |s| == 10 && s[4] == '-' && s[7] == '-'
      && (forall i :: 0 <= i < 10 && i != 4 && i != 7 ==> Strings.IsDigit(s[i]))
      && s[..4] == FixedDigits(d.year, 4) && s[5..7] == FixedDigits(d.month, 2) && s[8..] == FixedDigits(d.day, 2)
  {
    var y, m, dd := FixedDigits(d.year, 4), FixedDigits(d.month, 2), FixedDigits(d.day, 2);
    var s := FormatIsoDate(d);
    assert s == y + "-" + m + "-" + dd;
    assert forall i :: 0 <= i < 4 ==> s[i] == y[i];
    assert forall i :: 5 <= i < 7 ==> s[i] == m[i - 5];
    assert forall i :: 8 <= i < 10 ==> s[i] == dd[i - 8];
  }

  // ---------------------------------------------------------------------
  // The date-range filter (`filteredContributions`)
  // ---------------------------------------------------------------------

  /** `dateRange`: the two `<input type="date">` values, `''` when unset. */
  datatype DateRange = DateRange(startDate: string, endDate: string)

  datatype DateBound = StartDate | EndDate

  /** `date >= bound` on Date objects: false when either is an Invalid Date. */
  predicate OnOrAfter(date: Option<CalendarDate>, bound: Option<CalendarDate>)
  {
    date.Some? && bound.Some? && DateLe(bound.value, date.value)
  }

  predicate OnOrBefore(date: Option<CalendarDate>, bound: Option<CalendarDate>)
  {
    date.Some? && bound.Some? && DateLe(date.value, bound.value)
  }

  /** The filter callback: an empty bound is falsy and unset; a set bound is a (possibly invalid) Date object. */
  predicate Passes(dateRange: DateRange, contribution: Contribution)
    ensures Passes(dateRange, contribution) && (dateRange.startDate != "" || dateRange.endDate != "") ==>
      ParseIsoDate(contribution.date).Some?
    ensures dateRange.startDate != "" && Passes(dateRange, contribution) ==>
      OnOrAfter(ParseIsoDate(contribution.date), ParseIsoDate(dateRange.startDate))
    ensures dateRange.endDate != "" && Passes(dateRange, contribution) ==>
      OnOrBefore(ParseIsoDate(contribution.date), ParseIsoDate(dateRange.endDate))
  {
    if dateRange.startDate == "" && dateRange.endDate == "" then true
    else
      var contributionDate := ParseIsoDate(contribution.date);
      if dateRange.startDate != "" && dateRange.endDate != "" then
        OnOrAfter(contributionDate, ParseIsoDate(dateRange.startDate))
        && OnOrBefore(contributionDate, ParseIsoDate(dateRange.endDate))
      else if dateRange.startDate != "" then
        OnOrAfter(contributionDate, ParseIsoDate(dateRange.startDate))
      else if dateRange.endDate != "" then
        OnOrBefore(contributionDate, ParseIsoDate(dateRange.endDate))
      else true
  }

  function PassesRange(dateRange: DateRange): Contribution -> bool
  {
    (c: Contribution) => Passes(dateRange, c)
  }

  /** `contributions.filter(...)`: the records in range, in list order. */
  function FilteredContributions(contributions: seq<Contribution>, dateRange: DateRange): (r: seq<Contribution>)
    ensures |r| <= |contributions|
    ensures Seqs.IsSubsequence(r, contributions)
    ensures forall i :: 0 <= i < |r| ==> r[i] in contributions && Passes(dateRange, r[i])
    ensures forall i :: 0 <= i < |contributions| && Passes(dateRange, contributions[i]) ==> contributions[i] in r
    ensures forall c :: multiset(r)[c] == if Passes(dateRange, c) then multiset(contributions)[c] else 0
  {
    Seqs.FilterIsSubsequence(contributions, PassesRange(dateRange));
    FilterCounts(contributions, dateRange);
    Seqs.Filter(contributions, PassesRange(dateRange))
  }

  /** Each record is shown as many times as it is listed when it passes, and never otherwise. */
  lemma FilterCounts(contributions: seq<Contribution>, dateRange: DateRange)
    ensures forall c :: multiset(Seqs.Filter(contributions, PassesRange(dateRange)))[c]
                        == if Passes(dateRange, c) then multiset(contributions)[c] else 0
  {
    forall c
      ensures multiset(Seqs.Filter(contributions, PassesRange(dateRange)))[c]
              == if Passes(dateRange, c) then multiset(contributions)[c] else 0
    {
      Seqs.FilterMultiplicity(contributions, PassesRange(dateRange), c);
    }
  }

  /** With both bounds empty the whole list is shown. */
  lemma NoBoundsShowsAll(contributions: seq<Contribution>)
    ensures FilteredContributions(contributions, DateRange("", "")) == contributions
  {
    Seqs.FilterAllKept(contributions, PassesRange(DateRange("", "")));
  }

  /** Both bounds set to valid dates: the inclusive interval. */
  lemma BothBoundsInclusive(dateRange: DateRange, c: Contribution, start: CalendarDate, end: CalendarDate)
    requires ParseIsoDate(dateRange.startDate) == Some(start)
    requires ParseIsoDate(dateRange.endDate) == Some(end)
    ensures Passes(dateRange, c) <==>
      ParseIsoDate(c.date).Some? && DateLe(start, ParseIsoDate(c.date).value) && DateLe(ParseIsoDate(c.date).value, end)
  {
    ParsedIsNonEmpty(dateRange.startDate);
    ParsedIsNonEmpty(dateRange.endDate);
    var d := ParseIsoDate(c.date);
    assert Passes(dateRange, c) == (OnOrAfter(d, Some(start)) && OnOrBefore(d, Some(end)));
  }

  /** Only a ten-character string parses, so a parsed bound is a set one. */
  lemma ParsedIsNonEmpty(s: string)
    requires ParseIsoDate(s).Some?
    ensures s != ""
  {
    assert |s| == 10;
  }

  /** Only the start bound set: on or after it. */
  lemma StartBoundOnly(dateRange: DateRange, c: Contribution, start: CalendarDate)
    requires ParseIsoDate(dateRange.startDate) == Some(start) && dateRange.endDate == ""
    ensures Passes(dateRange, c) <==> ParseIsoDate(c.date).Some? && DateLe(start, ParseIsoDate(c.date).value)
  {
  }

  /** Only the end bound set: on or before it. */
  lemma EndBoundOnly(dateRange: DateRange, c: Contribution, end: CalendarDate)
    requires dateRange.startDate == "" && ParseIsoDate(dateRange.endDate) == Some(end)
    ensures Passes(dateRange, c) <==> ParseIsoDate(c.date).Some? && DateLe(ParseIsoDate(c.date).value, end)
  {
  }

  /** A record whose date is not an ISO date is hidden whenever a bound is set. */
  lemma InvalidDateHiddenByAnyBound(dateRange: DateRange, c: Contribution)
    requires ParseIsoDate(c.date).None?
    requires dateRange.startDate != "" || dateRange.endDate != ""
    ensures !Passes(dateRange, c)
  {
  }

  /** A bound that is set but is not a date is an Invalid Date, and every record then fails. */
  lemma InvalidBoundHidesAll(dateRange: DateRange, c: Contribution)
    requires || (dateRange.startDate != "" && ParseIsoDate(dateRange.startDate).None?)
             || (dateRange.endDate != "" && ParseIsoDate(dateRange.endDate).None?)
    ensures !Passes(dateRange, c)
  {
  }

  // ---------------------------------------------------------------------
  // The edit state
  // ---------------------------------------------------------------------

  /** The `type` attribute of each edit input. */
  function InputType(name: FieldName): string
  {
    match name
    case Region => "text"
    case Date => "date"
    case _ => "number"
  }

  /** A field value of a `Partial<Contribution>`. */
  datatype FieldValue = TextValue(text: string) | NumberValue(number: NumInput)

  function GetField(p: Partial, name: FieldName): Option<FieldValue>
  {
    match name
    case Region => if p.region.Some? then Some(TextValue(p.region.value)) else None
    case Date => if p.date.Some? then Some(TextValue(p.date.value)) else None
    case AvgTemp => if p.avgTemp.Some? then Some(NumberValue(p.avgTemp.value)) else None
    case AvgWindSpeed => if p.avgWindSpeed.Some? then Some(NumberValue(p.avgWindSpeed.value)) else None
    case AvgSoilTemp => if p.avgSoilTemp.Some? then Some(NumberValue(p.avgSoilTemp.value)) else None
    case Precipitation => if p.precipitation.Some? then Some(NumberValue(p.precipitation.value)) else None
  }

  /** `{...contribution}`: every field present with the record's value. */
  function FullCopy(c: Contribution): (p: Partial)
    ensures p.id == Some(c.id) && p.region == Some(c.region) && p.date == Some(c.date)
    ensures p.avgTemp == Some(Num(c.avgTemp)) && p.avgWindSpeed == Some(Num(c.avgWindSpeed))
    ensures p.avgSoilTemp == Some(Num(c.avgSoilTemp)) && p.precipitation == Some(Num(c.precipitation))
  {
    Partial(Some(c.id), Some(c.region), Some(c.date),
      Some(Num(c.avgTemp)), Some(Num(c.avgWindSpeed)), Some(Num(c.avgSoilTemp)), Some(Num(c.precipitation)))
  }

  /** What `handleEditChange` stores: `type === 'number' ? parseFloat(value) || 0 : value`. */
  function StoredValue(name: FieldName, value: string, parseFloat: Parser): FieldValue
  {
    if InputType(name) == "number" then NumberValue(Num(ParseOrZero(parseFloat, value))) else TextValue(value)
  }

  /** `{...editData, [name]: stored value}`. */
  function WithEditChange(editData: Partial, name: FieldName, value: string, parseFloat: Parser): (r: Partial)
    ensures GetField(r, name) == Some(StoredValue(name, value, parseFloat))
    ensures forall other :: other != name ==> GetField(r, other) == GetField(editData, other)
    ensures r.id == editData.id
    ensures IsNumeric(name) ==> GetField(r, name) == Some(NumberValue(Num(ParseOrZero(parseFloat, value))))
    ensures !IsNumeric(name) ==> GetField(r, name) == Some(TextValue(value))
  {
    var n := Num(ParseOrZero(parseFloat, value));
    match name
    case Region => editData.(region := Some(value))
    case Date => editData.(date := Some(value))
    case AvgTemp => editData.(avgTemp := Some(n))
    case AvgWindSpeed => editData.(avgWindSpeed := Some(n))
    case AvgSoilTemp => editData.(avgSoilTemp := Some(n))
    case Precipitation => editData.(precipitation := Some(n))
  }

  /** `{...dateRange, [name]: value}`. */
  function WithBound(dateRange: DateRange, name: DateBound, value: string): (r: DateRange)
    ensures name == StartDate ==> r.startDate == value && r.endDate == dateRange.endDate
    ensures name == EndDate ==> r.endDate == value && r.startDate == dateRange.startDate
  {
    match name
    case StartDate => dateRange.(startDate := value)
    case EndDate => dateRange.(endDate := value)
  }

  /** Saving an untouched copy writes the record back as it was. */
  lemma MergeFullCopy(c: Contribution, number: Parser)
    ensures App.Merge(c, FullCopy(c), number) == c
  {
  }

  /** Start editing a listed record and save at once: the list is unchanged (ids being unique). */
  lemma SaveUntouchedCopyKeepsList(contributions: seq<Contribution>, k: nat, number: Parser)
    requires UniqueIds(contributions) && k < |contributions|
    ensures App.UpdateRecords(contributions, contributions[k].id, FullCopy(contributions[k]), number) == contributions
  {
    var c := contributions[k];
    var r := App.UpdateRecords(contributions, c.id, FullCopy(c), number);
    forall i | 0 <= i < |contributions|
      ensures r[i] == contributions[i]
    {
      if contributions[i].id == c.id {
        assert i == k;
        MergeFullCopy(c, number);
      }
    }
  }

  /**
   * Start editing a listed record, change one field and save: that record
   * alone changes, and only in the edited field; ids being unique.
   */
  lemma SaveOneEditChangesOneField(
    contributions: seq<Contribution>, k: nat, name: FieldName, value: string, parseFloat: Parser, number: Parser)
    requires UniqueIds(contributions) && k < |contributions|
    ensures var c := contributions[k];
            var r := App.UpdateRecords(contributions, c.id, WithEditChange(FullCopy(c), name, value, parseFloat), number);
            && |r| == |contributions|
            && (forall i :: 0 <= i < |r| && i != k ==> r[i] == contributions[i])
            && r[k].id == c.id
            && (name == Region ==> r[k] == c.(region := value))
            && (name == Date ==> r[k] == c.(date := value))
            && (name == AvgTemp ==> r[k] == c.(avgTemp := ParseOrZero(parseFloat, value)))
            && (name == AvgWindSpeed ==> r[k] == c.(avgWindSpeed := ParseOrZero(parseFloat, value)))
            && (name == AvgSoilTemp ==> r[k] == c.(avgSoilTemp := ParseOrZero(parseFloat, value)))
            && (name == Precipitation ==> r[k] == c.(precipitation := ParseOrZero(parseFloat, value)))
  {
    var c := contributions[k];
    var r := App.UpdateRecords(contributions, c.id, WithEditChange(FullCopy(c), name, value, parseFloat), number);
    forall i | 0 <= i < |r| && i != k
      ensures r[i] == contributions[i]
    {
      assert contributions[i].id != c.id;
    }
  }

  /** The screen's own state cells. */
  class ContributionsScreenState {
    var editId: Option<Id>
    var editData: Partial
    var dateRange: DateRange

    constructor ()
      ensures editId == None && editData == EmptyPartial && dateRange == DateRange("", "")
    {
      editId := None;
      editData := EmptyPartial;
      dateRange := DateRange("", "");
    }

    /** The records shown, and hence the "Showing X of Y" pair. */
    function Shown(contributions: seq<Contribution>): (r: seq<Contribution>)
      reads this
      ensures |r| <= |contributions|
    {
      FilteredContributions(contributions, dateRange)
    }

    method StartEdit(contribution: Contribution)
      modifies this
      ensures editId == Some(contribution.id) && editData == FullCopy(contribution)
      ensures dateRange == old(dateRange)
    {
      editId := Some(contribution.id);
      editData := FullCopy(contribution);
    }

    method HandleEditChange(name: FieldName, value: string, parseFloat: Parser)
      modifies this
      ensures editData == WithEditChange(old(editData), name, value, parseFloat)
      ensures editId == old(editId) && dateRange == old(dateRange)
    {
      editData := WithEditChange(editData, name, value, parseFloat);
    }

    method HandleDateRangeChange(name: DateBound, value: string)
      modifies this
      ensures dateRange == WithBound(old(dateRange), name, value)
      ensures editId == old(editId) && editData == old(editData)
    {
      dateRange := WithBound(dateRange, name, value);
    }

    /** Calls `updateContribution(editId, editData)` when editing, then leaves edit mode; `editData` is kept. */
    method SaveEdit(app: App.AppState, number: Parser)
      modifies this, app
      ensures app.contributions ==
        if old(editId).Some? then App.UpdateRecords(old(app.contributions), old(editId).value, old(editData), number)
        else old(app.contributions)
      ensures app.currentScreen == old(app.currentScreen)
      ensures editId == None && editData == old(editData) && dateRange == old(dateRange)
    {
      if editId.Some? {
        app.UpdateContribution(editId.value, editData, number);
      }
      editId := None;
    }

    /** Leaves edit mode; no callback runs, so the list cannot change. */
    method CancelEdit()
      modifies this
      ensures editId == None && editData == old(editData) && dateRange == old(dateRange)
    {
      editId := None;
    }

    method ClearDateRange()
      modifies this
      ensures dateRange == DateRange("", "")
      ensures editId == old(editId) && editData == old(editData)
    {
      dateRange := DateRange("", "");
    }
  }
}
