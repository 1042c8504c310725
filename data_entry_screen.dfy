/**
 * The data-entry form (ag-frontend/src/components/DataEntryScreen.tsx): the
 * `formData` state, single-field updates, and submission, which coerces the
 * four numeric fields, hands one record to the view shell and resets the form.
 */
module DataEntryScreen {
  import opened Wrappers
  import opened Records
  import App

  /** `iso.split('T')[0]`: the text before the first `T`. */
  function DatePart(iso: string): (r: string)
    ensures r <= iso
    ensures 'T' !in r
    ensures |r| < |iso| ==> iso[|r|] == 'T'
  {
    if iso == [] || iso[0] == 'T' then [] else [iso[0]] + DatePart(iso[1..])
  }

  /** Today's date taken from `toISOString()` text `YYYY-MM-DDTHH:mm:ss.sssZ`. */
  lemma {:induction false} DatePartOfTimestamp(date: string, time: string)
    requires 'T' !in date
    ensures DatePart(date + "T" + time) == date
  {
    if date != [] {
      assert (date + "T" + time)[1..] == date[1..] + "T" + time;
      DatePartOfTimestamp(date[1..], time);
    }
  }

  /** The blank form: empty text everywhere except the date, which is today. */
  function InitialForm(nowIso: string): (f: FormData)
    ensures f.region == "" && f.date == DatePart(nowIso)
    ensures f.avgTemp == Text("") && f.avgWindSpeed == Text("")
    ensures f.avgSoilTemp == Text("") && f.precipitation == Text("")
  {
    FormData("", DatePart(nowIso), Text(""), Text(""), Text(""), Text(""))
  }

  /** An input's current value, as the text or number it holds. */
  function FormValue(f: FormData, name: FieldName): NumInput
  {
    match name
    case Region => Text(f.region)
    case Date => Text(f.date)
    case AvgTemp => f.avgTemp
    case AvgWindSpeed => f.avgWindSpeed
    case AvgSoilTemp => f.avgSoilTemp
    case Precipitation => f.precipitation
  }

  /** `{...formData, [name]: value}`: the named input takes the text, the other five keep theirs. */
  function WithInput(f: FormData, name: FieldName, value: string): (r: FormData)
    ensures FormValue(r, name) == Text(value)
    ensures forall other :: other != name ==> FormValue(r, other) == FormValue(f, other)
  {
    match name
    case Region => f.(region := value)
    case Date => f.(date := value)
    case AvgTemp => f.(avgTemp := Text(value))
    case AvgWindSpeed => f.(avgWindSpeed := Text(value))
    case AvgSoilTemp => f.(avgSoilTemp := Text(value))
    case Precipitation => f.(precipitation := Text(value))
  }

  /** Every numeric input holds text, as `<input>` values always do. */
  predicate NumericInputsAreText(f: FormData)
  {
    f.avgTemp.Text? && f.avgWindSpeed.Text? && f.avgSoilTemp.Text? && f.precipitation.Text?
  }

  /** `contributionData`: region and date verbatim, every numeric field parsed or 0. */
  function Submission(f: FormData, parseFloat: Parser): (r: FormData)
    ensures r.region == f.region && r.date == f.date
    ensures r.avgTemp == Num(ParseFieldOrZero(parseFloat, f.avgTemp))
    ensures r.avgWindSpeed == Num(ParseFieldOrZero(parseFloat, f.avgWindSpeed))
    ensures r.avgSoilTemp == Num(ParseFieldOrZero(parseFloat, f.avgSoilTemp))
    ensures r.precipitation == Num(ParseFieldOrZero(parseFloat, f.precipitation))
  {
    f.(avgTemp := Num(ParseFieldOrZero(parseFloat, f.avgTemp)),
       avgWindSpeed := Num(ParseFieldOrZero(parseFloat, f.avgWindSpeed)),
       avgSoilTemp := Num(ParseFieldOrZero(parseFloat, f.avgSoilTemp)),
       precipitation := Num(ParseFieldOrZero(parseFloat, f.precipitation)))
  }

  /**
   * The record the view shell stores for a submitted form: the parsed text
   * (0 when it does not parse), whatever `Number` does, because the form has
   * already turned every numeric field into a number.
   */
  lemma StoredRecordIsParsedForm(f: FormData, id: Id, parseFloat: Parser, number: Parser)
    requires NumericInputsAreText(f)
    ensures var c := App.NewContribution(Submission(f, parseFloat), id, number);
            && c.id == id && c.region == f.region && c.date == f.date
            && c.avgTemp == ParseOrZero(parseFloat, f.avgTemp.text)
            && c.avgWindSpeed == ParseOrZero(parseFloat, f.avgWindSpeed.text)
            && c.avgSoilTemp == ParseOrZero(parseFloat, f.avgSoilTemp.text)
            && c.precipitation == ParseOrZero(parseFloat, f.precipitation.text)
  {
  }

  /** The form state of the screen. */
  class DataEntryScreenState {
    var formData: FormData

    constructor (nowIso: string)
      ensures formData == InitialForm(nowIso)
      ensures NumericInputsAreText(formData)
    {
      formData := InitialForm(nowIso);
    }

    method HandleInputChange(name: FieldName, value: string)
      modifies this
      ensures formData == WithInput(old(formData), name, value)
      ensures NumericInputsAreText(old(formData)) ==> NumericInputsAreText(formData)
    {
      formData := WithInput(formData, name, value);
    }

    /**
     * Calls `addContribution(contributionData)` once, then resets the form;
     * `nowMillis` is the shell's `Date.now()`, `nowIso` the reset's `new Date()`.
     */
    method HandleSubmit(app: App.AppState, parseFloat: Parser, number: Parser, nowMillis: Id, nowIso: string)
      modifies this, app
      ensures app.contributions == App.AddRecord(old(app.contributions), Submission(old(formData), parseFloat), nowMillis, number)
      ensures |app.contributions| == |old(app.contributions)| + 1
      ensures app.currentScreen == old(app.currentScreen)
      ensures formData == InitialForm(nowIso)
    {
      var contributionData := Submission(formData, parseFloat);
      app.AddContribution(contributionData, nowMillis, number);
      formData := InitialForm(nowIso);
    }
  }
}
