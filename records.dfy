/**
 * The observation records shared by the front-end screens: the `Contribution`
 * interface (src/components/ContributionsScreen.tsx), the data-entry `FormData`
 * (`string | number` numeric fields) and the `Partial<Contribution>` patches of the
 * edit flow, with JavaScript's two numeric coercions; and the form-encoded
 * body the prediction screen posts to the service.
 */
module Records {
  import opened Wrappers

  /** Record identifiers; the only producer is `Date.now()`, a millisecond count. */
  type Id = int

  datatype Contribution = Contribution(
    id: Id,
    region: string,
    date: string,
    avgTemp: real,
    avgWindSpeed: real,
    avgSoilTemp: real,
    precipitation: real)

  /** A value typed `string | number`. */
  datatype NumInput = Text(text: string) | Num(num: real)

  datatype FormData = FormData(
    region: string,
    date: string,
    avgTemp: NumInput,
    avgWindSpeed: NumInput,
    avgSoilTemp: NumInput,
    precipitation: NumInput)

  /** The `name` attributes of the six record inputs, on both the entry form and the edit form. */
  datatype FieldName = Region | Date | AvgTemp | AvgWindSpeed | AvgSoilTemp | Precipitation

  predicate IsNumeric(name: FieldName)
  {
    name in {AvgTemp, AvgWindSpeed, AvgSoilTemp, Precipitation}
  }

  /** `Partial<Contribution>`: `None` is a field that is absent (undefined). */
  datatype Partial = Partial(
    id: Option<Id>,
    region: Option<string>,
    date: Option<string>,
    avgTemp: Option<NumInput>,
    avgWindSpeed: Option<NumInput>,
    avgSoilTemp: Option<NumInput>,
    precipitation: Option<NumInput>)

  /** The patch with no field present, `{}`. */
  const EmptyPartial: Partial := Partial(None, None, None, None, None, None, None)

  /**
   * A numeric reading of text (`parseFloat`, `Number`): `None` stands for NaN.
   * Float parsing itself is not modelled; each conversion is a parameter.
   */
  type Parser = string -> Option<real>

  /** `parseFloat(s) || 0`: the parsed value, or 0 when the text does not parse. */
  function ParseOrZero(parseFloat: Parser, s: string): (r: real)
    ensures parseFloat(s).None? ==> r == 0.0
    ensures parseFloat(s).Some? ==> r == parseFloat(s).value
  {
    parseFloat(s).GetOr(0.0)
  }

  /**
   * `parseFloat(v as string) || 0` as DataEntryScreen applies it; a number is
   * read back as itself.
   */
  function ParseFieldOrZero(parseFloat: Parser, v: NumInput): (r: real)
    ensures v.Num? ==> r == v.num
    ensures v.Text? ==> r == ParseOrZero(parseFloat, v.text)
  {
    match v
    case Num(x) => x
    case Text(s) => ParseOrZero(parseFloat, s)
  }

  /**
   * `Number(v)` as App applies it: the identity on numbers, the abstract
   * conversion with a zero fallback on text.
   */
  function ToNumber(number: Parser, v: NumInput): (r: real)
    ensures v.Num? ==> r == v.num
    ensures v.Text? ==> r == number(v.text).GetOr(0.0)
  {
    match v
    case Num(x) => x
    case Text(s) => number(s).GetOr(0.0)
  }

  /** A form-encoded body: its (key, value) entries in append order. */
  type FormBody = seq<(string, string)>

  /** The ids in a list are pairwise distinct (assumed by the source, never checked). */
  ghost predicate UniqueIds(cs: seq<Contribution>)
  {
    forall i, j :: 0 <= i < |cs| && 0 <= j < |cs| && cs[i].id == cs[j].id ==> i == j
  }
}
