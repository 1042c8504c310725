/**
 * The prediction screen (ag-frontend/src/components/HomeScreen.tsx): the
 * search form, the request body it posts, the mapping of the server's reply
 * into the display record, the loading/error/result transitions of a submit,
 * and the reference lists fetched on mount. Network replies are abstract
 * outcomes.
 */
module HomeScreen {
  import opened Wrappers
  import Strings
  import opened Records

  datatype SearchData = SearchData(location: string, crop: string)

  datatype SearchField = Location | Crop

  /** `{...prevData, [name]: value}`. */
  function WithSearchInput(s: SearchData, name: SearchField, value: string): (r: SearchData)
    ensures name == Location ==> r.location == value && r.crop == s.crop
    ensures name == Crop ==> r.crop == value && r.location == s.location
  {
    match name
    case Location => s.(location := value)
    case Crop => s.(crop := value)
  }

  /** `region` always, `crop` only when a crop is chosen. */
  function RequestBody(s: SearchData): (body: FormBody)
    ensures |body| == if s.crop != "" then 2 else 1
    ensures body[0] == ("region", s.location)
    ensures forall i :: 0 <= i < |body| ==> body[i].0 == "region" || body[i].0 == "crop"
    ensures forall i :: 1 <= i < |body| ==> body[i].0 != "region"
    ensures (exists i :: 0 <= i < |body| && body[i].0 == "crop") <==> s.crop != ""
    ensures forall i :: 0 <= i < |body| && body[i].0 == "crop" ==> body[i].1 == s.crop
  {
    var body := [("region", s.location)] + (if s.crop != "" then [("crop", s.crop)] else []);
    assert s.crop != "" ==> body[1].0 == "crop";
    body
  }

  // ---------------------------------------------------------------------
  // The server's reply, each field read optionally
  // ---------------------------------------------------------------------

  /** A JSON scalar the reply may carry where a number is expected. */
  datatype Scalar = Str(s: string) | Num(x: real)

  datatype StationData = StationData(name: Option<string>, location: Option<string>)
  datatype WeatherData = WeatherData(date: Option<string>, avgTemp: Option<Scalar>, precipitation: Option<Scalar>)
  datatype SoilData = SoilData(date: Option<string>, maxSoilTemp: Option<Scalar>, minSoilTemp: Option<Scalar>)

  datatype ResponseData = ResponseData(
    error: Option<string>,
    station: Option<StationData>,
    weather: Option<WeatherData>,
    soil: Option<SoilData>,
    crop: Option<string>)

  datatype PredictionResults = PredictionResults(
    yieldPrediction: string,
    recommendedPlantingDate: string,
    wateringSchedule: string,
    pestRisks: seq<string>,
    fertilizer: string,
    soilHealth: string,
    stationName: Option<string>,
    stationLocation: Option<string>,
    weatherDate: Option<string>,
    weatherTemp: Option<Scalar>,
    weatherPrecip: Option<Scalar>,
    soilDate: Option<string>,
    soilMaxTemp: Option<Scalar>,
    soilMinTemp: Option<Scalar>)

  /** JavaScript truthiness of an optional string: present and non-empty. */
  predicate Truthy(s: Option<string>)
  {
    s.Some? && s.value != ""
  }

  /** `${v}`; how a number prints is the parameter `showNumber`. */
  function Show(v: Scalar, showNumber: real -> string): string
  {
    match v
    case Str(s) => s
    case Num(x) => showNumber(x)
  }

  function StationName(data: ResponseData): Option<string>
  {
    if data.station.Some? then data.station.value.name else None
  }

  function StationLocation(data: ResponseData): Option<string>
  {
    if data.station.Some? then data.station.value.location else None
  }

  function WeatherDate(data: ResponseData): Option<string>
  {
    if data.weather.Some? then data.weather.value.date else None
  }

  function WeatherTemp(data: ResponseData): Option<Scalar>
  {
    if data.weather.Some? then data.weather.value.avgTemp else None
  }

  function WeatherPrecip(data: ResponseData): Option<Scalar>
  {
    if data.weather.Some? then data.weather.value.precipitation else None
  }

  function SoilDate(data: ResponseData): Option<string>
  {
    if data.soil.Some? then data.soil.value.date else None
  }

  function SoilMaxTemp(data: ResponseData): Option<Scalar>
  {
    if data.soil.Some? then data.soil.value.maxSoilTemp else None
  }

  function SoilMinTemp(data: ResponseData): Option<Scalar>
  {
    if data.soil.Some? then data.soil.value.minSoilTemp else None
  }

  /** The `°C` suffix exactly as the source's bytes decode: `Â°C`. */
  const DegreesSuffix: string := "Â°C"

  /** `mappedResults`. */
  function MapResults(data: ResponseData, showNumber: real -> string): (r: PredictionResults)
    ensures Truthy(StationName(data)) ==> r.yieldPrediction == "Data for " + StationName(data).value
    ensures !Truthy(StationName(data)) ==> r.yieldPrediction == "N/A"
    ensures r.recommendedPlantingDate == if Truthy(WeatherDate(data)) then WeatherDate(data).value else "N/A"
    ensures WeatherPrecip(data).None? ==> r.wateringSchedule == "N/A"
    ensures WeatherPrecip(data).Some? ==> r.wateringSchedule == Show(WeatherPrecip(data).value, showNumber) + "mm precipitation"
    ensures SoilMaxTemp(data).None? ==> r.soilHealth == "N/A"
    ensures SoilMaxTemp(data).Some? ==> r.soilHealth == "Soil Temp: " + Show(SoilMaxTemp(data).value, showNumber) + DegreesSuffix
    ensures |r.pestRisks| == 1
    ensures r.pestRisks[0] == if Truthy(data.crop) then "Risk info for " + data.crop.value else "N/A"
    ensures r.fertilizer == "Check soil data"
    ensures r.stationName == StationName(data) && r.stationLocation == StationLocation(data)
    ensures r.weatherDate == WeatherDate(data) && r.weatherTemp == WeatherTemp(data)
    ensures r.weatherPrecip == WeatherPrecip(data)
    ensures r.soilDate == SoilDate(data) && r.soilMaxTemp == SoilMaxTemp(data) && r.soilMinTemp == SoilMinTemp(data)
  {
    PredictionResults(
      if Truthy(StationName(data)) then "Data for " + StationName(data).value else "N/A",
      if Truthy(WeatherDate(data)) then WeatherDate(data).value else "N/A",
      if WeatherPrecip(data).Some? then Show(WeatherPrecip(data).value, showNumber) + "mm precipitation" else "N/A",
      if Truthy(data.crop) then ["Risk info for " + data.crop.value] else ["N/A"],
      "Check soil data",
      if SoilMaxTemp(data).Some? then "Soil Temp: " + Show(SoilMaxTemp(data).value, showNumber) + DegreesSuffix else "N/A",
      StationName(data), StationLocation(data),
      WeatherDate(data), WeatherTemp(data), WeatherPrecip(data),
      SoilDate(data), SoilMaxTemp(data), SoilMinTemp(data))
  }

  /** A watering schedule built from a reading always ends in the unit, so it is never the placeholder. */
  lemma WateringScheduleNotApplicableIffAbsent(data: ResponseData, showNumber: real -> string)
    ensures MapResults(data, showNumber).wateringSchedule == "N/A" <==> WeatherPrecip(data).None?
  {
    if WeatherPrecip(data).Some? {
      var w := Show(WeatherPrecip(data).value, showNumber) + "mm precipitation";
      assert w[|w| - 1] == 'n';
    }
  }

  /** A soil-health line built from a reading is never the placeholder. */
  lemma SoilHealthNotApplicableIffAbsent(data: ResponseData, showNumber: real -> string)
    ensures MapResults(data, showNumber).soilHealth == "N/A" <==> SoilMaxTemp(data).None?
  {
    if SoilMaxTemp(data).Some? {
      var h := "Soil Temp: " + Show(SoilMaxTemp(data).value, showNumber) + DegreesSuffix;
      assert h[0] == 'S';
    }
  }

  // ---------------------------------------------------------------------
  // Submitting
  // ---------------------------------------------------------------------

  /** How the awaited `fetch`/`response.json()` ended. */
  datatype Outcome =
    | Rejected(message: Option<string>)  // a thrown value; `None` when it is not an Error
    | NotOk(status: nat)                 // `!response.ok`
    | Received(data: ResponseData)       // a parsed JSON body

  datatype SubmitResult = Failed(message: string) | Succeeded(results: PredictionResults)

  /** What the try/catch leaves: the caught error's message, or the mapped results. */
  function SubmitOutcome(outcome: Outcome, showNumber: real -> string): (r: SubmitResult)
    ensures outcome.NotOk? ==> r == Failed("HTTP error! status: " + Strings.NatToString(outcome.status))
    ensures outcome.Rejected? ==> r == Failed(outcome.message.GetOr("An unknown error occurred"))
    ensures outcome.Received? && Truthy(outcome.data.error) ==> r == Failed(outcome.data.error.value)
    ensures outcome.Received? && !Truthy(outcome.data.error) ==> r == Succeeded(MapResults(outcome.data, showNumber))
    ensures r.Succeeded? <==> outcome.Received? && !Truthy(outcome.data.error)
  {
    match outcome
    case Rejected(m) => Failed(m.GetOr("An unknown error occurred"))
    case NotOk(status) => Failed("HTTP error! status: " + Strings.NatToString(status))
    case Received(data) =>
      if Truthy(data.error) then Failed(data.error.value) else Succeeded(MapResults(data, showNumber))
  }

  /** The reply `{error: "station not found"}` ends in that banner text. */
  lemma StationNotFoundBanner(showNumber: real -> string)
    ensures SubmitOutcome(Received(ResponseData(Some("station not found"), None, None, None, None)), showNumber)
            == Failed("station not found")
  {
  }

  /** How a reference-list fetch ended. */
  datatype ListFetch =
    | FetchFailed              // network failure, non-OK status or unreadable JSON: logged only
    | NotAnArray               // JSON that is not an array
    | AnArray(items: seq<string>)

  /** `if (Array.isArray(data)) setList(data)`: anything but an array leaves the list as it was. */
  function ListAfterFetch(current: seq<string>, fetch: ListFetch): (r: seq<string>)
    ensures fetch.AnArray? ==> r == fetch.items
    ensures !fetch.AnArray? ==> r == current
  {
    if fetch.AnArray? then fetch.items else current
  }

  /** The screen's state cells. */
  class HomeScreenState {
    var searchData: SearchData
    var predictionResults: Option<PredictionResults>
    var loading: bool
    var error: Option<string>
    var regions: seq<string>
    var loadingRegions: bool
    var crops: seq<string>
    var loadingCrops: bool

    constructor ()
      ensures searchData == SearchData("", "") && predictionResults == None
      ensures !loading && error == None
      ensures regions == [] && loadingRegions && crops == [] && loadingCrops
    {
      searchData := SearchData("", "");
      predictionResults := None;
      loading := false;
      error := None;
      regions := [];
      loadingRegions := true;
      crops := [];
      loadingCrops := true;
    }

    /** `predictionResults && !loading && !error`: when the result panel renders. */
    predicate ShowsResults()
      reads this
      ensures ShowsResults() ==> !ShowsError()
      ensures ShowsResults() ==> predictionResults.Some?
    {
      predictionResults.Some? && !loading && !Truthy(error)
    }

    /** `error && ...`: when the error banner renders. */
    predicate ShowsError()
      reads this
      ensures ShowsError() ==> error.Some? && error.value != ""
    {
      Truthy(error)
    }

    /** The mount effect: regions first, then crops, each list replaced only by an array. */
    method LoadReferenceLists(regionsFetch: ListFetch, cropsFetch: ListFetch)
      modifies this
      ensures regions == ListAfterFetch(old(regions), regionsFetch) && !loadingRegions
      ensures crops == ListAfterFetch(old(crops), cropsFetch) && !loadingCrops
      ensures searchData == old(searchData) && predictionResults == old(predictionResults)
      ensures loading == old(loading) && error == old(error)
    {
      loadingRegions := true;
      regions := ListAfterFetch(regions, regionsFetch);
      loadingRegions := false;
      loadingCrops := true;
      crops := ListAfterFetch(crops, cropsFetch);
      loadingCrops := false;
    }

    method HandleInputChange(name: SearchField, value: string)
      modifies this
      ensures searchData == WithSearchInput(old(searchData), name, value)
      ensures predictionResults == old(predictionResults) && loading == old(loading) && error == old(error)
      ensures regions == old(regions) && crops == old(crops)
      ensures loadingRegions == old(loadingRegions) && loadingCrops == old(loadingCrops)
    {
      searchData := WithSearchInput(searchData, name, value);
    }

    /** The part of `handleSubmit` before the `await`: clear the panel and build the body. */
    method BeginSubmit() returns (body: FormBody)
      modifies this
      ensures loading && error == None && predictionResults == None
      ensures body == RequestBody(searchData)
      ensures searchData == old(searchData) && regions == old(regions) && crops == old(crops)
      ensures loadingRegions == old(loadingRegions) && loadingCrops == old(loadingCrops)
    {
      loading := true;
      error := None;
      predictionResults := None;
      body := RequestBody(searchData);
    }

    /** The part after the `await`: try/catch sets one of results or error, `finally` clears loading. */
    method CompleteSubmit(outcome: Outcome, showNumber: real -> string)
      modifies this
      ensures !loading
      ensures SubmitOutcome(outcome, showNumber).Failed? ==>
        error == Some(SubmitOutcome(outcome, showNumber).message) && predictionResults == old(predictionResults)
      ensures SubmitOutcome(outcome, showNumber).Succeeded? ==>
        predictionResults == Some(SubmitOutcome(outcome, showNumber).results) && error == old(error)
      ensures searchData == old(searchData) && regions == old(regions) && crops == old(crops)
      ensures loadingRegions == old(loadingRegions) && loadingCrops == old(loadingCrops)
    {
      var r := SubmitOutcome(outcome, showNumber);
      if r.Failed? {
        error := Some(r.message);
      } else {
        predictionResults := Some(r.results);
      }
      loading := false;
    }

    /** One whole submit, with no other submit overlapping it. */
    method HandleSubmit(outcome: Outcome, showNumber: real -> string) returns (body: FormBody)
      modifies this
      ensures body == RequestBody(old(searchData))
      ensures !loading
      ensures SubmitOutcome(outcome, showNumber).Failed? ==>
        error == Some(SubmitOutcome(outcome, showNumber).message) && predictionResults == None
      ensures SubmitOutcome(outcome, showNumber).Succeeded? ==>
        predictionResults == Some(SubmitOutcome(outcome, showNumber).results) && error == None
      ensures ShowsResults() <==> SubmitOutcome(outcome, showNumber).Succeeded?
      ensures ShowsError() ==> SubmitOutcome(outcome, showNumber).Failed?
      ensures searchData == old(searchData) && regions == old(regions) && crops == old(crops)
      ensures loadingRegions == old(loadingRegions) && loadingCrops == old(loadingCrops)
    {
      body := BeginSubmit();
      CompleteSubmit(outcome, showNumber);
    }
  }
}
