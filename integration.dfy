/**
 * How the prediction screen and the Flask service fit together: the body the
 * screen posts is the form the service reads, and the service's JSON reply is
 * the optional-field record the screen maps.
 */
module Integration {
  import opened Wrappers
  import HomeScreen
  import Backend

  /** The service reads back exactly what the screen sent, and no date bounds. */
  lemma {:induction false} PostedFormReadsBack(s: HomeScreen.SearchData)
    ensures Backend.SelectedRegion(HomeScreen.RequestBody(s)) == s.location
    ensures Backend.SelectedCrop(HomeScreen.RequestBody(s)) == s.crop
    ensures Backend.StartDateOf(HomeScreen.RequestBody(s)) == ""
    ensures Backend.EndDateOf(HomeScreen.RequestBody(s)) == ""
    ensures Backend.DateConditions(Backend.StartDateOf(HomeScreen.RequestBody(s)),
                                   Backend.EndDateOf(HomeScreen.RequestBody(s))) == Backend.NoDateFilter
  {
    var body := HomeScreen.RequestBody(s);
    assert body[0] == ("region", s.location);
    if s.crop != "" {
      assert body == [("region", s.location), ("crop", s.crop)];
      assert body[1..] == [("crop", s.crop)];
      assert body[1..][1..] == [];
    } else {
      assert body == [("region", s.location)];
      assert body[1..] == [];
    }
  }

  /** The service adds the crop filter to its first station query exactly when the screen had a crop chosen. */
  lemma CropFilterFollowsScreen(s: HomeScreen.SearchData)
    ensures var body := HomeScreen.RequestBody(s);
            var q := Backend.InitialStationQuery(Backend.SelectedRegion(body), Backend.SelectedCrop(body), Backend.NoDateFilter);
            q.region == s.location && (q.crop.Some? <==> s.crop != "")
  {
    PostedFormReadsBack(s);
  }

  /** The `weather` object of the reply: numbers as JSON numbers, precipitation as the text `str()` gave. */
  function WeatherJson(w: Option<Backend.WeatherInfo>): (r: HomeScreen.WeatherData)
    ensures w.None? ==> r == HomeScreen.WeatherData(None, None, None)
    ensures w.Some? ==> r.date == Some(w.value.date) && r.avgTemp == Some(HomeScreen.Num(w.value.avgTemp))
                        && r.precipitation == Some(HomeScreen.Str(w.value.precipitation))
  {
    match w
    case None => HomeScreen.WeatherData(None, None, None)
    case Some(info) => HomeScreen.WeatherData(Some(info.date), Some(HomeScreen.Num(info.avgTemp)), Some(HomeScreen.Str(info.precipitation)))
  }

  function SoilJson(s: Option<Backend.SoilInfo>): (r: HomeScreen.SoilData)
    ensures s.None? ==> r == HomeScreen.SoilData(None, None, None)
    ensures s.Some? ==> r.date == Some(s.value.date) && r.maxSoilTemp == Some(HomeScreen.Num(s.value.maxSoilTemp))
                        && r.minSoilTemp == Some(HomeScreen.Num(s.value.minSoilTemp))
  {
    match s
    case None => HomeScreen.SoilData(None, None, None)
    case Some(info) => HomeScreen.SoilData(Some(info.date), Some(HomeScreen.Num(info.maxSoilTemp)), Some(HomeScreen.Num(info.minSoilTemp)))
  }

  /** The service's reply as the screen reads it: an empty `{}` is an object with every field undefined. */
  function ReplyJson(response: Backend.StationResponse): (r: HomeScreen.ResponseData)
    ensures response.NoStation? ==> r == HomeScreen.ResponseData(Some(response.error), None, None, None, None)
    ensures response.StationFound? ==>
      && r.error.None? && r.station == Some(HomeScreen.StationData(Some(response.name), Some(response.location)))
      && r.weather == Some(WeatherJson(response.weather)) && r.soil == Some(SoilJson(response.soil))
      && r.crop == response.crop
  {
    match response
    case NoStation(e) => HomeScreen.ResponseData(Some(e), None, None, None, None)
    case StationFound(name, location, crop, weather, soil) =>
      HomeScreen.ResponseData(None, Some(HomeScreen.StationData(Some(name), Some(location))),
                              Some(WeatherJson(weather)), Some(SoilJson(soil)), crop)
  }

  /** The service's "no stations" reply ends the submit with that message as the banner. */
  lemma NoStationReplyBecomesBanner(showNumber: real -> string)
    ensures HomeScreen.SubmitOutcome(HomeScreen.Received(ReplyJson(Backend.NoStation(Backend.NoStationMessage))), showNumber)
            == HomeScreen.Failed(Backend.NoStationMessage)
  {
  }

  /** A station reply always leads to results, headed by the station's name and carrying the crop's pest line. */
  lemma StationReplyBecomesResults(response: Backend.StationResponse, showNumber: real -> string)
    requires response.StationFound?
    ensures var out := HomeScreen.SubmitOutcome(HomeScreen.Received(ReplyJson(response)), showNumber);
            && out.Succeeded?
            && out.results.stationName == Some(response.name)
            && out.results.yieldPrediction == (if response.name != "" then "Data for " + response.name else "N/A")
            && out.results.pestRisks == (if response.crop.Some? && response.crop.value != ""
                                         then ["Risk info for " + response.crop.value] else ["N/A"])
            && (out.results.wateringSchedule == "N/A" <==> response.weather.None?)
            && (out.results.soilHealth == "N/A" <==> response.soil.None?)
  {
    var data := ReplyJson(response);
    HomeScreen.WateringScheduleNotApplicableIffAbsent(data, showNumber);
    HomeScreen.SoilHealthNotApplicableIffAbsent(data, showNumber);
  }
}
