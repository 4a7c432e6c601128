/**
 * The Great Britain adapter: the carbonintensity.org.uk API, queried by
 * postcode first and nationally when the regional query fails.
 */
module CarbonIntensityGB {
  import opened Wrappers
  import opened Http
  import opened Stats
  import opened Timestamps
  import opened Intensity

  const API_URL := "https://api.carbonintensity.org.uk"

  /** The adapter answers for British locations only. */
  predicate Suitable(location: Location) {
    location.country == "GB"
  }

  /** The flag rule: the window ends strictly after the moment of the query. */
  predicate IsPrediction(timeTo: Option<DateTime>, now: DateTime) {
    timeTo.Some? && Before(now, timeTo.value)
  }

  /** No time given: ask for the current value. */
  predicate IsCurrent(timeFrom: Option<DateTime>, timeTo: Option<DateTime>) {
    timeFrom.None? && timeTo.None?
  }

  /** The postcode as it appears in the URL: a missing one formats as `None`. */
  function Postcode(location: Location): string {
    match location.postal
    case Some(p) => p
    case None => "None"
  }

  /** The API's date format `YYYY-MM-DDThh:mmZ`. */
  function FormatTime(t: DateTime): string {
    Strftime(t, 'T', "Z")
  }

  /** `_time_from_to_str`: both ends of the window as API timestamps, a missing end standing for now. */
  function TimeFromToStr(timeFrom: Option<DateTime>, timeTo: Option<DateTime>, now: DateTime): (string, string) {
    (FormatTime(timeFrom.GetOr(now)), FormatTime(timeTo.GetOr(now)))
  }

  /**
   * For four-digit years each timestamp `_time_from_to_str` gives is 17
   * characters, has `T` at index 10, ends in `Z`, and names exactly the
   * minute of its instant (a missing end being now): seconds are dropped.
   */
  lemma TimeFromToStrDenotes(timeFrom: Option<DateTime>, timeTo: Option<DateTime>, now: DateTime)
    ensures var r := TimeFromToStr(timeFrom, timeTo, now);
            var f := timeFrom.GetOr(now);
            1000 <= f.year ==> |r.0| == 17 && r.0[10] == 'T' && r.0[16] == 'Z'
                               && ParseStamp(r.0, 'T', "Z") == Some(TruncateToMinute(f))
    ensures var r := TimeFromToStr(timeFrom, timeTo, now);
            var t := timeTo.GetOr(now);
            1000 <= t.year ==> |r.1| == 17 && r.1[10] == 'T' && r.1[16] == 'Z'
                               && ParseStamp(r.1, 'T', "Z") == Some(TruncateToMinute(t))
  {
    FormatTimeDenotes(timeFrom.GetOr(now));
    FormatTimeDenotes(timeTo.GetOr(now));
  }

  lemma FormatTimeDenotes(t: DateTime)
    ensures 1000 <= t.year ==> |FormatTime(t)| == 17 && FormatTime(t)[10] == 'T' && FormatTime(t)[16] == 'Z'
                               && ParseStamp(FormatTime(t), 'T', "Z") == Some(TruncateToMinute(t))
  {
    if 1000 <= t.year {
      StrftimeRoundTrip(t, 'T', "Z");
      DecimalFourDigits(t.year);
    }
  }

  /**
   * The regional URL, grouped as `_carbon_intensity_gb_regional` builds it:
   * `/regional`, then the window's path when a time is given, then the postcode.
   */
  function RegionalUrl(postcode: string, timeFrom: Option<DateTime>, timeTo: Option<DateTime>, now: DateTime): string {
    var window := if IsCurrent(timeFrom, timeTo) then ""
                  else var (fromStr, toStr) := TimeFromToStr(timeFrom, timeTo, now);
                       "/intensity/" + fromStr + "/" + toStr;
    API_URL + "/regional" + window + "/postcode/" + postcode
  }

  /** The national URL, grouped as `_carbon_intensity_gb_national` builds it. */
  function NationalUrl(timeFrom: Option<DateTime>, timeTo: Option<DateTime>, now: DateTime): string {
    var window := if IsCurrent(timeFrom, timeTo) then ""
                  else var (fromStr, toStr) := TimeFromToStr(timeFrom, timeTo, now);
                       "/" + fromStr + "/" + toStr;
    API_URL + "/intensity" + window
  }

  /**
   * The regional URL shapes: without a time `/regional/postcode/{pc}`; with
   * a time `/regional/intensity/{from}/{to}/postcode/{pc}`, both ends from
   * `_time_from_to_str`.
   */
  lemma RegionalUrlShape(postcode: string, timeFrom: Option<DateTime>, timeTo: Option<DateTime>, now: DateTime)
    ensures IsCurrent(timeFrom, timeTo) ==>
      RegionalUrl(postcode, timeFrom, timeTo, now) == API_URL + "/regional/postcode/" + postcode
    ensures !IsCurrent(timeFrom, timeTo) ==>
      var (fromStr, toStr) := TimeFromToStr(timeFrom, timeTo, now);
      RegionalUrl(postcode, timeFrom, timeTo, now)
        == API_URL + "/regional/intensity/" + fromStr + "/" + toStr + "/postcode/" + postcode
  {
    if IsCurrent(timeFrom, timeTo) {
      assert "/regional" + "" + "/postcode/" == "/regional/postcode/";
    } else {
      var (fromStr, toStr) := TimeFromToStr(timeFrom, timeTo, now);
      RegionalJoin(fromStr, toStr, postcode);
    }
  }

  /** Regrouping the pieces of a windowed regional URL. */
  lemma RegionalJoin(fromStr: string, toStr: string, postcode: string)
    ensures API_URL + "/regional" + ("/intensity/" + fromStr + "/" + toStr) + "/postcode/" + postcode
         == API_URL + "/regional/intensity/" + fromStr + "/" + toStr + "/postcode/" + postcode
  {
    assert "/regional" + "/intensity/" == "/regional/intensity/";
  }

  /** Regrouping the pieces of a windowed national URL. */
  lemma NationalJoin(fromStr: string, toStr: string)
    ensures API_URL + "/intensity" + ("/" + fromStr + "/" + toStr) == API_URL + "/intensity/" + fromStr + "/" + toStr
  {
    assert "/intensity" + "/" == "/intensity/";
  }

  /** The national URL shapes: `/intensity` without a time, `/intensity/{from}/{to}` with one. */
  lemma NationalUrlShape(timeFrom: Option<DateTime>, timeTo: Option<DateTime>, now: DateTime)
    ensures IsCurrent(timeFrom, timeTo) ==> NationalUrl(timeFrom, timeTo, now) == API_URL + "/intensity"
    ensures !IsCurrent(timeFrom, timeTo) ==>
      var (fromStr, toStr) := TimeFromToStr(timeFrom, timeTo, now);
      NationalUrl(timeFrom, timeTo, now) == API_URL + "/intensity/" + fromStr + "/" + toStr
  {
    if IsCurrent(timeFrom, timeTo) {
      assert API_URL + "/intensity" + "" == API_URL + "/intensity";
    } else {
      var (fromStr, toStr) := TimeFromToStr(timeFrom, timeTo, now);
      NationalJoin(fromStr, toStr);
    }
  }

  /** `ci["intensity"]["forecast"]` of one half-hour record. */
  function Forecast(record: Json): Result<real, FetchError> {
    var intensity :- Key(record, "intensity");
    var forecast :- Key(intensity, "forecast");
    Number(forecast)
  }

  /**
   * The records of an OK regional response: `json()["data"]`, unwrapped at
   * index 0 for a current query, then its `["data"]`.
   */
  function RegionalRecords(response: Response, current: bool): Result<seq<Json>, FetchError> {
    var body :- Parsed(response);
    var data :- Key(body, "data");
    var region :- if current then First(data) else Success(data);
    var records :- Key(region, "data");
    Elements(records)
  }

  /** What `_carbon_intensity_gb_regional` returns or raises, given the response. */
  function RegionalResult(response: Response, current: bool): (r: Result<Float, FetchError>)
    ensures r.Success? ==> response.ok && RegionalRecords(response, current).Success?
  {
    if !response.ok then Failure(ErrorFor(response))
    else
      var records :- RegionalRecords(response, current);
      MeanForecast(records)
  }

  /** The mean of the records' forecasts, or the first record's lookup failure. */
  function MeanForecast(records: seq<Json>): Result<Float, FetchError> {
    var forecasts :- CollectValues(records, Forecast);
    Success(Mean(forecasts))
  }

  /** What `_carbon_intensity_gb_national` returns or raises: the first record's forecast. */
  function NationalResult(response: Response): (r: Result<Float, FetchError>)
    ensures r.Success? ==> response.ok && r.value.Finite?
  {
    if !response.ok then Failure(ErrorFor(response))
    else
      var body :- Parsed(response);
      var data :- Key(body, "data");
      var first :- First(data);
      var forecast :- Forecast(first);
      Success(Finite(forecast))
  }

  /** A non-OK response makes both queries raise the fetcher error carrying the body. */
  lemma ErrorResponseRaises(response: Response, current: bool)
    requires !response.ok
    ensures RegionalResult(response, current) == Failure(ErrorFor(response))
    ensures NationalResult(response) == Failure(ErrorFor(response))
    ensures response.body.Some? ==>
      RegionalResult(response, current) == Failure(CarbonIntensityFetcherError(response.body.value))
  {
  }

  /**
   * When every record of an OK regional response has a numeric forecast,
   * the regional value is the mean of those forecasts, in record order.
   */
  lemma RegionalIsMeanOfForecasts(response: Response, current: bool, records: seq<Json>, forecasts: seq<real>)
    requires response.ok && RegionalRecords(response, current) == Success(records)
    requires |records| == |forecasts|
    requires forall i :: 0 <= i < |records| ==> Forecast(records[i]) == Success(forecasts[i])
    ensures RegionalResult(response, current) == Success(Mean(forecasts))
  {
    var c := CollectValues(records, Forecast);
    assert c.Success?;
    assert c.value == forecasts;
  }

  /**
   * A current regional response wraps its region in a list under `data`:
   * only the first region's `data` records are averaged, whatever regions
   * follow it.
   */
  lemma RegionalCurrentUnwraps(inner: map<string, Json>, rest: seq<Json>, records: seq<Json>, forecasts: seq<real>)
    requires "data" in inner && inner["data"] == JArr(records)
    requires |records| == |forecasts|
    requires forall i :: 0 <= i < |records| ==> Forecast(records[i]) == Success(forecasts[i])
    ensures RegionalResult(Response(true, Some(JObj(map["data" := JArr([JObj(inner)] + rest)]))), true)
            == Success(Mean(forecasts))
  {
    var response := Response(true, Some(JObj(map["data" := JArr([JObj(inner)] + rest)])));
    RegionalIsMeanOfForecasts(response, true, records, forecasts);
  }

  /**
   * A windowed regional response holds its region directly under `data`,
   * with no list to unwrap; its `data` records are averaged.
   */
  lemma RegionalWindowedReadsRegion(inner: map<string, Json>, records: seq<Json>, forecasts: seq<real>)
    requires "data" in inner && inner["data"] == JArr(records)
    requires |records| == |forecasts|
    requires forall i :: 0 <= i < |records| ==> Forecast(records[i]) == Success(forecasts[i])
    ensures RegionalResult(Response(true, Some(JObj(map["data" := JObj(inner)]))), false)
            == Success(Mean(forecasts))
  {
    var response := Response(true, Some(JObj(map["data" := JObj(inner)])));
    RegionalIsMeanOfForecasts(response, false, records, forecasts);
  }

  /**
   * The national value is the first record's forecast: the records after it
   * play no part, whatever they hold.
   */
  lemma NationalTakesFirstRecord(fields: map<string, Json>, first: Json, rest: seq<Json>)
    requires "data" in fields
    requires fields["data"] == JArr([first] + rest)
    ensures var national := NationalResult(Response(true, Some(JObj(fields))));
      && (Forecast(first).Success? ==> national == Success(Finite(Forecast(first).value)))
      && (Forecast(first).Failure? ==> national == Failure(Forecast(first).error))
  {
  }

  /**
   * `_carbon_intensity_gb_regional`: builds the URL piece by piece, issues
   * the one request, and averages the forecasts of the records it returns.
   */
  method Regional(postcode: string, timeFrom: Option<DateTime>, timeTo: Option<DateTime>, now: DateTime, get: Oracle)
    returns (r: Result<Float, FetchError>, url: string)
    ensures url == RegionalUrl(postcode, timeFrom, timeTo, now)
    ensures r == RegionalResult(get(url), IsCurrent(timeFrom, timeTo))
  {
    url := API_URL + "/regional";
    if timeFrom.Some? || timeTo.Some? {
      var (fromStr, toStr) := TimeFromToStr(timeFrom, timeTo, now);
      url := url + ("/intensity/" + fromStr + "/" + toStr);
    } else {
      assert url + "" == url;
    }
    url := url + "/postcode/" + postcode;
    var response := get(url);
    if !response.ok {
      return Failure(ErrorFor(response)), url;
    }
    var data := RegionalRecords(response, timeFrom.None? && timeTo.None?);
    if data.Failure? {
      return Failure(data.error), url;
    }
    r := AverageForecasts(data.value);
  }

  /**
   * The loop of `_carbon_intensity_gb_regional` that appends each record's
   * forecast in turn and then takes `np.mean`; a record without a forecast
   * raises.
   */
  method AverageForecasts(records: seq<Json>) returns (r: Result<Float, FetchError>)
    ensures r == MeanForecast(records)
  {
    var carbonIntensities: seq<real> := [];
    var i := 0;
    while i < |records|
      invariant 0 <= i <= |records|
      invariant CollectValues(records[..i], Forecast) == Success(carbonIntensities)
    {
      var ci := Forecast(records[i]);
      if ci.Failure? {
        assert CollectValues(records[..i + 1], Forecast) == Failure(ci.error) by {
          assert records[..i + 1][..i] == records[..i];
        }
        CollectPrefixFailure(records, i + 1, Forecast);
        return Failure(ci.error);
      }
      CollectExtend(records, i, Forecast, carbonIntensities, ci.value);
      carbonIntensities := carbonIntensities + [ci.value];
      i := i + 1;
    }
    assert records[..i] == records;
    r := Success(Mean(carbonIntensities));
  }

  /**
   * `carbon_intensity`: a fresh result object for the location, flagged as a
   * prediction by the window's end, holding the regional value when the
   * regional query succeeds and otherwise the national one; only a national
   * failure is raised. `requested` lists the URLs requested, in order.
   */
  method CarbonIntensity(location: Location, timeFrom: Option<DateTime>, timeTo: Option<DateTime>, now: DateTime, get: Oracle)
    returns (r: Result<Intensity.CarbonIntensity, FetchError>, requested: seq<string>)
    ensures var regionalUrl := RegionalUrl(Postcode(location), timeFrom, timeTo, now);
            var regional := RegionalResult(get(regionalUrl), IsCurrent(timeFrom, timeTo));
            var nationalUrl := NationalUrl(timeFrom, timeTo, now);
            var national := NationalResult(get(nationalUrl));
            && (regional.Success? ==>
                  requested == [regionalUrl] && r.Success? && r.value.carbonIntensity == Some(regional.value))
            && (regional.Failure? ==>
                  requested == [regionalUrl, nationalUrl]
                  && (national.Success? ==> r.Success? && r.value.carbonIntensity == Some(national.value))
                  && (national.Failure? ==> r == Failure(national.error)))
    ensures r.Success? ==> fresh(r.value) && r.value.location == location
                           && r.value.isPrediction == IsPrediction(timeTo, now)
  {
    var ci := new Intensity.CarbonIntensity(location);
    if timeTo.Some? && Before(now, timeTo.value) {
      ci.isPrediction := true;
    }
    var postcode := Postcode(location);
    var regional, regionalUrl := Regional(postcode, timeFrom, timeTo, now, get);
    var value: Float;
    if regional.Success? {
      requested := [regionalUrl];
      value := regional.value;
    } else {
      var nationalUrl := NationalUrl(timeFrom, timeTo, now);
      requested := [regionalUrl, nationalUrl];
      var national := NationalResult(get(nationalUrl));
      if national.Failure? {
        return Failure(national.error), requested;
      }
      value := national.value;
    }
    ci.carbonIntensity := Some(value);
    r := Success(ci);
  }
}
