/**
 * The Danish adapter: the Energi Data Service API, averaged over the two
 * price areas for a current value, or over the prognosis records of a window.
 */
module EnergiDataService {
  import opened Wrappers
  import opened Http
  import opened Stats
  import opened Timestamps
  import opened Intensity

  /** The adapter answers for Danish locations only. */
  predicate Suitable(location: Location) {
    location.country == "DK"
  }

  /** The two price areas, queried in this order. */
  const AREAS: seq<string> := ["DK1", "DK2"]

  /** `url_creator(area)`: the current-emission query filtered by price area. */
  function AreaUrl(area: string): string {
    "https://api.energidataservice.dk/dataset/CO2emis?filter={\"PriceArea\":\"" + area + "\"}"
  }

  /** `["CO2Emission"]` of one record. */
  function Emission(record: Json): Result<real, FetchError> {
    var emission :- Key(record, "CO2Emission");
    Number(emission)
  }

  /**
   * The reading one area's response contributes, unconverted:
   * `json()["records"][0]["CO2Emission"]`, or the fetcher error of a
   * non-OK response.
   */
  function AreaReading(response: Response): (r: Result<Json, FetchError>)
    ensures !response.ok ==> r == Failure(ErrorFor(response))
    ensures r.Success? ==> response.ok && response.body.Some?
  {
    if !response.ok then Failure(ErrorFor(response))
    else
      var body :- Parsed(response);
      var records :- Key(body, "records");
      var first :- First(records);
      Key(first, "CO2Emission")
  }

  /**
   * An area's reading is the first record's `CO2Emission`, unconverted:
   * the records after it play no part, whatever they hold.
   */
  lemma AreaReadingIsFirstRecord(fields: map<string, Json>, first: map<string, Json>, rest: seq<Json>)
    requires "records" in fields && fields["records"] == JArr([JObj(first)] + rest)
    ensures "CO2Emission" in first ==>
      AreaReading(Response(true, Some(JObj(fields)))) == Success(first["CO2Emission"])
    ensures "CO2Emission" !in first ==>
      AreaReading(Response(true, Some(JObj(fields)))) == Failure(LookupError)
  {
  }

  /**
   * What `_emission_current` returns or raises: DK1's reading, then DK2's,
   * the first lookup or fetcher failure raised; only then does `np.mean`
   * read the two values as numbers.
   */
  function CurrentEmission(get: Oracle): Result<Float, FetchError> {
    var dk1 :- AreaReading(get(AreaUrl("DK1")));
    var dk2 :- AreaReading(get(AreaUrl("DK2")));
    MeanOfValues([dk1, dk2])
  }

  /** `np.mean` of appended JSON values, raising on the first that is not a number. */
  function MeanOfValues(values: seq<Json>): Result<Float, FetchError> {
    var readings :- CollectValues(values, Number);
    Success(Mean(readings))
  }

  /** The URLs `_emission_current` requests: DK2 only once DK1's reading has been appended. */
  function CurrentRequests(get: Oracle): seq<string> {
    if AreaReading(get(AreaUrl("DK1"))).Failure? then [AreaUrl("DK1")]
    else [AreaUrl("DK1"), AreaUrl("DK2")]
  }

  /**
   * The outcomes of the current query: DK1's lookup fails after one request;
   * DK2's fails after two; otherwise both are requested and the mean reads
   * the two values, failing on the first that is not a number, or giving
   * their half-sum.
   */
  lemma CurrentEmissionCases(get: Oracle)
    ensures var dk1 := AreaReading(get(AreaUrl("DK1")));
            var dk2 := AreaReading(get(AreaUrl("DK2")));
            && (dk1.Failure? ==> CurrentEmission(get) == Failure(dk1.error) && CurrentRequests(get) == [AreaUrl("DK1")])
            && (dk1.Success? ==> CurrentRequests(get) == [AreaUrl("DK1"), AreaUrl("DK2")])
            && (dk1.Success? && dk2.Failure? ==> CurrentEmission(get) == Failure(dk2.error))
            && (dk1.Success? && dk2.Success? && Number(dk1.value).Failure? ==>
                  CurrentEmission(get) == Failure(Number(dk1.value).error))
            && (dk1.Success? && dk2.Success? && Number(dk1.value).Success? && Number(dk2.value).Failure? ==>
                  CurrentEmission(get) == Failure(Number(dk2.value).error))
            && (dk1.Success? && dk2.Success? && Number(dk1.value).Success? && Number(dk2.value).Success? ==>
                  CurrentEmission(get) == Success(Finite((Number(dk1.value).value + Number(dk2.value).value) / 2.0)))
  {
    var dk1 := AreaReading(get(AreaUrl("DK1")));
    var dk2 := AreaReading(get(AreaUrl("DK2")));
    if dk1.Success? && dk2.Success? {
      CollectPair(dk1.value, dk2.value, Number);
      if Number(dk1.value).Success? && Number(dk2.value).Success? {
        MeanOfTwo(Number(dk1.value).value, Number(dk2.value).value);
      }
    }
  }

  /**
   * A DK1 reading that is not a number is appended all the same: DK2 is still
   * requested, and its error response is what is raised.
   */
  lemma NonNumericReadingStillRequestsDk2(get: Oracle)
    requires get(AreaUrl("DK1")) == Response(true, Some(JObj(map["records" := JArr([JObj(map["CO2Emission" := JStr("n/a")])])])))
    requires get(AreaUrl("DK2")) == Response(false, Some(JObj(map["error" := JStr("x")])))
    ensures CurrentRequests(get) == [AreaUrl("DK1"), AreaUrl("DK2")]
    ensures CurrentEmission(get) == Failure(CarbonIntensityFetcherError(JObj(map["error" := JStr("x")])))
  {
    CurrentEmissionCases(get);
  }

  /**
   * `_emission_current`: the loop over the price areas, one request each, in
   * order, appending each area's unconverted reading and stopping at the
   * first area that raises; then `np.mean` of the two readings.
   * `requested` lists the URLs requested, in order.
   */
  method EmissionCurrent(get: Oracle) returns (r: Result<Float, FetchError>, requested: seq<string>)
    ensures r == CurrentEmission(get)
    ensures requested == CurrentRequests(get)
  {
    var areas := AREAS;
    assert areas[0] == "DK1" && areas[1] == "DK2";
    var carbonIntensities: seq<Json> := [];
    requested := [];
    var i := 0;
    while i < |areas|
      invariant 0 <= i <= |areas|
      invariant |carbonIntensities| == i && |requested| == i
      invariant forall j :: 0 <= j < i ==> requested[j] == AreaUrl(areas[j])
      invariant forall j :: 0 <= j < i ==> AreaReading(get(AreaUrl(areas[j]))) == Success(carbonIntensities[j])
    {
      var url := AreaUrl(areas[i]);
      requested := requested + [url];
      var response := get(url);
      var reading := AreaReading(response);
      if reading.Failure? {
        if i == 0 {
          assert requested == [AreaUrl("DK1")];
        } else {
          assert requested == [AreaUrl("DK1"), AreaUrl("DK2")];
        }
        return Failure(reading.error), requested;
      }
      carbonIntensities := carbonIntensities + [reading.value];
      i := i + 1;
    }
    assert carbonIntensities == [carbonIntensities[0], carbonIntensities[1]];
    r := MeanOfValues(carbonIntensities);
  }

  /**
   * `time - timedelta(minutes=time.minute % 5, seconds=time.second,
   * microseconds=time.microsecond)`: back to the last five-minute boundary.
   */
  function Floor5Min(t: DateTime): (r: DateTime)
    ensures r.year == t.year && r.month == t.month && r.day == t.day && r.hour == t.hour
    ensures r.minute == t.minute - t.minute % 5 && r.minute % 5 == 0
    ensures r.second == 0 && r.microsecond == 0
    ensures !Before(t, r)
    ensures OffsetInHour(t) - OffsetInHour(r) < 5 * 60000000
  {
    var r := MinusWithinHour(t, (t.minute % 5) * 60000000 + t.second * 1000000 + t.microsecond);
    OffsetInHourInjective(r, t.(minute := t.minute - t.minute % 5, second := 0, microsecond := 0));
    r
  }

  /** Flooring an already floored instant changes nothing. */
  lemma Floor5MinIdempotent(t: DateTime)
    ensures Floor5Min(Floor5Min(t)) == Floor5Min(t)
  {
  }

  /** `_nearest_5_min`: the floored instant as `YYYY-MM-DD hh:mm`, with a space, not `T`. */
  function Nearest5Min(t: DateTime): string {
    Strftime(Floor5Min(t), ' ', "")
  }

  /**
   * For four-digit years the string has 16 characters, a space at index 10,
   * and reads back as the floored instant.
   */
  lemma Nearest5MinDenotes(t: DateTime)
    requires 1000 <= t.year
    ensures |Nearest5Min(t)| == 16 && Nearest5Min(t)[10] == ' '
    ensures ParseStamp(Nearest5Min(t), ' ', "") == Some(Floor5Min(t))
  {
    StrftimeRoundTrip(Floor5Min(t), ' ', "");
    DecimalFourDigits(t.year);
  }

  /**
   * For four-digit years two instants give the same string exactly when they
   * lie in the same five-minute slot of the same hour.
   */
  lemma Nearest5MinSameSlot(a: DateTime, b: DateTime)
    requires 1000 <= a.year && 1000 <= b.year
    ensures Nearest5Min(a) == Nearest5Min(b) <==>
      a.year == b.year && a.month == b.month && a.day == b.day && a.hour == b.hour && a.minute / 5 == b.minute / 5
  {
    StrftimeInjective(Floor5Min(a), Floor5Min(b), ' ', "");
    assert TruncateToMinute(Floor5Min(a)) == Floor5Min(a);
    assert TruncateToMinute(Floor5Min(b)) == Floor5Min(b);
    assert a.minute - a.minute % 5 == 5 * (a.minute / 5);
    assert b.minute - b.minute % 5 == 5 * (b.minute / 5);
  }

  /** 12:07:33.250 is queried as 12:05, seconds and microseconds gone. */
  lemma Nearest5MinExample()
    ensures Nearest5Min(Fields(2023, 5, 20, 12, 7, 33, 250000)) == "2023-05-20 12:05"
  {
    assert Decimal(2) == "2";
    assert Decimal(20) == "20";
    assert Decimal(202) == "202";
    assert Decimal(2023) == "2023";
    assert Floor5Min(Fields(2023, 5, 20, 12, 7, 33, 250000)) == Fields(2023, 5, 20, 12, 5, 0, 0);
  }

  /**
   * `_interval`: both ends floored and formatted, a missing end standing for
   * now. Its parameters are declared `time_to` first; callers name them.
   */
  function Interval(timeTo: Option<DateTime>, timeFrom: Option<DateTime>, now: DateTime): (r: (string, string)) {
    (Nearest5Min(timeFrom.GetOr(now)), Nearest5Min(timeTo.GetOr(now)))
  }

  /**
   * The first string denotes the floored start and the second the floored
   * end (for four-digit years), whatever the other end is: the swapped
   * declaration order does not swap the ends.
   */
  lemma IntervalEnds(timeFrom: Option<DateTime>, timeTo: Option<DateTime>, now: DateTime)
    ensures var r := Interval(timeFrom := timeFrom, timeTo := timeTo, now := now);
            var f := timeFrom.GetOr(now);
            var t := timeTo.GetOr(now);
            && (1000 <= f.year ==> ParseStamp(r.0, ' ', "") == Some(Floor5Min(f)))
            && (1000 <= t.year ==> ParseStamp(r.1, ' ', "") == Some(Floor5Min(t)))
  {
    var f := timeFrom.GetOr(now);
    var t := timeTo.GetOr(now);
    if 1000 <= f.year { Nearest5MinDenotes(f); }
    if 1000 <= t.year { Nearest5MinDenotes(t); }
  }

  /** The prognosis query for a window of floored timestamps, as the source spells it. */
  function PrognosisUrl(fromStr: string, toStr: string): string {
    "https://api.energidataservice.dk/dataset/CO2Emis?start={" + fromStr + "&end={" + toStr + "}&limit=4"
  }

  /** The URL `_emission_prognosis` requests for a window. */
  function PrognosisRequest(timeFrom: Option<DateTime>, timeTo: Option<DateTime>, now: DateTime): string {
    var (fromStr, toStr) := Interval(timeFrom := timeFrom, timeTo := timeTo, now := now);
    PrognosisUrl(fromStr, toStr)
  }

  /** `_emission_prognosis`: the mean `CO2Emission` over every record returned. */
  function EmissionPrognosis(timeFrom: Option<DateTime>, timeTo: Option<DateTime>, now: DateTime, get: Oracle): Result<Float, FetchError> {
    var response := get(PrognosisRequest(timeFrom, timeTo, now));
    if !response.ok then Failure(ErrorFor(response))
    else
      var body :- Parsed(response);
      var data :- Key(body, "records");
      var records :- Elements(data);
      var carbonIntensities :- CollectValues(records, Emission);
      Success(Mean(carbonIntensities))
  }

  /** A non-OK prognosis response raises the fetcher error carrying its body. */
  lemma PrognosisErrorRaises(timeFrom: Option<DateTime>, timeTo: Option<DateTime>, now: DateTime, get: Oracle)
    requires !get(PrognosisRequest(timeFrom, timeTo, now)).ok
    ensures var response := get(PrognosisRequest(timeFrom, timeTo, now));
      && EmissionPrognosis(timeFrom, timeTo, now, get) == Failure(ErrorFor(response))
      && (response.body.Some? ==>
            EmissionPrognosis(timeFrom, timeTo, now, get) == Failure(CarbonIntensityFetcherError(response.body.value)))
  {
  }

  /**
   * When every returned record carries a numeric `CO2Emission`, the prognosis
   * is their mean: a number between the smallest and largest of them when
   * there is at least one record, and NaN when there is none.
   */
  lemma PrognosisIsMean(timeFrom: Option<DateTime>, timeTo: Option<DateTime>, now: DateTime, get: Oracle,
                        fields: map<string, Json>, records: seq<Json>, emissions: seq<real>, lo: real, hi: real)
    requires get(PrognosisRequest(timeFrom, timeTo, now)) == Response(true, Some(JObj(fields)))
    requires "records" in fields && fields["records"] == JArr(records)
    requires |records| == |emissions|
    requires forall i :: 0 <= i < |records| ==> Emission(records[i]) == Success(emissions[i])
    requires forall i :: 0 <= i < |emissions| ==> lo <= emissions[i] <= hi
    ensures EmissionPrognosis(timeFrom, timeTo, now, get) == Success(Mean(emissions))
    ensures |records| > 0 ==> lo <= Mean(emissions).value <= hi
    ensures |records| == 0 ==> Mean(emissions) == NaN
  {
    var c := CollectValues(records, Emission);
    assert c.Success? && c.value == emissions;
    if |records| > 0 {
      MeanBounds(emissions, lo, hi);
    }
  }

  /** The value `carbon_intensity` stores or raises: current with no time, the prognosis otherwise. */
  function Fetched(timeFrom: Option<DateTime>, timeTo: Option<DateTime>, now: DateTime, get: Oracle): Result<Float, FetchError> {
    if timeFrom.None? && timeTo.None? then CurrentEmission(get) else EmissionPrognosis(timeFrom, timeTo, now, get)
  }

  /** The URLs `carbon_intensity` requests, in order. */
  function Requests(timeFrom: Option<DateTime>, timeTo: Option<DateTime>, now: DateTime, get: Oracle): seq<string> {
    if timeFrom.None? && timeTo.None? then CurrentRequests(get) else [PrognosisRequest(timeFrom, timeTo, now)]
  }

  /**
   * `carbon_intensity`: with no time, the two-area current value and the
   * flag left false; with any time, the prognosis and the flag set, however
   * the window relates to now. `requested` lists the URLs requested, in order.
   */
  method CarbonIntensity(location: Location, timeFrom: Option<DateTime>, timeTo: Option<DateTime>, now: DateTime, get: Oracle)
    returns (r: Result<Intensity.CarbonIntensity, FetchError>, requested: seq<string>)
    ensures requested == Requests(timeFrom, timeTo, now, get)
    ensures r.Failure? <==> Fetched(timeFrom, timeTo, now, get).Failure?
    ensures r.Failure? ==> r.error == Fetched(timeFrom, timeTo, now, get).error
    ensures r.Success? ==> r.value.carbonIntensity == Some(Fetched(timeFrom, timeTo, now, get).value)
    ensures r.Success? ==> fresh(r.value) && r.value.location == location
                           && r.value.isPrediction == (timeFrom.Some? || timeTo.Some?)
  {
    var ci := new Intensity.CarbonIntensity(location);
    var value: Result<Float, FetchError>;
    if timeFrom.None? && timeTo.None? {
      value, requested := EmissionCurrent(get);
    } else {
      requested := [PrognosisRequest(timeFrom, timeTo, now)];
      value := EmissionPrognosis(timeFrom, timeTo, now, get);
      if value.Success? {
        ci.isPrediction := true;
      }
    }
    if value.Failure? {
      return Failure(value.error), requested;
    }
    ci.carbonIntensity := Some(value.value);
    r := Success(ci);
  }
}
