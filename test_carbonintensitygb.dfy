/**
 * The cases of the repository's GB adapter tests, stated on the model:
 * each mocked response and the URL or value the test expects.
 */
module TestCarbonIntensityGB {
  import opened Wrappers
  import opened Http
  import opened Stats
  import opened Timestamps
  import opened Intensity
  import opened CarbonIntensityGB

  function Record(forecast: real): Json {
    JObj(map["intensity" := JObj(map["forecast" := JNum(forecast)])])
  }

  /** A regional window response: records under `data.data`. */
  function RegionalBody(records: seq<Json>): Response {
    Response(true, Some(JObj(map["data" := JObj(map["data" := JArr(records)])])))
  }

  /** A national response, also the test's stand-in for every request: records under `data`. */
  function NationalBody(records: seq<Json>): Response {
    Response(true, Some(JObj(map["data" := JArr(records)])))
  }

  const MIDNIGHT: DateTime := Fields(2023, 5, 20, 0, 0, 0, 0)
  const ONE_AM: DateTime := Fields(2023, 5, 20, 1, 0, 0, 0)
  const NEXT_MIDNIGHT: DateTime := Fields(2023, 5, 21, 0, 0, 0, 0)

  lemma FormatsOfTheDay()
    ensures FormatTime(MIDNIGHT) == "2023-05-20T00:00Z"
    ensures FormatTime(ONE_AM) == "2023-05-20T01:00Z"
  {
    assert Decimal(2) == "2";
    assert Decimal(20) == "20";
    assert Decimal(202) == "202";
    assert Decimal(2023) == "2023";
    assert Pad2(5) == "05" && Pad2(20) == "20" && Pad2(0) == "00" && Pad2(1) == "01";
  }

  lemma ForecastOfRecord(a: real)
    ensures Forecast(Record(a)) == Success(a)
  {
  }

  lemma TwoRecordsMean(a: real, b: real)
    ensures CollectValues([Record(a), Record(b)], Forecast) == Success([a, b])
    ensures Mean([a, b]) == Finite((a + b) / 2.0)
  {
    ForecastOfRecord(a);
    ForecastOfRecord(b);
    CollectPair(Record(a), Record(b), Forecast);
    MeanOfTwo(a, b);
  }

  lemma SuitableWithGbLocation()
    ensures Suitable(Location("GB", None))
    ensures !Suitable(Location("US", None))
  {
  }

  lemma RegionalPrediction()
    ensures RegionalUrl("AB12 3CD", None, Some(ONE_AM), MIDNIGHT)
      == API_URL + "/regional/intensity/" + "2023-05-20T00:00Z" + "/" + "2023-05-20T01:00Z" + "/postcode/" + "AB12 3CD"
    ensures RegionalResult(RegionalBody([Record(200.0), Record(300.0)]), false) == Success(Finite(250.0))
  {
    var (fromStr, toStr) := TimeFromToStr(None, Some(ONE_AM), MIDNIGHT);
    assert fromStr == FormatTime(MIDNIGHT) && toStr == FormatTime(ONE_AM);
    FormatsOfTheDay();
    RegionalUrlShape("AB12 3CD", None, Some(ONE_AM), MIDNIGHT);
    TwoRecordsMean(200.0, 300.0);
  }

  lemma RegionalWithErrorResponse()
    ensures var error := JObj(map["error" := JStr("Invalid postcode")]);
      RegionalResult(Response(false, Some(error)), false) == Failure(CarbonIntensityFetcherError(error))
  {
  }

  lemma National()
    ensures NationalUrl(None, Some(ONE_AM), MIDNIGHT)
      == API_URL + "/intensity/" + "2023-05-20T00:00Z" + "/" + "2023-05-20T01:00Z"
    ensures NationalResult(NationalBody([Record(250.0)])) == Success(Finite(250.0))
  {
    NationalUrlShape(None, Some(ONE_AM), MIDNIGHT);
    FormatsOfTheDay();
  }

  lemma NationalWithErrorResponse()
    ensures var error := JObj(map["error" := JStr("Invalid request")]);
      NationalResult(Response(false, Some(error))) == Failure(CarbonIntensityFetcherError(error))
  {
  }

  /**
   * The national historical case: the test expects the mean 133.5 of the two
   * records, but the national query reads only the first record and gives 134.
   */
  lemma NationalHistoricalTakesFirstRecord()
    ensures NationalResult(NationalBody([Record(134.0), Record(133.0)])) == Success(Finite(134.0))
    ensures NationalResult(NationalBody([Record(134.0), Record(133.0)])) != Success(Finite(133.5))
  {
  }

  lemma RegionalHistorical()
    ensures RegionalResult(RegionalBody([Record(134.0), Record(133.0)]), false) == Success(Finite(133.5))
  {
    TwoRecordsMean(134.0, 133.0);
  }

  lemma TimeFromToStrFormats()
    ensures TimeFromToStr(Some(MIDNIGHT), Some(ONE_AM), NEXT_MIDNIGHT) == ("2023-05-20T00:00Z", "2023-05-20T01:00Z")
  {
    FormatsOfTheDay();
  }

  /**
   * The body every request gets in the three `carbon_intensity` tests has the
   * national shape: the regional read fails on it, windowed or current, and
   * the national read gives 250.
   */
  lemma NationalShapedBody()
    ensures RegionalResult(NationalBody([Record(250.0)]), false).Failure?
    ensures RegionalResult(NationalBody([Record(250.0)]), true).Failure?
    ensures NationalResult(NationalBody([Record(250.0)])) == Success(Finite(250.0))
  {
  }

  /**
   * With postcode and a future end: the regional read fails, the national
   * value 250 is used after a second request, and the result is flagged as
   * a prediction.
   */
  method CarbonIntensityWithPostal() {
    var response := NationalBody([Record(250.0)]);
    var later: DateTime := Fields(2033, 3, 28, 0, 0, 0, 0);
    NationalShapedBody();
    var r, requested := CarbonIntensityGB.CarbonIntensity(Location("GB", Some("AB12 3CD")), None, Some(later), MIDNIGHT, (url: string) => response);
    assert r.Success? && r.value.carbonIntensity == Some(Finite(250.0));
    assert r.value.isPrediction;
    assert |requested| == 2;
  }

  /** Without postcode the regional URL ends in `/postcode/None`; the national value is used. */
  method CarbonIntensityWithoutPostal() {
    var response := NationalBody([Record(250.0)]);
    var later: DateTime := Fields(2033, 3, 28, 0, 0, 0, 0);
    NationalShapedBody();
    var r, requested := CarbonIntensityGB.CarbonIntensity(Location("GB", None), None, Some(later), MIDNIGHT, (url: string) => response);
    assert r.Success? && r.value.carbonIntensity == Some(Finite(250.0)) && r.value.isPrediction;
    assert requested[0] == RegionalUrl("None", None, Some(later), MIDNIGHT);
  }

  /**
   * No window: the current regional body lacks the inner `data` after
   * unwrapping index 0, so the national current value 250 is used, not
   * flagged as a prediction.
   */
  method CarbonIntensityWithoutTimeDur() {
    var response := NationalBody([Record(250.0)]);
    NationalShapedBody();
    var r, requested := CarbonIntensityGB.CarbonIntensity(Location("GB", Some("AB12 3CD")), None, None, MIDNIGHT, (url: string) => response);
    assert r.Success? && r.value.carbonIntensity == Some(Finite(250.0)) && !r.value.isPrediction;
  }
}
