/**
 * The IntensityFetcher interface: every adapter says whether it serves a
 * location and fetches a carbon intensity for a location and an optional
 * window. The adapters are the variants of `Adapter`; the two operations
 * dispatch on the variant.
 */
module IntensityFetcher {
  import opened Wrappers
  import opened Http
  import opened Stats
  import opened Timestamps
  import opened Intensity
  import GB = CarbonIntensityGB
  import DK = EnergiDataService

  datatype Adapter = GreatBritain | Denmark

  /** The country code each adapter matches exactly. */
  function CountryCode(adapter: Adapter): string {
    match adapter
    case GreatBritain => "GB"
    case Denmark => "DK"
  }

  /** `suitable(g_location)`. */
  predicate Suitable(adapter: Adapter, location: Location) {
    match adapter
    case GreatBritain => GB.Suitable(location)
    case Denmark => DK.Suitable(location)
  }

  /**
   * Each adapter serves exactly the locations of its own country code, so no
   * location is served by both; one with another code is served by neither.
   */
  lemma SuitablePartition(location: Location)
    ensures forall a: Adapter :: Suitable(a, location) <==> location.country == CountryCode(a)
    ensures !(Suitable(GreatBritain, location) && Suitable(Denmark, location))
    ensures location.country != "GB" && location.country != "DK" ==>
      !Suitable(GreatBritain, location) && !Suitable(Denmark, location)
  {
  }

  /**
   * When a successful fetch marks its result a prediction: the British
   * adapter when the window ends after now, the Danish one whenever a window
   * end is given.
   */
  predicate FlagsPrediction(adapter: Adapter, timeFrom: Option<DateTime>, timeTo: Option<DateTime>, now: DateTime) {
    match adapter
    case GreatBritain => GB.IsPrediction(timeTo, now)
    case Denmark => timeFrom.Some? || timeTo.Some?
  }

  /**
   * `carbon_intensity(g_location, time_from, time_to)`: a fresh result
   * object for the location whose intensity is set, or an exception; at
   * least one request is made.
   */
  method CarbonIntensity(adapter: Adapter, location: Location, timeFrom: Option<DateTime>, timeTo: Option<DateTime>,
                         now: DateTime, get: Oracle)
    returns (r: Result<Intensity.CarbonIntensity, FetchError>, requested: seq<string>)
    ensures r.Success? ==> fresh(r.value) && r.value.location == location && r.value.carbonIntensity.Some?
                           && r.value.isPrediction == FlagsPrediction(adapter, timeFrom, timeTo, now)
    ensures 1 <= |requested| <= 2
  {
    match adapter
    case GreatBritain =>
      r, requested := GB.CarbonIntensity(location, timeFrom, timeTo, now, get);
    case Denmark =>
      r, requested := DK.CarbonIntensity(location, timeFrom, timeTo, now, get);
  }

  /**
   * The two adapters flag predictions by different rules: for a window that
   * starts in the past and has no end, the Danish adapter flags a prediction
   * and the British one does not.
   */
  lemma PredictionRulesDiffer(past: DateTime, now: DateTime)
    requires Before(past, now)
    ensures FlagsPrediction(Denmark, Some(past), None, now)
    ensures !FlagsPrediction(GreatBritain, Some(past), None, now)
    ensures FlagsPrediction(GreatBritain, None, Some(now), past)
  {
  }
}
