/**
 * The two value holders the adapters use: the geocoder's location and the
 * CarbonIntensity result object that an adapter fills in.
 */
module Intensity {
  import opened Wrappers
  import opened Stats

  /** A geocoder location: its country code and its postal code, which may be missing. */
  datatype Location = Location(country: string, postal: Option<string>)

  /**
   * The result object: created for a location with no intensity yet and
   * `is_prediction` false; an adapter sets the intensity and may raise the flag.
   */
  class CarbonIntensity {
    const location: Location
    var carbonIntensity: Option<Float>
    var isPrediction: bool

    constructor (location: Location)
      ensures this.location == location
      ensures carbonIntensity == None && !isPrediction
    {
      this.location := location;
      carbonIntensity := None;
      isPrediction := false;
    }
  }
}
