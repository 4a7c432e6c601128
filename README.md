# carbontracker carbon-intensity adapters in Dafny

This project models the adapters carbontracker uses to fetch the carbon
intensity (gCO2eq/kWh) of the electricity at a location. Each adapter is an
`IntensityFetcher`. It says whether it serves a geocoder location
(`suitable`). It fetches the intensity for an optional time window
(`carbon_intensity`) and returns a `CarbonIntensity` result object, or it
raises. Two adapters are modelled:

- `CarbonIntensityGB` works for Great Britain. It queries the regional
  endpoint of api.carbonintensity.org.uk by postcode and averages the
  forecasts of the records. If anything goes wrong there, it falls back to
  the national endpoint, which takes the first record's forecast.
- `EnergiDataService` works for Denmark. With no window it averages the
  latest CO2 emission of the two price areas DK1 and DK2. With a window it
  averages the prognosis records of a query whose times are floored to
  5 minutes.

The HTTP client is an oracle parameter `get: string -> Response`. A response
is "ok" or not, plus a JSON body. A body of `None` means `response.json()`
raises. The adapters' `CarbonIntensity` methods and `EmissionCurrent`
return the list of URLs they requested, in order; `CarbonIntensityGB.Regional`
returns the one URL it requested.
`datetime.utcnow()` is a parameter `now`. Python's dictionary and list
subscripting on JSON is modelled by `Http.Key`, `Http.First` and
`Http.Elements`. Each of their Python exceptions (KeyError, IndexError,
TypeError) becomes one `LookupError`. `np.mean` is modelled as exact real
arithmetic that gives `NaN` on an empty list (`Stats.Mean`).

Modules:

- `Wrappers`: Option and Result.
- `Stats`: the mean.
- `Http`: JSON, responses, errors and subscripting.
- `Timestamps`: naive datetimes, strftime, parsing back, and subtracting
  within the hour.
- `Intensity`: the location and the result object.
- `CarbonIntensityGB` and `EnergiDataService`: the two adapters.
- `IntensityFetcher`: the interface, as a datatype of adapters with
  dispatching operations.
- `TestCarbonIntensityGB`: the repository's GB adapter test cases, stated as
  lemmas and methods on the model.

## Model

| member | source | states |
|---|---|---|
| Stats.Mean | carbontracker/emissions/intensity/fetchers/carbonintensitygb.py:65 | `np.mean` is finite exactly when the list is non-empty, and then mean × length equals the sum |
| Stats.MeanBounds | carbontracker/emissions/intensity/fetchers/energidataservice.py:45 | the mean of values that all lie in [lo, hi] lies in [lo, hi] |
| Stats.MeanOfTwo | carbontracker/emissions/intensity/fetchers/energidataservice.py:45 | the mean of the two area readings is their half-sum |
| Http.Parsed | carbontracker/emissions/intensity/fetchers/carbonintensitygb.py:56 | `response.json()` succeeds exactly when the body parses, and then yields that body |
| Http.ErrorFor | carbontracker/emissions/intensity/fetchers/carbonintensitygb.py:54-55 | a non-ok response raises CarbonIntensityFetcherError carrying the parsed body, or a decode error when the body does not parse |
| Http.Key | carbontracker/emissions/intensity/fetchers/carbonintensitygb.py:63-64 | `j[key]` succeeds exactly on an object holding the key and yields its value |
| Http.First | carbontracker/emissions/intensity/fetchers/carbonintensitygb.py:60 | `j[0]` yields the first item of a non-empty list (or first character of a non-empty string) and fails otherwise |
| Http.Elements | carbontracker/emissions/intensity/fetchers/energidataservice.py:60 | iteration yields a list's items, nothing for an empty object or string, and fails on anything else |
| Http.Number | carbontracker/emissions/intensity/fetchers/carbonintensitygb.py:64 | a JSON leaf `np.mean` can average: a number, or a bool as 1 or 0; strings and null fail |
| Http.CollectValues | carbontracker/emissions/intensity/fetchers/carbonintensitygb.py:62-64 | the append loop succeeds exactly when every element yields a value, then holds those values in order; otherwise it fails with the first element's error |
| Http.CollectPrefixFailure | carbontracker/emissions/intensity/fetchers/carbonintensitygb.py:63-64 | a failure on a prefix's last element is the failure of the whole loop |
| Http.CollectExtend | carbontracker/emissions/intensity/fetchers/carbonintensitygb.py:63-64 | one more successful element appends its value to the collected prefix |
| Http.CollectPair | carbontracker/emissions/intensity/fetchers/energidataservice.py:44-45 | the loop over two elements fails with the first element's error, else the second's, else collects both values in order |
| Timestamps.DaysInMonth | carbontracker/emissions/intensity/fetchers/carbonintensitygb.py:91-92 | the Gregorian month lengths, between 28 and 31, that bound the day of every valid datetime such as `utcnow()` |
| Timestamps.BeforeIsStrictTotalOrder | carbontracker/emissions/intensity/fetchers/carbonintensitygb.py:21 | datetime `<` is irreflexive, transitive and total |
| Timestamps.MinusWithinHour | carbontracker/emissions/intensity/fetchers/energidataservice.py:76-78 | subtracting a timedelta no larger than the offset in the hour keeps date and hour and lowers the offset by exactly that much |
| Timestamps.OffsetInHourInjective | carbontracker/emissions/intensity/fetchers/energidataservice.py:76-78 | two datetimes in the same hour with the same offset are equal |
| Timestamps.TruncateToMinute | carbontracker/emissions/intensity/fetchers/carbonintensitygb.py:90-94 | what `%H:%M` keeps: the same date, hour and minute with seconds and microseconds cleared, so not later than the time and less than a minute earlier |
| Timestamps.ParseDecimal | carbontracker/emissions/intensity/fetchers/carbonintensitygb.py:90 | the decimal digits of a number read back as that number |
| Timestamps.ParsePad2 | carbontracker/emissions/intensity/fetchers/carbonintensitygb.py:90 | a two-digit zero-padded field reads back as its value |
| Timestamps.DecimalFourDigits | carbontracker/emissions/intensity/fetchers/carbonintensitygb.py:90 | a year from 1000 to 9999 prints as four digits |
| Timestamps.StrftimeRoundTrip | carbontracker/emissions/intensity/fetchers/carbonintensitygb.py:90-94 | a formatted time has the fixed layout and parses back to the time truncated to the minute |
| Timestamps.StrftimeInjective | carbontracker/emissions/intensity/fetchers/carbonintensitygb.py:90-94 | two times format equally exactly when they agree to the minute |
| Timestamps.Before | carbontracker/emissions/intensity/fetchers/carbonintensitygb.py:21 | naive datetime `<`, field by field (partner: `BeforeIsStrictTotalOrder`) |
| Timestamps.Strftime | carbontracker/emissions/intensity/fetchers/carbonintensitygb.py:90-94 | `%Y-%m-%d`, a separator, `%H:%M` and a suffix (partners: `StrftimeRoundTrip`, `StrftimeInjective`) |
| CarbonIntensityGB.Suitable | carbontracker/emissions/intensity/fetchers/carbonintensitygb.py:15-16 | the adapter serves a location exactly when its country is GB (partner: `IntensityFetcher.SuitablePartition`) |
| CarbonIntensityGB.IsPrediction | carbontracker/emissions/intensity/fetchers/carbonintensitygb.py:21-22 | a result is a prediction exactly when an end is given and it is after now |
| CarbonIntensityGB.IsCurrent | carbontracker/emissions/intensity/fetchers/carbonintensitygb.py:59 | a query is current exactly when neither end is given |
| CarbonIntensityGB.Postcode | carbontracker/emissions/intensity/fetchers/carbonintensitygb.py:25 | the location's postal code, printed as `None` when missing |
| CarbonIntensityGB.FormatTime | carbontracker/emissions/intensity/fetchers/carbonintensitygb.py:90-94 | `strftime("%Y-%m-%dT%H:%MZ")` (partner: `FormatTimeDenotes`) |
| CarbonIntensityGB.TimeFromToStr | carbontracker/emissions/intensity/fetchers/carbonintensitygb.py:83-95 | both ends formatted, a missing one replaced by now (partner: `TimeFromToStrDenotes`) |
| CarbonIntensityGB.RegionalUrl | carbontracker/emissions/intensity/fetchers/carbonintensitygb.py:46-52 | the regional URL built piece by piece (partner: `RegionalUrlShape`) |
| CarbonIntensityGB.NationalUrl | carbontracker/emissions/intensity/fetchers/carbonintensitygb.py:71-75 | the national URL built piece by piece (partner: `NationalUrlShape`) |
| CarbonIntensityGB.Forecast | carbontracker/emissions/intensity/fetchers/carbonintensitygb.py:64 | `ci["intensity"]["forecast"]` read as a number |
| CarbonIntensityGB.RegionalRecords | carbontracker/emissions/intensity/fetchers/carbonintensitygb.py:56-63 | `json()["data"]`, unwrapped at index 0 for a current query, then its `["data"]` iterated |
| CarbonIntensityGB.RegionalResult | carbontracker/emissions/intensity/fetchers/carbonintensitygb.py:53-67 | what the regional query returns or raises; a success needs an ok response with readable records (partners: `ErrorResponseRaises`, `RegionalIsMeanOfForecasts`) |
| CarbonIntensityGB.MeanForecast | carbontracker/emissions/intensity/fetchers/carbonintensitygb.py:62-65 | `np.mean` of every record's forecast, or the first record's lookup failure |
| CarbonIntensityGB.NationalResult | carbontracker/emissions/intensity/fetchers/carbonintensitygb.py:77-81 | what the national query returns or raises; a success needs an ok response and is never NaN (partners: `ErrorResponseRaises`, `NationalTakesFirstRecord`) |
| CarbonIntensityGB.TimeFromToStrDenotes | carbontracker/emissions/intensity/fetchers/carbonintensitygb.py:83-95 | both strings are `YYYY-MM-DDThh:mmZ` of the given end, or of now when it is missing, truncated to the minute |
| CarbonIntensityGB.FormatTimeDenotes | carbontracker/emissions/intensity/fetchers/carbonintensitygb.py:90-94 | one formatted time has 17 characters with `T` and `Z` in place and denotes the time to the minute |
| CarbonIntensityGB.RegionalUrlShape | carbontracker/emissions/intensity/fetchers/carbonintensitygb.py:46-52 | the regional URL is `/regional/postcode/P` without a window and `/regional/intensity/F/T/postcode/P` with one |
| CarbonIntensityGB.NationalUrlShape | carbontracker/emissions/intensity/fetchers/carbonintensitygb.py:71-75 | the national URL is `/intensity` without a window and `/intensity/F/T` with one |
| CarbonIntensityGB.ErrorResponseRaises | carbontracker/emissions/intensity/fetchers/carbonintensitygb.py:54-55 | a non-ok response makes both queries raise the fetcher error with the response's body |
| CarbonIntensityGB.RegionalIsMeanOfForecasts | carbontracker/emissions/intensity/fetchers/carbonintensitygb.py:56-67 | an ok regional response whose records all hold forecasts gives the mean of those forecasts |
| CarbonIntensityGB.RegionalCurrentUnwraps | carbontracker/emissions/intensity/fetchers/carbonintensitygb.py:56-65 | for a current query the body's `data` list is unwrapped at index 0, and the mean is over that first region's `data` records whatever regions follow |
| CarbonIntensityGB.RegionalWindowedReadsRegion | carbontracker/emissions/intensity/fetchers/carbonintensitygb.py:56-65 | for a windowed query the region under `data` is read directly, and the mean is over its `data` records |
| CarbonIntensityGB.NationalTakesFirstRecord | carbontracker/emissions/intensity/fetchers/carbonintensitygb.py:77-81 | the national value is the first record's forecast whatever the other records hold |
| CarbonIntensityGB.Regional | carbontracker/emissions/intensity/fetchers/carbonintensitygb.py:38-67 | requests the regional URL once and returns the regional result of that response |
| CarbonIntensityGB.AverageForecasts | carbontracker/emissions/intensity/fetchers/carbonintensitygb.py:62-65 | the append loop over the records yields the mean of all their forecasts, or raises at the first record without one |
| CarbonIntensityGB.CarbonIntensity | carbontracker/emissions/intensity/fetchers/carbonintensitygb.py:18-36 | regional value in one request, or after any regional failure the national value in a second request, or the national error; a fresh result for the location flagged a prediction exactly when the end is after now |
| EnergiDataService.Suitable | carbontracker/emissions/intensity/fetchers/energidataservice.py:13-14 | the adapter serves a location exactly when its country is DK (partner: `IntensityFetcher.SuitablePartition`) |
| EnergiDataService.AreaUrl | carbontracker/emissions/intensity/fetchers/energidataservice.py:29-34 | `url_creator(area)`, the current-emission query filtered by price area |
| EnergiDataService.AreaReading | carbontracker/emissions/intensity/fetchers/energidataservice.py:41-44 | one area's unconverted `records[0]["CO2Emission"]`, the fetcher error of a non-ok response, or the lookup failure |
| EnergiDataService.AreaReadingIsFirstRecord | carbontracker/emissions/intensity/fetchers/energidataservice.py:44 | an ok area response yields the first record's `CO2Emission` unconverted whatever records follow, or a lookup error when that record lacks it |
| EnergiDataService.CurrentEmission | carbontracker/emissions/intensity/fetchers/energidataservice.py:36-45 | DK1's reading, then DK2's, then `np.mean` of the two (partner: `CurrentEmissionCases`) |
| EnergiDataService.MeanOfValues | carbontracker/emissions/intensity/fetchers/energidataservice.py:45 | `np.mean` of the appended readings: the first that is not a number raises, else the mean of all |
| EnergiDataService.CurrentRequests | carbontracker/emissions/intensity/fetchers/energidataservice.py:39-43 | DK1's URL, and DK2's once DK1's reading was appended |
| EnergiDataService.NonNumericReadingStillRequestsDk2 | carbontracker/emissions/intensity/fetchers/energidataservice.py:39-45 | a DK1 reading `"n/a"` is appended, DK2 is still requested, and DK2's error response is what is raised |
| EnergiDataService.Emission | carbontracker/emissions/intensity/fetchers/energidataservice.py:60 | `record["CO2Emission"]` read as a number |
| EnergiDataService.Nearest5Min | carbontracker/emissions/intensity/fetchers/energidataservice.py:74-79 | the time floored to 5 minutes, as `%Y-%m-%d %H:%M` (partners: `Nearest5MinDenotes`, `Nearest5MinSameSlot`) |
| EnergiDataService.Interval | carbontracker/emissions/intensity/fetchers/energidataservice.py:63-72 | both ends floored and formatted, a missing one replaced by now, in the declared `time_to, time_from` parameter order (partner: `IntervalEnds`) |
| EnergiDataService.PrognosisUrl | carbontracker/emissions/intensity/fetchers/energidataservice.py:49-55 | the prognosis query string as the source spells it |
| EnergiDataService.PrognosisRequest | carbontracker/emissions/intensity/fetchers/energidataservice.py:48-55 | the prognosis URL for the keyword call of `_interval` |
| EnergiDataService.EmissionPrognosis | carbontracker/emissions/intensity/fetchers/energidataservice.py:47-61 | what the prognosis query returns or raises: `np.mean` over every returned record's emission (partners: `PrognosisErrorRaises`, `PrognosisIsMean`) |
| EnergiDataService.Fetched | carbontracker/emissions/intensity/fetchers/energidataservice.py:18-21 | the value `carbon_intensity` stores: current with no time, the prognosis otherwise |
| EnergiDataService.Requests | carbontracker/emissions/intensity/fetchers/energidataservice.py:18-21 | the URLs `carbon_intensity` requests: the current ones with no time, the one prognosis URL otherwise |
| EnergiDataService.CurrentEmissionCases | carbontracker/emissions/intensity/fetchers/energidataservice.py:36-45 | a failed DK1 lookup raises after one request; otherwise DK2 is requested too, its failed lookup raises, then `np.mean` raises on the first reading that is not a number, else gives the half-sum |
| EnergiDataService.EmissionCurrent | carbontracker/emissions/intensity/fetchers/energidataservice.py:28-45 | the loop over the price areas requests DK1 then DK2, appends each unconverted reading, stops at the first failed lookup, and returns exactly the current-emission value and request list |
| EnergiDataService.Floor5Min | carbontracker/emissions/intensity/fetchers/energidataservice.py:74-78 | the same date and hour, the minute rounded down to a multiple of 5, seconds cleared, not later and less than 5 minutes earlier |
| EnergiDataService.Floor5MinIdempotent | carbontracker/emissions/intensity/fetchers/energidataservice.py:74-78 | flooring a floored time changes nothing |
| EnergiDataService.Nearest5MinDenotes | carbontracker/emissions/intensity/fetchers/energidataservice.py:74-79 | the string has the `YYYY-MM-DD hh:mm` layout and denotes the floored time |
| EnergiDataService.Nearest5MinSameSlot | carbontracker/emissions/intensity/fetchers/energidataservice.py:74-79 | two times give the same string exactly when they fall in the same 5-minute slot |
| EnergiDataService.Nearest5MinExample | carbontracker/emissions/intensity/fetchers/energidataservice.py:74-79 | 12:07:33.250 is queried as 12:05 |
| EnergiDataService.IntervalEnds | carbontracker/emissions/intensity/fetchers/energidataservice.py:63-72 | called by keyword, the first string is the start (or now) and the second the end (or now), each floored to 5 minutes |
| EnergiDataService.PrognosisErrorRaises | carbontracker/emissions/intensity/fetchers/energidataservice.py:56-58 | a non-ok prognosis response raises the fetcher error with its body |
| EnergiDataService.PrognosisIsMean | carbontracker/emissions/intensity/fetchers/energidataservice.py:47-61 | an ok prognosis response of any shape whose `records` key holds the records gives the mean of their emissions, within their bounds, and NaN for no records |
| EnergiDataService.CarbonIntensity | carbontracker/emissions/intensity/fetchers/energidataservice.py:16-26 | with no window the current emission and its requests, with any window end one prognosis request; raises exactly when that value raises; a fresh result for the location flagged a prediction exactly when a window end is given |
| IntensityFetcher.Suitable | carbontracker/emissions/intensity/fetcher.py:15-18 | `suitable(g_location)` dispatched to the adapter (partner: `SuitablePartition`) |
| IntensityFetcher.FlagsPrediction | carbontracker/emissions/intensity/fetcher.py:20-41 | when each adapter marks a successful result a prediction |
| IntensityFetcher.SuitablePartition | carbontracker/emissions/intensity/fetcher.py:15-18 | each adapter serves exactly its country code (carbonintensitygb.py:15-16, energidataservice.py:13-14), and no location is served by both |
| IntensityFetcher.CarbonIntensity | carbontracker/emissions/intensity/fetcher.py:20-41 | a success is a fresh result for the location with its intensity set and the adapter's prediction flag, after one or two requests |
| IntensityFetcher.PredictionRulesDiffer | carbontracker/emissions/intensity/fetchers/energidataservice.py:18-22 | a window starting in the past with no end is a prediction for the Danish adapter and not for the British one |
| TestCarbonIntensityGB.SuitableWithGbLocation | tests/intensity/test_carbonintensitygb.py:11-19 | GB is served and US is not |
| TestCarbonIntensityGB.RegionalPrediction | tests/intensity/test_carbonintensitygb.py:25-67 | the one-hour regional window URL for AB12 3CD, and the mean 250 of 200 and 300 |
| TestCarbonIntensityGB.RegionalWithErrorResponse | tests/intensity/test_carbonintensitygb.py:72-86 | an error response makes the regional query raise the fetcher error |
| TestCarbonIntensityGB.National | tests/intensity/test_carbonintensitygb.py:92-124 | the one-hour national window URL and the value 250 |
| TestCarbonIntensityGB.NationalWithErrorResponse | tests/intensity/test_carbonintensitygb.py:129-141 | an error response makes the national query raise the fetcher error |
| TestCarbonIntensityGB.NationalHistoricalTakesFirstRecord | tests/intensity/test_carbonintensitygb.py:146-169 | the national query gives the first record's 134, not the 133.5 the test expects |
| TestCarbonIntensityGB.RegionalHistorical | tests/intensity/test_carbonintensitygb.py:174-208 | the regional window over records 134 and 133 gives 133.5 |
| TestCarbonIntensityGB.NationalShapedBody | tests/intensity/test_carbonintensitygb.py:221-274 | the mocked body of the `carbon_intensity` tests fails the regional read, windowed or current, and gives 250 nationally |
| TestCarbonIntensityGB.TimeFromToStrFormats | tests/intensity/test_carbonintensitygb.py:210-219 | midnight and one in the morning format as `2023-05-20T00:00Z` and `2023-05-20T01:00Z` |

The test methods `CarbonIntensityWithPostal`, `CarbonIntensityWithoutPostal`
and `CarbonIntensityWithoutTimeDur` (tests/intensity/test_carbonintensitygb.py:221-274)
carry their expectations as assertions in their bodies. Each mocked body has
the national shape, so the regional read fails and the national value 250 is
used.

## Behaviour of the code worth knowing

- The national GB query reads only `data[0]` (carbontracker/emissions/intensity/fetchers/carbonintensitygb.py:80).
  The historical national test expects 133.5, the mean of its two records
  (tests/intensity/test_carbonintensitygb.py:169). The code gives 134, and
  so does the model (`TestCarbonIntensityGB.NationalHistoricalTakesFirstRecord`).
- An error response whose body is not JSON does not raise the fetcher error:
  `response.json()` in the raise (carbontracker/emissions/intensity/fetchers/carbonintensitygb.py:55) raises the decode error first.
- A location without a postal code puts `None` into the regional URL
  (`/postcode/None`), because the f-string at carbontracker/emissions/intensity/fetchers/carbonintensitygb.py:52 prints Python's `None`.
- The two adapters flag predictions by different rules. GB flags a prediction
  when the end is after now (carbontracker/emissions/intensity/fetchers/carbonintensitygb.py:21-22). DK flags one whenever either end is
  given, once the prognosis has returned (carbontracker/emissions/intensity/fetchers/energidataservice.py:18-22).
- The DK prognosis URL is kept as written (carbontracker/emissions/intensity/fetchers/energidataservice.py:49-55): the `{` after
  `start=` is never closed; the `{` after `end=` is closed by the `}` before
  `&limit=4`.
- `_interval` declares `time_to` before `time_from` (carbontracker/emissions/intensity/fetchers/energidataservice.py:63-67). Its only
  caller passes both by keyword (carbontracker/emissions/intensity/fetchers/energidataservice.py:48), so `EnergiDataService.Interval`
  keeps the declared order and `IntervalEnds` states the result of the
  keyword call.
- The DK current loop appends each area's `CO2Emission` unconverted
  (carbontracker/emissions/intensity/fetchers/energidataservice.py:44); only `np.mean` reads them as numbers, after both requests
  (carbontracker/emissions/intensity/fetchers/energidataservice.py:45). A non-numeric DK1 reading therefore does not stop DK2 from being
  requested.
- The GB regional loop and the DK prognosis comprehension also convert only
  in `np.mean`. These loops make no request and every failure in them is the
  same lookup error, so the model reads each value as a number inside the
  loop with the same outcome.
- `%Y` prints the year without padding, as glibc's strftime does.
- `test_carbon_intensity_with_postal` and `test_carbon_intensity_without_postal`
  (tests/intensity/test_carbonintensitygb.py:234-238, 254-258) pass a time-zone-aware
  `time_to`. The code compares it with the naive `utcnow()` (carbontracker/emissions/intensity/fetchers/carbonintensitygb.py:21),
  which raises TypeError before any request. The model's datetimes are naive, so
  `CarbonIntensityWithPostal` and `CarbonIntensityWithoutPostal` state the intended
  behaviour (the national value 250), not these tests as written.
- `test_carbon_intensity_gb_regional_prediction` and `test_carbon_intensity_gb_national`
  replace the adapter module's `datetime` and fix only `datetime.now`
  (tests/intensity/test_carbonintensitygb.py:49, 110), while the code calls `utcnow`
  (carbontracker/emissions/intensity/fetchers/carbonintensitygb.py:91-92). That call returns an
  unconfigured mock, so the formatted start is not a date string, and the URL assertions at
  tests/intensity/test_carbonintensitygb.py:64-66 and 121-123 rely on a `now` the mock does not supply. `TestCarbonIntensityGB.RegionalPrediction` and
  `TestCarbonIntensityGB.National` take the intended `now`, midnight of 2023-05-20.

## Left out

- Network, JSON decoding and `datetime.utcnow()`: these are oracle and clock parameters. Every `utcnow()` inside one call sees the same `now`.
- Time zones: datetimes are naive. The tests that compare an aware time with `utcnow()` are modelled with naive times.
- Floating point: `np.mean` is exact real arithmetic, with NaN for an empty list. A mean over a string or null value is a lookup error.
- Http.Number: a JSON list is read as a lookup error, whereas `np.mean` flattens nested lists of numbers of equal length and averages all their items. So `CarbonIntensityGB.Forecast`, `EnergiDataService.Emission` and `EnergiDataService.MeanOfValues` fail on list-valued readings the source would average; for GB regional this also sends the adapter to the national fallback where the source would not.
- The `intensity.CarbonIntensity` result class itself is not part of this model. Only the fields the adapters set (location, intensity, prediction flag) are modelled.
- carbontracker/hpc/emissions.py is not part of this model.
- CarbonIntensityGB.NationalResult: a non-numeric national forecast becomes a lookup error, whereas the source returns the raw JSON value unconverted.
- Timestamps.MinusWithinHour: subtraction is modelled only within the current hour. That is all `_nearest_5_min` needs, since it subtracts less than the time's offset in the hour.
- Timestamps.StrftimeRoundTrip: proved for four-digit years (1000 to 9999) only. Shorter years print with fewer digits, and the fixed-layout parse does not apply to them.
- Timestamps.StrftimeInjective: proved for four-digit years only, for the same reason.
- CarbonIntensityGB.TimeFromToStrDenotes: the parse-back property is stated for four-digit years only.
- EnergiDataService.Nearest5MinDenotes: the parse-back property holds for four-digit years only.
- EnergiDataService.Nearest5MinSameSlot: proved for four-digit years only.
- CarbonIntensityGB.FormatTimeDenotes: stated for four-digit years only.
- The bare `except:` of the GB adapter also catches interrupts and programming errors. The model has none, so it falls back on every modelled failure.
- The oracle never raises: a connection error or timeout of `requests.get` has no counterpart. In the source such an error in the regional query is caught by the bare `except:` at carbontracker/emissions/intensity/fetchers/carbonintensitygb.py:29 and leads to the national fallback; anywhere else it propagates to the caller.
