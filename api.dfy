/** The data layer of the dashboard (src/api.js): the Open-Meteo forecast
    normaliser, the air-quality extraction with its five-band European AQI
    classifier, and the city search's query guard and result mapping.

    The HTTP requests themselves are not modelled: what a request returned
    enters as a parameter, `None` standing for a response whose status was
    not ok. JSON `null` and a missing key are both `None`; a present number
    is a `real`. */
module Api {
  import opened Wrappers
  import opened JsBuiltins

  /** An upstream time string. `new Date(t)` is not modelled: a timestamp is
      carried through unchanged. */
  type Timestamp = string

  /** One of Open-Meteo's parallel arrays: it may be missing, and any slot
      may hold `null`. */
  type Series = Option<seq<Option<real>>>

  /** The `current` object of a forecast payload (only the keys the
      normaliser reads). */
  datatype RawCurrent = RawCurrent(
    temperature2m: Option<real>,
    relativeHumidity2m: Option<real>,
    apparentTemperature: Option<real>,
    dewPoint2m: Option<real>,
    weatherCode: Option<int>,
    pressureMsl: Option<real>,
    surfacePressure: Option<real>,
    windSpeed10m: Option<real>,
    visibility: Option<real>)

  /** The `hourly` object of a forecast payload. */
  datatype RawHourly = RawHourly(
    time: Option<seq<Timestamp>>,
    temperature2m: Series,
    precipitationProbability: Series)

  /** The `daily` object of a forecast payload. */
  datatype RawDaily = RawDaily(
    time: Option<seq<Timestamp>>,
    temperature2mMax: Series,
    temperature2mMin: Series,
    precipitationSum: Series,
    sunrise: Option<seq<Option<Timestamp>>>,
    sunset: Option<seq<Option<Timestamp>>>,
    uvIndexMax: Series)

  /** A forecast payload; each of its three sections may be missing. */
  datatype RawForecast = RawForecast(
    current: Option<RawCurrent>,
    hourly: Option<RawHourly>,
    daily: Option<RawDaily>)

  /** `{}` in place of a missing section: every key absent. */
  const NoCurrent := RawCurrent(None, None, None, None, None, None, None, None, None)
  const NoHourly := RawHourly(None, None, None)
  const NoDaily := RawDaily(None, None, None, None, None, None, None)

  /** The display model's current conditions; every field optional. */
  datatype Current = Current(
    temp: Option<real>,
    feelsLike: Option<real>,
    humidity: Option<real>,
    windKmh: Option<real>,
    visibilityKm: Option<real>,
    pressureMb: Option<real>,
    dewPoint: Option<real>,
    code: Option<int>)

  datatype HourlyPoint = HourlyPoint(time: Timestamp, temp: Option<real>, pop: Option<real>)

  datatype DailyPoint = DailyPoint(date: Timestamp, max: Option<real>, min: Option<real>, precip: Option<real>)

  datatype SunTimes = SunTimes(sunrise: Option<Timestamp>, sunset: Option<Timestamp>, uvMax: Option<real>)

  /** The normalised forecast the dashboard renders. */
  datatype Weather = Weather(current: Current, hourly: seq<HourlyPoint>, daily: seq<DailyPoint>, sun: SunTimes)

  /** How many hourly and daily entries the display model keeps. */
  const HourlyLimit: nat := 12
  const DailyLimit: nat := 7

  /** `series?.[i]`: absent when the array is missing or too short. */
  function At<T>(series: Option<seq<Option<T>>>, i: nat): (v: Option<T>)
    ensures series.Some? && i < |series.value| ==> v == series.value[i]
    ensures series.None? || i >= |series.value| ==> v.None?
  {
    if series.Some? && i < |series.value| then series.value[i] else None
  }

  /** Visibility in kilometres: absent when the upstream value in metres is
      absent or zero (JavaScript treats 0 as false), otherwise the metres
      divided by a thousand. */
  function VisibilityKm(metres: Option<real>): (km: Option<real>)
    ensures km.None? <==> metres.None? || metres.value == 0.0
    ensures km.Some? ==> km.value * 1000.0 == metres.value
  {
    if metres.Some? && metres.value != 0.0 then Some(metres.value / 1000.0) else None
  }

  /** `pressure_msl ?? surface_pressure`: the mean sea-level pressure when
      present (zero included), the surface pressure otherwise. */
  function PressureMb(current: RawCurrent): (mb: Option<real>)
    ensures current.pressureMsl.Some? ==> mb == current.pressureMsl
    ensures current.pressureMsl.None? ==> mb == current.surfacePressure
  {
    current.pressureMsl.OrElse(current.surfacePressure)
  }

  /** `s?.[0] ? new Date(s[0]) : undefined`: the first timestamp, unless it
      is absent or the empty string. */
  function FirstTimestamp(s: Option<seq<Option<Timestamp>>>): (t: Option<Timestamp>)
    ensures t.Some? <==> Truthy(At(s, 0))
    ensures t.Some? ==> t == At(s, 0)
  {
    if Truthy(At(s, 0)) then At(s, 0) else None
  }

  /** The first twelve hourly entries, entry `i` built from slot `i` of each
      parallel array. */
  function HourlyItems(hourly: RawHourly): seq<HourlyPoint> {
    var times := Slice(hourly.time.GetOr([]), HourlyLimit);
    seq(|times|, i requires 0 <= i < |times| =>
      HourlyPoint(times[i], At(hourly.temperature2m, i), At(hourly.precipitationProbability, i)))
  }

  /** The first seven daily entries, entry `i` built from slot `i` of each
      parallel array. */
  function DailyItems(daily: RawDaily): seq<DailyPoint> {
    var times := Slice(daily.time.GetOr([]), DailyLimit);
    seq(|times|, i requires 0 <= i < |times| =>
      DailyPoint(times[i], At(daily.temperature2mMax, i), At(daily.temperature2mMin, i),
                 At(daily.precipitationSum, i)))
  }

  /** `normalizeOpenMeteo`: total on every payload shape, and the lists it
      produces are never longer than the display model allows. */
  function Normalize(raw: RawForecast): (w: Weather)
    ensures |w.hourly| <= HourlyLimit && |w.daily| <= DailyLimit
  {
    var current := raw.current.GetOr(NoCurrent);
    var hourly := raw.hourly.GetOr(NoHourly);
    var daily := raw.daily.GetOr(NoDaily);
    Weather(
      Current(
        current.temperature2m,
        current.apparentTemperature,
        current.relativeHumidity2m,
        current.windSpeed10m,
        VisibilityKm(current.visibility),
        PressureMb(current),
        current.dewPoint2m,
        current.weatherCode),
      HourlyItems(hourly),
      DailyItems(daily),
      SunTimes(FirstTimestamp(daily.sunrise), FirstTimestamp(daily.sunset), At(daily.uvIndexMax, 0)))
  }

  /** The upstream hourly and daily time arrays, `[]` when missing. */
  function HourlyTimes(raw: RawForecast): seq<Timestamp> {
    raw.hourly.GetOr(NoHourly).time.GetOr([])
  }

  function DailyTimes(raw: RawForecast): seq<Timestamp> {
    raw.daily.GetOr(NoDaily).time.GetOr([])
  }

  /** The hourly list is truncated by position: it has min(12, n) entries for
      n upstream times, and entry `i` carries the `i`-th time, temperature and
      precipitation probability, so upstream order is kept. */
  lemma NormalizeHourly(raw: RawForecast)
    ensures var w, times := Normalize(raw), HourlyTimes(raw);
      && |w.hourly| == Min(|times|, HourlyLimit)
      && forall i :: 0 <= i < |w.hourly| ==>
           && w.hourly[i].time == times[i]
           && w.hourly[i].temp == At(raw.hourly.GetOr(NoHourly).temperature2m, i)
           && w.hourly[i].pop == At(raw.hourly.GetOr(NoHourly).precipitationProbability, i)
  {
  }

  /** The daily list has min(7, n) entries for n upstream dates, and entry
      `i` carries the `i`-th date, maximum, minimum and precipitation sum. */
  lemma NormalizeDaily(raw: RawForecast)
    ensures var w, times := Normalize(raw), DailyTimes(raw);
      && |w.daily| == Min(|times|, DailyLimit)
      && forall i :: 0 <= i < |w.daily| ==>
           && w.daily[i].date == times[i]
           && w.daily[i].max == At(raw.daily.GetOr(NoDaily).temperature2mMax, i)
           && w.daily[i].min == At(raw.daily.GetOr(NoDaily).temperature2mMin, i)
           && w.daily[i].precip == At(raw.daily.GetOr(NoDaily).precipitationSum, i)
  {
  }

  /** A missing section is read as an empty object: its fields all come out
      absent and its lists empty, and the other sections are unaffected. */
  lemma NormalizeMissingSections(raw: RawForecast)
    ensures raw.current.None? ==> Normalize(raw).current == Current(None, None, None, None, None, None, None, None)
    ensures raw.hourly.None? ==> Normalize(raw).hourly == []
    ensures raw.daily.None? ==> Normalize(raw).daily == [] && Normalize(raw).sun == SunTimes(None, None, None)
  {
  }

  /** The current-conditions record keeps the upstream values except for the
      visibility (metres to kilometres, zero dropped) and the pressure
      (sea-level falling back to surface); the sun record takes slot 0. */
  lemma NormalizeCurrentAndSun(raw: RawForecast)
    ensures var c, d, w := raw.current.GetOr(NoCurrent), raw.daily.GetOr(NoDaily), Normalize(raw);
      && w.current.temp == c.temperature2m
      && w.current.feelsLike == c.apparentTemperature
      && w.current.humidity == c.relativeHumidity2m
      && w.current.windKmh == c.windSpeed10m
      && w.current.dewPoint == c.dewPoint2m
      && w.current.code == c.weatherCode
      && w.current.visibilityKm == VisibilityKm(c.visibility)
      && (w.current.visibilityKm.None? <==> c.visibility.None? || c.visibility == Some(0.0))
      && (w.current.pressureMb == if c.pressureMsl.Some? then c.pressureMsl else c.surfacePressure)
      && w.sun.sunrise == FirstTimestamp(d.sunrise) && w.sun.sunset == FirstTimestamp(d.sunset)
      && (w.sun.sunrise.None? <==> !Truthy(At(d.sunrise, 0)))
      && (w.sun.sunset.None? <==> !Truthy(At(d.sunset, 0)))
      && (w.sun.sunrise.Some? ==> Some(w.sun.sunrise.value) == At(d.sunrise, 0))
      && (w.sun.sunset.Some? ==> Some(w.sun.sunset.value) == At(d.sunset, 0))
      && w.sun.uvMax == At(d.uvIndexMax, 0)
  {
  }

  // ---------------------------------------------------------------- air quality

  /** The five bands of the European AQI, from cleanest to worst. */
  datatype AqiLevel = Low | Moderate | High | VeryHigh | Extreme

  /** The position of a band on the scale. */
  function Severity(level: AqiLevel): nat {
    match level
    case Low => 0
    case Moderate => 1
    case High => 2
    case VeryHigh => 3
    case Extreme => 4
  }

  /** The label the source gives each band. */
  function LevelName(level: AqiLevel): string {
    match level
    case Low => "Low"
    case Moderate => "Moderate"
    case High => "High"
    case VeryHigh => "Very High"
    case Extreme => "Extreme"
  }

  /** The five labels are distinct, so the label alone tells the band. */
  lemma LevelNamesDistinct(a: AqiLevel, b: AqiLevel)
    ensures LevelName(a) == LevelName(b) <==> a == b
  {
  }

  /** `aqiLevel`: every index falls in exactly one band, each band being the
      half-open interval between consecutive inclusive upper bounds 20, 40,
      60 and 80. */
  function AqiLevelOf(aqi: real): (level: AqiLevel)
    ensures level == Low <==> aqi <= 20.0
    ensures level == Moderate <==> 20.0 < aqi <= 40.0
    ensures level == High <==> 40.0 < aqi <= 60.0
    ensures level == VeryHigh <==> 60.0 < aqi <= 80.0
    ensures level == Extreme <==> 80.0 < aqi
  {
    if aqi <= 20.0 then Low
    else if aqi <= 40.0 then Moderate
    else if aqi <= 60.0 then High
    else if aqi <= 80.0 then VeryHigh
    else Extreme
  }

  /** A higher index never gives a cleaner band. */
  lemma AqiLevelMonotone(a: real, b: real)
    requires a <= b
    ensures Severity(AqiLevelOf(a)) <= Severity(AqiLevelOf(b))
  {
  }

  /** The band edges: each bound is inclusive in the lower band. */
  lemma AqiLevelBoundaries()
    ensures AqiLevelOf(20.0) == Low && AqiLevelOf(21.0) == Moderate
    ensures AqiLevelOf(40.0) == Moderate && AqiLevelOf(41.0) == High
    ensures AqiLevelOf(60.0) == High && AqiLevelOf(61.0) == VeryHigh
    ensures AqiLevelOf(80.0) == VeryHigh && AqiLevelOf(81.0) == Extreme
  {
  }

  /** A JSON value as it may sit in the `european_aqi` array; only a number
      passes `typeof idx === 'number'`. */
  datatype JsonScalar = JsonNull | JsonNumber(n: real) | JsonString(s: string) | JsonBool(b: bool)

  datatype RawAirHourly = RawAirHourly(europeanAqi: Option<seq<JsonScalar>>)

  datatype RawAirQuality = RawAirQuality(hourly: Option<RawAirHourly>)

  datatype AirQuality = AirQuality(aqi: int, level: AqiLevel)

  /** `json.hourly?.european_aqi?.[0]`, when the response was ok. */
  function FirstAqi(response: Option<RawAirQuality>): Option<JsonScalar> {
    if response.Some? && response.value.hourly.Some? then
      var series := response.value.hourly.value.europeanAqi;
      if series.Some? && |series.value| > 0 then Some(series.value[0]) else None
    else None
  }

  /** The result of `fetchAirQualityByCoords` given the response: present
      exactly when the first hourly index is a number, in which case it holds
      that number rounded and the band of the number before rounding. */
  function AirQualityFrom(response: Option<RawAirQuality>): (air: Option<AirQuality>)
    ensures air.Some? <==> FirstAqi(response).Some? && FirstAqi(response).value.JsonNumber?
    ensures air.Some? ==>
      var idx := FirstAqi(response).value.n;
      && idx - 1.0 / 2.0 < air.value.aqi as real <= idx + 1.0 / 2.0
      && air.value.level == AqiLevelOf(idx)
  {
    match FirstAqi(response)
    case Some(JsonNumber(idx)) => Some(AirQuality(Round(idx), AqiLevelOf(idx)))
    case _ => None
  }

  /** The band is taken before rounding, so a reading just above a bound is
      shown with the rounded value of the band below it: 20.4 gives aqi 20
      in band Moderate. */
  lemma AirQualityBandBeforeRounding()
    ensures AirQualityFrom(Some(RawAirQuality(Some(RawAirHourly(Some([JsonNumber(20.4)]))))))
         == Some(AirQuality(20, Moderate))
  {
  }

  // ---------------------------------------------------------------- city search

  /** One record of the geocoding service's `results` array. */
  datatype GeoResult = GeoResult(
    name: Option<string>,
    country: Option<string>,
    admin1: Option<string>,
    latitude: real,
    longitude: real)

  datatype GeoPayload = GeoPayload(results: Option<seq<GeoResult>>)

  datatype CitySuggestion = CitySuggestion(
    id: string,
    name: Option<string>,
    country: Option<string>,
    admin1: Option<string>,
    latitude: real,
    longitude: real)

  /** Queries whose trimmed length is below this are never sent. */
  const MinQueryLength: nat := 2

  /** The query guard of `searchCities`: the name sent to the geocoder, or
      `None` when no request is made because the trimmed query is shorter
      than two characters (an empty or all-blank query included). */
  function SearchName(query: string): (name: Option<string>)
    ensures name.None? <==> |Trim(query)| < MinQueryLength
    ensures name.Some? ==> name.value == Trim(query) && |name.value| >= MinQueryLength
  {
    if query == "" || |Trim(query)| < MinQueryLength then None else Some(Trim(query))
  }

  /** `${lat},${lon}`; `show` is JavaScript's number-to-string conversion,
      which is not part of this model. */
  function SuggestionId(latitude: real, longitude: real, show: real -> string): string {
    show(latitude) + "," + show(longitude)
  }

  /** The suggestions built from a geocoding response: none when the status
      was not ok or `results` is missing, otherwise one per result, in order. */
  function Suggestions(response: Option<GeoPayload>, show: real -> string): (s: seq<CitySuggestion>)
    ensures response.None? || response.value.results.None? ==> s == []
    ensures response.Some? && response.value.results.Some? ==>
      var results := response.value.results.value;
      && |s| == |results|
      && forall i :: 0 <= i < |s| ==>
           && s[i].id == SuggestionId(results[i].latitude, results[i].longitude, show)
           && s[i].name == results[i].name && s[i].country == results[i].country
           && s[i].admin1 == results[i].admin1
           && s[i].latitude == results[i].latitude && s[i].longitude == results[i].longitude
  {
    if response.None? then []
    else
      var results := response.value.results.GetOr([]);
      seq(|results|, i requires 0 <= i < |results| =>
        var r := results[i];
        CitySuggestion(SuggestionId(r.latitude, r.longitude, show), r.name, r.country, r.admin1,
                       r.latitude, r.longitude))
  }

  /** `searchCities(query)`, given what the geocoding request would return. */
  function SearchCities(query: string, response: Option<GeoPayload>, show: real -> string): (s: seq<CitySuggestion>)
    ensures SearchName(query).None? ==> s == []
    ensures SearchName(query).Some? ==> s == Suggestions(response, show)
  {
    if SearchName(query).None? then [] else Suggestions(response, show)
  }

  /** A blank or one-character query yields no suggestions whatever the
      geocoder would have answered. */
  lemma ShortQueriesYieldNothing(query: string, response: Option<GeoPayload>, show: real -> string)
    requires |query| < MinQueryLength || forall i :: 0 <= i < |query| ==> IsWhiteSpace(query[i])
    ensures SearchCities(query, response, show) == []
  {
  }

  /** `a + "," + b` splits back into `a` and `b` when `a` holds no comma. */
  lemma {:induction false} CommaSplit(a: string, b: string, c: string, d: string)
    requires ',' !in a && ',' !in c
    requires a + "," + b == c + "," + d
    ensures a == c && b == d
  {
    var s := a + "," + b;
    // the first comma of `s` sits right after `a`, and right after `c`
    assert forall k :: 0 <= k < |a| ==> s[k] == a[k];
    assert forall k :: 0 <= k < |c| ==> s[k] == c[k];
    assert s[|a|] == ',' && s[|c|] == ',';
    assert |a| == |c|;
    assert a == s[..|a|] == c;
    assert b == s[|a| + 1..] == d;
  }

  /** Two suggestions share an id only when their coordinates print alike,
      since a printed number holds no comma; when the printer tells these
      coordinates apart, distinct coordinate pairs get distinct ids. */
  lemma SuggestionIdsDistinguishCoordinates(lat1: real, lon1: real, lat2: real, lon2: real, show: real -> string)
    requires ',' !in show(lat1) && ',' !in show(lat2)
    requires show(lat1) == show(lat2) ==> lat1 == lat2
    requires show(lon1) == show(lon2) ==> lon1 == lon2
    requires lat1 != lat2 || lon1 != lon2
    ensures SuggestionId(lat1, lon1, show) != SuggestionId(lat2, lon2, show)
  {
    if SuggestionId(lat1, lon1, show) == SuggestionId(lat2, lon2, show) {
      CommaSplit(show(lat1), show(lon1), show(lat2), show(lon2));
    }
  }
}
