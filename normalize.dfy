/**
 * The response normaliser of `fetch_weather_data`: it turns a parsed wttr.in
 * "j1" document into a flat current-conditions record of unit-suffixed
 * strings and a list of at most three forecast days. Every `None` stands for
 * the exception the Python code would raise on a short list, a missing key or
 * a value of the wrong type; the caller does not tell them apart.
 */
module Normalize {
  import opened Wrappers
  import opened Json

  /** The two values of the unit radio buttons: "m" (metric) and "u" (imperial). */
  datatype Units = Metric | Imperial

  /** `units == 'm'` selects metric; every other value falls to the imperial branch. */
  function UnitsOf(choice: string): Units {
    if choice == "m" then Metric else Imperial
  }

  /**
   * The library calls the normaliser makes, as parameters:
   *  - mph: `str(round(float(x) * 0.621371, 1))` of the raw `windspeedKmph`
   *    value (None where `float` raises);
   *  - weekday: `strptime(date, '%Y-%m-%d').strftime('%A')` (None where
   *    `strptime` raises);
   *  - show: Python's `str()` of a value that is not a string, as an f-string
   *    formats it.
   */
  datatype Library = Library(mph: Json -> Option<string>, weekday: string -> Option<string>, show: Json -> string)

  /** An f-string placeholder `{x}`: a string as it is, anything else through `str()`. */
  function Format(lib: Library, j: Json): string {
    if j.Str? then j.s else lib.show(j)
  }

  /** The `weather_data` dictionary. Fields the source copies without formatting keep the raw value. */
  datatype Current = Current(
    location: string, temp: string, feelsLike: string, conditions: Json, wind: string,
    humidity: string, pressure: string, visibility: string, uvIndex: Json,
    sunrise: Json, sunset: Json, iconUrl: string)

  /** One entry of `forecast_data`. */
  datatype ForecastDay = ForecastDay(
    date: string, dayName: string, avgTemp: string, maxTemp: string, minTemp: string,
    desc: Json, wind: string, iconUrl: string)

  /** The pair `(weather_data, forecast_data)` that `fetch_weather_data` returns. */
  datatype Report = Report(current: Current, forecast: seq<ForecastDay>)

  const CelsiusSuffix := " °C"
  const FahrenheitSuffix := " °F"
  const KmhSuffix := " km/h"
  const MphSuffix := " mph"
  const IconBase := "https://wttr.in/"
  const IconTail := "_0p.png"

  /** `record[c] + " °C" if units == 'm' else record[f] + " °F"`. */
  function Temperature(record: Json, units: Units, celsiusKey: string, fahrenheitKey: string): Option<string> {
    if units == Metric then
      var t :- Text(record, [Key(celsiusKey)]);
      Some(t + CelsiusSuffix)
    else
      var t :- Text(record, [Key(fahrenheitKey)]);
      Some(t + FahrenheitSuffix)
  }

  /** The speed part of the current wind: km/h copied, or the converted mph. */
  function WindSpeed(lib: Library, units: Units, current: Json): Option<string> {
    if units == Metric then
      var kmph :- Text(current, [Key("windspeedKmph")]);
      Some(kmph + KmhSuffix)
    else
      var raw :- Follow(current, [Key("windspeedKmph")]);
      var mph :- lib.mph(raw);
      Some(mph + MphSuffix)
  }

  /** The `weather_data` dictionary of a document, for the (already stripped) city: the lookups before the literal. */
  function CurrentOf(lib: Library, city: string, units: Units, doc: Json): Option<Current> {
    var current :- Follow(doc, [Key("current_condition"), Idx(0)]);
    var area :- Follow(doc, [Key("nearest_area"), Idx(0)]);
    var today :- Follow(doc, [Key("weather"), Idx(0)]);
    var temp :- Temperature(current, units, "temp_C", "temp_F");
    var feelsLike :- Temperature(current, units, "FeelsLikeC", "FeelsLikeF");
    var speed :- WindSpeed(lib, units, current);
    var astronomy :- Follow(today, [Key("astronomy"), Idx(0)]);
    var sunrise :- Follow(astronomy, [Key("sunrise")]);
    var sunset :- Follow(astronomy, [Key("sunset")]);
    WeatherData(lib, city, current, area, temp, feelsLike, speed, sunrise, sunset)
  }

  /** The `weather_data` dictionary literal, from the values computed before it. */
  function WeatherData(lib: Library, city: string, current: Json, area: Json, temp: string, feelsLike: string,
                       speed: string, sunrise: Json, sunset: Json): Option<Current> {
    var areaName :- Follow(area, [Key("areaName"), Idx(0), Key("value")]);
    var region :- Follow(area, [Key("region"), Idx(0), Key("value")]);
    var country :- Follow(area, [Key("country"), Idx(0), Key("value")]);
    var conditions :- Follow(current, [Key("weatherDesc"), Idx(0), Key("value")]);
    var direction :- Follow(current, [Key("winddir16Point")]);
    var humidity :- Text(current, [Key("humidity")]);
    var pressure :- Text(current, [Key("pressure")]);
    var visibility :- Text(current, [Key("visibility")]);
    var uvIndex :- Follow(current, [Key("uvIndex")]);
    Some(Current(
      location := Format(lib, areaName) + ", " + Format(lib, region) + ", " + Format(lib, country),
      temp := temp,
      feelsLike := feelsLike,
      conditions := conditions,
      wind := speed + ", " + Format(lib, direction),
      humidity := humidity + "%",
      pressure := pressure + " hPa",
      visibility := visibility + " km",
      uvIndex := uvIndex,
      sunrise := sunrise,
      sunset := sunset,
      iconUrl := IconBase + city + IconTail))
  }

  /** One iteration of the forecast loop: the entry built from one day of `weather`. */
  function DayOf(lib: Library, city: string, units: Units, day: Json): Option<ForecastDay> {
    var avgTemp :- Temperature(day, units, "avgtempC", "avgtempF");
    var maxTemp :- Temperature(day, units, "maxtempC", "maxtempF");
    var minTemp :- Temperature(day, units, "mintempC", "mintempF");
    var date :- Text(day, [Key("date")]);
    var dayName :- lib.weekday(date);
    var desc :- Follow(day, [Key("hourly"), Idx(4), Key("weatherDesc"), Idx(0), Key("value")]);
    var wind :- Text(day, [Key("hourly"), Idx(4), Key("windspeedKmph")]);
    Some(ForecastDay(
      date := date,
      dayName := dayName,
      avgTemp := avgTemp,
      maxTemp := maxTemp,
      minTemp := minTemp,
      desc := desc,
      wind := wind + KmhSuffix,
      iconUrl := IconBase + city + "_" + date + IconTail))
  }

  /** The forecast of some days, all or nothing: one bad day fails the whole list. */
  function ForecastOf(lib: Library, city: string, units: Units, days: seq<Json>): Option<seq<ForecastDay>> {
    if days == [] then Some([])
    else
      var first :- DayOf(lib, city, units, days[0]);
      var rest :- ForecastOf(lib, city, units, days[1..]);
      Some([first] + rest)
  }

  /** `ForecastOf` succeeds exactly when every day does, and then holds the days' entries in order. */
  lemma {:induction false} ForecastOfPointwise(lib: Library, city: string, units: Units, days: seq<Json>)
    ensures ForecastOf(lib, city, units, days).Some?
        <==> forall k :: 0 <= k < |days| ==> DayOf(lib, city, units, days[k]).Some?
    ensures ForecastOf(lib, city, units, days).Some? ==>
      var fc := ForecastOf(lib, city, units, days).value;
      |fc| == |days| && forall k :: 0 <= k < |days| ==> DayOf(lib, city, units, days[k]) == Some(fc[k])
  {
    if days != [] {
      var rest := days[1..];
      ForecastOfPointwise(lib, city, units, rest);
      assert forall k :: 1 <= k < |days| ==> days[k] == rest[k - 1];
      var first := DayOf(lib, city, units, days[0]);
      var tail := ForecastOf(lib, city, units, rest);
      assert ForecastOf(lib, city, units, days) ==
        if first.None? || tail.None? then None else Some([first.value] + tail.value);
    }
  }

  /** `json_data['weather'][:3]`: the first min(3, |days|) days, in order. */
  function FirstThree(days: seq<Json>): (r: seq<Json>)
    ensures |r| == if |days| < 3 then |days| else 3
    ensures r == days[..|r|]
  {
    if |days| <= 3 then days else days[..3]
  }

  /** What `fetch_weather_data` returns for a parsed document, or None where it raises. */
  function Normalized(lib: Library, city: string, units: Units, doc: Json): Option<Report> {
    var current :- CurrentOf(lib, city, units, doc);
    var weather :- Follow(doc, [Key("weather")]);
    if !weather.Arr? then None
    else
      var forecast :- ForecastOf(lib, city, units, FirstThree(weather.items));
      Some(Report(current, forecast))
  }

  /**
   * The normalisation steps of `fetch_weather_data`: the current record, then
   * the loop that appends one entry per day of `weather[:3]`.
   */
  method FetchWeatherData(lib: Library, city: string, units: Units, doc: Json) returns (r: Option<Report>)
    ensures r == Normalized(lib, city, units, doc)
  {
    var current := CurrentOf(lib, city, units, doc);
    if current.None? {
      return None;
    }
    var weather := Follow(doc, [Key("weather")]);
    if weather.None? || !weather.value.Arr? {
      return None;
    }
    var days := FirstThree(weather.value.items);
    ForecastOfPointwise(lib, city, units, days);
    var forecast: seq<ForecastDay> := [];
    for i := 0 to |days|
      invariant |forecast| == i
      invariant forall k :: 0 <= k < i ==> DayOf(lib, city, units, days[k]) == Some(forecast[k])
    {
      var day := DayOf(lib, city, units, days[i]);
      if day.None? {
        assert ForecastOf(lib, city, units, days).None?;
        return None;
      }
      forecast := forecast + [day.value];
    }
    assert ForecastOf(lib, city, units, days).value == forecast;
    return Some(Report(current.value, forecast));
  }
}
