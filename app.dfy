/**
 * The `get_weather` handler around the normaliser: it strips the city entry,
 * refuses an empty city before any request, fetches and normalises, and
 * collapses every failure into one outcome after which the display is
 * cleared.
 */
module App {
  import opened Wrappers
  import opened Json
  import opened PyText
  import opened Normalize
  import opened WeatherFacts

  /** What the handler ends in: the input warning, the generic error (display cleared), or a report to show. */
  datatype Outcome = InputWarning | FetchFailed | Shown(report: Report)

  /** The wttr.in request for a city, in the "j1" JSON format. */
  function RequestUrl(city: string): string {
    "https://wttr.in/" + city + "?format=j1"
  }

  /**
   * `get_weather`. The network is the parameter `fetch`, from a request URL
   * to the parsed body (None where the request or the JSON parse raises);
   * `request` is the URL the handler fetched, None when it fetched nothing.
   */
  method GetWeather(entry: string, unitChoice: string, lib: Library, fetch: string -> Option<Json>)
    returns (o: Outcome, request: Option<string>)
    ensures request.None? <==> AllSpace(entry)
    ensures o.InputWarning? <==> request.None?
    ensures request.Some? ==>
      var city := Strip(entry);
      && request.value == RequestUrl(city)
      && city != [] && !IsSpace(city[0]) && !IsSpace(city[|city| - 1])
    ensures o.Shown? <==>
      request.Some? && fetch(request.value).Some?
      && Decodable(lib, UnitsOf(unitChoice), fetch(request.value).value)
    ensures o.Shown? ==>
      Normalized(lib, Strip(entry), UnitsOf(unitChoice), fetch(request.value).value) == Some(o.report)
  {
    var city := Strip(entry);
    StripCharacterised(entry);
    if city == [] {
      return InputWarning, None;
    }
    var url := RequestUrl(city);
    request := Some(url);
    var body := fetch(url);
    if body.None? {
      return FetchFailed, request;
    }
    var units := UnitsOf(unitChoice);
    NormalizedSucceedsIff(lib, city, units, body.value);
    var report := FetchWeatherData(lib, city, units, body.value);
    if report.None? {
      return FetchFailed, request;
    }
    return Shown(report.value), request;
  }
}
