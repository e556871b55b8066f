# Weather Forecast Pro: the response normaliser, in Dafny

The desktop client asks wttr.in for a city's weather in the "j1" JSON format. It turns the parsed
document into a flat current-conditions record of unit-suffixed strings and a list of at most three
forecast days, and a Tk window displays them. This project models that normalisation step
(`fetch_weather_data`) and the `get_weather` handler around it. The handler strips the city entry,
refuses a blank city before any request, and collapses every failure into one generic error.

Modules:

- `Wrappers` (wrappers.dfy): the `Option` type. `None` stands for a Python exception.
- `Json` (json.dfy): the parsed document as a JSON value, plus subscript chains. `Follow(doc, [Key("weather"), Idx(0)])`
  is `doc['weather'][0]`. It fails on a missing key, an index past the end, or the wrong kind of value,
  which are the cases where Python raises. It also fails on an index into a string, which Python
  allows. No outcome changes, because every index the decoder takes is followed by a key lookup, and
  Python raises on a key lookup into a one-character string.
- `PyText` (pytext.dfy): Python's `str.strip()`, with the 29 characters `str.isspace()` accepts.
- `Normalize` (normalize.dfy): the decoder, written step by step as the source does it.
  - `CurrentOf` does the lookups of lines 221-232, and `WeatherData` builds the `weather_data` dictionary literal from them.
  - `DayOf` is one iteration of the forecast loop.
  - `ForecastOf` and `Normalized` give the whole result, all or nothing.
  - `FetchWeatherData` is the imperative version with the `for` loop over `weather[:3]`.
  - The library calls become the fields of a `Library` parameter:
    - `mph` is `str(round(float(x) * 0.621371, 1))`;
    - `weekday` is `strptime(...).strftime('%A')`;
    - `show` is Python's `str()` of a non-string value inside an f-string.
- `WeatherFacts` (facts.dfy): a second, independent description of the result. Each output field is
  named by its absolute path from the document root. `Decodable` lists the paths that must be present.
  The lemmas prove that the step-by-step decoder agrees with it.
- `App` (app.dfy): `GetWeather`, the handler.

`weather` may hold fewer than three days. The slice `weather[:3]` (line 250) then gives a shorter
forecast, and only `weather[0]` is required (lines 223, 230). So the forecast length is min(3, days).

The values that the source copies without formatting (`uvIndex`, `sunrise`, `sunset`, the
`weatherDesc` values) keep their raw JSON value in the records, exactly as the Python dictionaries
hold them. Values that are concatenated with `+` must be strings, or the decoder fails as Python's
TypeError does.

## Model

| member | source | states |
|---|---|---|
| `Json.FollowAppend` | Codes/Weather_App_Final.py:221-223 | Following a chain `p + q` from a value is the same as following `p` and then `q` from where `p` ended. So `doc['current_condition'][0]['temp_C']` reads the same as `current['temp_C']` with `current = doc['current_condition'][0]`. |
| `Json.TextAppend` | Codes/Weather_App_Final.py:225-227 | The same split, for chains whose value must be a string. |
| `PyText.TrimStartDropsLeadingSpace` | Codes/Weather_App_Final.py:196 | `lstrip` removes exactly the leading run of whitespace and keeps the rest unchanged. |
| `PyText.TrimEndDropsTrailingSpace` | Codes/Weather_App_Final.py:196 | `rstrip` removes exactly the trailing run of whitespace and keeps the rest unchanged. |
| `PyText.StripCharacterised` | Codes/Weather_App_Final.py:196-201 | `strip()` returns a contiguous piece of the entry with whitespace cut off around it, and that piece neither starts nor ends with whitespace. It is empty exactly when the entry is all whitespace, which is the case the guard rejects. |
| `Normalize.UnitsOf` | Codes/Weather_App_Final.py:225 | Definition: "m" is metric and every other choice falls to the imperial branch. Its use is specified by `App.GetWeather`. |
| `Normalize.Format` | Codes/Weather_App_Final.py:235-239 | Definition of an f-string placeholder. Specified by `WeatherFacts.CurrentWind` and `WeatherFacts.HeaderSources`. |
| `Normalize.Temperature` | Codes/Weather_App_Final.py:225-226 | Definition of a unit-suffixed temperature (also used at lines 251-253). Specified by `WeatherFacts.TemperatureStrings`. |
| `Normalize.WindSpeed` | Codes/Weather_App_Final.py:227 | Definition of the current wind speed. Specified by `WeatherFacts.CurrentWind`. |
| `Normalize.CurrentOf` | Codes/Weather_App_Final.py:221-232 | Definition of the lookups before the `weather_data` literal. Specified by `WeatherFacts.CurrentFromDocument`, `WeatherFacts.CurrentDecodableOfSome` and `WeatherFacts.SomeOfCurrentDecodable`. |
| `Normalize.WeatherData` | Codes/Weather_App_Final.py:234-247 | Definition of the `weather_data` literal. Specified by `WeatherFacts.CurrentFromDocument`. |
| `Normalize.DayOf` | Codes/Weather_App_Final.py:251-264 | Definition of one loop iteration. Specified by `WeatherFacts.DayFromDocument`. |
| `Normalize.ForecastOf` | Codes/Weather_App_Final.py:249-264 | Definition of the whole loop, all or nothing. Specified by `Normalize.ForecastOfPointwise`. |
| `Normalize.FirstThree` | Codes/Weather_App_Final.py:250 | `weather[:3]` has min(3, days) entries and is the prefix of that length, so the order is kept. |
| `Normalize.Normalized` | Codes/Weather_App_Final.py:221-266 | Definition of the whole result. Specified by `WeatherFacts.NormalizedSucceedsIff`, `WeatherFacts.ReportStructure` and the field lemmas below. |
| `Json.Get` | Codes/Weather_App_Final.py:221-223 | Definition of one Python subscript `x[k]` on parsed JSON: a key on a dict, or an index on a list. A missing key (KeyError), an index past the end (IndexError) or the wrong kind of container (TypeError) gives None. It differs from Python in one case: it also fails on an index into a string, which Python allows. No outcome changes, because every index the decoder takes is followed by a key lookup, and Python raises on a key lookup into a one-character string. Specified by `Json.FollowAppend` and `WeatherFacts.NormalizedSucceedsIff`. |
| `Json.Follow` | Codes/Weather_App_Final.py:221-263 | Definition of a subscript chain `json_data[..][..]`, which fails at the first subscript that raises. Specified by `Json.FollowAppend` and `WeatherFacts.NormalizedSucceedsIff`. |
| `Json.Text` | Codes/Weather_App_Final.py:225-227 | Definition of a lookup whose value is joined with `+` (also at lines 240-242, 251-253 and 262), so it must be a `str`. Specified by `Json.TextAppend` and `WeatherFacts.NormalizedSucceedsIff`. |
| `PyText.IsSpace` | Codes/Weather_App_Final.py:196 | Definition of `str.isspace()` on one character: the 29 code points `strip()` removes. Specified by `PyText.StripCharacterised`. |
| `PyText.TrimStart` | Codes/Weather_App_Final.py:196 | Definition of the leading half of `strip()`. Specified by `PyText.TrimStartDropsLeadingSpace`. |
| `PyText.TrimEnd` | Codes/Weather_App_Final.py:196 | Definition of the trailing half of `strip()`. Specified by `PyText.TrimEndDropsTrailingSpace`. |
| `PyText.Strip` | Codes/Weather_App_Final.py:196 | Definition of `str.strip()`. Specified by `PyText.StripCharacterised`. |
| `App.RequestUrl` | Codes/Weather_App_Final.py:217 | Definition of the j1 request URL. Specified by `App.GetWeather`. |
| `Normalize.ForecastOfPointwise` | Codes/Weather_App_Final.py:249-264 | The forecast list exists exactly when every day decodes. It then has one entry per day, in order, and entry k is day k's record. |
| `Normalize.FetchWeatherData` | Codes/Weather_App_Final.py:221-266 | The imperative decoder (current record, then the loop that appends one entry per day of `weather[:3]` and aborts on the first failure) returns exactly the all-or-nothing result `Normalized`. |
| `WeatherFacts.CurrentPaths` | Codes/Weather_App_Final.py:221-235 | Each absolute path read for the current record equals the relative lookup from `current_condition[0]`, `nearest_area[0]` or `weather[0]['astronomy'][0]`. |
| `WeatherFacts.DayPaths` | Codes/Weather_App_Final.py:250-263 | For an index inside the day list, `weather[i]` is that day, and each absolute path of the i-th forecast day equals the lookup from that day. |
| `WeatherFacts.CurrentFromDocument` | Codes/Weather_App_Final.py:221-247 | Every field of the current record is read from its absolute path, with its unit suffix. This covers temperatures, wind, location, sunrise/sunset, description, humidity, pressure, visibility, UV index and the icon URL. |
| `WeatherFacts.CurrentDecodableOfSome` | Codes/Weather_App_Final.py:221-245 | A current record is produced only when every path it reads is present, with a string wherever the source concatenates. |
| `WeatherFacts.SomeOfCurrentDecodable` | Codes/Weather_App_Final.py:221-245 | Conversely, when all those paths are present, the current record is produced. |
| `WeatherFacts.DayFromDocument` | Codes/Weather_App_Final.py:250-264 | The entry for `weather[i]` exists exactly when that day's paths are present and its date parses. Each of its fields is read from its path: temperatures with suffix, date verbatim, weekday of the date, `hourly[4]` description and wind, and the icon URL. |
| `WeatherFacts.ReportStructure` | Codes/Weather_App_Final.py:249-266 | A result holds the current record and min(3, number of days) forecast entries. Entry i is built from `weather[i]`, so the provider's order is kept. |
| `WeatherFacts.NormalizedSucceedsIff` | Codes/Weather_App_Final.py:221-266 | The normaliser returns a result exactly when the document is `Decodable`. Any short list (`current_condition`, `nearest_area`, `weather`, `astronomy`, `areaName`, `region`, `country`, `weatherDesc`, or fewer than 5 `hourly` entries in one of the first three days), any missing key, or any non-string value that gets concatenated yields no result. |
| `WeatherFacts.TemperatureStrings` | Codes/Weather_App_Final.py:225-253 | In metric, the current temperature and feels-like, and each forecast day's average, maximum and minimum, are the `temp_C`/`FeelsLikeC`/`avgtempC`/`maxtempC`/`mintempC` field plus " °C". In imperial they are the `..F` field plus " °F". |
| `WeatherFacts.CurrentWind` | Codes/Weather_App_Final.py:227-239 | In metric the current wind is `windspeedKmph` verbatim plus " km/h". In imperial it is the converted speed plus " mph". Either way ", " and the formatted `winddir16Point` follow. |
| `WeatherFacts.CurrentPlainFields` | Codes/Weather_App_Final.py:238-243 | Humidity gets "%", pressure gets " hPa" and visibility gets " km". The first `weatherDesc` value and `uvIndex` are copied unchanged. |
| `WeatherFacts.HeaderSources` | Codes/Weather_App_Final.py:230-245 | The location is the first areaName, region and country values of `nearest_area[0]`, joined with ", ". Sunrise and sunset always come from `weather[0]['astronomy'][0]`. |
| `WeatherFacts.ForecastDates` | Codes/Weather_App_Final.py:249-257 | The forecast has min(3, days) entries. Entry i copies the date of `weather[i]` verbatim, and its weekday is the library's weekday name of that date. |
| `WeatherFacts.ForecastSampleHour` | Codes/Weather_App_Final.py:261-262 | Each day's description and wind come from `hourly[4]`. The wind always gets " km/h", whatever the unit choice. |
| `WeatherFacts.IconUrls` | Codes/Weather_App_Final.py:246-263 | The current icon URL is "https://wttr.in/" + city + "_0p.png". A forecast icon URL is "https://wttr.in/" + city + "_" + date + "_0p.png". |
| `WeatherFacts.UnitChoiceScope` | Codes/Weather_App_Final.py:225-262 | When both unit choices decode the same document, they differ only in the temperature strings and the current wind. Every other field, including the forecast wind, is the same. |
| `App.GetWeather` | Codes/Weather_App_Final.py:195-219 | A blank or whitespace-only entry gives the input warning and sends no request. Any other entry requests the j1 URL for the stripped city. The report is shown exactly when the body parses and is `Decodable`, and it is then the normaliser's result. Every other case is the one generic failure, after which the display is cleared. |

## Left out

- The HTTP GET, its User-Agent header and timeout, and `response.json()` (lines 217-219). The network is the `fetch` parameter of `GetWeather`, which maps a URL to the parsed body or to None. Percent-encoding of the city by the HTTP library is not modelled: `RequestUrl` is the URL text before encoding.
- The imperial conversion `round(float(kmph) * 0.621371, 1)` (line 227): this is floating point with string parsing. It is the `mph` field of `Library`, and the model only states that " mph" is appended to its result.
- The weekday name from `strptime`/`strftime('%A')` (line 257): a library call that depends on the locale. It is the `weekday` field of `Library`, which is None where `strptime` would raise.
- Python's `str()` of a non-string value inside an f-string (location parts, wind direction): this is the `show` field of `Library`.
- The error message text (`str(e)` in the message box) and the status-bar texts with the wall-clock time (lines 203-213): the model's single `FetchFailed` outcome does not say which exception occurred.
- All tkinter work: building and styling the widgets, `update_weather_display`, `clear_weather_display` and the message boxes (lines 40-194, 268-294, 321-341). Clearing the display is represented only by the `FetchFailed` outcome. An exception raised while painting (line 208) is not modelled.
- Icon loading with PIL, resizing, the border and the blank placeholder (lines 296-319): this is image I/O through foreign libraries.
- A second fetch triggered while one is still running: the source is single-threaded with a blocking call, and the model has no concurrency.
