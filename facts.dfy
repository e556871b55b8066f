/**
 * A reference description of the normaliser: where in a j1 document each
 * output field comes from, written as absolute subscript paths from the
 * document root, and which paths must be present. The lemmas connect it with
 * the step-by-step decoder of module Normalize.
 */
module WeatherFacts {
  import opened Wrappers
  import opened Json
  import opened Normalize

  /** `json_data['current_condition'][0]`. */
  const CurrentRecord: seq<Step> := [Key("current_condition"), Idx(0)]
  /** `json_data['nearest_area'][0]`. */
  const AreaRecord: seq<Step> := [Key("nearest_area"), Idx(0)]
  /** `json_data['weather'][i]`, the provider's i-th day. */
  function DayRecord(i: nat): seq<Step> {
    [Key("weather"), Idx(i)]
  }

  /** The provider's day list (empty where `weather` is missing or not a list). */
  function Days(doc: Json): seq<Json> {
    match Follow(doc, [Key("weather")])
    case Some(Arr(items)) => items
    case _ => []
  }

  /** min(3, number of provider days). */
  function ForecastLength(doc: Json): nat {
    if |Days(doc)| < 3 then |Days(doc)| else 3
  }

  /** The key read under the unit choice. */
  function UnitKey(units: Units, metric: string, imperial: string): string {
    if units == Metric then metric else imperial
  }

  /** Every path the current-conditions record reads is present, with a string wherever one is concatenated. */
  predicate CurrentDecodable(lib: Library, units: Units, doc: Json) {
    && Text(doc, CurrentRecord + [Key(UnitKey(units, "temp_C", "temp_F"))]).Some?
    && Text(doc, CurrentRecord + [Key(UnitKey(units, "FeelsLikeC", "FeelsLikeF"))]).Some?
    && (units == Metric ==> Text(doc, CurrentRecord + [Key("windspeedKmph")]).Some?)
    && (units == Imperial ==>
          Follow(doc, CurrentRecord + [Key("windspeedKmph")]).Some?
          && lib.mph(Follow(doc, CurrentRecord + [Key("windspeedKmph")]).value).Some?)
    && Follow(doc, DayRecord(0) + [Key("astronomy"), Idx(0), Key("sunrise")]).Some?
    && Follow(doc, DayRecord(0) + [Key("astronomy"), Idx(0), Key("sunset")]).Some?
    && Follow(doc, AreaRecord + [Key("areaName"), Idx(0), Key("value")]).Some?
    && Follow(doc, AreaRecord + [Key("region"), Idx(0), Key("value")]).Some?
    && Follow(doc, AreaRecord + [Key("country"), Idx(0), Key("value")]).Some?
    && Follow(doc, CurrentRecord + [Key("weatherDesc"), Idx(0), Key("value")]).Some?
    && Follow(doc, CurrentRecord + [Key("winddir16Point")]).Some?
    && Text(doc, CurrentRecord + [Key("humidity")]).Some?
    && Text(doc, CurrentRecord + [Key("pressure")]).Some?
    && Text(doc, CurrentRecord + [Key("visibility")]).Some?
    && Follow(doc, CurrentRecord + [Key("uvIndex")]).Some?
  }

  /** Every path the i-th forecast entry reads is present, and its date is one `strptime` accepts. */
  predicate DayDecodable(lib: Library, units: Units, doc: Json, i: nat) {
    && Text(doc, DayRecord(i) + [Key(UnitKey(units, "avgtempC", "avgtempF"))]).Some?
    && Text(doc, DayRecord(i) + [Key(UnitKey(units, "maxtempC", "maxtempF"))]).Some?
    && Text(doc, DayRecord(i) + [Key(UnitKey(units, "mintempC", "mintempF"))]).Some?
    && Text(doc, DayRecord(i) + [Key("date")]).Some?
    && lib.weekday(Text(doc, DayRecord(i) + [Key("date")]).value).Some?
    && Follow(doc, DayRecord(i) + [Key("hourly"), Idx(4), Key("weatherDesc"), Idx(0), Key("value")]).Some?
    && Text(doc, DayRecord(i) + [Key("hourly"), Idx(4), Key("windspeedKmph")]).Some?
  }

  /** A document the normaliser accepts: the current record and each of the first three days decode. */
  predicate Decodable(lib: Library, units: Units, doc: Json) {
    && CurrentDecodable(lib, units, doc)
    && forall i :: 0 <= i < ForecastLength(doc) ==> DayDecodable(lib, units, doc, i)
  }

  // ---------------------------------------------------------------------------
  // The records, field by field

  /** The absolute paths of the current record, re-rooted at the records the source names. */
  lemma CurrentPaths(units: Units, doc: Json)
    ensures Text(doc, CurrentRecord + [Key(UnitKey(units, "temp_C", "temp_F"))])
         == TextUnder(doc, CurrentRecord, [Key(UnitKey(units, "temp_C", "temp_F"))])
    ensures Text(doc, CurrentRecord + [Key(UnitKey(units, "FeelsLikeC", "FeelsLikeF"))])
         == TextUnder(doc, CurrentRecord, [Key(UnitKey(units, "FeelsLikeC", "FeelsLikeF"))])
    ensures Text(doc, CurrentRecord + [Key("windspeedKmph")])
         == TextUnder(doc, CurrentRecord, [Key("windspeedKmph")])
    ensures Follow(doc, CurrentRecord + [Key("windspeedKmph")])
         == Under(doc, CurrentRecord, [Key("windspeedKmph")])
    ensures Follow(doc, CurrentRecord + [Key("winddir16Point")])
         == Under(doc, CurrentRecord, [Key("winddir16Point")])
    ensures Follow(doc, CurrentRecord + [Key("weatherDesc"), Idx(0), Key("value")])
         == Under(doc, CurrentRecord, [Key("weatherDesc"), Idx(0), Key("value")])
    ensures Text(doc, CurrentRecord + [Key("humidity")]) == TextUnder(doc, CurrentRecord, [Key("humidity")])
    ensures Text(doc, CurrentRecord + [Key("pressure")]) == TextUnder(doc, CurrentRecord, [Key("pressure")])
    ensures Text(doc, CurrentRecord + [Key("visibility")])
         == TextUnder(doc, CurrentRecord, [Key("visibility")])
    ensures Follow(doc, CurrentRecord + [Key("uvIndex")]) == Under(doc, CurrentRecord, [Key("uvIndex")])
    ensures Follow(doc, AreaRecord + [Key("areaName"), Idx(0), Key("value")])
         == Under(doc, AreaRecord, [Key("areaName"), Idx(0), Key("value")])
    ensures Follow(doc, AreaRecord + [Key("region"), Idx(0), Key("value")])
         == Under(doc, AreaRecord, [Key("region"), Idx(0), Key("value")])
    ensures Follow(doc, AreaRecord + [Key("country"), Idx(0), Key("value")])
         == Under(doc, AreaRecord, [Key("country"), Idx(0), Key("value")])
    ensures Follow(doc, DayRecord(0) + [Key("astronomy"), Idx(0), Key("sunrise")])
         == match Follow(doc, DayRecord(0))
            case None => None
            case Some(t) => Under(t, [Key("astronomy"), Idx(0)], [Key("sunrise")])
    ensures Follow(doc, DayRecord(0) + [Key("astronomy"), Idx(0), Key("sunset")])
         == match Follow(doc, DayRecord(0))
            case None => None
            case Some(t) => Under(t, [Key("astronomy"), Idx(0)], [Key("sunset")])
  {
    TextAppend(doc, CurrentRecord, [Key(UnitKey(units, "temp_C", "temp_F"))]);
    TextAppend(doc, CurrentRecord, [Key(UnitKey(units, "FeelsLikeC", "FeelsLikeF"))]);
    TextAppend(doc, CurrentRecord, [Key("windspeedKmph")]);
    FollowAppend(doc, CurrentRecord, [Key("windspeedKmph")]);
    FollowAppend(doc, CurrentRecord, [Key("winddir16Point")]);
    FollowAppend(doc, CurrentRecord, [Key("weatherDesc"), Idx(0), Key("value")]);
    TextAppend(doc, CurrentRecord, [Key("humidity")]);
    TextAppend(doc, CurrentRecord, [Key("pressure")]);
    TextAppend(doc, CurrentRecord, [Key("visibility")]);
    FollowAppend(doc, CurrentRecord, [Key("uvIndex")]);
    FollowAppend(doc, AreaRecord, [Key("areaName"), Idx(0), Key("value")]);
    FollowAppend(doc, AreaRecord, [Key("region"), Idx(0), Key("value")]);
    FollowAppend(doc, AreaRecord, [Key("country"), Idx(0), Key("value")]);
    var astronomy := [Key("astronomy"), Idx(0)];
    FollowAppend(doc, DayRecord(0), astronomy + [Key("sunrise")]);
    FollowAppend(doc, DayRecord(0), astronomy + [Key("sunset")]);
    assert astronomy + [Key("sunrise")] == [Key("astronomy"), Idx(0), Key("sunrise")];
    assert astronomy + [Key("sunset")] == [Key("astronomy"), Idx(0), Key("sunset")];
    match Follow(doc, DayRecord(0))
    case None =>
    case Some(today) =>
      FollowAppend(today, astronomy, [Key("sunrise")]);
      FollowAppend(today, astronomy, [Key("sunset")]);
  }

  /** Each field of the current-conditions record, read from its absolute path. */
  lemma CurrentFromDocument(lib: Library, city: string, units: Units, doc: Json)
    requires CurrentOf(lib, city, units, doc).Some?
    ensures var cur := CurrentOf(lib, city, units, doc).value;
      var suffix := if units == Metric then CelsiusSuffix else FahrenheitSuffix;
      && Text(doc, CurrentRecord + [Key(UnitKey(units, "temp_C", "temp_F"))]).Some?
      && cur.temp == Text(doc, CurrentRecord + [Key(UnitKey(units, "temp_C", "temp_F"))]).value + suffix
      && Text(doc, CurrentRecord + [Key(UnitKey(units, "FeelsLikeC", "FeelsLikeF"))]).Some?
      && cur.feelsLike == Text(doc, CurrentRecord + [Key(UnitKey(units, "FeelsLikeC", "FeelsLikeF"))]).value + suffix
      && Follow(doc, CurrentRecord + [Key("windspeedKmph")]).Some?
      && Follow(doc, CurrentRecord + [Key("winddir16Point")]).Some?
      && (units == Metric ==>
            && Text(doc, CurrentRecord + [Key("windspeedKmph")]).Some?
            && cur.wind == Text(doc, CurrentRecord + [Key("windspeedKmph")]).value + KmhSuffix
                           + ", " + Format(lib, Follow(doc, CurrentRecord + [Key("winddir16Point")]).value))
      && (units == Imperial ==>
            && lib.mph(Follow(doc, CurrentRecord + [Key("windspeedKmph")]).value).Some?
            && cur.wind == lib.mph(Follow(doc, CurrentRecord + [Key("windspeedKmph")]).value).value + MphSuffix
                           + ", " + Format(lib, Follow(doc, CurrentRecord + [Key("winddir16Point")]).value))
      && Follow(doc, DayRecord(0) + [Key("astronomy"), Idx(0), Key("sunrise")]) == Some(cur.sunrise)
      && Follow(doc, DayRecord(0) + [Key("astronomy"), Idx(0), Key("sunset")]) == Some(cur.sunset)
      && Follow(doc, AreaRecord + [Key("areaName"), Idx(0), Key("value")]).Some?
      && Follow(doc, AreaRecord + [Key("region"), Idx(0), Key("value")]).Some?
      && Follow(doc, AreaRecord + [Key("country"), Idx(0), Key("value")]).Some?
      && cur.location == Format(lib, Follow(doc, AreaRecord + [Key("areaName"), Idx(0), Key("value")]).value)
                         + ", " + Format(lib, Follow(doc, AreaRecord + [Key("region"), Idx(0), Key("value")]).value)
                         + ", " + Format(lib, Follow(doc, AreaRecord + [Key("country"), Idx(0), Key("value")]).value)
      && Follow(doc, CurrentRecord + [Key("weatherDesc"), Idx(0), Key("value")]) == Some(cur.conditions)
      && Text(doc, CurrentRecord + [Key("humidity")]).Some?
      && cur.humidity == Text(doc, CurrentRecord + [Key("humidity")]).value + "%"
      && Text(doc, CurrentRecord + [Key("pressure")]).Some?
      && cur.pressure == Text(doc, CurrentRecord + [Key("pressure")]).value + " hPa"
      && Text(doc, CurrentRecord + [Key("visibility")]).Some?
      && cur.visibility == Text(doc, CurrentRecord + [Key("visibility")]).value + " km"
      && Follow(doc, CurrentRecord + [Key("uvIndex")]) == Some(cur.uvIndex)
      && cur.iconUrl == IconBase + city + IconTail
  {
    CurrentPaths(units, doc);
    var c := Follow(doc, CurrentRecord).value;
    var a := Follow(doc, AreaRecord).value;
    var t := Follow(doc, DayRecord(0)).value;
    assert Temperature(c, units, "temp_C", "temp_F").Some?;
    assert Temperature(c, units, "FeelsLikeC", "FeelsLikeF").Some?;
    assert WindSpeed(lib, units, c).Some?;
    var s := Follow(t, [Key("astronomy"), Idx(0)]).value;
    assert Follow(s, [Key("sunrise")]).Some?;
    assert Follow(s, [Key("sunset")]).Some?;
    assert Follow(a, [Key("areaName"), Idx(0), Key("value")]).Some?;
    assert Follow(a, [Key("region"), Idx(0), Key("value")]).Some?;
    assert Follow(a, [Key("country"), Idx(0), Key("value")]).Some?;
    assert Follow(c, [Key("weatherDesc"), Idx(0), Key("value")]).Some?;
    assert Follow(c, [Key("winddir16Point")]).Some?;
    assert Text(c, [Key("humidity")]).Some?;
    assert Text(c, [Key("pressure")]).Some?;
    assert Text(c, [Key("visibility")]).Some?;
    assert Follow(c, [Key("uvIndex")]).Some?;
  }

  /** A current-conditions record is produced only from a document whose current paths are all present. */
  lemma CurrentDecodableOfSome(lib: Library, city: string, units: Units, doc: Json)
    requires CurrentOf(lib, city, units, doc).Some?
    ensures CurrentDecodable(lib, units, doc)
  {
    CurrentFromDocument(lib, city, units, doc);
  }

  /** Every document whose current paths are all present yields a current-conditions record. */
  lemma SomeOfCurrentDecodable(lib: Library, city: string, units: Units, doc: Json)
    requires CurrentDecodable(lib, units, doc)
    ensures CurrentOf(lib, city, units, doc).Some?
  {
    CurrentPaths(units, doc);
    var c := Follow(doc, CurrentRecord).value;
    var a := Follow(doc, AreaRecord).value;
    var t := Follow(doc, DayRecord(0)).value;
    assert Temperature(c, units, "temp_C", "temp_F").Some?;
    assert Temperature(c, units, "FeelsLikeC", "FeelsLikeF").Some?;
    assert WindSpeed(lib, units, c).Some?;
    var s := Follow(t, [Key("astronomy"), Idx(0)]).value;
    assert Follow(s, [Key("sunrise")]).Some? && Follow(s, [Key("sunset")]).Some?;
    assert Follow(a, [Key("areaName"), Idx(0), Key("value")]).Some?;
    assert Follow(a, [Key("region"), Idx(0), Key("value")]).Some?;
    assert Follow(a, [Key("country"), Idx(0), Key("value")]).Some?;
    assert Follow(c, [Key("weatherDesc"), Idx(0), Key("value")]).Some?;
    assert Follow(c, [Key("winddir16Point")]).Some?;
    assert Text(c, [Key("humidity")]).Some? && Text(c, [Key("pressure")]).Some?;
    assert Text(c, [Key("visibility")]).Some? && Follow(c, [Key("uvIndex")]).Some?;
  }

  /** The absolute paths of the i-th forecast day, re-rooted at that day. */
  lemma DayPaths(units: Units, doc: Json, i: nat)
    requires i < |Days(doc)|
    ensures Follow(doc, DayRecord(i)) == Some(Days(doc)[i])
    ensures Text(doc, DayRecord(i) + [Key(UnitKey(units, "avgtempC", "avgtempF"))])
         == Text(Days(doc)[i], [Key(UnitKey(units, "avgtempC", "avgtempF"))])
    ensures Text(doc, DayRecord(i) + [Key(UnitKey(units, "maxtempC", "maxtempF"))])
         == Text(Days(doc)[i], [Key(UnitKey(units, "maxtempC", "maxtempF"))])
    ensures Text(doc, DayRecord(i) + [Key(UnitKey(units, "mintempC", "mintempF"))])
         == Text(Days(doc)[i], [Key(UnitKey(units, "mintempC", "mintempF"))])
    ensures Text(doc, DayRecord(i) + [Key("date")]) == Text(Days(doc)[i], [Key("date")])
    ensures Follow(doc, DayRecord(i) + [Key("hourly"), Idx(4), Key("weatherDesc"), Idx(0), Key("value")])
         == Follow(Days(doc)[i], [Key("hourly"), Idx(4), Key("weatherDesc"), Idx(0), Key("value")])
    ensures Text(doc, DayRecord(i) + [Key("hourly"), Idx(4), Key("windspeedKmph")])
         == Text(Days(doc)[i], [Key("hourly"), Idx(4), Key("windspeedKmph")])
  {
    FollowAppend(doc, [Key("weather")], [Idx(i)]);
    assert [Key("weather")] + [Idx(i)] == DayRecord(i);
    assert Follow(Arr(Days(doc)), [Idx(i)]) == Some(Days(doc)[i]);
    TextAppend(doc, DayRecord(i), [Key(UnitKey(units, "avgtempC", "avgtempF"))]);
    TextAppend(doc, DayRecord(i), [Key(UnitKey(units, "maxtempC", "maxtempF"))]);
    TextAppend(doc, DayRecord(i), [Key(UnitKey(units, "mintempC", "mintempF"))]);
    TextAppend(doc, DayRecord(i), [Key("date")]);
    FollowAppend(doc, DayRecord(i), [Key("hourly"), Idx(4), Key("weatherDesc"), Idx(0), Key("value")]);
    TextAppend(doc, DayRecord(i), [Key("hourly"), Idx(4), Key("windspeedKmph")]);
  }

  /**
   * A forecast entry is built from the i-th day exactly when that day's paths are present,
   * each field from its path.
   */
  lemma DayFromDocument(lib: Library, city: string, units: Units, doc: Json, i: nat)
    requires i < |Days(doc)|
    ensures DayOf(lib, city, units, Days(doc)[i]).Some? <==> DayDecodable(lib, units, doc, i)
    ensures DayOf(lib, city, units, Days(doc)[i]).Some? ==>
      var day := DayOf(lib, city, units, Days(doc)[i]).value;
      var suffix := if units == Metric then CelsiusSuffix else FahrenheitSuffix;
      && DayDecodable(lib, units, doc, i)
      && day.avgTemp == Text(doc, DayRecord(i) + [Key(UnitKey(units, "avgtempC", "avgtempF"))]).value + suffix
      && day.maxTemp == Text(doc, DayRecord(i) + [Key(UnitKey(units, "maxtempC", "maxtempF"))]).value + suffix
      && day.minTemp == Text(doc, DayRecord(i) + [Key(UnitKey(units, "mintempC", "mintempF"))]).value + suffix
      && Text(doc, DayRecord(i) + [Key("date")]) == Some(day.date)
      && lib.weekday(day.date) == Some(day.dayName)
      && Follow(doc, DayRecord(i) + [Key("hourly"), Idx(4), Key("weatherDesc"), Idx(0), Key("value")]) == Some(day.desc)
      && day.wind == Text(doc, DayRecord(i) + [Key("hourly"), Idx(4), Key("windspeedKmph")]).value + KmhSuffix
      && day.iconUrl == IconBase + city + "_" + day.date + IconTail
  {
    DayPaths(units, doc, i);
  }

  /**
   * The shape of the normaliser's result: the current record, and one
   * forecast entry per provider day among the first three, entry i built
   * from `weather[i]`.
   */
  lemma ReportStructure(lib: Library, city: string, units: Units, doc: Json)
    ensures Normalized(lib, city, units, doc).Some? ==>
      var rep := Normalized(lib, city, units, doc).value;
      && CurrentOf(lib, city, units, doc) == Some(rep.current)
      && |rep.forecast| == ForecastLength(doc)
      && forall i :: 0 <= i < |rep.forecast| ==> DayOf(lib, city, units, Days(doc)[i]) == Some(rep.forecast[i])
  {
    if Normalized(lib, city, units, doc).Some? {
      var days := FirstThree(Days(doc));
      ForecastOfPointwise(lib, city, units, days);
      assert forall i :: 0 <= i < |days| ==> days[i] == Days(doc)[i];
    }
  }

  /** The normaliser yields a result exactly for the documents that `Decodable` describes; all or nothing. */
  lemma NormalizedSucceedsIff(lib: Library, city: string, units: Units, doc: Json)
    ensures Normalized(lib, city, units, doc).Some? <==> Decodable(lib, units, doc)
  {
    var days := FirstThree(Days(doc));
    if CurrentOf(lib, city, units, doc).Some? {
      CurrentDecodableOfSome(lib, city, units, doc);
      assert Follow(doc, [Key("weather")]).Some? && Follow(doc, [Key("weather")]).value.Arr? by {
        FollowAppend(doc, [Key("weather")], [Idx(0)]);
        assert [Key("weather")] + [Idx(0)] == DayRecord(0);
      }
      ForecastOfPointwise(lib, city, units, days);
      forall i | 0 <= i < |days|
        ensures DayOf(lib, city, units, days[i]).Some? <==> DayDecodable(lib, units, doc, i)
      {
        DayFromDocument(lib, city, units, doc, i);
      }
    } else if CurrentDecodable(lib, units, doc) {
      SomeOfCurrentDecodable(lib, city, units, doc);
    }
  }

  // ---------------------------------------------------------------------------
  // Field by field

  /**
   * Temperatures: metric reads the Celsius field and appends " °C",
   * imperial the Fahrenheit field and " °F", for the current record and
   * for every forecast day.
   */
  lemma TemperatureStrings(lib: Library, city: string, units: Units, doc: Json)
    ensures Normalized(lib, city, units, doc).Some? ==>
      var rep := Normalized(lib, city, units, doc).value;
      units == Metric ==>
        && Text(doc, CurrentRecord + [Key("temp_C")]).Some?
        && rep.current.temp == Text(doc, CurrentRecord + [Key("temp_C")]).value + " °C"
        && Text(doc, CurrentRecord + [Key("FeelsLikeC")]).Some?
        && rep.current.feelsLike == Text(doc, CurrentRecord + [Key("FeelsLikeC")]).value + " °C"
        && forall i :: 0 <= i < |rep.forecast| ==>
             && Text(doc, DayRecord(i) + [Key("avgtempC")]).Some?
             && rep.forecast[i].avgTemp == Text(doc, DayRecord(i) + [Key("avgtempC")]).value + " °C"
             && Text(doc, DayRecord(i) + [Key("maxtempC")]).Some?
             && rep.forecast[i].maxTemp == Text(doc, DayRecord(i) + [Key("maxtempC")]).value + " °C"
             && Text(doc, DayRecord(i) + [Key("mintempC")]).Some?
             && rep.forecast[i].minTemp == Text(doc, DayRecord(i) + [Key("mintempC")]).value + " °C"
    ensures Normalized(lib, city, units, doc).Some? ==>
      var rep := Normalized(lib, city, units, doc).value;
      units == Imperial ==>
        && Text(doc, CurrentRecord + [Key("temp_F")]).Some?
        && rep.current.temp == Text(doc, CurrentRecord + [Key("temp_F")]).value + " °F"
        && Text(doc, CurrentRecord + [Key("FeelsLikeF")]).Some?
        && rep.current.feelsLike == Text(doc, CurrentRecord + [Key("FeelsLikeF")]).value + " °F"
        && forall i :: 0 <= i < |rep.forecast| ==>
             && Text(doc, DayRecord(i) + [Key("avgtempF")]).Some?
             && rep.forecast[i].avgTemp == Text(doc, DayRecord(i) + [Key("avgtempF")]).value + " °F"
             && Text(doc, DayRecord(i) + [Key("maxtempF")]).Some?
             && rep.forecast[i].maxTemp == Text(doc, DayRecord(i) + [Key("maxtempF")]).value + " °F"
             && Text(doc, DayRecord(i) + [Key("mintempF")]).Some?
             && rep.forecast[i].minTemp == Text(doc, DayRecord(i) + [Key("mintempF")]).value + " °F"
  {
    if Normalized(lib, city, units, doc).Some? {
      var rep := Normalized(lib, city, units, doc).value;
      ReportStructure(lib, city, units, doc);
      CurrentFromDocument(lib, city, units, doc);
      forall i | 0 <= i < |rep.forecast|
        ensures DayDecodable(lib, units, doc, i)
        ensures var suffix := if units == Metric then CelsiusSuffix else FahrenheitSuffix;
          && rep.forecast[i].avgTemp
             == Text(doc, DayRecord(i) + [Key(UnitKey(units, "avgtempC", "avgtempF"))]).value + suffix
          && rep.forecast[i].maxTemp
             == Text(doc, DayRecord(i) + [Key(UnitKey(units, "maxtempC", "maxtempF"))]).value + suffix
          && rep.forecast[i].minTemp
             == Text(doc, DayRecord(i) + [Key(UnitKey(units, "mintempC", "mintempF"))]).value + suffix
      {
        DayFromDocument(lib, city, units, doc, i);
      }
    }
  }

  /**
   * Current wind: metric copies `windspeedKmph` and appends " km/h",
   * imperial appends " mph" to the converted speed; either way ", " and the
   * 16-point direction follow.
   */
  lemma CurrentWind(lib: Library, city: string, units: Units, doc: Json)
    ensures Normalized(lib, city, units, doc).Some? ==>
      var wind := Normalized(lib, city, units, doc).value.current.wind;
      && Follow(doc, CurrentRecord + [Key("winddir16Point")]).Some?
      && var direction := Format(lib, Follow(doc, CurrentRecord + [Key("winddir16Point")]).value);
      && (units == Metric ==>
            && Text(doc, CurrentRecord + [Key("windspeedKmph")]).Some?
            && wind == Text(doc, CurrentRecord + [Key("windspeedKmph")]).value + " km/h" + ", " + direction)
      && (units == Imperial ==>
            && Follow(doc, CurrentRecord + [Key("windspeedKmph")]).Some?
            && lib.mph(Follow(doc, CurrentRecord + [Key("windspeedKmph")]).value).Some?
            && wind == lib.mph(Follow(doc, CurrentRecord + [Key("windspeedKmph")]).value).value
                       + " mph" + ", " + direction)
  {
    if Normalized(lib, city, units, doc).Some? {
      ReportStructure(lib, city, units, doc);
      CurrentFromDocument(lib, city, units, doc);
    }
  }

  /**
   * Humidity gets "%", pressure " hPa", visibility " km"; the description
   * (the first `weatherDesc` value) and the UV index are copied unchanged.
   */
  lemma CurrentPlainFields(lib: Library, city: string, units: Units, doc: Json)
    ensures Normalized(lib, city, units, doc).Some? ==>
      var cur := Normalized(lib, city, units, doc).value.current;
      && Text(doc, CurrentRecord + [Key("humidity")]).Some?
      && cur.humidity == Text(doc, CurrentRecord + [Key("humidity")]).value + "%"
      && Text(doc, CurrentRecord + [Key("pressure")]).Some?
      && cur.pressure == Text(doc, CurrentRecord + [Key("pressure")]).value + " hPa"
      && Text(doc, CurrentRecord + [Key("visibility")]).Some?
      && cur.visibility == Text(doc, CurrentRecord + [Key("visibility")]).value + " km"
      && Follow(doc, CurrentRecord + [Key("weatherDesc"), Idx(0), Key("value")]) == Some(cur.conditions)
      && Follow(doc, CurrentRecord + [Key("uvIndex")]) == Some(cur.uvIndex)
  {
    if Normalized(lib, city, units, doc).Some? {
      ReportStructure(lib, city, units, doc);
      CurrentFromDocument(lib, city, units, doc);
    }
  }

  /**
   * The header: the location joins the first area name, region and country
   * of `nearest_area[0]` with ", "; sunrise and sunset always come from the
   * first astronomy record of the first provider day.
   */
  lemma HeaderSources(lib: Library, city: string, units: Units, doc: Json)
    ensures Normalized(lib, city, units, doc).Some? ==>
      var cur := Normalized(lib, city, units, doc).value.current;
      && Follow(doc, AreaRecord + [Key("areaName"), Idx(0), Key("value")]).Some?
      && Follow(doc, AreaRecord + [Key("region"), Idx(0), Key("value")]).Some?
      && Follow(doc, AreaRecord + [Key("country"), Idx(0), Key("value")]).Some?
      && cur.location == Format(lib, Follow(doc, AreaRecord + [Key("areaName"), Idx(0), Key("value")]).value)
                         + ", " + Format(lib, Follow(doc, AreaRecord + [Key("region"), Idx(0), Key("value")]).value)
                         + ", " + Format(lib, Follow(doc, AreaRecord + [Key("country"), Idx(0), Key("value")]).value)
      && Follow(doc, DayRecord(0) + [Key("astronomy"), Idx(0), Key("sunrise")]) == Some(cur.sunrise)
      && Follow(doc, DayRecord(0) + [Key("astronomy"), Idx(0), Key("sunset")]) == Some(cur.sunset)
  {
    if Normalized(lib, city, units, doc).Some? {
      ReportStructure(lib, city, units, doc);
      CurrentFromDocument(lib, city, units, doc);
    }
  }

  /**
   * The forecast keeps the provider's order: it has min(3, days) entries,
   * entry i copies the date of `weather[i]` and names its weekday.
   */
  lemma ForecastDates(lib: Library, city: string, units: Units, doc: Json)
    ensures Normalized(lib, city, units, doc).Some? ==>
      var fc := Normalized(lib, city, units, doc).value.forecast;
      && |fc| == ForecastLength(doc)
      && forall i :: 0 <= i < |fc| ==>
           && Text(doc, DayRecord(i) + [Key("date")]) == Some(fc[i].date)
           && lib.weekday(fc[i].date) == Some(fc[i].dayName)
  {
    if Normalized(lib, city, units, doc).Some? {
      var fc := Normalized(lib, city, units, doc).value.forecast;
      ReportStructure(lib, city, units, doc);
      forall i | 0 <= i < |fc|
        ensures Text(doc, DayRecord(i) + [Key("date")]) == Some(fc[i].date)
        ensures lib.weekday(fc[i].date) == Some(fc[i].dayName)
      {
        DayFromDocument(lib, city, units, doc, i);
      }
    }
  }

  /**
   * Each day's description and wind are sampled from `hourly[4]`; the wind
   * gets " km/h" whatever the unit choice.
   */
  lemma ForecastSampleHour(lib: Library, city: string, units: Units, doc: Json)
    ensures Normalized(lib, city, units, doc).Some? ==>
      var fc := Normalized(lib, city, units, doc).value.forecast;
      forall i :: 0 <= i < |fc| ==>
        && Follow(doc, DayRecord(i) + [Key("hourly"), Idx(4), Key("weatherDesc"), Idx(0), Key("value")])
           == Some(fc[i].desc)
        && Text(doc, DayRecord(i) + [Key("hourly"), Idx(4), Key("windspeedKmph")]).Some?
        && fc[i].wind == Text(doc, DayRecord(i) + [Key("hourly"), Idx(4), Key("windspeedKmph")]).value + " km/h"
  {
    if Normalized(lib, city, units, doc).Some? {
      var fc := Normalized(lib, city, units, doc).value.forecast;
      ReportStructure(lib, city, units, doc);
      forall i | 0 <= i < |fc|
        ensures Follow(doc, DayRecord(i) + [Key("hourly"), Idx(4), Key("weatherDesc"), Idx(0), Key("value")])
             == Some(fc[i].desc)
        ensures Text(doc, DayRecord(i) + [Key("hourly"), Idx(4), Key("windspeedKmph")]).Some?
        ensures fc[i].wind == Text(doc, DayRecord(i) + [Key("hourly"), Idx(4), Key("windspeedKmph")]).value + " km/h"
      {
        DayFromDocument(lib, city, units, doc, i);
      }
    }
  }

  /**
   * Icon URLs: "https://wttr.in/<city>_0p.png" for the current conditions,
   * "https://wttr.in/<city>_<date>_0p.png" for each forecast day.
   */
  lemma IconUrls(lib: Library, city: string, units: Units, doc: Json)
    ensures Normalized(lib, city, units, doc).Some? ==>
      var rep := Normalized(lib, city, units, doc).value;
      && rep.current.iconUrl == "https://wttr.in/" + city + "_0p.png"
      && forall i :: 0 <= i < |rep.forecast| ==>
           rep.forecast[i].iconUrl == "https://wttr.in/" + city + "_" + rep.forecast[i].date + "_0p.png"
  {
    if Normalized(lib, city, units, doc).Some? {
      var rep := Normalized(lib, city, units, doc).value;
      ReportStructure(lib, city, units, doc);
      CurrentFromDocument(lib, city, units, doc);
      forall i | 0 <= i < |rep.forecast|
        ensures rep.forecast[i].iconUrl == "https://wttr.in/" + city + "_" + rep.forecast[i].date + "_0p.png"
      {
        DayFromDocument(lib, city, units, doc, i);
      }
    }
  }

  /**
   * The unit choice changes only the temperatures and the current wind
   * speed: when both choices decode the same document, every other field
   * agrees, the forecast wind included.
   */
  lemma UnitChoiceScope(lib: Library, city: string, doc: Json)
    ensures Normalized(lib, city, Metric, doc).Some? && Normalized(lib, city, Imperial, doc).Some? ==>
      var m := Normalized(lib, city, Metric, doc).value;
      var u := Normalized(lib, city, Imperial, doc).value;
      && m.current.(temp := u.current.temp, feelsLike := u.current.feelsLike, wind := u.current.wind) == u.current
      && |m.forecast| == |u.forecast|
      && forall i :: 0 <= i < |m.forecast| ==>
           m.forecast[i].(avgTemp := u.forecast[i].avgTemp, maxTemp := u.forecast[i].maxTemp,
                          minTemp := u.forecast[i].minTemp) == u.forecast[i]
  {
    if Normalized(lib, city, Metric, doc).Some? && Normalized(lib, city, Imperial, doc).Some? {
      var m := Normalized(lib, city, Metric, doc).value;
      var u := Normalized(lib, city, Imperial, doc).value;
      ReportStructure(lib, city, Metric, doc);
      ReportStructure(lib, city, Imperial, doc);
      CurrentFromDocument(lib, city, Metric, doc);
      CurrentFromDocument(lib, city, Imperial, doc);
      forall i | 0 <= i < |m.forecast|
        ensures m.forecast[i].(avgTemp := u.forecast[i].avgTemp, maxTemp := u.forecast[i].maxTemp,
                               minTemp := u.forecast[i].minTemp) == u.forecast[i]
      {
        DayFromDocument(lib, city, Metric, doc, i);
        DayFromDocument(lib, city, Imperial, doc, i);
      }
    }
  }
}
