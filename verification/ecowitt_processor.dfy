/**
 * EcowittDataProcessor::processRawData: an Ecowitt upload (an untyped
 * string-to-string payload) becomes one normalised outdoor reading.
 * Keys are lower-cased and the indoor and "feels like" keys dropped; each
 * known field is converted to SI units, range-checked before rounding,
 * rounded to two decimals, and left out when anything about it fails.
 */
module EcowittProcessor {
  import opened Common
  import opened Numeric
  import opened PhpText
  import opened DateTimes
  import opened DataConverter
  import opened DataValidator
  import opened Observations

  /** Indoor and derived keys that never reach the reading. */
  const ExcludedKeys: set<string> :=
    {"tempinf", "humidityin", "feelslike", "feelslice", "windchill", "heatindex", "dewpoint"}

  /** Wind keys in mph and the m/s fields they feed, in the order they are processed. */
  const WindMappings: seq<(string, string)> := [
    ("windspeedmph", "wind_speed_ms"),
    ("windspdmph_avg10m", "wind_speed_avg10m_ms"),
    ("windgustmph", "wind_gust_ms"),
    ("maxdailygust", "max_daily_gust_ms")]

  /** Rain keys in inches and the mm fields they feed; weekly, monthly and yearly totals are not among them. */
  const RainMappings: seq<(string, string)> := [
    ("rainratein", "rain_rate_mmh"),
    ("eventrainin", "rain_event_mm"),
    ("hourlyrainin", "rain_hour_mm"),
    ("dailyrainin", "rain_day_mm")]

  /** Every key a reading can hold. */
  const OutputKeys: set<string> := {
    "time_utc", "temp_c", "humidity", "pressure_hpa", "wind_dir_deg",
    "wind_speed_ms", "wind_speed_avg10m_ms", "wind_gust_ms", "max_daily_gust_ms",
    "rain_rate_mmh", "rain_event_mm", "rain_hour_mm", "rain_day_mm",
    "solar_wm2", "uv_index", "stationtype", "model"}

  // ---- the filtered payload ----

  /**
   * The payload with lower-cased keys and the excluded keys removed; when
   * two keys coincide after lower-casing, the later one wins.
   */
  function Filtered(raw: seq<(string, string)>): (m: map<string, string>)
    ensures forall k :: k in m ==> k !in ExcludedKeys && ToLower(k) == k
  {
    if raw == [] then map[]
    else
      var rest := Filtered(raw[..|raw| - 1]);
      var key := ToLower(raw[|raw| - 1].0);
      ToLowerIdempotent(raw[|raw| - 1].0);
      if key in ExcludedKeys then rest else rest[key := raw[|raw| - 1].1]
  }

  // ---- one output field at a time ----

  /** A payload number converted by `convert`, kept when not negative, rounded to two decimals. */
  function Scaled(f: map<string, string>, rawKey: string, convert: real -> real): Option<real> {
    if rawKey in f then
      match SafeFloat(Some(f[rawKey]), None)
      case None => None
      case Some(x) => if ValidatePositive(Some(convert(x))) then Some(RoundTo(convert(x), 2)) else None
    else None
  }

  /** The timestamp the reading carries: the parsed dateutc, or the clock. */
  function Time(f: map<string, string>, now: Timestamp): Timestamp {
    if "dateutc" in f then ParseDateTime(f["dateutc"], now) else now
  }

  /** How a field of the reading is computed, and from which payload keys. */
  datatype Conversion =
    | Clock                                        // time_utc: dateutc when it parses, else the clock
    | Fahrenheit(source: string)                   // checked in Celsius
    | Percent(source: string)                      // relative humidity
    | InHg(relative: string, absolute: string)     // the relative key whenever present, else the absolute one
    | Compass(source: string)                      // whole degrees
    | Mph(source: string)                          // to m/s, not negative
    | Inches(source: string)                       // to mm, not negative
    | Irradiance(source: string)                   // W/m2, not negative
    | UvScale(source: string)                      // UV index
    | Label(source: string)                        // text cut to 64 characters
    | NotAField

  /** The conversion processRawData applies for each key of the reading. */
  function ConversionOf(key: string): Conversion {
    if key == "time_utc" then Clock
    else if key == "temp_c" then Fahrenheit("tempf")
    else if key == "humidity" then Percent("humidity")
    else if key == "pressure_hpa" then InHg("baromrelin", "baromabsin")
    else if key == "wind_dir_deg" then Compass("winddir")
    else if key == "wind_speed_ms" then Mph("windspeedmph")
    else if key == "wind_speed_avg10m_ms" then Mph("windspdmph_avg10m")
    else if key == "wind_gust_ms" then Mph("windgustmph")
    else if key == "max_daily_gust_ms" then Mph("maxdailygust")
    else if key == "rain_rate_mmh" then Inches("rainratein")
    else if key == "rain_event_mm" then Inches("eventrainin")
    else if key == "rain_hour_mm" then Inches("hourlyrainin")
    else if key == "rain_day_mm" then Inches("dailyrainin")
    else if key == "solar_wm2" then Irradiance("solarradiation")
    else if key == "uv_index" then UvScale("uv")
    else if key == "stationtype" then Label("stationtype")
    else if key == "model" then Label("model")
    else NotAField
  }

  /** safeFloat of a payload key, null when the key is absent. */
  function Number(f: map<string, string>, source: string): Option<real> {
    if source in f then SafeFloat(Some(f[source]), None) else None
  }

  /** A present key reads as its numeric value, or null when it has none. */
  lemma NumberIsParsed(f: map<string, string>, source: string)
    ensures Number(f, source) == if source in f then ParseNumeric(f[source]) else None
  {
    if source in f {
      SafeConversionsOfString(f[source]);
    }
  }

  /** The value the reading holds under `key`, or None when that field is left out. */
  function Field(f: map<string, string>, now: Timestamp, key: string): Option<Value> {
    match ConversionOf(key)
    case Clock => Some(Text(FormatYmdHis(Time(f, now))))
    case Fahrenheit(source) =>
      var t := Number(f, source);
      var c := if t.Some? then Some(FahrenheitToCelsius(t.value)) else None;
      if c.Some? && ValidateTemperature(c) then Some(Real(RoundTo(c.value, 2))) else None
    case Percent(source) =>
      var h := Number(f, source);
      if h.Some? && ValidateHumidity(h) then Some(Real(RoundTo(h.value, 2))) else None
    case InHg(relative, absolute) =>
      var inHg := if relative in f then Number(f, relative) else Number(f, absolute);
      var p := if inHg.Some? then Some(InHgToHpa(inHg.value)) else None;
      if p.Some? && ValidatePressure(p) then Some(Real(RoundTo(p.value, 2))) else None
    case Compass(source) =>
      if source in f then
        var d := SafeInt(Some(f[source]), None);
        if d.Some? && ValidateWindDirection(d) then Some(Int(d.value)) else None
      else None
    case Mph(source) => RealCell(Scaled(f, source, MphToMs))
    case Inches(source) => RealCell(Scaled(f, source, InchToMm))
    case Irradiance(source) =>
      var s := Number(f, source);
      if s.Some? && ValidatePositive(s) then Some(Real(RoundTo(s.value, 2))) else None
    case UvScale(source) =>
      var u := Number(f, source);
      if u.Some? && ValidateUVIndex(u) then Some(Real(RoundTo(u.value, 2))) else None
    case Label(source) => if source in f then Some(Text(Prefix(f[source], 64))) else None
    case NotAField => None
  }

  /** The conversion table, key by key: the atmosphere fields. */
  lemma AtmosphereConversions()
    ensures ConversionOf("time_utc") == Clock
    ensures ConversionOf("temp_c") == Fahrenheit("tempf")
    ensures ConversionOf("humidity") == Percent("humidity")
    ensures ConversionOf("pressure_hpa") == InHg("baromrelin", "baromabsin")
    ensures ConversionOf("wind_dir_deg") == Compass("winddir")
  {
  }

  /** The radiation fields. */
  lemma RadiationConversions()
    ensures ConversionOf("solar_wm2") == Irradiance("solarradiation")
    ensures ConversionOf("uv_index") == UvScale("uv")
  {
  }

  /** The metadata fields. */
  lemma LabelConversions()
    ensures ConversionOf("stationtype") == Label("stationtype")
    ensures ConversionOf("model") == Label("model")
  {
  }

  /** The weekly, monthly and yearly rain totals are not fields of the reading. */
  lemma RainTotalsNotFields()
    ensures "rain_week_mm" !in OutputKeys && "rain_month_mm" !in OutputKeys && "rain_year_mm" !in OutputKeys
  {
  }

  /** The two radiation fields, with their conversions applied. */
  lemma RadiationFields(f: map<string, string>, now: Timestamp)
    ensures var v := Number(f, "solarradiation");
      Field(f, now, "solar_wm2") == if v.Some? && ValidatePositive(v) then Some(Real(RoundTo(v.value, 2))) else None
    ensures var u := Number(f, "uv");
      Field(f, now, "uv_index") == if u.Some? && ValidateUVIndex(u) then Some(Real(RoundTo(u.value, 2))) else None
  {
    RadiationConversions();
  }

  /** The wind and rain rows of the conversion table follow the two mapping lists. */
  lemma MappedConversions()
    ensures forall j :: 0 <= j < |WindMappings| ==> ConversionOf(WindMappings[j].1) == Mph(WindMappings[j].0)
    ensures forall j :: 0 <= j < |RainMappings| ==> ConversionOf(RainMappings[j].1) == Inches(RainMappings[j].0)
  {
    assert ConversionOf("wind_speed_ms") == Mph("windspeedmph");
    assert ConversionOf("wind_speed_avg10m_ms") == Mph("windspdmph_avg10m");
    assert ConversionOf("wind_gust_ms") == Mph("windgustmph");
    assert ConversionOf("max_daily_gust_ms") == Mph("maxdailygust");
    assert ConversionOf("rain_rate_mmh") == Inches("rainratein");
    assert ConversionOf("rain_event_mm") == Inches("eventrainin");
    assert ConversionOf("rain_hour_mm") == Inches("hourlyrainin");
    assert ConversionOf("rain_day_mm") == Inches("dailyrainin");
  }

  /** The fields among `keys` that are not left out. */
  function Partial(f: map<string, string>, now: Timestamp, keys: set<string>): map<string, Value> {
    map k | k in keys && Field(f, now, k).Some? :: Field(f, now, k).value
  }

  /** The reading processRawData returns for a payload at clock time `now`. */
  function Normalise(raw: seq<(string, string)>, now: Timestamp): map<string, Value> {
    Partial(Filtered(raw), now, OutputKeys)
  }

  /** Adding one key to a partial reading is storing that field when it is present. */
  lemma PartialAdd(f: map<string, string>, now: Timestamp, keys: set<string>, key: string)
    ensures Partial(f, now, keys + {key}) ==
      (if Field(f, now, key).Some? then Partial(f, now, keys)[key := Field(f, now, key).value] else Partial(f, now, keys))
  {
  }

  lemma WindFields(f: map<string, string>, now: Timestamp)
    ensures forall j :: 0 <= j < |WindMappings| ==>
      Field(f, now, WindMappings[j].1) == RealCell(Scaled(f, WindMappings[j].0, MphToMs))
  {
    MappedConversions();
  }

  lemma RainFields(f: map<string, string>, now: Timestamp)
    ensures forall j :: 0 <= j < |RainMappings| ==>
      Field(f, now, RainMappings[j].1) == RealCell(Scaled(f, RainMappings[j].0, InchToMm))
  {
    MappedConversions();
  }

  lemma MappedTargets()
    ensures (set k | 0 <= k < |WindMappings| :: WindMappings[k].1) ==
      {"wind_speed_ms", "wind_speed_avg10m_ms", "wind_gust_ms", "max_daily_gust_ms"}
    ensures (set k | 0 <= k < |RainMappings| :: RainMappings[k].1) ==
      {"rain_rate_mmh", "rain_event_mm", "rain_hour_mm", "rain_day_mm"}
  {
    var w := set k | 0 <= k < |WindMappings| :: WindMappings[k].1;
    assert WindMappings[0].1 in w && WindMappings[1].1 in w && WindMappings[2].1 in w && WindMappings[3].1 in w;
    var r := set k | 0 <= k < |RainMappings| :: RainMappings[k].1;
    assert RainMappings[0].1 in r && RainMappings[1].1 in r && RainMappings[2].1 in r && RainMappings[3].1 in r;
  }

  /** The keys in the order processRawData sets them are all of OutputKeys. */
  lemma OutputKeysInOrder()
    ensures {"time_utc"} + {"temp_c"} + {"humidity"} + {"pressure_hpa"} + {"wind_dir_deg"}
      + {"wind_speed_ms", "wind_speed_avg10m_ms", "wind_gust_ms", "max_daily_gust_ms"}
      + {"rain_rate_mmh", "rain_event_mm", "rain_hour_mm", "rain_day_mm"}
      + {"solar_wm2"} + {"uv_index"} + {"stationtype"} + {"model"} == OutputKeys
  {
  }

  // ---- the method ----

  /** The first loop of processRawData: lower-case every key and drop the excluded ones. */
  method FilterPayload(rawData: seq<(string, string)>) returns (filteredData: map<string, string>)
    ensures filteredData == Filtered(rawData)
  {
    filteredData := map[];
    var i := 0;
    while i < |rawData|
      invariant 0 <= i <= |rawData|
      invariant filteredData == Filtered(rawData[..i])
    {
      var lowerKey := ToLower(rawData[i].0);
      if lowerKey !in ExcludedKeys {
        filteredData := filteredData[lowerKey := rawData[i].1];
      }
      assert rawData[..i + 1][..i] == rawData[..i];
      i := i + 1;
    }
    assert rawData[..|rawData|] == rawData;
  }

  /** The time_utc step: the parsed dateutc when present, else the clock, formatted. */
  method PutTime(filteredData: map<string, string>, now: Timestamp, result: map<string, Value>, ghost done: set<string>)
    returns (r: map<string, Value>)
    requires result == Partial(filteredData, now, done)
    ensures r == Partial(filteredData, now, done + {"time_utc"})
  {
    PartialAdd(filteredData, now, done, "time_utc");
    AtmosphereConversions();
    var dt: Timestamp;
    if "dateutc" in filteredData {
      dt := ParseDateTime(filteredData["dateutc"], now);
    } else {
      dt := now;
    }
    r := result["time_utc" := Text(FormatYmdHis(dt))];
  }

  /** The temperature step: tempf in Fahrenheit, checked in Celsius before rounding. */
  method PutTemperature(filteredData: map<string, string>, now: Timestamp, result: map<string, Value>, ghost done: set<string>)
    returns (r: map<string, Value>)
    requires result == Partial(filteredData, now, done)
    ensures r == Partial(filteredData, now, done + {"temp_c"})
  {
    PartialAdd(filteredData, now, done, "temp_c");
    AtmosphereConversions();
    r := result;
    if "tempf" in filteredData {
      var tempF := SafeFloat(Some(filteredData["tempf"]), None);
      if tempF.Some? {
        var tempC := FahrenheitToCelsius(tempF.value);
        if ValidateTemperature(Some(tempC)) {
          r := r["temp_c" := Real(RoundTo(tempC, 2))];
        }
      }
    }
  }

  method PutHumidity(filteredData: map<string, string>, now: Timestamp, result: map<string, Value>, ghost done: set<string>)
    returns (r: map<string, Value>)
    requires result == Partial(filteredData, now, done)
    ensures r == Partial(filteredData, now, done + {"humidity"})
  {
    PartialAdd(filteredData, now, done, "humidity");
    AtmosphereConversions();
    r := result;
    if "humidity" in filteredData {
      var humidity := SafeFloat(Some(filteredData["humidity"]), None);
      if humidity.Some? && ValidateHumidity(humidity) {
        r := r["humidity" := Real(RoundTo(humidity.value, 2))];
      }
    }
  }

  /** The pressure step: baromrelin when that key is present, otherwise baromabsin. */
  method PutPressure(filteredData: map<string, string>, now: Timestamp, result: map<string, Value>, ghost done: set<string>)
    returns (r: map<string, Value>)
    requires result == Partial(filteredData, now, done)
    ensures r == Partial(filteredData, now, done + {"pressure_hpa"})
  {
    PartialAdd(filteredData, now, done, "pressure_hpa");
    AtmosphereConversions();
    r := result;
    var pressure: Option<real> := None;
    if "baromrelin" in filteredData {
      var pressureInHg := SafeFloat(Some(filteredData["baromrelin"]), None);
      if pressureInHg.Some? {
        pressure := Some(InHgToHpa(pressureInHg.value));
      }
    } else if "baromabsin" in filteredData {
      var pressureInHg := SafeFloat(Some(filteredData["baromabsin"]), None);
      if pressureInHg.Some? {
        pressure := Some(InHgToHpa(pressureInHg.value));
      }
    }
    if pressure.Some? && ValidatePressure(pressure) {
      r := r["pressure_hpa" := Real(RoundTo(pressure.value, 2))];
    }
  }

  method PutWindDirection(filteredData: map<string, string>, now: Timestamp, result: map<string, Value>, ghost done: set<string>)
    returns (r: map<string, Value>)
    requires result == Partial(filteredData, now, done)
    ensures r == Partial(filteredData, now, done + {"wind_dir_deg"})
  {
    PartialAdd(filteredData, now, done, "wind_dir_deg");
    AtmosphereConversions();
    r := result;
    if "winddir" in filteredData {
      var windDir := SafeInt(Some(filteredData["winddir"]), None);
      if windDir.Some? && ValidateWindDirection(windDir) {
        r := r["wind_dir_deg" := Int(windDir.value)];
      }
    }
  }

  /** The wind and rain loops: each (raw key, field) pair in turn, converted, kept when not negative. */
  method PutMapped(filteredData: map<string, string>, now: Timestamp, result: map<string, Value>, ghost done: set<string>,
                   mappings: seq<(string, string)>, convert: real -> real)
    returns (r: map<string, Value>, ghost done': set<string>)
    requires result == Partial(filteredData, now, done)
    requires forall j :: 0 <= j < |mappings| ==>
      Field(filteredData, now, mappings[j].1) == RealCell(Scaled(filteredData, mappings[j].0, convert))
    ensures done' == done + set k | 0 <= k < |mappings| :: mappings[k].1
    ensures r == Partial(filteredData, now, done')
  {
    r, done' := result, done;
    var j := 0;
    while j < |mappings|
      invariant 0 <= j <= |mappings|
      invariant done' == done + set k | 0 <= k < j :: mappings[k].1
      invariant r == Partial(filteredData, now, done')
    {
      var rawKey, normalizedKey := mappings[j].0, mappings[j].1;
      PartialAdd(filteredData, now, done', normalizedKey);
      if rawKey in filteredData {
        var value := SafeFloat(Some(filteredData[rawKey]), None);
        if value.Some? {
          var converted := convert(value.value);
          if ValidatePositive(Some(converted)) {
            r := r[normalizedKey := Real(RoundTo(converted, 2))];
          }
        }
      }
      done' := done' + {normalizedKey};
      j := j + 1;
    }
  }

  method PutSolar(filteredData: map<string, string>, now: Timestamp, result: map<string, Value>, ghost done: set<string>)
    returns (r: map<string, Value>)
    requires result == Partial(filteredData, now, done)
    ensures r == Partial(filteredData, now, done + {"solar_wm2"})
  {
    PartialAdd(filteredData, now, done, "solar_wm2");
    RadiationFields(filteredData, now);
    r := result;
    if "solarradiation" in filteredData {
      var solar := SafeFloat(Some(filteredData["solarradiation"]), None);
      assert solar == Number(filteredData, "solarradiation");
      if solar.Some? && ValidatePositive(solar) {
        r := r["solar_wm2" := Real(RoundTo(solar.value, 2))];
      }
    }
  }

  method PutUv(filteredData: map<string, string>, now: Timestamp, result: map<string, Value>, ghost done: set<string>)
    returns (r: map<string, Value>)
    requires result == Partial(filteredData, now, done)
    ensures r == Partial(filteredData, now, done + {"uv_index"})
  {
    PartialAdd(filteredData, now, done, "uv_index");
    RadiationConversions();
    r := result;
    if "uv" in filteredData {
      var uv := SafeFloat(Some(filteredData["uv"]), None);
      if uv.Some? && ValidateUVIndex(uv) {
        r := r["uv_index" := Real(RoundTo(uv.value, 2))];
      }
    }
  }

  /** The metadata steps: stationtype and model cut to 64 characters. */
  method PutStationType(filteredData: map<string, string>, now: Timestamp, result: map<string, Value>, ghost done: set<string>)
    returns (r: map<string, Value>)
    requires result == Partial(filteredData, now, done)
    ensures r == Partial(filteredData, now, done + {"stationtype"})
  {
    PartialAdd(filteredData, now, done, "stationtype");
    LabelConversions();
    r := result;
    if "stationtype" in filteredData {
      r := r["stationtype" := Text(Prefix(filteredData["stationtype"], 64))];
    }
  }

  method PutModel(filteredData: map<string, string>, now: Timestamp, result: map<string, Value>, ghost done: set<string>)
    returns (r: map<string, Value>)
    requires result == Partial(filteredData, now, done)
    ensures r == Partial(filteredData, now, done + {"model"})
  {
    PartialAdd(filteredData, now, done, "model");
    LabelConversions();
    r := result;
    if "model" in filteredData {
      r := r["model" := Text(Prefix(filteredData["model"], 64))];
    }
  }

  /** processRawData: the payload filtered, then the reading built field by field in the code's order. */
  method ProcessRawData(rawData: seq<(string, string)>, now: Timestamp) returns (result: map<string, Value>)
    ensures result == Normalise(rawData, now)
  {
    var filteredData := FilterPayload(rawData);
    ghost var done: set<string> := {};
    result := map[];
    assert Partial(filteredData, now, {}) == map[];
    result := PutTime(filteredData, now, result, done);
    done := {"time_utc"};
    result := PutTemperature(filteredData, now, result, done);
    done := done + {"temp_c"};
    result := PutHumidity(filteredData, now, result, done);
    done := done + {"humidity"};
    result := PutPressure(filteredData, now, result, done);
    done := done + {"pressure_hpa"};
    result := PutWindDirection(filteredData, now, result, done);
    done := done + {"wind_dir_deg"};
    MappedTargets();
    WindFields(filteredData, now);
    result, done := PutMapped(filteredData, now, result, done, WindMappings, MphToMs);
    RainFields(filteredData, now);
    result, done := PutMapped(filteredData, now, result, done, RainMappings, InchToMm);
    result := PutSolar(filteredData, now, result, done);
    done := done + {"solar_wm2"};
    result := PutUv(filteredData, now, result, done);
    done := done + {"uv_index"};
    result := PutStationType(filteredData, now, result, done);
    done := done + {"stationtype"};
    result := PutModel(filteredData, now, result, done);
    done := done + {"model"};
    OutputKeysInOrder();
  }
}

/** What a normalised reading promises, stated over the payload. */
module EcowittProperties {
  import opened Common
  import opened Numeric
  import opened PhpText
  import opened DateTimes
  import opened DataConverter
  import opened DataValidator
  import opened Observations
  import opened EcowittProcessor

  // ---- the filtered payload ----

  /** A kept key is present, holding the value of its last occurrence in the payload. */
  lemma {:induction false} FilteredLastWins(raw: seq<(string, string)>, i: nat)
    requires i < |raw| && ToLower(raw[i].0) !in ExcludedKeys
    requires forall j :: i < j < |raw| ==> ToLower(raw[j].0) != ToLower(raw[i].0)
    ensures ToLower(raw[i].0) in Filtered(raw)
    ensures Filtered(raw)[ToLower(raw[i].0)] == raw[i].1
  {
    if i < |raw| - 1 {
      var init := raw[..|raw| - 1];
      assert init[i] == raw[i];
      FilteredLastWins(init, i);
    }
  }

  /** Every key of the filtered payload comes from some key of the payload. */
  lemma {:induction false} FilteredKeysFromPayload(raw: seq<(string, string)>, k: string)
    requires k in Filtered(raw)
    ensures exists i :: 0 <= i < |raw| && ToLower(raw[i].0) == k
  {
    var init := raw[..|raw| - 1];
    if ToLower(raw[|raw| - 1].0) != k {
      FilteredKeysFromPayload(init, k);
      var i :| 0 <= i < |init| && ToLower(init[i].0) == k;
      assert raw[i] == init[i];
    }
  }

  /** Inserting an excluded key anywhere leaves the filtered payload as it was. */
  lemma {:induction false} FilteredIgnoresExcluded(a: seq<(string, string)>, b: seq<(string, string)>, key: string, value: string)
    requires ToLower(key) in ExcludedKeys
    ensures Filtered(a + [(key, value)] + b) == Filtered(a + b)
    decreases |b|
  {
    if b == [] {
      assert (a + [(key, value)] + b)[..|a|] == a;
      assert a + b == a;
    } else {
      var b' := b[..|b| - 1];
      assert (a + [(key, value)] + b)[..|a| + |b|] == a + [(key, value)] + b';
      assert (a + b)[..|a| + |b| - 1] == a + b';
      FilteredIgnoresExcluded(a, b', key, value);
    }
  }

  /** Two payloads whose keys agree up to letter case, with the same values. */
  predicate SameUpToCase(raw1: seq<(string, string)>, raw2: seq<(string, string)>) {
    |raw1| == |raw2| &&
    forall i :: 0 <= i < |raw1| ==> ToLower(raw1[i].0) == ToLower(raw2[i].0) && raw1[i].1 == raw2[i].1
  }

  lemma {:induction false} FilteredCaseInsensitive(raw1: seq<(string, string)>, raw2: seq<(string, string)>)
    requires SameUpToCase(raw1, raw2)
    ensures Filtered(raw1) == Filtered(raw2)
  {
    if raw1 != [] {
      var n := |raw1| - 1;
      assert SameUpToCase(raw1[..n], raw2[..n]);
      FilteredCaseInsensitive(raw1[..n], raw2[..n]);
    }
  }

  // ---- the reading, end to end ----

  /** A known field is in the reading exactly when its value is not left out. */
  lemma InReading(raw: seq<(string, string)>, now: Timestamp, key: string)
    requires key in OutputKeys
    ensures key in Normalise(raw, now) <==> Field(Filtered(raw), now, key).Some?
    ensures key in Normalise(raw, now) ==> Normalise(raw, now)[key] == Field(Filtered(raw), now, key).value
  {
  }

  /** An excluded key, in any letter case and at any position, never influences the reading. */
  lemma ExcludedKeysIgnored(a: seq<(string, string)>, b: seq<(string, string)>, key: string, value: string, now: Timestamp)
    requires ToLower(key) in ExcludedKeys
    ensures Normalise(a + [(key, value)] + b, now) == Normalise(a + b, now)
  {
    FilteredIgnoresExcluded(a, b, key, value);
  }

  /** The letter case of the payload's keys never influences the reading. */
  lemma KeyCaseIgnored(raw1: seq<(string, string)>, raw2: seq<(string, string)>, now: Timestamp)
    requires SameUpToCase(raw1, raw2)
    ensures Normalise(raw1, now) == Normalise(raw2, now)
  {
    FilteredCaseInsensitive(raw1, raw2);
  }

  /** time_utc is always there; nothing outside the known fields is; weekly, monthly and yearly rain never are. */
  lemma ReadingShape(raw: seq<(string, string)>, now: Timestamp)
    ensures "time_utc" in Normalise(raw, now)
    ensures forall k :: k in Normalise(raw, now) ==> k in OutputKeys
    ensures "rain_week_mm" !in Normalise(raw, now) && "rain_month_mm" !in Normalise(raw, now)
    ensures "rain_year_mm" !in Normalise(raw, now)
  {
    InReading(raw, now, "time_utc");
    AtmosphereConversions();
    RainTotalsNotFields();
  }

  /** time_utc is the clock unless dateutc is present, is not "now", and parses as Y-m-d H:i:s. */
  lemma TimeRule(raw: seq<(string, string)>, now: Timestamp)
    ensures var f := Filtered(raw);
      var r := Normalise(raw, now);
      if "dateutc" in f && !MeansNow(f["dateutc"]) && CreateFromFormat(YmdHis, f["dateutc"]).Some? then
        r["time_utc"] == Text(FormatYmdHis(CreateFromFormat(YmdHis, f["dateutc"]).value))
      else
        r["time_utc"] == Text(FormatYmdHis(now))
  {
    InReading(raw, now, "time_utc");
    AtmosphereConversions();
  }

  /** A dateutc already in Y-m-d H:i:s form passes through unchanged. */
  lemma TimePassesThrough(raw: seq<(string, string)>, now: Timestamp, dt: Timestamp)
    requires var f := Filtered(raw); "dateutc" in f && f["dateutc"] == FormatYmdHis(dt)
    ensures Normalise(raw, now)["time_utc"] == Text(FormatYmdHis(dt))
  {
    InReading(raw, now, "time_utc");
    AtmosphereConversions();
    ParseDateTimeFormatted(dt, now);
  }

  /**
   * temp_c is present exactly when tempf is numeric and its unrounded
   * Celsius value is in [-40, 60], that is tempf in [-40, 140]; it is that
   * value rounded to two decimals, never clamped.
   */
  lemma TemperatureRule(raw: seq<(string, string)>, now: Timestamp)
    ensures var f := Filtered(raw);
      var r := Normalise(raw, now);
      && ("temp_c" in r <==>
            "tempf" in f && IsNumeric(f["tempf"]) &&
            -40.0 <= FahrenheitToCelsius(ParseNumeric(f["tempf"]).value) <= 60.0)
      && ("temp_c" in r <==>
            "tempf" in f && IsNumeric(f["tempf"]) && -40.0 <= ParseNumeric(f["tempf"]).value <= 140.0)
      && ("temp_c" in r ==> r["temp_c"] == Real(RoundTo(FahrenheitToCelsius(ParseNumeric(f["tempf"]).value), 2)))
  {
    InReading(raw, now, "temp_c");
    AtmosphereConversions();
    var f := Filtered(raw);
    NumberIsParsed(f, "tempf");
    var t := Number(f, "tempf");
    var c := if t.Some? then Some(FahrenheitToCelsius(t.value)) else None;
    assert Field(f, now, "temp_c") == if c.Some? && ValidateTemperature(c) then Some(Real(RoundTo(c.value, 2))) else None;
  }

  /** With baromrelin present, it alone decides pressure_hpa, even when its value is empty or not a number. */
  lemma PressureFromRelative(raw: seq<(string, string)>, now: Timestamp)
    requires "baromrelin" in Filtered(raw)
    ensures var f := Filtered(raw);
      var r := Normalise(raw, now);
      && ("pressure_hpa" in r <==>
            IsNumeric(f["baromrelin"]) && 870.0 <= InHgToHpa(ParseNumeric(f["baromrelin"]).value) <= 1080.0)
      && ("pressure_hpa" in r ==> r["pressure_hpa"] == Real(RoundTo(InHgToHpa(ParseNumeric(f["baromrelin"]).value), 2)))
  {
    InReading(raw, now, "pressure_hpa");
    AtmosphereConversions();
    var f := Filtered(raw);
    NumberIsParsed(f, "baromrelin");
    var inHg := Number(f, "baromrelin");
    var p := if inHg.Some? then Some(InHgToHpa(inHg.value)) else None;
    assert Field(f, now, "pressure_hpa") == if p.Some? && ValidatePressure(p) then Some(Real(RoundTo(p.value, 2))) else None;
  }

  /** Without baromrelin, pressure_hpa comes from baromabsin. */
  lemma PressureFromAbsolute(raw: seq<(string, string)>, now: Timestamp)
    requires "baromrelin" !in Filtered(raw)
    ensures var f := Filtered(raw);
      var r := Normalise(raw, now);
      && ("pressure_hpa" in r <==>
            "baromabsin" in f && IsNumeric(f["baromabsin"]) &&
            870.0 <= InHgToHpa(ParseNumeric(f["baromabsin"]).value) <= 1080.0)
      && ("pressure_hpa" in r ==> r["pressure_hpa"] == Real(RoundTo(InHgToHpa(ParseNumeric(f["baromabsin"]).value), 2)))
  {
    InReading(raw, now, "pressure_hpa");
    AtmosphereConversions();
    var f := Filtered(raw);
    NumberIsParsed(f, "baromabsin");
    var inHg := Number(f, "baromabsin");
    var p := if inHg.Some? then Some(InHgToHpa(inHg.value)) else None;
    assert Field(f, now, "pressure_hpa") == if p.Some? && ValidatePressure(p) then Some(Real(RoundTo(p.value, 2))) else None;
  }

  /** A scaled field: present exactly when the key holds a number whose conversion is not negative. */
  lemma ScaledRule(f: map<string, string>, source: string, convert: real -> real)
    ensures Scaled(f, source, convert).Some? <==>
      source in f && IsNumeric(f[source]) && convert(ParseNumeric(f[source]).value) >= 0.0
    ensures Scaled(f, source, convert).Some? ==>
      Scaled(f, source, convert).value == RoundTo(convert(ParseNumeric(f[source]).value), 2)
  {
    if source in f {
      SafeConversionsOfString(f[source]);
    }
  }

  /** Each wind field is its mph key converted to m/s, kept when not negative, rounded to two decimals. */
  lemma WindRule(raw: seq<(string, string)>, now: Timestamp, j: nat)
    requires j < |WindMappings|
    ensures var f := Filtered(raw);
      var r := Normalise(raw, now);
      var source := WindMappings[j].0;
      var target := WindMappings[j].1;
      && (target in r <==> source in f && IsNumeric(f[source]) && ParseNumeric(f[source]).value >= 0.0)
      && (target in r ==> r[target] == Real(RoundTo(MphToMs(ParseNumeric(f[source]).value), 2)))
  {
    var f := Filtered(raw);
    assert WindMappings[j].1 in OutputKeys;
    InReading(raw, now, WindMappings[j].1);
    WindFields(f, now);
    ScaledRule(f, WindMappings[j].0, MphToMs);
  }

  /** Each rain field is its inch key converted to mm, kept when not negative, rounded to two decimals. */
  lemma RainRule(raw: seq<(string, string)>, now: Timestamp, j: nat)
    requires j < |RainMappings|
    ensures var f := Filtered(raw);
      var r := Normalise(raw, now);
      var source := RainMappings[j].0;
      var target := RainMappings[j].1;
      && (target in r <==> source in f && IsNumeric(f[source]) && ParseNumeric(f[source]).value >= 0.0)
      && (target in r ==> r[target] == Real(RoundTo(InchToMm(ParseNumeric(f[source]).value), 2)))
  {
    var f := Filtered(raw);
    assert RainMappings[j].1 in OutputKeys;
    InReading(raw, now, RainMappings[j].1);
    RainFields(f, now);
    ScaledRule(f, RainMappings[j].0, InchToMm);
  }

  /** humidity is kept when in [0, 100], checked before rounding to two decimals. */
  lemma HumidityRule(raw: seq<(string, string)>, now: Timestamp)
    ensures var f := Filtered(raw);
      var r := Normalise(raw, now);
      && ("humidity" in r <==>
            "humidity" in f && IsNumeric(f["humidity"]) && 0.0 <= ParseNumeric(f["humidity"]).value <= 100.0)
      && ("humidity" in r ==> r["humidity"] == Real(RoundTo(ParseNumeric(f["humidity"]).value, 2)))
  {
    InReading(raw, now, "humidity");
    AtmosphereConversions();
    var f := Filtered(raw);
    NumberIsParsed(f, "humidity");
    var h := Number(f, "humidity");
    assert Field(f, now, "humidity") == if h.Some? && ValidateHumidity(h) then Some(Real(RoundTo(h.value, 2))) else None;
  }

  /** uv_index (from uv) is kept when in [0, 15], checked before rounding to two decimals. */
  lemma UvRule(raw: seq<(string, string)>, now: Timestamp)
    ensures var f := Filtered(raw);
      var r := Normalise(raw, now);
      && ("uv_index" in r <==> "uv" in f && IsNumeric(f["uv"]) && 0.0 <= ParseNumeric(f["uv"]).value <= 15.0)
      && ("uv_index" in r ==> r["uv_index"] == Real(RoundTo(ParseNumeric(f["uv"]).value, 2)))
  {
    InReading(raw, now, "uv_index");
    var f := Filtered(raw);
    RadiationFields(f, now);
    NumberIsParsed(f, "uv");
  }

  /** solar_wm2 (from solarradiation) is kept when not negative, rounded to two decimals. */
  lemma SolarRule(raw: seq<(string, string)>, now: Timestamp)
    ensures var f := Filtered(raw);
      var r := Normalise(raw, now);
      && ("solar_wm2" in r <==>
            "solarradiation" in f && IsNumeric(f["solarradiation"]) && ParseNumeric(f["solarradiation"]).value >= 0.0)
      && ("solar_wm2" in r ==> r["solar_wm2"] == Real(RoundTo(ParseNumeric(f["solarradiation"]).value, 2)))
  {
    InReading(raw, now, "solar_wm2");
    var f := Filtered(raw);
    RadiationFields(f, now);
    NumberIsParsed(f, "solarradiation");
  }

  /**
   * wind_dir_deg is the nearest whole degree as a 64-bit integer, kept when
   * in [0, 360]; a number far outside wraps first (see ToInt64Wraps).
   */
  lemma WindDirectionRule(raw: seq<(string, string)>, now: Timestamp)
    ensures var f := Filtered(raw);
      var r := Normalise(raw, now);
      && ("wind_dir_deg" in r <==>
            "winddir" in f && IsNumeric(f["winddir"]) && 0 <= ToInt64(RoundHalfAway(ParseNumeric(f["winddir"]).value)) <= 360)
      && ("wind_dir_deg" in r ==> r["wind_dir_deg"] == Int(ToInt64(RoundHalfAway(ParseNumeric(f["winddir"]).value))))
  {
    InReading(raw, now, "wind_dir_deg");
    AtmosphereConversions();
    var f := Filtered(raw);
    if "winddir" in f {
      SafeConversionsOfString(f["winddir"]);
      var d := SafeInt(Some(f["winddir"]), None);
      assert Field(f, now, "wind_dir_deg") == if d.Some? && ValidateWindDirection(d) then Some(Int(d.value)) else None;
    }
  }

  /** stationtype and model are copied when present, cut to their first 64 characters. */
  lemma MetadataRule(raw: seq<(string, string)>, now: Timestamp)
    ensures var f := Filtered(raw);
      var r := Normalise(raw, now);
      && ("stationtype" in r <==> "stationtype" in f)
      && ("stationtype" in r ==> r["stationtype"] == Text(Prefix(f["stationtype"], 64)))
      && ("model" in r <==> "model" in f)
      && ("model" in r ==> r["model"] == Text(Prefix(f["model"], 64)))
  {
    InReading(raw, now, "stationtype");
    LabelConversions();
    InReading(raw, now, "model");
  }

  /** Whatever a reading holds is within the field's accepted range, after rounding. */
  lemma StoredValuesInRange(raw: seq<(string, string)>, now: Timestamp)
    ensures var r := Normalise(raw, now);
      && ("temp_c" in r ==> r["temp_c"].Real? && -40.0 <= r["temp_c"].r <= 60.0)
      && ("humidity" in r ==> r["humidity"].Real? && 0.0 <= r["humidity"].r <= 100.0)
      && ("pressure_hpa" in r ==> r["pressure_hpa"].Real? && 870.0 <= r["pressure_hpa"].r <= 1080.0)
      && ("uv_index" in r ==> r["uv_index"].Real? && 0.0 <= r["uv_index"].r <= 15.0)
      && ("solar_wm2" in r ==> r["solar_wm2"].Real? && r["solar_wm2"].r >= 0.0)
      && (forall j :: 0 <= j < |WindMappings| && WindMappings[j].1 in r ==>
            r[WindMappings[j].1].Real? && r[WindMappings[j].1].r >= 0.0)
      && (forall j :: 0 <= j < |RainMappings| && RainMappings[j].1 in r ==>
            r[RainMappings[j].1].Real? && r[RainMappings[j].1].r >= 0.0)
  {
    AtmosphereInRange(raw, now);
    RadiationInRange(raw, now);
    WindAndRainInRange(raw, now);
  }

  lemma AtmosphereInRange(raw: seq<(string, string)>, now: Timestamp)
    ensures var r := Normalise(raw, now);
      && ("temp_c" in r ==> r["temp_c"].Real? && -40.0 <= r["temp_c"].r <= 60.0)
      && ("humidity" in r ==> r["humidity"].Real? && 0.0 <= r["humidity"].r <= 100.0)
      && ("pressure_hpa" in r ==> r["pressure_hpa"].Real? && 870.0 <= r["pressure_hpa"].r <= 1080.0)
  {
    var f := Filtered(raw);
    var r := Normalise(raw, now);
    if "temp_c" in r {
      TemperatureRule(raw, now);
      ValidationSurvivesRounding(FahrenheitToCelsius(ParseNumeric(f["tempf"]).value));
    }
    if "humidity" in r {
      HumidityRule(raw, now);
      ValidationSurvivesRounding(ParseNumeric(f["humidity"]).value);
    }
    if "pressure_hpa" in r {
      if "baromrelin" in f {
        PressureFromRelative(raw, now);
        ValidationSurvivesRounding(InHgToHpa(ParseNumeric(f["baromrelin"]).value));
      } else {
        PressureFromAbsolute(raw, now);
        ValidationSurvivesRounding(InHgToHpa(ParseNumeric(f["baromabsin"]).value));
      }
    }
  }

  lemma RadiationInRange(raw: seq<(string, string)>, now: Timestamp)
    ensures var r := Normalise(raw, now);
      && ("uv_index" in r ==> r["uv_index"].Real? && 0.0 <= r["uv_index"].r <= 15.0)
      && ("solar_wm2" in r ==> r["solar_wm2"].Real? && r["solar_wm2"].r >= 0.0)
  {
    var f := Filtered(raw);
    var r := Normalise(raw, now);
    if "uv_index" in r {
      UvRule(raw, now);
      ValidationSurvivesRounding(ParseNumeric(f["uv"]).value);
    }
    if "solar_wm2" in r {
      SolarRule(raw, now);
      ValidationSurvivesRounding(ParseNumeric(f["solarradiation"]).value);
    }
  }

  lemma WindAndRainInRange(raw: seq<(string, string)>, now: Timestamp)
    ensures var r := Normalise(raw, now);
      && (forall j :: 0 <= j < |WindMappings| && WindMappings[j].1 in r ==>
            r[WindMappings[j].1].Real? && r[WindMappings[j].1].r >= 0.0)
      && (forall j :: 0 <= j < |RainMappings| && RainMappings[j].1 in r ==>
            r[RainMappings[j].1].Real? && r[RainMappings[j].1].r >= 0.0)
  {
    var f := Filtered(raw);
    var r := Normalise(raw, now);
    forall j | 0 <= j < |WindMappings| && WindMappings[j].1 in r
      ensures r[WindMappings[j].1].Real? && r[WindMappings[j].1].r >= 0.0
    {
      WindRule(raw, now, j);
      ValidationSurvivesRounding(MphToMs(ParseNumeric(f[WindMappings[j].0]).value));
    }
    forall j | 0 <= j < |RainMappings| && RainMappings[j].1 in r
      ensures r[RainMappings[j].1].Real? && r[RainMappings[j].1].r >= 0.0
    {
      RainRule(raw, now, j);
      ValidationSurvivesRounding(InchToMm(ParseNumeric(f[RainMappings[j].0]).value));
    }
  }
}
