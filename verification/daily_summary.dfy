/**
 * calculateDailySummary and saveDailySummary: the statistics of one
 * station-day, read off the weather_observation rows, and their upsert
 * into daily_weather_summary keyed by (station_id, observation_date).
 *
 * Each statement the PHP code prepares may fail with a PDOException; the
 * set of statements that fail is a parameter. A failing basic-statistics
 * query aborts the summary, a failing companion query only nulls its own
 * fields. An absent key of the PHP $summary array and a NULL value are
 * both None here: saveDailySummary writes both as NULL.
 */
module DailySummaries {
  import opened Common
  import opened Numeric
  import opened DateTimes
  import opened Observations
  import opened SqlAggregates

  /** The statements calculateDailySummary executes. */
  datatype Query =
    | BasicStats | TempMaxTime | TempMinTime | HumidityMaxTime | HumidityMinTime
    | PressureMaxTime | PressureMinTime | WindMax | GustMax | UvMaxTime | PrecipitationMax

  /** The one row the basic-statistics query returns. */
  datatype Stats = Stats(
    temp_avg: Option<real>,
    temp_max: Option<real>,
    temp_min: Option<real>,
    humidity_avg: Option<real>,
    humidity_max: Option<real>,
    humidity_min: Option<real>,
    pressure_sea_avg: Option<real>,
    pressure_sea_max: Option<real>,
    pressure_sea_min: Option<real>,
    wind_avg_speed: Option<real>,
    wind_max_speed: Option<real>,
    wind_max_gust: Option<real>,
    precipitation_total: Option<real>,
    uv_index_max: Option<real>,
    uv_index_avg: Option<real>,
    solar_radiation: Option<real>,
    sunshine_hours: Option<real>)

  /** The $summary array: the basic statistics merged with the companion lookups. */
  datatype DailySummary = DailySummary(
    stats: Stats,
    temp_max_time: Option<TimeOfDay>,
    temp_min_time: Option<TimeOfDay>,
    humidity_max_time: Option<TimeOfDay>,
    humidity_min_time: Option<TimeOfDay>,
    pressure_sea_max_time: Option<TimeOfDay>,
    pressure_sea_min_time: Option<TimeOfDay>,
    wind_max_time: Option<TimeOfDay>,
    wind_max_direction: Option<int>,
    wind_max_gust_time: Option<TimeOfDay>,
    wind_max_gust_direction: Option<int>,
    uv_index_max_time: Option<TimeOfDay>,
    precipitation_max_1h: Option<real>)

  /** ROUND(x, 1), NULL staying NULL. */
  function Rounded(v: Option<real>): (r: Option<real>)
    ensures r.Some? <==> v.Some?
    ensures r.Some? ==> -0.05 <= r.value - v.value <= 0.05
    ensures r.Some? ==> IsMultipleOf(r.value, 1)
    ensures r.Some? && v.value >= 0.0 ==> r.value - 0.05 <= v.value < r.value + 0.05
    ensures r.Some? && v.value < 0.0 ==> r.value - 0.05 < v.value <= r.value + 0.05
  {
    if v.Some? then NearestTenth(v.value); Some(RoundTo(v.value, 1)) else None
  }

  /** WHERE station_id = ? AND DATE(time_utc) = ? */
  predicate OnDay(o: Observation, station: string, date: Date) {
    o.station_id == station && o.time_utc.date == date
  }

  /** The station-day's rows: what every companion lookup searches. */
  function DayRows(rows: seq<Observation>, station: string, date: Date): (r: seq<Observation>)
    ensures forall o :: o in r <==> o in rows && OnDay(o, station, date)
  {
    Where(rows, (o: Observation) => OnDay(o, station, date))
  }

  /** The station-day's rows with a temperature: what the basic statistics range over. */
  function TempRows(rows: seq<Observation>, station: string, date: Date): (r: seq<Observation>)
    ensures forall o :: o in r <==> o in rows && OnDay(o, station, date) && o.temp_c.Some?
  {
    Where(rows, (o: Observation) => OnDay(o, station, date) && o.temp_c.Some?)
  }

  /** SUM(CASE WHEN solar_wm2 >= 150 THEN 0.05 ELSE 0 END), rounded: NULL over no row, a NULL solar counting 0. */
  function SunshineHours(t: seq<Observation>): Option<real> {
    if t == [] then None
    else Some(RoundTo(0.05 * CountAtLeast(Values(t, SolarWm2), 150.0) as real, 1))
  }

  /** The basic-statistics query over the rows it selects. */
  function BasicStatsOf(t: seq<Observation>): Stats {
    Stats(
      temp_avg := Rounded(AvgOf(Values(t, TempC))),
      temp_max := Rounded(MaxOf(Values(t, TempC))),
      temp_min := Rounded(MinOf(Values(t, TempC))),
      humidity_avg := Rounded(AvgOf(Values(t, Humidity))),
      humidity_max := MaxOf(Values(t, Humidity)),
      humidity_min := MinOf(Values(t, Humidity)),
      pressure_sea_avg := Rounded(AvgOf(Values(t, PressureHpa))),
      pressure_sea_max := Rounded(MaxOf(Values(t, PressureHpa))),
      pressure_sea_min := Rounded(MinOf(Values(t, PressureHpa))),
      wind_avg_speed := Rounded(AvgOf(Values(t, WindSpeedMs))),
      wind_max_speed := Rounded(MaxOf(Values(t, WindSpeedMs))),
      wind_max_gust := Rounded(MaxOf(Values(t, WindGustMs))),
      precipitation_total := Rounded(MaxOf(Values(t, RainDayMm))),
      uv_index_max := Rounded(MaxOf(Values(t, UvIndex))),
      uv_index_avg := Rounded(AvgOf(Values(t, UvIndex))),
      solar_radiation := Rounded(SumOf(ScaleAll(Values(t, SolarWm2), 0.0036))),
      sunshine_hours := SunshineHours(t))
  }

  /** `if ($stats['humidity_max'])`: NULL and 0 are falsy. */
  predicate Truthy(v: Option<real>) {
    v.Some? && v.value != 0.0
  }

  /** `if ($v && $v > 0)` */
  predicate Positive(v: Option<real>) {
    v.Some? && v.value > 0.0
  }

  /** The row a companion lookup fetches: none when its statement fails. */
  function Lookup(day: seq<Observation>, c: Column, v: Option<real>, q: Query, failing: set<Query>): Option<Observation> {
    if q in failing then None else Earliest(day, c, v)
  }

  /** TIME(time_utc) of the fetched row, NULL when there is none. */
  function TimeOf(found: Option<Observation>): Option<TimeOfDay> {
    if found.Some? then Some(found.value.time_utc.time) else None
  }

  /** wind_dir_deg of the fetched row, NULL when there is none. */
  function DirectionOf(found: Option<Observation>): Option<int> {
    if found.Some? then found.value.wind_dir_deg else None
  }

  /** The basic statistics merged with every companion lookup, each behind its guard. */
  function Companions(day: seq<Observation>, s: Stats, failing: set<Query>): DailySummary {
    var humidity := Truthy(s.humidity_max);
    var pressure := Truthy(s.pressure_sea_max);
    var wind := if Positive(s.wind_max_speed) then Lookup(day, WindSpeedMs, s.wind_max_speed, WindMax, failing) else None;
    var gust := if Positive(s.wind_max_gust) then Lookup(day, WindGustMs, s.wind_max_gust, GustMax, failing) else None;
    DailySummary(
      stats := s,
      temp_max_time := TimeOf(Lookup(day, TempC, s.temp_max, TempMaxTime, failing)),
      temp_min_time := TimeOf(Lookup(day, TempC, s.temp_min, TempMinTime, failing)),
      humidity_max_time := if humidity then TimeOf(Lookup(day, Humidity, s.humidity_max, HumidityMaxTime, failing)) else None,
      humidity_min_time := if humidity then TimeOf(Lookup(day, Humidity, s.humidity_min, HumidityMinTime, failing)) else None,
      pressure_sea_max_time := if pressure then TimeOf(Lookup(day, PressureHpa, s.pressure_sea_max, PressureMaxTime, failing)) else None,
      pressure_sea_min_time := if pressure then TimeOf(Lookup(day, PressureHpa, s.pressure_sea_min, PressureMinTime, failing)) else None,
      wind_max_time := TimeOf(wind),
      wind_max_direction := DirectionOf(wind),
      wind_max_gust_time := TimeOf(gust),
      wind_max_gust_direction := DirectionOf(gust),
      uv_index_max_time := if Positive(s.uv_index_max) then TimeOf(Lookup(day, UvIndex, s.uv_index_max, UvMaxTime, failing)) else None,
      precipitation_max_1h := if PrecipitationMax in failing then None else MaxOf(Values(day, RainHourMm)))
  }

  /** What calculateDailySummary returns for one station-day, or the exception it raises. */
  function SummaryOf(rows: seq<Observation>, station: string, date: Date, failing: set<Query>): (r: Result<DailySummary>)
    ensures r.Err? <==> BasicStats in failing
  {
    if BasicStats in failing then Err("Failed to calculate basic statistics")
    else Ok(Companions(DayRows(rows, station, date), BasicStatsOf(TempRows(rows, station, date)), failing))
  }

  /**
   * calculateDailySummary: the basic statistics, then each companion
   * lookup in turn, each guarded as the PHP code guards it and each
   * caught on its own.
   */
  method CalculateDailySummary(rows: seq<Observation>, stationId: string, date: Date, failing: set<Query>)
    returns (r: Result<DailySummary>)
    ensures r == SummaryOf(rows, stationId, date, failing)
  {
    if BasicStats in failing {
      return Err("Failed to calculate basic statistics");
    }
    var day := DayRows(rows, stationId, date);
    var stats := BasicStatsOf(TempRows(rows, stationId, date));
    var summary := DailySummary(stats, None, None, None, None, None, None, None, None, None, None, None, None);
    summary := LookupExtremeTimes(day, failing, summary);
    summary := LookupWindAndRain(day, failing, summary);
    r := Ok(summary);
  }

  /** The temperature, humidity and pressure lookups: temperature always, the others behind their guards. */
  method LookupExtremeTimes(day: seq<Observation>, failing: set<Query>, summary: DailySummary) returns (r: DailySummary)
    ensures var s := summary.stats;
      r == summary.(
        temp_max_time := TimeOf(Lookup(day, TempC, s.temp_max, TempMaxTime, failing)),
        temp_min_time := TimeOf(Lookup(day, TempC, s.temp_min, TempMinTime, failing)),
        humidity_max_time := if Truthy(s.humidity_max) then TimeOf(Lookup(day, Humidity, s.humidity_max, HumidityMaxTime, failing)) else summary.humidity_max_time,
        humidity_min_time := if Truthy(s.humidity_max) then TimeOf(Lookup(day, Humidity, s.humidity_min, HumidityMinTime, failing)) else summary.humidity_min_time,
        pressure_sea_max_time := if Truthy(s.pressure_sea_max) then TimeOf(Lookup(day, PressureHpa, s.pressure_sea_max, PressureMaxTime, failing)) else summary.pressure_sea_max_time,
        pressure_sea_min_time := if Truthy(s.pressure_sea_max) then TimeOf(Lookup(day, PressureHpa, s.pressure_sea_min, PressureMinTime, failing)) else summary.pressure_sea_min_time)
  {
    var stats := summary.stats;
    r := summary;
    r := r.(temp_max_time := TimeOf(Lookup(day, TempC, stats.temp_max, TempMaxTime, failing)));
    r := r.(temp_min_time := TimeOf(Lookup(day, TempC, stats.temp_min, TempMinTime, failing)));
    if Truthy(stats.humidity_max) {
      r := r.(humidity_max_time := TimeOf(Lookup(day, Humidity, stats.humidity_max, HumidityMaxTime, failing)));
      r := r.(humidity_min_time := TimeOf(Lookup(day, Humidity, stats.humidity_min, HumidityMinTime, failing)));
    }
    if Truthy(stats.pressure_sea_max) {
      r := r.(pressure_sea_max_time := TimeOf(Lookup(day, PressureHpa, stats.pressure_sea_max, PressureMaxTime, failing)));
      r := r.(pressure_sea_min_time := TimeOf(Lookup(day, PressureHpa, stats.pressure_sea_min, PressureMinTime, failing)));
    }
  }

  /**
   * The wind, gust and UV lookups behind their "> 0" guards, and the
   * hourly-rain maximum. A wind or gust lookup that finds no row leaves
   * its fields as they were; one that fails sets them to NULL.
   */
  method LookupWindAndRain(day: seq<Observation>, failing: set<Query>, summary: DailySummary) returns (r: DailySummary)
    requires summary.wind_max_time.None? && summary.wind_max_direction.None?
    requires summary.wind_max_gust_time.None? && summary.wind_max_gust_direction.None?
    ensures var s := summary.stats;
      var wind := if Positive(s.wind_max_speed) then Lookup(day, WindSpeedMs, s.wind_max_speed, WindMax, failing) else None;
      var gust := if Positive(s.wind_max_gust) then Lookup(day, WindGustMs, s.wind_max_gust, GustMax, failing) else None;
      r == summary.(
        wind_max_time := TimeOf(wind),
        wind_max_direction := DirectionOf(wind),
        wind_max_gust_time := TimeOf(gust),
        wind_max_gust_direction := DirectionOf(gust),
        uv_index_max_time := if Positive(s.uv_index_max) then TimeOf(Lookup(day, UvIndex, s.uv_index_max, UvMaxTime, failing)) else summary.uv_index_max_time,
        precipitation_max_1h := if PrecipitationMax in failing then None else MaxOf(Values(day, RainHourMm)))
  {
    var stats := summary.stats;
    r := summary;
    if Positive(stats.wind_max_speed) {
      if WindMax in failing {
        r := r.(wind_max_time := None, wind_max_direction := None);
      } else {
        var found := Earliest(day, WindSpeedMs, stats.wind_max_speed);
        if found.Some? {
          r := r.(wind_max_time := Some(found.value.time_utc.time), wind_max_direction := found.value.wind_dir_deg);
        }
      }
    }
    if Positive(stats.wind_max_gust) {
      if GustMax in failing {
        r := r.(wind_max_gust_time := None, wind_max_gust_direction := None);
      } else {
        var found := Earliest(day, WindGustMs, stats.wind_max_gust);
        if found.Some? {
          r := r.(wind_max_gust_time := Some(found.value.time_utc.time), wind_max_gust_direction := found.value.wind_dir_deg);
        }
      }
    }
    if Positive(stats.uv_index_max) {
      r := r.(uv_index_max_time := TimeOf(Lookup(day, UvIndex, stats.uv_index_max, UvMaxTime, failing)));
    }
    if PrecipitationMax in failing {
      r := r.(precipitation_max_1h := None);
    } else {
      r := r.(precipitation_max_1h := MaxOf(Values(day, RainHourMm)));
    }
  }

  // ---- daily_weather_summary ----

  type SummaryKey = (string, Date)

  /** A daily_weather_summary row: the summary columns and the two bookkeeping times. */
  datatype SummaryRow = SummaryRow(summary: DailySummary, created_at: Timestamp, updated_at: Timestamp)

  /**
   * INSERT ... ON DUPLICATE KEY UPDATE on the unique key
   * (station_id, observation_date): every summary column is written,
   * created_at survives an overwrite, updated_at is NOW().
   */
  function Upsert(table: map<SummaryKey, SummaryRow>, key: SummaryKey, summary: DailySummary, now: Timestamp)
    : (r: map<SummaryKey, SummaryRow>)
    ensures key in r && r[key].summary == summary && r[key].updated_at == now
    ensures key in table ==> r[key].created_at == table[key].created_at
    ensures key !in table ==> r[key].created_at == now
    ensures r.Keys == table.Keys + {key}
    ensures forall k :: k in table && k != key ==> r[k] == table[k]
  {
    var created := if key in table then table[key].created_at else now;
    table[key := SummaryRow(summary, created, now)]
  }

  class SummaryTable {
    var rows: map<SummaryKey, SummaryRow>

    constructor ()
      ensures rows == map[]
    {
      rows := map[];
    }

    /** saveDailySummary; `fails` is a PDOException from the upsert, which leaves the table as it was. */
    method SaveDailySummary(stationId: string, date: Date, summary: DailySummary, now: Timestamp, fails: bool)
      returns (r: Result<()>)
      modifies this
      ensures fails ==> r.Err? && rows == old(rows)
      ensures !fails ==> r.Ok? && rows == Upsert(old(rows), (stationId, date), summary, now)
    {
      if fails {
        return Err("Failed to save daily summary");
      }
      rows := Upsert(rows, (stationId, date), summary, now);
      r := Ok(());
    }
  }
}
