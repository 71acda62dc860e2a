/**
 * The rows of the weather_observation and weather_station tables, and the
 * loosely typed values PHP arrays carry between the normaliser and the
 * database.
 */
module Observations {
  import opened Common
  import opened DateTimes

  /** A PHP scalar held in an associative array: a float, an int or a string. */
  datatype Value = Real(r: real) | Int(i: int) | Text(s: string)

  /** One weather_observation row; SQL NULL is None. */
  datatype Observation = Observation(
    station_id: string,
    time_utc: Timestamp,
    temp_c: Option<real>,
    humidity: Option<real>,
    pressure_hpa: Option<real>,
    wind_dir_deg: Option<int>,
    wind_speed_ms: Option<real>,
    wind_speed_avg10m_ms: Option<real>,
    wind_gust_ms: Option<real>,
    max_daily_gust_ms: Option<real>,
    rain_rate_mmh: Option<real>,
    rain_event_mm: Option<real>,
    rain_hour_mm: Option<real>,
    rain_day_mm: Option<real>,
    solar_wm2: Option<real>,
    uv_index: Option<real>,
    created_at: Timestamp)

  /** The numeric columns the daily statistics read. */
  datatype Column = TempC | Humidity | PressureHpa | WindSpeedMs | WindGustMs | RainHourMm | RainDayMm | SolarWm2 | UvIndex

  function Get(o: Observation, c: Column): Option<real> {
    match c
    case TempC => o.temp_c
    case Humidity => o.humidity
    case PressureHpa => o.pressure_hpa
    case WindSpeedMs => o.wind_speed_ms
    case WindGustMs => o.wind_gust_ms
    case RainHourMm => o.rain_hour_mm
    case RainDayMm => o.rain_day_mm
    case SolarWm2 => o.solar_wm2
    case UvIndex => o.uv_index
  }

  function RealCell(v: Option<real>): Option<Value> {
    if v.Some? then Some(Real(v.value)) else None
  }

  function IntCell(v: Option<int>): Option<Value> {
    if v.Some? then Some(Int(v.value)) else None
  }

  /** The row as `SELECT wo.*` fetches it: column name to value, NULL as None. */
  function Cells(o: Observation): map<string, Option<Value>> {
    map[
      "station_id" := Some(Text(o.station_id)),
      "time_utc" := Some(Text(FormatYmdHis(o.time_utc))),
      "temp_c" := RealCell(o.temp_c),
      "humidity" := RealCell(o.humidity),
      "pressure_hpa" := RealCell(o.pressure_hpa),
      "wind_dir_deg" := IntCell(o.wind_dir_deg),
      "wind_speed_ms" := RealCell(o.wind_speed_ms),
      "wind_speed_avg10m_ms" := RealCell(o.wind_speed_avg10m_ms),
      "wind_gust_ms" := RealCell(o.wind_gust_ms),
      "max_daily_gust_ms" := RealCell(o.max_daily_gust_ms),
      "rain_rate_mmh" := RealCell(o.rain_rate_mmh),
      "rain_event_mm" := RealCell(o.rain_event_mm),
      "rain_hour_mm" := RealCell(o.rain_hour_mm),
      "rain_day_mm" := RealCell(o.rain_day_mm),
      "solar_wm2" := RealCell(o.solar_wm2),
      "uv_index" := RealCell(o.uv_index),
      "created_at" := Some(Text(FormatYmdHis(o.created_at)))]
  }

  /** A weather_station row. */
  datatype Station = Station(
    station_id: string,
    passkey_sha256: string,
    name: string,
    model: Option<string>,
    stationtype: Option<string>,
    is_active: int)
}
