/**
 * The bulk importer for historical CSV exports: header check, row
 * conversion, batching, and the INSERT ... ON DUPLICATE KEY UPDATE that
 * stores each batch. The file is given as its header line and its data
 * lines, already split into fields; the table is a WeatherObservation
 * store; the clock is `now`; a record the database refuses is picked out
 * by `rejects`.
 */
module CsvImporter {
  import opened Common
  import opened Numeric
  import opened PhpText
  import opened DateTimes
  import opened DataConverter
  import opened Observations
  import opened Models

  const TimeHeader := "Time"
  /** The outdoor-temperature header exactly as the export spells it. */
  const TemperatureHeader := "Outdoor Temperature(\U{2101}E"
  const HumidityHeader := "Outdoor Humidity(%)"
  const PressureHeader := "REL Pressure(hpa)"
  const WindDirectionHeader := "Wind Direction(\U{00B0})"
  const WindHeader := "Wind(m/s)"
  const GustHeader := "Gust(m/s)"
  const EventRainHeader := "Event Rain(mm)"
  const HourlyRainHeader := "Hourly Rain(mm)"
  const DailyRainHeader := "Daily Rain(mm)"
  const SolarHeader := "Solar Rad(w/m2)"
  const UviHeader := "UVI"

  /** The time formats parseDateTime tries, in order. */
  const TimeFormats: seq<string> := ["Y/n/j G:i:s", "Y/m/d H:i:s", "n/j/Y G:i:s", "m/d/Y H:i:s"]

  // ---- validateCSVHeaders ----

  /** validateCSVHeaders: the first required header that is missing is reported; none missing is Ok. */
  function ValidateCSVHeaders(headers: seq<string>): (r: Result<()>)
    ensures r.Ok? <==> TimeHeader in headers && TemperatureHeader in headers
    ensures r.Err? ==> r.message == "Required CSV header missing: " + (if TimeHeader !in headers then TimeHeader else TemperatureHeader)
  {
    if TimeHeader !in headers then Err("Required CSV header missing: " + TimeHeader)
    else if TemperatureHeader !in headers then Err("Required CSV header missing: " + TemperatureHeader)
    else Ok(())
  }

  // ---- processCSVRow ----

  /**
   * array_combine($headers, $row): each header paired with the field in
   * its position, a repeated header keeping its last field; none (false)
   * when the line has a different number of fields.
   */
  function Combine(headers: seq<string>, row: seq<string>): (r: Option<map<string, string>>)
    ensures r.Some? <==> |headers| == |row|
    ensures r.Some? ==> forall k :: k in r.value <==> k in headers
  {
    if |headers| != |row| then None
    else if headers == [] then Some(map[])
    else
      var n := |headers| - 1;
      var init := Combine(headers[..n], row[..n]);
      assert forall k :: k in headers <==> k in headers[..n] || k == headers[n];
      Some(init.value[headers[n] := row[n]])
  }

  /** A header's value is the field under its last occurrence. */
  lemma {:induction false} CombineLastWins(headers: seq<string>, row: seq<string>, i: nat)
    requires |headers| == |row| && i < |headers|
    requires forall j :: i < j < |headers| ==> headers[j] != headers[i]
    ensures Combine(headers, row).value[headers[i]] == row[i]
  {
    var n := |headers| - 1;
    if i < n {
      CombineLastWins(headers[..n], row[..n], i);
    }
  }

  /** $csvData[$key] ?? null */
  function CsvField(csv: Option<map<string, string>>, key: string): Option<string> {
    if csv.Some? && key in csv.value then Some(csv.value[key]) else None
  }

  /** safeFloat of the importer: null and '' give null, '0' gives 0, a numeric string its value, anything else null. */
  function CsvSafeFloat(value: Option<string>): Option<real> {
    if value.None? || value.value == "" || value.value == "0" then
      if value == Some("0") then Some(0.0) else None
    else if IsNumeric(value.value) then ParseNumeric(value.value)
    else None
  }

  /** safeInt of the importer: as CsvSafeFloat, the number rounded to the nearest integer and cast to 64 bits. */
  function CsvSafeInt(value: Option<string>): Option<int> {
    if value.None? || value.value == "" || value.value == "0" then
      if value == Some("0") then Some(0) else None
    else if IsNumeric(value.value) then Some(ToInt64(RoundHalfAway(ParseNumeric(value.value).value)))
    else None
  }

  /** The importer's '0' special case changes nothing: its safeFloat agrees with the receiver's. */
  lemma CsvSafeFloatAgrees(value: Option<string>)
    ensures CsvSafeFloat(value) == SafeFloat(value, None)
  {
    if value.Some? && value.value != "" {
      SafeConversionsOfString(value.value);
      if value.value == "0" {
        ZeroIsNumeric();
      }
    }
  }

  /** The same holds for safeInt. */
  lemma CsvSafeIntAgrees(value: Option<string>)
    ensures CsvSafeInt(value) == SafeInt(value, None)
  {
    if value.Some? && value.value != "" {
      SafeConversionsOfString(value.value);
      if value.value == "0" {
        ZeroIsNumeric();
      }
    }
  }

  lemma ZeroIsNumeric()
    ensures ParseNumeric("0") == Some(0.0)
  {
    ZeroPrefix();
    ZeroHasNoSpace();
    var z := "0";
    assert AllSpace(z[1..]);
  }

  lemma ZeroHasNoSpace()
    ensures SkipSpace("0") == "0"
  {
  }

  lemma ZeroPrefix()
    ensures NumberPrefix("0") == Some((0.0, 1))
  {
    var z := "0";
    assert z[0..] == z && z[1..] == [];
    assert DigitRun(z) == 1 by {
      assert DigitRun(z[1..]) == 0;
    }
    assert DigitsValue(z[..1]) == 0 by {
      assert z[..1] == z && z[..0] == [];
    }
    assert ExponentPrefix(z[1..]) == (0, 0);
    assert PowerOfTen(0) == 1.0;
  }


  /** parseDateTime: the first format createFromFormat accepts decides; none when no format fits. */
  function ParseCsvTime(formats: seq<string>, s: string): (r: Option<Timestamp>)
  {
    if formats == [] then None
    else
      var dt := CreateFromFormat(formats[0], s);
      if dt.Some? then dt else ParseCsvTime(formats[1..], s)
  }

  /** The first matching format wins, and the parse fails only when every format fails. */
  lemma {:induction false} FirstFormatWins(formats: seq<string>, s: string)
    ensures ParseCsvTime(formats, s).None? <==> forall i :: 0 <= i < |formats| ==> CreateFromFormat(formats[i], s).None?
    ensures ParseCsvTime(formats, s).Some? ==>
      exists i :: 0 <= i < |formats| && ParseCsvTime(formats, s) == CreateFromFormat(formats[i], s) &&
        forall j :: 0 <= j < i ==> CreateFromFormat(formats[j], s).None?
  {
    if formats != [] && CreateFromFormat(formats[0], s).None? {
      FirstFormatWins(formats[1..], s);
      var r := ParseCsvTime(formats, s);
      if r.Some? {
        var i :| 0 <= i < |formats[1..]| && r == CreateFromFormat(formats[1..][i], s) &&
          forall j :: 0 <= j < i ==> CreateFromFormat(formats[1..][j], s).None?;
        assert formats[i + 1] == formats[1..][i];
        forall j | 0 <= j < i + 1
          ensures CreateFromFormat(formats[j], s).None?
        {
          if j > 0 {
            assert formats[j] == formats[1..][j - 1];
          }
        }
      }
      forall i | 0 < i < |formats|
        ensures formats[i] == formats[1..][i - 1]
      {
      }
    }
  }

  /** Zero-padded and unpadded letters read alike, so the second and fourth formats accept nothing the first and third do not. */
  lemma RedundantFormats(s: string)
    ensures CreateFromFormat(TimeFormats[1], s) == CreateFromFormat(TimeFormats[0], s)
    ensures CreateFromFormat(TimeFormats[3], s) == CreateFromFormat(TimeFormats[2], s)
  {
    assert Compile(TimeFormats[1]) == Compile(TimeFormats[0]);
    assert Compile(TimeFormats[3]) == Compile(TimeFormats[2]);
  }

  lemma CompileFirstFormat()
    ensures Compile(TimeFormats[0]) == DateTimeTokens('/')
  {
  }

  /** The first format, "Y/n/j G:i:s", reads a year of one to four digits and the other fields as "Y-m-d H:i:s" does. */
  lemma ReadsFirstFormat(y: string, mo: string, d: string, b: string, h: string, mi: string, se: string)
    requires AllDigits(y) && 1 <= |y| <= 4
    requires AllDigits(mo) && 1 <= |mo| <= 2
    requires AllDigits(d) && 1 <= |d| <= 2
    requires AllBlanks(b) && (b != [] || |d| == 2)
    requires AllDigits(h) && 1 <= |h| <= 2
    requires AllDigits(mi) && |mi| == 2
    requires AllDigits(se) && |se| == 2
    ensures var dt := DateTime(Date(DigitsValue(y), DigitsValue(mo), DigitsValue(d)),
                               TimeOfDay(DigitsValue(h), DigitsValue(mi), DigitsValue(se)));
      CreateFromFormat(TimeFormats[0], DateTimeText('/', y, mo, d, b, h, mi, se)) == if ValidDateTime(dt) then Some(dt) else None
  {
    CompileFirstFormat();
    ReadsDateTime('/', y, mo, d, b, h, mi, se);
    ReadFields(TimeFormats[0], DateTimeText('/', y, mo, d, b, h, mi, se), DigitsValue(y), DigitsValue(mo), DigitsValue(d),
               DigitsValue(h), DigitsValue(mi), DigitsValue(se));
  }

  /** A year written with fewer than four digits is read by the first format, as year 1 here. */
  lemma ShortYearImported()
    ensures ParseCsvTime(TimeFormats, "1/2/24 0:00:00") == Some(DateTime(Date(1, 2, 24), TimeOfDay(0, 0, 0)))
  {
    assert DigitsValue("1") == 1 && DigitsValue("2") == 2 && DigitsValue("0") == 0;
    assert "24"[..1] == "2" && DigitsValue("24") == 24;
    assert "00"[..1] == "0" && DigitsValue("00") == 0;
    assert "1/2/24 0:00:00" == DateTimeText('/', "1", "2", "24", " ", "0", "00", "00");
    ReadsFirstFormat("1", "2", "24", " ", "0", "00", "00");
  }

  /** One record of a batch: the fields processCSVRow builds. */
  datatype CsvRecord = CsvRecord(
    time_utc: Timestamp,
    temp_c: real,
    humidity: Option<real>,
    pressure_hpa: Option<real>,
    wind_dir_deg: Option<int>,
    wind_speed_ms: Option<real>,
    wind_gust_ms: Option<real>,
    rain_rate_mmh: Option<real>,
    rain_event_mm: Option<real>,
    rain_hour_mm: Option<real>,
    rain_day_mm: Option<real>,
    solar_wm2: Option<real>,
    uv_index: Option<real>)

  /** floatval($csvData['Outdoor Temperature(...)'] ?? 0) */
  function OutdoorTemperature(csv: Option<map<string, string>>): real {
    var t := CsvField(csv, TemperatureHeader);
    if t.None? then 0.0 else FloatVal(t.value)
  }

  /** processCSVRow: the record for one data line, or none when the line is skipped. */
  function ConvertRow(headers: seq<string>, row: seq<string>): (r: Option<CsvRecord>)
    ensures var csv := Combine(headers, row);
      var temp := OutdoorTemperature(csv);
      var time := ParseCsvTime(TimeFormats, CsvField(csv, TimeHeader).GetOr(""));
      (r.Some? <==> -50.0 < temp < 80.0 && time.Some?)
      && (r.Some? ==> r.value.temp_c == temp && r.value.time_utc == time.value && r.value.rain_rate_mmh.None?)
  {
    var csv := Combine(headers, row);
    var outdoorTemp := OutdoorTemperature(csv);
    if outdoorTemp <= -50.0 || outdoorTemp >= 80.0 then None
    else
      var dateTime := ParseCsvTime(TimeFormats, CsvField(csv, TimeHeader).GetOr(""));
      if dateTime.None? then None
      else Some(CsvRecord(
        time_utc := dateTime.value,
        temp_c := outdoorTemp,
        humidity := CsvSafeFloat(CsvField(csv, HumidityHeader)),
        pressure_hpa := CsvSafeFloat(CsvField(csv, PressureHeader)),
        wind_dir_deg := CsvSafeInt(CsvField(csv, WindDirectionHeader)),
        wind_speed_ms := CsvSafeFloat(CsvField(csv, WindHeader)),
        wind_gust_ms := CsvSafeFloat(CsvField(csv, GustHeader)),
        rain_rate_mmh := None,
        rain_event_mm := CsvSafeFloat(CsvField(csv, EventRainHeader)),
        rain_hour_mm := CsvSafeFloat(CsvField(csv, HourlyRainHeader)),
        rain_day_mm := CsvSafeFloat(CsvField(csv, DailyRainHeader)),
        solar_wm2 := CsvSafeFloat(CsvField(csv, SolarHeader)),
        uv_index := CsvSafeFloat(CsvField(csv, UviHeader))))
  }

  /** A line without a temperature field reads as 0 degrees and is kept when its time parses. */
  lemma MissingTemperatureAccepted(headers: seq<string>, row: seq<string>)
    requires CsvField(Combine(headers, row), TemperatureHeader).None?
    ensures ConvertRow(headers, row).Some? <==> ParseCsvTime(TimeFormats, CsvField(Combine(headers, row), TimeHeader).GetOr("")).Some?
    ensures ConvertRow(headers, row).Some? ==> ConvertRow(headers, row).value.temp_c == 0.0
  {
  }

  /** A line whose field count differs from the header's is skipped: it has no time. */
  lemma RaggedLineSkipped(headers: seq<string>, row: seq<string>)
    requires |headers| != |row|
    ensures ConvertRow(headers, row).None?
  {
    assert CsvField(Combine(headers, row), TimeHeader).GetOr("") == "";
    NoTimeFromEmpty(TimeFormats);
  }

  /** A format that starts with a number reads nothing from the empty string. */
  lemma {:induction false} NoTimeFromEmpty(formats: seq<string>)
    requires forall i :: 0 <= i < |formats| ==> formats[i] != [] && formats[i][0] in "YmnjdGH"
    ensures ParseCsvTime(formats, "").None?
  {
    if formats != [] {
      assert Compile(formats[0])[0] == Letter(formats[0][0]);
      NoTimeFromEmpty(formats[1..]);
    }
  }

  /** The records a file's data lines produce, in file order. */
  function Accepted(headers: seq<string>, rows: seq<seq<string>>): (r: seq<CsvRecord>)
    ensures |r| <= |rows|
  {
    if rows == [] then []
    else
      var n := |rows| - 1;
      var rec := ConvertRow(headers, rows[n]);
      Accepted(headers, rows[..n]) + (if rec.Some? then [rec.value] else [])
  }

  /** One more data line adds its record, if it has one, at the end. */
  lemma AcceptedSnoc(headers: seq<string>, rows: seq<seq<string>>, i: nat, rec: Option<CsvRecord>)
    requires i < |rows| && rec == ConvertRow(headers, rows[i])
    ensures Accepted(headers, rows[..i + 1]) == Accepted(headers, rows[..i]) + (if rec.Some? then [rec.value] else [])
  {
    assert rows[..i + 1][..i] == rows[..i];
  }

  // ---- saveBatch: INSERT ... ON DUPLICATE KEY UPDATE ----

  /** The row the INSERT creates; the columns it does not list are NULL and created_at takes its default, the current time. */
  function NewRow(stationId: string, rec: CsvRecord, now: Timestamp): Observation {
    Observation(
      station_id := stationId,
      time_utc := rec.time_utc,
      temp_c := Some(rec.temp_c),
      humidity := rec.humidity,
      pressure_hpa := rec.pressure_hpa,
      wind_dir_deg := rec.wind_dir_deg,
      wind_speed_ms := rec.wind_speed_ms,
      wind_speed_avg10m_ms := None,
      wind_gust_ms := rec.wind_gust_ms,
      max_daily_gust_ms := None,
      rain_rate_mmh := rec.rain_rate_mmh,
      rain_event_mm := rec.rain_event_mm,
      rain_hour_mm := rec.rain_hour_mm,
      rain_day_mm := rec.rain_day_mm,
      solar_wm2 := rec.solar_wm2,
      uv_index := rec.uv_index,
      created_at := now)
  }

  /** The UPDATE branch for an existing row of the key. */
  function Refreshed(o: Observation, rec: CsvRecord, now: Timestamp): Observation {
    o.(temp_c := Some(rec.temp_c), humidity := rec.humidity, pressure_hpa := rec.pressure_hpa, created_at := now)
  }

  /** One execution of the statement: update the rows of the key if there are any, else insert. */
  function Upserted(rows: seq<Observation>, stationId: string, rec: CsvRecord, now: Timestamp): (r: seq<Observation>)
    ensures CountKey(rows, stationId, rec.time_utc) > 0 ==> |r| == |rows|
    ensures CountKey(rows, stationId, rec.time_utc) == 0 ==> |r| == |rows| + 1
  {
    if CountKey(rows, stationId, rec.time_utc) > 0 then
      seq(|rows|, i requires 0 <= i < |rows| =>
        if HasKey(rows[i], stationId, rec.time_utc) then Refreshed(rows[i], rec, now) else rows[i])
    else rows + [NewRow(stationId, rec, now)]
  }

  /** Whether two rows agree on every column but temp_c, humidity, pressure_hpa and created_at. */
  predicate SameUnlistedColumns(a: Observation, b: Observation) {
    a.station_id == b.station_id && a.time_utc == b.time_utc && a.wind_dir_deg == b.wind_dir_deg
    && a.wind_speed_ms == b.wind_speed_ms && a.wind_speed_avg10m_ms == b.wind_speed_avg10m_ms
    && a.wind_gust_ms == b.wind_gust_ms && a.max_daily_gust_ms == b.max_daily_gust_ms
    && a.rain_rate_mmh == b.rain_rate_mmh && a.rain_event_mm == b.rain_event_mm && a.rain_hour_mm == b.rain_hour_mm
    && a.rain_day_mm == b.rain_day_mm && a.solar_wm2 == b.solar_wm2 && a.uv_index == b.uv_index
  }

  /**
   * On a duplicate key only temp_c, humidity, pressure_hpa and created_at
   * change, and only in the rows of that key; a new key adds one row.
   */
  lemma DuplicateKeyUpdate(rows: seq<Observation>, stationId: string, rec: CsvRecord, now: Timestamp)
    ensures var r := Upserted(rows, stationId, rec, now);
      CountKey(rows, stationId, rec.time_utc) > 0 ==>
        forall i :: 0 <= i < |rows| ==>
          if HasKey(rows[i], stationId, rec.time_utc) then
            SameUnlistedColumns(r[i], rows[i]) && r[i].temp_c == Some(rec.temp_c) && r[i].humidity == rec.humidity
            && r[i].pressure_hpa == rec.pressure_hpa && r[i].created_at == now
          else r[i] == rows[i]
    ensures var r := Upserted(rows, stationId, rec, now);
      CountKey(rows, stationId, rec.time_utc) == 0 ==>
        r[..|rows|] == rows && HasKey(r[|rows|], stationId, rec.time_utc) && r[|rows|].temp_c == Some(rec.temp_c)
        && r[|rows|].wind_speed_avg10m_ms.None? && r[|rows|].max_daily_gust_ms.None? && r[|rows|].created_at == now
  {
  }

  /** The statement keeps the key unique, and afterwards the key has a row. */
  lemma UpsertKeepsKeysUnique(rows: seq<Observation>, stationId: string, rec: CsvRecord, now: Timestamp)
    requires UniqueKeys(rows)
    ensures UniqueKeys(Upserted(rows, stationId, rec, now))
    ensures exists i :: 0 <= i < |Upserted(rows, stationId, rec, now)| && HasKey(Upserted(rows, stationId, rec, now)[i], stationId, rec.time_utc)
  {
    var r := Upserted(rows, stationId, rec, now);
    CountKeyZero(rows, stationId, rec.time_utc);
    if CountKey(rows, stationId, rec.time_utc) == 0 {
      assert HasKey(r[|rows|], stationId, rec.time_utc);
      forall i, j | 0 <= i < j < |r|
        ensures !HasKey(r[j], r[i].station_id, r[i].time_utc)
      {
        if j == |rows| {
          assert r[i] == rows[i];
        } else {
          assert r[i] == rows[i] && r[j] == rows[j];
        }
      }
    } else {
      var k :| 0 <= k < |rows| && HasKey(rows[k], stationId, rec.time_utc);
      assert HasKey(r[k], stationId, rec.time_utc);
      forall i, j | 0 <= i < j < |r|
        ensures !HasKey(r[j], r[i].station_id, r[i].time_utc)
      {
        assert r[i].station_id == rows[i].station_id && r[i].time_utc == rows[i].time_utc;
        assert r[j].station_id == rows[j].station_id && r[j].time_utc == rows[j].time_utc;
      }
    }
  }

  /** Executing the statement twice with the same record at the same time is executing it once. */
  lemma UpsertIdempotent(rows: seq<Observation>, stationId: string, rec: CsvRecord, now: Timestamp)
    ensures Upserted(Upserted(rows, stationId, rec, now), stationId, rec, now) == Upserted(rows, stationId, rec, now)
  {
    var r := Upserted(rows, stationId, rec, now);
    CountKeyZero(rows, stationId, rec.time_utc);
    CountKeyZero(r, stationId, rec.time_utc);
    if CountKey(rows, stationId, rec.time_utc) == 0 {
      assert HasKey(r[|rows|], stationId, rec.time_utc);
    } else {
      var k :| 0 <= k < |rows| && HasKey(rows[k], stationId, rec.time_utc);
      assert HasKey(r[k], stationId, rec.time_utc);
    }
  }

  /** The table after the statement ran for each record in order, the refused ones changing nothing. */
  function SaveRecords(rows: seq<Observation>, stationId: string, recs: seq<CsvRecord>, now: Timestamp,
                       rejects: CsvRecord -> bool): seq<Observation>
  {
    if recs == [] then rows
    else
      var n := |recs| - 1;
      var before := SaveRecords(rows, stationId, recs[..n], now, rejects);
      if rejects(recs[n]) then before else Upserted(before, stationId, recs[n], now)
  }

  /** The number of records the database accepts. */
  function ImportedCount(recs: seq<CsvRecord>, rejects: CsvRecord -> bool): (n: nat)
    ensures n <= |recs|
  {
    if recs == [] then 0
    else ImportedCount(recs[..|recs| - 1], rejects) + (if rejects(recs[|recs| - 1]) then 0 else 1)
  }

  /** Saving in two batches is saving the records one after another. */
  lemma {:induction false} SaveRecordsAppend(rows: seq<Observation>, stationId: string, a: seq<CsvRecord>, b: seq<CsvRecord>,
                                             now: Timestamp, rejects: CsvRecord -> bool)
    ensures SaveRecords(rows, stationId, a + b, now, rejects)
      == SaveRecords(SaveRecords(rows, stationId, a, now, rejects), stationId, b, now, rejects)
    ensures ImportedCount(a + b, rejects) == ImportedCount(a, rejects) + ImportedCount(b, rejects)
  {
    if b == [] {
      assert a + b == a;
    } else {
      var n := |b| - 1;
      assert (a + b)[..|a + b| - 1] == a + b[..n];
      assert (a + b)[|a + b| - 1] == b[n];
      SaveRecordsAppend(rows, stationId, a, b[..n], now, rejects);
    }
  }

  /** Every record of a save keeps the table's keys unique. */
  lemma {:induction false} SaveRecordsKeepKeysUnique(rows: seq<Observation>, stationId: string, recs: seq<CsvRecord>,
                                                     now: Timestamp, rejects: CsvRecord -> bool)
    requires UniqueKeys(rows)
    ensures UniqueKeys(SaveRecords(rows, stationId, recs, now, rejects))
  {
    if recs != [] {
      var n := |recs| - 1;
      SaveRecordsKeepKeysUnique(rows, stationId, recs[..n], now, rejects);
      UpsertKeepsKeysUnique(SaveRecords(rows, stationId, recs[..n], now, rejects), stationId, recs[n], now);
    }
  }

  /** The batches concatenated. */
  function Flatten(batches: seq<seq<CsvRecord>>): seq<CsvRecord> {
    if batches == [] then [] else Flatten(batches[..|batches| - 1]) + batches[|batches| - 1]
  }

  lemma FlattenSnoc(batches: seq<seq<CsvRecord>>, b: seq<CsvRecord>)
    ensures Flatten(batches + [b]) == Flatten(batches) + b
  {
    assert (batches + [b])[..|batches|] == batches;
  }

  /** Full flushes followed by a non-empty, smaller remainder: every flush but the last is full. */
  lemma FlushRemainder(full: seq<seq<CsvRecord>>, rest: seq<CsvRecord>, m: int)
    requires forall k :: 0 <= k < |full| ==> |full[k]| == m
    requires 1 <= |rest| < m
    ensures forall k :: 0 <= k < |full + [rest]| ==> 1 <= |(full + [rest])[k]| <= m
    ensures forall k :: 0 <= k < |full + [rest]| - 1 ==> |(full + [rest])[k]| == m
  {
  }

  /** The importer's counters, as importFromCSV and getStatistics report them. */
  datatype ImportReport = ImportReport(processed: nat, imported: nat, skipped: nat)

  class CSVWeatherImporter {
    var batchSize: int
    var totalProcessed: nat
    var totalImported: nat
    var totalSkipped: nat

    constructor (batchSize: int)
      ensures this.batchSize == batchSize
      ensures totalProcessed == 0 && totalImported == 0 && totalSkipped == 0
    {
      this.batchSize := batchSize;
      totalProcessed, totalImported, totalSkipped := 0, 0, 0;
    }

    function GetStatistics(): ImportReport
      reads this
    {
      ImportReport(totalProcessed, totalImported, totalSkipped)
    }

    /** processCSVRow: the converted record, counting a skipped line. */
    method ProcessCSVRow(headers: seq<string>, row: seq<string>) returns (record: Option<CsvRecord>)
      modifies this
      ensures record == ConvertRow(headers, row)
      ensures totalSkipped == old(totalSkipped) + (if record.None? then 1 else 0)
      ensures totalProcessed == old(totalProcessed) && totalImported == old(totalImported) && batchSize == old(batchSize)
    {
      record := ConvertRow(headers, row);
      if record.None? {
        totalSkipped := totalSkipped + 1;
      }
    }

    /** saveBatch: run the statement for each record; each counts as imported, or as skipped when refused. */
    method SaveBatch(stationId: string, batchData: seq<CsvRecord>, store: WeatherObservation, now: Timestamp,
                     rejects: CsvRecord -> bool)
      modifies this, store
      ensures store.rows == SaveRecords(old(store.rows), stationId, batchData, now, rejects)
      ensures totalImported == old(totalImported) + ImportedCount(batchData, rejects)
      ensures totalImported + totalSkipped == old(totalImported + totalSkipped) + |batchData|
      ensures totalProcessed == old(totalProcessed) && batchSize == old(batchSize)
    {
      var i := 0;
      while i < |batchData|
        invariant 0 <= i <= |batchData|
        invariant store.rows == SaveRecords(old(store.rows), stationId, batchData[..i], now, rejects)
        invariant totalImported == old(totalImported) + ImportedCount(batchData[..i], rejects)
        invariant totalImported + totalSkipped == old(totalImported + totalSkipped) + i
        invariant totalProcessed == old(totalProcessed) && batchSize == old(batchSize)
      {
        var data := batchData[i];
        assert batchData[..i + 1][..i] == batchData[..i];
        if rejects(data) {
          totalSkipped := totalSkipped + 1;
        } else {
          store.rows := Upserted(store.rows, stationId, data, now);
          totalImported := totalImported + 1;
        }
        i := i + 1;
      }
      assert batchData[..i] == batchData;
    }

    /** Adds an accepted record to the buffer, saving the buffer once it reaches batchSize. */
    method BufferRecord(rec: CsvRecord, batchData: seq<CsvRecord>, stationId: string, store: WeatherObservation, now: Timestamp,
                        rejects: CsvRecord -> bool, ghost flushes: seq<seq<CsvRecord>>, ghost rows0: seq<Observation>, ghost imported0: nat)
      returns (newBatch: seq<CsvRecord>, ghost newFlushes: seq<seq<CsvRecord>>)
      requires |batchData| < Max(batchSize, 1)
      requires forall k :: 0 <= k < |flushes| ==> |flushes[k]| == Max(batchSize, 1)
      requires totalImported == imported0 + ImportedCount(Flatten(flushes), rejects)
      requires store.rows == SaveRecords(rows0, stationId, Flatten(flushes), now, rejects)
      modifies this, store
      ensures if |batchData| + 1 >= batchSize then newFlushes == flushes + [batchData + [rec]] && newBatch == []
              else newFlushes == flushes && newBatch == batchData + [rec]
      ensures Flatten(newFlushes) + newBatch == Flatten(flushes) + batchData + [rec]
      ensures |newBatch| < Max(batchSize, 1)
      ensures forall k :: 0 <= k < |newFlushes| ==> |newFlushes[k]| == Max(batchSize, 1)
      ensures totalImported + totalSkipped == old(totalImported + totalSkipped) + |batchData| + 1 - |newBatch|
      ensures totalImported == imported0 + ImportedCount(Flatten(newFlushes), rejects)
      ensures store.rows == SaveRecords(rows0, stationId, Flatten(newFlushes), now, rejects)
      ensures totalProcessed == old(totalProcessed) && batchSize == old(batchSize)
    {
      newBatch := batchData + [rec];
      newFlushes := flushes;
      if |newBatch| >= batchSize {
        SaveRecordsAppend(rows0, stationId, Flatten(flushes), newBatch, now, rejects);
        SaveBatch(stationId, newBatch, store, now, rejects);
        FlattenSnoc(flushes, newBatch);
        newFlushes := flushes + [newBatch];
        newBatch := [];
      }
    }

    /** One data line: counted as processed, converted, and its record buffered; a full buffer is saved. */
    method ImportLine(headers: seq<string>, dataRows: seq<seq<string>>, i: nat, batchData: seq<CsvRecord>, stationId: string,
                      store: WeatherObservation, now: Timestamp, rejects: CsvRecord -> bool,
                      ghost flushes: seq<seq<CsvRecord>>, ghost rows0: seq<Observation>, ghost imported0: nat)
      returns (newBatch: seq<CsvRecord>, ghost newFlushes: seq<seq<CsvRecord>>)
      requires i < |dataRows|
      requires Flatten(flushes) + batchData == Accepted(headers, dataRows[..i])
      requires |batchData| < Max(batchSize, 1)
      requires forall k :: 0 <= k < |flushes| ==> |flushes[k]| == Max(batchSize, 1)
      requires totalImported == imported0 + ImportedCount(Flatten(flushes), rejects)
      requires store.rows == SaveRecords(rows0, stationId, Flatten(flushes), now, rejects)
      modifies this, store
      ensures Flatten(newFlushes) + newBatch == Accepted(headers, dataRows[..i + 1])
      ensures |newBatch| < Max(batchSize, 1)
      ensures forall k :: 0 <= k < |newFlushes| ==> |newFlushes[k]| == Max(batchSize, 1)
      ensures totalProcessed == old(totalProcessed) + 1
      ensures totalImported + totalSkipped == old(totalImported + totalSkipped) + |batchData| + 1 - |newBatch|
      ensures totalImported == imported0 + ImportedCount(Flatten(newFlushes), rejects)
      ensures store.rows == SaveRecords(rows0, stationId, Flatten(newFlushes), now, rejects)
      ensures batchSize == old(batchSize)
    {
      totalProcessed := totalProcessed + 1;
      var observationData := ProcessCSVRow(headers, dataRows[i]);
      AcceptedSnoc(headers, dataRows, i, observationData);
      newBatch, newFlushes := batchData, flushes;
      if observationData.Some? {
        newBatch, newFlushes := BufferRecord(observationData.value, batchData, stationId, store, now, rejects, flushes,
                                             rows0, imported0);
      }
    }

    /** The loop over the data lines: every line converted, full buffers saved, the last partial buffer returned. */
    method ImportLines(headers: seq<string>, dataRows: seq<seq<string>>, stationId: string, store: WeatherObservation,
                       now: Timestamp, rejects: CsvRecord -> bool)
      returns (batchData: seq<CsvRecord>, ghost flushes: seq<seq<CsvRecord>>)
      modifies this, store
      ensures Flatten(flushes) + batchData == Accepted(headers, dataRows)
      ensures |batchData| < Max(batchSize, 1)
      ensures forall k :: 0 <= k < |flushes| ==> |flushes[k]| == Max(batchSize, 1)
      ensures totalProcessed == old(totalProcessed) + |dataRows|
      ensures totalImported + totalSkipped == old(totalImported + totalSkipped) + |dataRows| - |batchData|
      ensures totalImported == old(totalImported) + ImportedCount(Flatten(flushes), rejects)
      ensures store.rows == SaveRecords(old(store.rows), stationId, Flatten(flushes), now, rejects)
      ensures batchSize == old(batchSize)
    {
      flushes := [];
      batchData := [];
      var i := 0;
      while i < |dataRows|
        invariant 0 <= i <= |dataRows|
        invariant Flatten(flushes) + batchData == Accepted(headers, dataRows[..i])
        invariant |batchData| < Max(batchSize, 1)
        invariant forall k :: 0 <= k < |flushes| ==> |flushes[k]| == Max(batchSize, 1)
        invariant totalProcessed == old(totalProcessed) + i
        invariant totalImported + totalSkipped == old(totalImported + totalSkipped) + i - |batchData|
        invariant totalImported == old(totalImported) + ImportedCount(Flatten(flushes), rejects)
        invariant store.rows == SaveRecords(old(store.rows), stationId, Flatten(flushes), now, rejects)
        invariant batchSize == old(batchSize)
      {
        batchData, flushes := ImportLine(headers, dataRows, i, batchData, stationId, store, now, rejects,
                                         flushes, old(store.rows), old(totalImported));
        i := i + 1;
      }
      assert dataRows[..i] == dataRows;
    }

    /**
     * importFromCSV after the file is open: check the header, then convert
     * each data line, buffering the records and saving the buffer whenever
     * it reaches batchSize, and the rest after the last line.
     */
    method ImportFromCSV(headers: seq<string>, dataRows: seq<seq<string>>, stationId: string, store: WeatherObservation,
                         now: Timestamp, rejects: CsvRecord -> bool)
      returns (r: Result<ImportReport>, ghost flushes: seq<seq<CsvRecord>>)
      modifies this, store
      ensures batchSize == old(batchSize)
      ensures ValidateCSVHeaders(headers).Err? ==>
        r == Err(ValidateCSVHeaders(headers).message) && flushes == [] && store.rows == old(store.rows)
        && totalProcessed == old(totalProcessed) && totalImported == old(totalImported) && totalSkipped == old(totalSkipped)
      ensures ValidateCSVHeaders(headers).Ok? ==>
        r == Ok(GetStatistics())
        && Flatten(flushes) == Accepted(headers, dataRows)
        && (forall k :: 0 <= k < |flushes| ==> 1 <= |flushes[k]| <= Max(batchSize, 1))
        && (forall k :: 0 <= k < |flushes| - 1 ==> |flushes[k]| == Max(batchSize, 1))
        && totalProcessed == old(totalProcessed) + |dataRows|
        && totalImported + totalSkipped == old(totalImported + totalSkipped) + |dataRows|
        && totalImported == old(totalImported) + ImportedCount(Accepted(headers, dataRows), rejects)
        && store.rows == SaveRecords(old(store.rows), stationId, Accepted(headers, dataRows), now, rejects)
    {
      flushes := [];
      var valid := ValidateCSVHeaders(headers);
      if valid.Err? {
        return Err(valid.message), flushes;
      }
      var batchData;
      batchData, flushes := ImportLines(headers, dataRows, stationId, store, now, rejects);
      if batchData != [] {
        SaveRecordsAppend(old(store.rows), stationId, Flatten(flushes), batchData, now, rejects);
        SaveBatch(stationId, batchData, store, now, rejects);
        FlattenSnoc(flushes, batchData);
        FlushRemainder(flushes, batchData, Max(batchSize, 1));
        flushes := flushes + [batchData];
      } else {
        assert Flatten(flushes) + batchData == Flatten(flushes);
      }
      r := Ok(GetStatistics());
    }
  }
}
