/**
 * The weather_station and weather_observation tables as the receiver uses
 * them: passkey authentication, the delete-then-insert save of a reading,
 * and the read queries behind the latest / count / period endpoints.
 * SHA-256 is an uninterpreted function `hash`; a database error during a
 * save is the flag `dbFails`; the clock that fills created_at is `now`.
 */
module Models {
  import opened Common
  import opened DateTimes
  import opened Observations
  import opened SqlAggregates

  // ---- WeatherStation ----

  /**
   * findByPasskey: the first active station whose stored hash is the hash
   * of the passkey, or none (PHP false).
   */
  function FindByPasskey(stations: seq<Station>, passkey: string, hash: string -> string): (r: Option<Station>)
    ensures r.Some? ==> r.value in stations && r.value.is_active == 1 && r.value.passkey_sha256 == hash(passkey)
    ensures r.None? <==> forall s :: s in stations ==> s.is_active != 1 || s.passkey_sha256 != hash(passkey)
  {
    if stations == [] then None
    else if stations[0].is_active == 1 && stations[0].passkey_sha256 == hash(passkey) then Some(stations[0])
    else
      var rest := FindByPasskey(stations[1..], passkey, hash);
      assert forall s :: s in stations ==> s == stations[0] || s in stations[1..];
      rest
  }

  /** The station row a JOIN on station_id pairs an observation with (station_id is the primary key). */
  function StationById(stations: seq<Station>, id: string): (r: Option<Station>)
    ensures r.Some? ==> r.value in stations && r.value.station_id == id
    ensures r.None? <==> forall s :: s in stations ==> s.station_id != id
  {
    if stations == [] then None
    else if stations[0].station_id == id then Some(stations[0])
    else
      var rest := StationById(stations[1..], id);
      assert forall s :: s in stations ==> s == stations[0] || s in stations[1..];
      rest
  }

  // ---- WeatherObservation::saveObservation ----

  /** array_merge(['station_id' => $stationId], $data) without model and stationtype. */
  function InsertData(stationId: string, data: map<string, Value>): (r: map<string, Value>)
    ensures "model" !in r && "stationtype" !in r
    ensures "station_id" in r
    ensures "station_id" !in data ==> r["station_id"] == Text(stationId)
    ensures forall k :: k != "station_id" && k != "model" && k != "stationtype" ==> (k in r <==> k in data) && (k in data ==> r[k] == data[k])
  {
    (map["station_id" := Text(stationId)] + data) - {"model", "stationtype"}
  }

  /** A bound float column: a number, or NULL for an absent key. */
  function RealParam(data: map<string, Value>, k: string): Option<real> {
    if k !in data then None
    else match data[k]
      case Real(r) => Some(r)
      case Int(i) => Some(i as real)
      case Text(_) => None
  }

  function IntParam(data: map<string, Value>, k: string): Option<int> {
    if k in data && data[k].Int? then Some(data[k].i) else None
  }

  /** The DATETIME a bound 'Y-m-d H:i:s' string denotes. */
  function TimeParam(data: map<string, Value>): Option<Timestamp> {
    if "time_utc" in data && data["time_utc"].Text? then CreateFromFormat(YmdHis, data["time_utc"].s) else None
  }

  /** The row the INSERT creates from the bound parameters; none when station_id or time_utc cannot be stored. */
  function ToRow(params: map<string, Value>, now: Timestamp): (r: Option<Observation>)
    ensures r.Some? <==> "station_id" in params && params["station_id"].Text? && TimeParam(params).Some?
    ensures r.Some? ==> r.value.station_id == params["station_id"].s && r.value.time_utc == TimeParam(params).value
    ensures r.Some? ==> r.value.created_at == now
  {
    var time := TimeParam(params);
    if "station_id" in params && params["station_id"].Text? && time.Some? then
      Some(Inserted(params, params["station_id"].s, time.value, now))
    else None
  }

  /** The row an INSERT binding `params` creates, for a station_id and time_utc it can store. */
  function Inserted(params: map<string, Value>, stationId: string, time: Timestamp, now: Timestamp): Observation {
    Observation(
      station_id := stationId,
      time_utc := time,
      temp_c := RealParam(params, "temp_c"),
      humidity := RealParam(params, "humidity"),
      pressure_hpa := RealParam(params, "pressure_hpa"),
      wind_dir_deg := IntParam(params, "wind_dir_deg"),
      wind_speed_ms := RealParam(params, "wind_speed_ms"),
      wind_speed_avg10m_ms := RealParam(params, "wind_speed_avg10m_ms"),
      wind_gust_ms := RealParam(params, "wind_gust_ms"),
      max_daily_gust_ms := RealParam(params, "max_daily_gust_ms"),
      rain_rate_mmh := RealParam(params, "rain_rate_mmh"),
      rain_event_mm := RealParam(params, "rain_event_mm"),
      rain_hour_mm := RealParam(params, "rain_hour_mm"),
      rain_day_mm := RealParam(params, "rain_day_mm"),
      solar_wm2 := RealParam(params, "solar_wm2"),
      uv_index := RealParam(params, "uv_index"),
      created_at := now)
  }

  predicate HasKey(o: Observation, stationId: string, time: Timestamp) {
    o.station_id == stationId && o.time_utc == time
  }

  /** DELETE FROM weather_observation WHERE station_id = ? AND time_utc = ? */
  function Delete(rows: seq<Observation>, stationId: string, time: Timestamp): (r: seq<Observation>)
    ensures |r| <= |rows|
  {
    if rows == [] then []
    else if HasKey(rows[0], stationId, time) then Delete(rows[1..], stationId, time)
    else [rows[0]] + Delete(rows[1..], stationId, time)
  }

  /** The delete removes every row of the key and keeps every copy of every other row. */
  lemma {:induction false} DeleteEffect(rows: seq<Observation>, stationId: string, time: Timestamp, o: Observation)
    ensures o in Delete(rows, stationId, time) <==> o in rows && !HasKey(o, stationId, time)
    ensures !HasKey(o, stationId, time) ==> multiset(Delete(rows, stationId, time))[o] == multiset(rows)[o]
  {
    if rows != [] {
      DeleteEffect(rows[1..], stationId, time, o);
      assert rows == [rows[0]] + rows[1..];
    }
  }

  /** The table after the transaction commits: the old rows of the key deleted, the new row inserted. */
  function Replaced(rows: seq<Observation>, stationId: string, row: Observation): seq<Observation> {
    Delete(rows, stationId, row.time_utc) + [row]
  }

  class WeatherObservation {
    var rows: seq<Observation>

    constructor (initial: seq<Observation>)
      ensures rows == initial
    {
      rows := initial;
    }

    /**
     * saveObservation: in one transaction, delete the rows of
     * (stationId, time_utc) and insert the reading; on a database error
     * roll back and rethrow, on success return true.
     */
    method SaveObservation(stationId: string, observationData: map<string, Value>, now: Timestamp, dbFails: bool)
      returns (r: Result<bool>)
      modifies this
      ensures var row := ToRow(InsertData(stationId, observationData), now);
        if dbFails || row.None? then r.Err? && rows == old(rows)
        else r == Ok(true) && rows == Replaced(old(rows), stationId, row.value)
    {
      var insertData := InsertData(stationId, observationData);
      var row := ToRow(insertData, now);
      if dbFails || row.None? {
        return Err("Failed to save observation data");
      }
      var table := Delete(rows, stationId, row.value.time_utc);
      table := table + [row.value];
      rows := table;
      r := Ok(true);
    }
  }

  /** After a save, the key holds exactly one row, the new one, and it is the last row. */
  lemma SaveLeavesOneRow(rows: seq<Observation>, row: Observation)
    ensures var r := Replaced(rows, row.station_id, row);
      r[|r| - 1] == row && forall i :: 0 <= i < |r| && HasKey(r[i], row.station_id, row.time_utc) ==> i == |r| - 1
  {
    var r := Replaced(rows, row.station_id, row);
    var d := Delete(rows, row.station_id, row.time_utc);
    forall i | 0 <= i < |r| - 1
      ensures !HasKey(r[i], row.station_id, row.time_utc)
    {
      assert r[i] == d[i] && d[i] in d;
      DeleteEffect(rows, row.station_id, row.time_utc, d[i]);
    }
  }

  /** Rows of every other key keep their number of copies. */
  lemma SaveKeepsOtherRows(rows: seq<Observation>, stationId: string, row: Observation, o: Observation)
    requires !HasKey(o, stationId, row.time_utc) && o != row
    ensures multiset(Replaced(rows, stationId, row))[o] == multiset(rows)[o]
  {
    assert multiset(Replaced(rows, stationId, row)) == multiset(Delete(rows, stationId, row.time_utc)) + multiset{row};
    DeleteEffect(rows, stationId, row.time_utc, o);
  }

  /** No two rows share a (station_id, time_utc) key. */
  predicate UniqueKeys(rows: seq<Observation>) {
    forall i, j :: 0 <= i < j < |rows| ==> !HasKey(rows[j], rows[i].station_id, rows[i].time_utc)
  }

  lemma {:induction false} CountKeyZero(rows: seq<Observation>, stationId: string, time: Timestamp)
    ensures CountKey(rows, stationId, time) == 0 <==> forall i :: 0 <= i < |rows| ==> !HasKey(rows[i], stationId, time)
  {
    if rows != [] {
      CountKeyZero(rows[1..], stationId, time);
      forall i | 0 < i < |rows|
        ensures rows[i] == rows[1..][i - 1]
      {
      }
    }
  }

  /** A save keeps (station_id, time_utc) a key of the table. */
  lemma SaveKeepsKeysUnique(rows: seq<Observation>, row: Observation)
    requires UniqueKeys(rows)
    ensures UniqueKeys(Replaced(rows, row.station_id, row))
  {
    var d := Delete(rows, row.station_id, row.time_utc);
    var r := Replaced(rows, row.station_id, row);
    SaveLeavesOneRow(rows, row);
    DeleteKeepsKeysUnique(rows, row.station_id, row.time_utc);
    forall i, j | 0 <= i < j < |r|
      ensures !HasKey(r[j], r[i].station_id, r[i].time_utc)
    {
      if j < |d| {
        assert r[i] == d[i] && r[j] == d[j];
      }
    }
  }

  lemma {:induction false} DeleteKeepsKeysUnique(rows: seq<Observation>, stationId: string, time: Timestamp)
    requires UniqueKeys(rows)
    ensures UniqueKeys(Delete(rows, stationId, time))
  {
    if rows != [] {
      var rest := Delete(rows[1..], stationId, time);
      assert UniqueKeys(rows[1..]) by {
        forall i, j | 0 <= i < j < |rows[1..]|
          ensures !HasKey(rows[1..][j], rows[1..][i].station_id, rows[1..][i].time_utc)
        {
          assert rows[1..][i] == rows[i + 1] && rows[1..][j] == rows[j + 1];
        }
      }
      DeleteKeepsKeysUnique(rows[1..], stationId, time);
      if !HasKey(rows[0], stationId, time) {
        var r := [rows[0]] + rest;
        forall j | 0 < j < |r|
          ensures !HasKey(r[j], rows[0].station_id, rows[0].time_utc)
        {
          assert r[j] == rest[j - 1] && rest[j - 1] in rest;
          DeleteEffect(rows[1..], stationId, time, r[j]);
          var k :| 0 <= k < |rows[1..]| && rows[1..][k] == r[j];
          assert rows[k + 1] == r[j];
        }
        forall i, j | 0 < i < j < |r|
          ensures !HasKey(r[j], r[i].station_id, r[i].time_utc)
        {
          assert r[i] == rest[i - 1] && r[j] == rest[j - 1];
        }
      }
    }
  }

  /** Two saves of the same key: the last one wins, as if the first had not happened. */
  lemma LastWriteWins(rows: seq<Observation>, a: Observation, b: Observation)
    requires a.station_id == b.station_id && a.time_utc == b.time_utc
    ensures Replaced(Replaced(rows, a.station_id, a), b.station_id, b) == Replaced(rows, b.station_id, b)
  {
    DeleteIdempotent(rows, a.station_id, a.time_utc);
    var d := Delete(rows, a.station_id, a.time_utc);
    DeleteAppend(d, [a], a.station_id, a.time_utc);
  }

  lemma {:induction false} DeleteIdempotent(rows: seq<Observation>, stationId: string, time: Timestamp)
    ensures Delete(Delete(rows, stationId, time), stationId, time) == Delete(rows, stationId, time)
  {
    if rows != [] {
      DeleteIdempotent(rows[1..], stationId, time);
      if !HasKey(rows[0], stationId, time) {
        var rest := Delete(rows[1..], stationId, time);
        assert ([rows[0]] + rest)[0] == rows[0];
        assert ([rows[0]] + rest)[1..] == rest;
      }
    }
  }

  lemma {:induction false} DeleteAppend(a: seq<Observation>, b: seq<Observation>, stationId: string, time: Timestamp)
    ensures Delete(a + b, stationId, time) == Delete(a, stationId, time) + Delete(b, stationId, time)
  {
    if a == [] {
      assert a + b == b;
    } else {
      var ab := a + b;
      assert ab[0] == a[0];
      assert ab[1..] == a[1..] + b;
      DeleteAppend(a[1..], b, stationId, time);
      var x, y := Delete(a[1..], stationId, time), Delete(b, stationId, time);
      assert [a[0]] + (x + y) == ([a[0]] + x) + y;
    }
  }

  /** model and stationtype never reach the table, and station_id is the argument unless the reading names its own. */
  lemma InsertIgnoresMetadata(stationId: string, data: map<string, Value>, now: Timestamp, model: Value, stationtype: Value)
    ensures ToRow(InsertData(stationId, data["model" := model]["stationtype" := stationtype]), now) == ToRow(InsertData(stationId, data), now)
    ensures "station_id" !in data && ToRow(InsertData(stationId, data), now).Some? ==>
      ToRow(InsertData(stationId, data), now).value.station_id == stationId
  {
    assert InsertData(stationId, data["model" := model]["stationtype" := stationtype]) == InsertData(stationId, data);
  }

  // ---- the read queries ----

  /** SELECT COUNT(*) ... WHERE station_id = ? */
  function GetDataCount(rows: seq<Observation>, stationId: string): (n: nat)
    ensures n <= |rows|
    ensures n == 0 <==> forall o :: o in rows ==> o.station_id != stationId
  {
    if rows == [] then 0
    else
      var rest := GetDataCount(rows[1..], stationId);
      assert forall o :: o in rows ==> o == rows[0] || o in rows[1..];
      (if rows[0].station_id == stationId then 1 else 0) + rest
  }

  function CountKey(rows: seq<Observation>, stationId: string, time: Timestamp): nat {
    if rows == [] then 0
    else (if HasKey(rows[0], stationId, time) then 1 else 0) + CountKey(rows[1..], stationId, time)
  }

  /** A save of a station's reading adds one row to its count, less the rows it replaces. */
  lemma {:induction false} SaveChangesCount(rows: seq<Observation>, row: Observation)
    ensures GetDataCount(Replaced(rows, row.station_id, row), row.station_id)
      == GetDataCount(rows, row.station_id) - CountKey(rows, row.station_id, row.time_utc) + 1
  {
    CountDelete(rows, row.station_id, row.time_utc);
    CountAppend(Delete(rows, row.station_id, row.time_utc), [row], row.station_id);
  }

  lemma {:induction false} CountDelete(rows: seq<Observation>, stationId: string, time: Timestamp)
    ensures GetDataCount(Delete(rows, stationId, time), stationId) == GetDataCount(rows, stationId) - CountKey(rows, stationId, time)
  {
    if rows != [] {
      CountDelete(rows[1..], stationId, time);
      var rest := Delete(rows[1..], stationId, time);
      if !HasKey(rows[0], stationId, time) {
        assert ([rows[0]] + rest)[1..] == rest;
      }
    }
  }

  lemma {:induction false} CountAppend(a: seq<Observation>, b: seq<Observation>, stationId: string)
    ensures GetDataCount(a + b, stationId) == GetDataCount(a, stationId) + GetDataCount(b, stationId)
  {
    if a == [] {
      assert a + b == b;
    } else {
      CountAppend(a[1..], b, stationId);
      assert (a + b)[0] == a[0];
      assert (a + b)[1..] == a[1..] + b;
    }
  }

  /** A column value a fetched row holds, as array_filter(... !== null) keeps it. */
  function TextCell(v: Option<string>): Option<Value> {
    if v.Some? then Some(Text(v.value)) else None
  }

  /** array_filter($row, fn($v) => $v !== null) */
  function NonNull(cells: map<string, Option<Value>>): (r: map<string, Value>)
    ensures forall k :: k in r <==> k in cells && cells[k].Some?
    ensures forall k :: k in r ==> cells[k] == Some(r[k])
  {
    map k | k in cells && cells[k].Some? :: cells[k].value
  }

  /** SELECT wo.*, ws.model, ws.stationtype for one joined row, NULL columns removed. */
  function ResultRow(o: Observation, s: Station): map<string, Value> {
    NonNull(Cells(o)["model" := TextCell(s.model)]["stationtype" := TextCell(s.stationtype)])
  }

  /** ORDER BY time_utc DESC, created_at DESC: a is strictly ahead of b. */
  predicate Newer(a: Observation, b: Observation) {
    Before(b.time_utc, a.time_utc) || (a.time_utc == b.time_utc && Before(b.created_at, a.created_at))
  }

  /** The first row of the order, none when there is no row. */
  function Latest(rows: seq<Observation>): (r: Option<Observation>)
    ensures r.None? <==> rows == []
    ensures r.Some? ==> r.value in rows && forall o :: o in rows ==> !Newer(o, r.value)
  {
    if rows == [] then None
    else
      var rest := Latest(rows[1..]);
      assert forall o :: o in rows ==> o == rows[0] || o in rows[1..];
      NewerStrictOrder();
      if rest.None? || !Newer(rest.value, rows[0]) then Some(rows[0]) else rest
  }

  lemma NewerStrictOrder()
    ensures forall a, b :: !(Newer(a, b) && Newer(b, a))
    ensures forall a, b, c :: Newer(a, b) && Newer(b, c) ==> Newer(a, c)
    ensures forall a, b, c :: !Newer(a, b) && !Newer(b, c) ==> !Newer(a, c)
  {
    forall a: Observation, b: Observation, c: Observation
      ensures !(Newer(a, b) && Newer(b, a))
      ensures Newer(a, b) && Newer(b, c) ==> Newer(a, c)
      ensures !Newer(a, b) && !Newer(b, c) ==> !Newer(a, c)
    {
      BeforeStrictTotal(c.time_utc, b.time_utc, a.time_utc);
      BeforeStrictTotal(c.created_at, b.created_at, a.created_at);
      BeforeStrictTotal(a.time_utc, b.time_utc, c.time_utc);
    }
  }

  /** The station's rows that have a weather_station row to join with. */
  function JoinedRows(rows: seq<Observation>, stations: seq<Station>, stationId: string): (r: seq<Observation>)
    ensures forall o :: o in r <==> o in rows && o.station_id == stationId && StationById(stations, stationId).Some?
  {
    if StationById(stations, stationId).None? then []
    else Where(rows, (o: Observation) => o.station_id == stationId)
  }

  /** getLatestByStation: the station's newest row, joined and with NULLs removed; none when it has no row. */
  function GetLatestByStation(rows: seq<Observation>, stations: seq<Station>, stationId: string): (r: Option<map<string, Value>>)
    ensures r.None? <==> forall o :: o in rows ==> o.station_id != stationId || StationById(stations, stationId).None?
    ensures r.Some? ==>
      exists o :: o in rows && o.station_id == stationId && r.value == ResultRow(o, StationById(stations, stationId).value) &&
        forall o' :: o' in rows && o'.station_id == stationId ==> !Newer(o', o)
  {
    var joined := JoinedRows(rows, stations, stationId);
    var latest := Latest(joined);
    if latest.None? then None
    else
      assert joined != [] ==> joined[0] in joined;
      Some(ResultRow(latest.value, StationById(stations, stationId).value))
  }

  // ---- getDataByPeriod ----

  /** time_utc BETWEEN start AND end, both ends included. */
  predicate InPeriod(o: Observation, start: DateTime, end: DateTime) {
    !Before(o.time_utc, start) && !Before(end, o.time_utc)
  }

  predicate NewestFirst(s: seq<Observation>) {
    forall i, j :: 0 <= i < j < |s| ==> NotAfter(s[j].time_utc, s[i].time_utc)
  }

  /** Puts a row in front of the first row that is not later than it. */
  function InsertNewestFirst(o: Observation, s: seq<Observation>): (r: seq<Observation>)
    requires NewestFirst(s)
    ensures NewestFirst(r)
    ensures multiset(r) == multiset(s) + multiset{o}
  {
    if s == [] || NotAfter(s[0].time_utc, o.time_utc) then
      PrependNewest(o, s);
      [o] + s
    else
      var rest := InsertNewestFirst(o, s[1..]);
      assert s == [s[0]] + s[1..];
      PrependAfter(o, s, rest);
      [s[0]] + rest
  }

  lemma PrependNewest(o: Observation, s: seq<Observation>)
    requires NewestFirst(s)
    requires s == [] || NotAfter(s[0].time_utc, o.time_utc)
    ensures NewestFirst([o] + s)
  {
    forall j | 0 <= j < |s|
      ensures NotAfter(s[j].time_utc, o.time_utc)
    {
      BeforeStrictTotal(o.time_utc, s[0].time_utc, s[j].time_utc);
    }
  }

  lemma PrependAfter(o: Observation, s: seq<Observation>, rest: seq<Observation>)
    requires NewestFirst(s) && s != [] && !NotAfter(s[0].time_utc, o.time_utc)
    requires NewestFirst(rest) && multiset(rest) == multiset(s[1..]) + multiset{o}
    ensures NewestFirst([s[0]] + rest)
  {
    forall j | 0 <= j < |rest|
      ensures NotAfter(rest[j].time_utc, s[0].time_utc)
    {
      assert rest[j] in multiset(rest);
      if rest[j] != o {
        assert rest[j] in s[1..];
        var k :| 0 <= k < |s[1..]| && s[1..][k] == rest[j];
        assert s[k + 1] == rest[j];
      } else {
        BeforeStrictTotal(o.time_utc, s[0].time_utc, o.time_utc);
      }
    }
  }

  /** ORDER BY time_utc DESC */
  function SortNewestFirst(rows: seq<Observation>): (r: seq<Observation>)
    ensures NewestFirst(r)
    ensures multiset(r) == multiset(rows)
  {
    if rows == [] then []
    else
      assert rows == [rows[0]] + rows[1..];
      InsertNewestFirst(rows[0], SortNewestFirst(rows[1..]))
  }

  function Take(s: seq<Observation>, n: nat): (r: seq<Observation>)
    ensures |r| == if n < |s| then n else |s|
    ensures r == s[..|r|]
  {
    if n < |s| then s[..n] else s
  }

  /** The rows getDataByPeriod returns, before NULLs are removed. */
  function PeriodRows(rows: seq<Observation>, stations: seq<Station>, stationId: string, start: DateTime, end: DateTime, limit: nat)
    : (r: seq<Observation>)
    ensures |r| <= limit
    ensures NewestFirst(r)
    ensures forall o :: o in r ==> o in rows && o.station_id == stationId && InPeriod(o, start, end)
  {
    var joined := JoinedRows(rows, stations, stationId);
    var matching := Where(joined, (o: Observation) => InPeriod(o, start, end));
    var sorted := SortNewestFirst(matching);
    var r := Take(sorted, limit);
    forall o | o in r
      ensures o in matching
    {
      var i :| 0 <= i < |r| && r[i] == o;
      assert sorted[i] == o;
      assert o in multiset(sorted);
    }
    r
  }

  /**
   * getDataByPeriod keeps the newest rows: a row of the period left out
   * is not later than any row returned, and fewer than `limit` rows are
   * returned only when no row of the period is left out.
   */
  lemma PeriodKeepsNewest(rows: seq<Observation>, stations: seq<Station>, stationId: string, start: DateTime, end: DateTime, limit: nat, o: Observation)
    requires o in rows && o.station_id == stationId && InPeriod(o, start, end) && StationById(stations, stationId).Some?
    requires o !in PeriodRows(rows, stations, stationId, start, end, limit)
    ensures |PeriodRows(rows, stations, stationId, start, end, limit)| == limit
    ensures forall r :: r in PeriodRows(rows, stations, stationId, start, end, limit) ==> NotAfter(o.time_utc, r.time_utc)
  {
    var joined := JoinedRows(rows, stations, stationId);
    var matching := Where(joined, (o: Observation) => InPeriod(o, start, end));
    var sorted := SortNewestFirst(matching);
    assert o in matching;
    assert o in multiset(sorted);
    var j :| 0 <= j < |sorted| && sorted[j] == o;
    var result := PeriodRows(rows, stations, stationId, start, end, limit);
    assert result == Take(sorted, limit);
    forall r | r in result
      ensures NotAfter(o.time_utc, r.time_utc)
    {
      var i :| 0 <= i < |result| && result[i] == r;
    }
  }

  /** getDataByPeriod: the period's rows, newest first, at most `limit`, joined and with NULLs removed. */
  function GetDataByPeriod(rows: seq<Observation>, stations: seq<Station>, stationId: string, start: DateTime, end: DateTime, limit: nat)
    : (r: seq<map<string, Value>>)
    ensures |r| == |PeriodRows(rows, stations, stationId, start, end, limit)| <= limit
  {
    var selected := PeriodRows(rows, stations, stationId, start, end, limit);
    if StationById(stations, stationId).None? then []
    else seq(|selected|, i requires 0 <= i < |selected| => ResultRow(selected[i], StationById(stations, stationId).value))
  }

  /**
   * The i-th row getDataByPeriod returns is the NULL-free join of the i-th
   * selected row, so the newest-first order and the limit carry over.
   */
  lemma PeriodResultRow(rows: seq<Observation>, stations: seq<Station>, stationId: string, start: DateTime, end: DateTime, limit: nat, i: nat)
    requires i < |GetDataByPeriod(rows, stations, stationId, start, end, limit)|
    ensures StationById(stations, stationId).Some?
    ensures i < |PeriodRows(rows, stations, stationId, start, end, limit)|
    ensures GetDataByPeriod(rows, stations, stationId, start, end, limit)[i]
      == ResultRow(PeriodRows(rows, stations, stationId, start, end, limit)[i], StationById(stations, stationId).value)
  {
  }

  /** Each row getDataByPeriod returns is the NULL-free join of a row of the station within the period. */
  lemma PeriodResultRows(rows: seq<Observation>, stations: seq<Station>, stationId: string, start: DateTime, end: DateTime, limit: nat, i: nat)
    requires i < |GetDataByPeriod(rows, stations, stationId, start, end, limit)|
    ensures StationById(stations, stationId).Some?
    ensures exists o ::
      o in rows && o.station_id == stationId && InPeriod(o, start, end) &&
      GetDataByPeriod(rows, stations, stationId, start, end, limit)[i] == ResultRow(o, StationById(stations, stationId).value)
  {
    PeriodResultRow(rows, stations, stationId, start, end, limit, i);
    var selected := PeriodRows(rows, stations, stationId, start, end, limit);
    assert selected[i] in selected;
  }
}

/**
 * The receiver end to end: the reading processRawData builds from a
 * payload, passed to saveObservation, becomes one row of the table.
 */
module StoredReadings {
  import opened Common
  import opened DateTimes
  import opened Observations
  import opened EcowittProcessor
  import opened EcowittProperties
  import opened Models

  /** The measured columns of a row, all of them fields of the normalised reading. */
  const MeasuredColumns: set<string> := {
    "temp_c", "humidity", "pressure_hpa", "wind_dir_deg", "wind_speed_ms", "wind_speed_avg10m_ms",
    "wind_gust_ms", "max_daily_gust_ms", "rain_rate_mmh", "rain_event_mm", "rain_hour_mm",
    "rain_day_mm", "solar_wm2", "uv_index"
  }

  /** A measured field of a reading is a float, except the wind direction, which is an integer. */
  lemma FieldKind(f: map<string, string>, now: Timestamp, k: string)
    requires k in MeasuredColumns
    ensures k == "wind_dir_deg" ==> Field(f, now, k).None? || Field(f, now, k).value.Int?
    ensures k != "wind_dir_deg" ==> Field(f, now, k).None? || Field(f, now, k).value.Real?
  {
  }

  /** Each measured column of the inserted row holds the bound parameter of that name. */
  lemma RowColumns(params: map<string, Value>, stationId: string, time: Timestamp, clock: Timestamp, k: string)
    requires k in MeasuredColumns
    ensures k == "wind_dir_deg" ==> Cells(Inserted(params, stationId, time, clock))[k] == IntCell(IntParam(params, k))
    ensures k != "wind_dir_deg" ==> Cells(Inserted(params, stationId, time, clock))[k] == RealCell(RealParam(params, k))
  {
    var row := Inserted(params, stationId, time, clock);
    if k == "wind_dir_deg" {
      assert Cells(row)["wind_dir_deg"] == IntCell(row.wind_dir_deg);
    } else if k in {"temp_c", "humidity", "pressure_hpa", "wind_speed_ms"} {
      FirstColumns(params, row, k);
    } else if k in {"wind_speed_avg10m_ms", "wind_gust_ms", "max_daily_gust_ms", "rain_rate_mmh", "rain_event_mm"} {
      MiddleColumns(params, row, k);
    } else {
      LastColumns(params, row, k);
    }
  }

  lemma FirstColumns(params: map<string, Value>, row: Observation, k: string)
    requires k in {"temp_c", "humidity", "pressure_hpa", "wind_speed_ms"}
    requires row.temp_c == RealParam(params, "temp_c") && row.humidity == RealParam(params, "humidity")
    requires row.pressure_hpa == RealParam(params, "pressure_hpa") && row.wind_speed_ms == RealParam(params, "wind_speed_ms")
    ensures Cells(row)[k] == RealCell(RealParam(params, k))
  {
  }

  lemma MiddleColumns(params: map<string, Value>, row: Observation, k: string)
    requires k in {"wind_speed_avg10m_ms", "wind_gust_ms", "max_daily_gust_ms", "rain_rate_mmh", "rain_event_mm"}
    requires row.wind_speed_avg10m_ms == RealParam(params, "wind_speed_avg10m_ms") && row.wind_gust_ms == RealParam(params, "wind_gust_ms")
    requires row.max_daily_gust_ms == RealParam(params, "max_daily_gust_ms") && row.rain_rate_mmh == RealParam(params, "rain_rate_mmh")
    requires row.rain_event_mm == RealParam(params, "rain_event_mm")
    ensures Cells(row)[k] == RealCell(RealParam(params, k))
  {
  }

  lemma LastColumns(params: map<string, Value>, row: Observation, k: string)
    requires k in {"rain_hour_mm", "rain_day_mm", "solar_wm2", "uv_index"}
    requires row.rain_hour_mm == RealParam(params, "rain_hour_mm") && row.rain_day_mm == RealParam(params, "rain_day_mm")
    requires row.solar_wm2 == RealParam(params, "solar_wm2") && row.uv_index == RealParam(params, "uv_index")
    ensures Cells(row)[k] == RealCell(RealParam(params, k))
  {
  }

  /**
   * Every normalised reading becomes a row: the row belongs to the station
   * that sent it, at the reading's time, and each measured column holds the
   * reading's field, NULL where the field was left out. This rests on
   * reading an unbound parameter as NULL; PDO instead refuses a statement
   * whose named parameters are not all bound, so a reading that lacks a
   * measured field is not stored by the code as written.
   */
  lemma NormalisedReadingSaves(raw: seq<(string, string)>, now: Timestamp, clock: Timestamp, stationId: string)
    ensures var row := ToRow(InsertData(stationId, Normalise(raw, now)), clock);
      row.Some? && row.value.station_id == stationId && row.value.time_utc == Time(Filtered(raw), now)
      && row.value.created_at == clock
      && forall k :: k in MeasuredColumns ==> Cells(row.value)[k] == Field(Filtered(raw), now, k)
  {
    StoredRow(raw, now, clock, stationId);
    forall k | k in MeasuredColumns
      ensures Cells(ToRow(InsertData(stationId, Normalise(raw, now)), clock).value)[k] == Field(Filtered(raw), now, k)
    {
      StoredColumn(raw, now, clock, stationId, k);
    }
  }

  lemma StoredRow(raw: seq<(string, string)>, now: Timestamp, clock: Timestamp, stationId: string)
    ensures var row := ToRow(InsertData(stationId, Normalise(raw, now)), clock);
      row.Some? && row.value.station_id == stationId && row.value.time_utc == Time(Filtered(raw), now)
  {
    var reading := Normalise(raw, now);
    var time := Time(Filtered(raw), now);
    ReadingShape(raw, now);
    StationIdNotField();
    InReading(raw, now, "time_utc");
    AtmosphereConversions();
    assert reading["time_utc"] == Text(FormatYmdHis(time));
    var params := InsertData(stationId, reading);
    assert params["time_utc"] == reading["time_utc"];
    ParseFormatted(time);
    assert TimeParam(params) == Some(time);
  }

  lemma StationIdNotField()
    ensures "station_id" !in OutputKeys
  {
  }

  lemma StoredColumn(raw: seq<(string, string)>, now: Timestamp, clock: Timestamp, stationId: string, k: string)
    requires k in MeasuredColumns && ToRow(InsertData(stationId, Normalise(raw, now)), clock).Some?
    ensures Cells(ToRow(InsertData(stationId, Normalise(raw, now)), clock).value)[k] == Field(Filtered(raw), now, k)
  {
    var reading := Normalise(raw, now);
    var params := InsertData(stationId, reading);
    var field := Field(Filtered(raw), now, k);
    InReading(raw, now, k);
    FieldKind(Filtered(raw), now, k);
    var row := ToRow(params, clock).value;
    RowColumns(params, row.station_id, row.time_utc, clock, k);
    ParamIsField(stationId, reading, k, field);
    CellIsField(params, k, field, Cells(ToRow(params, clock).value)[k]);
  }

  lemma ParamIsField(stationId: string, reading: map<string, Value>, k: string, field: Option<Value>)
    requires k in MeasuredColumns
    requires (k in reading <==> field.Some?) && (k in reading ==> reading[k] == field.value)
    ensures var params := InsertData(stationId, reading);
      (k in params <==> field.Some?) && (k in params ==> params[k] == field.value)
  {
  }

  lemma CellIsField(params: map<string, Value>, k: string, field: Option<Value>, cell: Option<Value>)
    requires (k in params <==> field.Some?) && (k in params ==> params[k] == field.value)
    requires k == "wind_dir_deg" ==> cell == IntCell(IntParam(params, k)) && (field.None? || field.value.Int?)
    requires k != "wind_dir_deg" ==> cell == RealCell(RealParam(params, k)) && (field.None? || field.value.Real?)
    ensures cell == field
  {
  }
}
