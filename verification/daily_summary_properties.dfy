/** What calculateDailySummary promises, and where it surprises. */
module DailySummaryProperties {
  import opened Common
  import opened Numeric
  import opened DateTimes
  import opened Observations
  import opened SqlAggregates
  import opened DailySummaries

  lemma {:induction false} WhereAppend(a: seq<Observation>, b: seq<Observation>, p: Observation -> bool)
    ensures Where(a + b, p) == Where(a, p) + Where(b, p)
  {
    if a == [] {
      assert a + b == b;
    } else {
      var ab := a + b;
      assert ab[0] == a[0];
      assert ab[1..] == a[1..] + b;
      WhereAppend(a[1..], b, p);
      var x, y := Where(a[1..], p), Where(b, p);
      assert [a[0]] + (x + y) == ([a[0]] + x) + y;
    }
  }

  lemma WhereNone(a: seq<Observation>, p: Observation -> bool)
    requires forall o :: o in a ==> !p(o)
    ensures Where(a, p) == []
  {
  }

  /** Rows of other stations or other days, wherever they sit in the table, change nothing. */
  lemma OnlyTheStationDayCounts(rows: seq<Observation>, extra: seq<Observation>, station: string, date: Date, failing: set<Query>)
    requires forall o :: o in extra ==> !OnDay(o, station, date)
    ensures SummaryOf(rows + extra, station, date, failing) == SummaryOf(rows, station, date, failing)
    ensures SummaryOf(extra + rows, station, date, failing) == SummaryOf(rows, station, date, failing)
  {
    var p := (o: Observation) => OnDay(o, station, date);
    WhereAppend(rows, extra, p);
    WhereAppend(extra, rows, p);
    WhereNone(extra, p);
    var q := (o: Observation) => OnDay(o, station, date) && o.temp_c.Some?;
    WhereAppend(rows, extra, q);
    WhereAppend(extra, rows, q);
    WhereNone(extra, q);
    assert DayRows(rows + extra, station, date) == DayRows(rows, station, date);
    assert DayRows(extra + rows, station, date) == DayRows(rows, station, date);
    assert TempRows(rows + extra, station, date) == TempRows(rows, station, date);
    assert TempRows(extra + rows, station, date) == TempRows(rows, station, date);
  }

  /** Every selected row has a temperature, so there is a temperature value exactly when there is a row. */
  lemma TemperaturesPresent(t: seq<Observation>)
    requires forall o :: o in t ==> o.temp_c.Some?
    ensures Values(t, TempC) != [] <==> t != []
  {
    if t != [] {
      assert t[0] in t;
      ValueOfRow(t, TempC, t[0]);
    }
  }

  /** ROUND(MIN, 1) <= ROUND(AVG, 1) <= ROUND(MAX, 1). */
  lemma RoundedAggregatesOrdered(xs: seq<real>)
    requires xs != []
    ensures RoundTo(MinOf(xs).value, 1) <= RoundTo(AvgOf(xs).value, 1) <= RoundTo(MaxOf(xs).value, 1)
  {
    AvgBetweenMinMax(xs);
    RoundToMonotone(MinOf(xs).value, AvgOf(xs).value, 1);
    RoundToMonotone(AvgOf(xs).value, MaxOf(xs).value, 1);
  }

  /**
   * The temperature statistics exist exactly when the station-day has a
   * row with a temperature, and then temp_min <= temp_avg <= temp_max;
   * pressure, where present, is ordered the same way.
   */
  lemma StatisticsOrdered(rows: seq<Observation>, station: string, date: Date)
    ensures var t := TempRows(rows, station, date);
      var s := BasicStatsOf(t);
      (s.temp_avg.Some? <==> t != []) && (s.temp_max.Some? <==> t != []) && (s.temp_min.Some? <==> t != [])
      && (s.temp_avg.Some? ==> s.temp_min.value <= s.temp_avg.value <= s.temp_max.value)
      && (s.pressure_sea_avg.Some? ==> s.pressure_sea_min.value <= s.pressure_sea_avg.value <= s.pressure_sea_max.value)
      && (s.humidity_max.Some? ==> s.humidity_min.value <= s.humidity_max.value)
  {
    var t := TempRows(rows, station, date);
    TemperaturesPresent(t);
    if Values(t, TempC) != [] {
      RoundedAggregatesOrdered(Values(t, TempC));
    }
    if Values(t, PressureHpa) != [] {
      RoundedAggregatesOrdered(Values(t, PressureHpa));
    }
  }

  function Sample(time: Timestamp, temp: Option<real>, humidity: Option<real>, pressure: Option<real>): Observation {
    Observation("ST1", time, temp, humidity, pressure, None, None, None, None, None, None, None, None, None, None, None, time)
  }

  const Day := Date(2024, 6, 1)
  const Midnight: Timestamp := DateTime(Day, TimeOfDay(0, 0, 0))
  const OneOClock: Timestamp := DateTime(Day, TimeOfDay(1, 0, 0))

  /**
   * humidity_avg is rounded but humidity_min is not, so a day whose only
   * humidity is 50.04 stores an average (50.0) below its minimum.
   */
  lemma HumidityAverageMayFallBelowMinimum()
    ensures var s := BasicStatsOf(TempRows([Sample(Midnight, Some(20.0), Some(50.04), None)], "ST1", Day));
      s.humidity_min == Some(50.04) && s.humidity_avg == Some(50.0)
  {
    var o := Sample(Midnight, Some(20.0), Some(50.04), None);
    assert TempRows([o], "ST1", Day) == [o];
    assert Values([o], Humidity) == [50.04];
    assert RoundHalfAway(500.4) == 500;
  }

  /**
   * The temperature lookup compares against the rounded maximum: a day
   * whose only temperature is 21.26 reports temp_max 21.3 and no
   * temp_max_time.
   */
  lemma RoundedMaximumMayMatchNoRow()
    ensures var r := SummaryOf([Sample(Midnight, Some(21.26), None, None)], "ST1", Day, {});
      r.Ok? && r.value.stats.temp_max == Some(21.3) && r.value.temp_max_time.None?
  {
    var o := Sample(Midnight, Some(21.26), None, None);
    assert [o][1..] == [];
    assert DayRows([o], "ST1", Day) == [o];
    assert TempRows([o], "ST1", Day) == [o];
    assert Values([o], TempC) == [21.26];
    assert [21.26][1..] == [];
    assert MaxOf([21.26]) == Some(21.26);
    assert RoundHalfAway(212.6) == 213;
    assert Earliest([o], TempC, Some(21.3)) == None;
  }

  /**
   * The companion lookups search every row of the station-day, not only
   * those with a temperature: an earlier row without temperature but with
   * the same pressure supplies pressure_sea_max_time.
   */
  lemma LookupSeesRowsWithoutTemperature()
    ensures var rows := [Sample(OneOClock, Some(10.0), None, Some(1000.0)), Sample(Midnight, None, None, Some(1000.0))];
      var r := SummaryOf(rows, "ST1", Day, {});
      r.Ok? && r.value.stats.pressure_sea_max == Some(1000.0) && r.value.pressure_sea_max_time == Some(TimeOfDay(0, 0, 0))
  {
    var a := Sample(OneOClock, Some(10.0), None, Some(1000.0));
    var b := Sample(Midnight, None, None, Some(1000.0));
    assert [a, b][1..] == [b];
    assert [b][1..] == [];
    var onDay := (o: Observation) => OnDay(o, "ST1", Day);
    assert Where([b], onDay) == [b];
    assert DayRows([a, b], "ST1", Day) == [a, b];
    var withTemperature := (o: Observation) => OnDay(o, "ST1", Day) && o.temp_c.Some?;
    assert Where([b], withTemperature) == [];
    assert TempRows([a, b], "ST1", Day) == [a];
    assert Values([a], PressureHpa) == [1000.0];
    RoundToWhole(1000, 1);
    assert Earliest([b], PressureHpa, Some(1000.0)) == Some(b);
    assert !NotAfter(OneOClock, Midnight);
    assert Earliest([a, b], PressureHpa, Some(1000.0)) == Some(b);
  }

  /**
   * humidity_max is not rounded, so once its guard lets the lookups run
   * and they do not fail, both humidity times are found.
   */
  lemma HumidityLookupsFindARow(rows: seq<Observation>, station: string, date: Date, failing: set<Query>)
    requires BasicStats !in failing && HumidityMaxTime !in failing && HumidityMinTime !in failing
    requires Truthy(BasicStatsOf(TempRows(rows, station, date)).humidity_max)
    ensures SummaryOf(rows, station, date, failing).value.humidity_max_time.Some?
    ensures SummaryOf(rows, station, date, failing).value.humidity_min_time.Some?
  {
    var t := TempRows(rows, station, date);
    var day := DayRows(rows, station, date);
    var s := BasicStatsOf(t);
    var hi, lo := s.humidity_max.value, s.humidity_min.value;
    var o1 := ValueSource(t, Humidity, hi);
    var o2 := ValueSource(t, Humidity, lo);
    assert o1 in day && o2 in day;
    EarliestIsFirstMatch(day, Humidity, s.humidity_max);
    EarliestIsFirstMatch(day, Humidity, s.humidity_min);
  }

  /** A companion time is the time of the earliest row of the station-day holding the looked-up value. */
  lemma CompanionTimeIsEarliestMatch(day: seq<Observation>, c: Column, v: Option<real>, q: Query, failing: set<Query>)
    ensures var t := TimeOf(Lookup(day, c, v, q, failing));
      (t.None? <==> q in failing || v.None? || forall o :: o in day ==> Get(o, c) != v)
      && (t.Some? ==>
            exists o :: o in day && Get(o, c) == v && o.time_utc.time == t.value
              && forall o' :: o' in day && Get(o', c) == v ==> NotAfter(o.time_utc, o'.time_utc))
  {
    EarliestIsFirstMatch(day, c, v);
    var found := Lookup(day, c, v, q, failing);
    if found.Some? {
      assert found.value in day && Get(found.value, c) == v;
    }
  }

  /**
   * precipitation_max_1h is the largest hourly rain over every row of the
   * station-day, whether or not that row has a temperature, unrounded.
   */
  lemma HourlyRainMaximum(rows: seq<Observation>, station: string, date: Date, failing: set<Query>)
    requires BasicStats !in failing
    ensures var day := DayRows(rows, station, date);
      var p := SummaryOf(rows, station, date, failing).value.precipitation_max_1h;
      (p.Some? <==> PrecipitationMax !in failing && exists o :: o in day && Get(o, RainHourMm).Some?)
      && (p.Some? ==> forall o :: o in day && Get(o, RainHourMm).Some? ==> Get(o, RainHourMm).value <= p.value)
      && (p.Some? ==> exists o :: o in day && Get(o, RainHourMm) == p)
  {
    MaxOfColumn(DayRows(rows, station, date), RainHourMm);
  }

  /** solar_radiation is ROUND(0.0036 * the total of the non-NULL solar_wm2 values, 1). */
  lemma SolarRadiationIsScaledTotal(t: seq<Observation>)
    ensures var xs := Values(t, SolarWm2);
      Rounded(SumOf(ScaleAll(Values(t, SolarWm2), 0.0036))) == if xs == [] then None else Some(RoundTo(Total(xs) * 0.0036, 1))
  {
    var xs := Values(t, SolarWm2);
    TotalScaled(xs, 0.0036);
    if xs != [] {
      assert SumOf(ScaleAll(xs, 0.0036)) == Some(Total(xs) * 0.0036);
    }
  }

  /**
   * sunshine_hours exists exactly when there is a row, and lies between 0
   * and 0.05 hours per row, rounded.
   */
  lemma SunshineHoursBounds(t: seq<Observation>)
    ensures var h := SunshineHours(t);
      (h.Some? <==> t != [])
      && (h.Some? ==> 0.0 <= h.value <= RoundTo(0.05 * |t| as real, 1))
  {
    if t != [] {
      var n := CountAtLeast(Values(t, SolarWm2), 150.0);
      assert n <= |t|;
      RoundToNonNegative(0.05 * n as real, 1);
      RoundToMonotone(0.05 * n as real, 0.05 * |t| as real, 1);
    }
  }

  /** The fields one companion query fills. */
  function Clear(s: DailySummary, q: Query): DailySummary {
    match q
    case BasicStats => s
    case TempMaxTime => s.(temp_max_time := None)
    case TempMinTime => s.(temp_min_time := None)
    case HumidityMaxTime => s.(humidity_max_time := None)
    case HumidityMinTime => s.(humidity_min_time := None)
    case PressureMaxTime => s.(pressure_sea_max_time := None)
    case PressureMinTime => s.(pressure_sea_min_time := None)
    case WindMax => s.(wind_max_time := None, wind_max_direction := None)
    case GustMax => s.(wind_max_gust_time := None, wind_max_gust_direction := None)
    case UvMaxTime => s.(uv_index_max_time := None)
    case PrecipitationMax => s.(precipitation_max_1h := None)
  }

  lemma TemperatureLookupFailureIsolated(day: seq<Observation>, s: Stats, failing: set<Query>, q: Query)
    requires q == TempMaxTime || q == TempMinTime
    ensures Companions(day, s, failing + {q}) == Clear(Companions(day, s, failing), q)
  {
    if q == TempMaxTime {
    }
  }

  lemma HumidityLookupFailureIsolated(day: seq<Observation>, s: Stats, failing: set<Query>, q: Query)
    requires q == HumidityMaxTime || q == HumidityMinTime
    ensures Companions(day, s, failing + {q}) == Clear(Companions(day, s, failing), q)
  {
    if q == HumidityMaxTime {
    }
  }

  lemma PressureLookupFailureIsolated(day: seq<Observation>, s: Stats, failing: set<Query>, q: Query)
    requires q == PressureMaxTime || q == PressureMinTime
    ensures Companions(day, s, failing + {q}) == Clear(Companions(day, s, failing), q)
  {
    if q == PressureMaxTime {
    }
  }

  lemma WindLookupFailureIsolated(day: seq<Observation>, s: Stats, failing: set<Query>, q: Query)
    requires q == WindMax || q == GustMax
    ensures Companions(day, s, failing + {q}) == Clear(Companions(day, s, failing), q)
  {
    if q == WindMax {
    }
  }

  lemma UvAndRainLookupFailureIsolated(day: seq<Observation>, s: Stats, failing: set<Query>, q: Query)
    requires q == UvMaxTime || q == PrecipitationMax
    ensures Companions(day, s, failing + {q}) == Clear(Companions(day, s, failing), q)
  {
    if q == UvMaxTime {
    }
  }

  /** A failing companion query nulls its own fields and no other. */
  lemma CompanionFailureIsolated(rows: seq<Observation>, station: string, date: Date, failing: set<Query>, q: Query)
    requires q != BasicStats && BasicStats !in failing
    ensures SummaryOf(rows, station, date, failing + {q}) == Ok(Clear(SummaryOf(rows, station, date, failing).value, q))
  {
    var day, s := DayRows(rows, station, date), BasicStatsOf(TempRows(rows, station, date));
    match q
    case TempMaxTime => TemperatureLookupFailureIsolated(day, s, failing, q);
    case TempMinTime => TemperatureLookupFailureIsolated(day, s, failing, q);
    case HumidityMaxTime => HumidityLookupFailureIsolated(day, s, failing, q);
    case HumidityMinTime => HumidityLookupFailureIsolated(day, s, failing, q);
    case PressureMaxTime => PressureLookupFailureIsolated(day, s, failing, q);
    case PressureMinTime => PressureLookupFailureIsolated(day, s, failing, q);
    case WindMax => WindLookupFailureIsolated(day, s, failing, q);
    case GustMax => WindLookupFailureIsolated(day, s, failing, q);
    case UvMaxTime => UvAndRainLookupFailureIsolated(day, s, failing, q);
    case PrecipitationMax => UvAndRainLookupFailureIsolated(day, s, failing, q);
  }

  /** Saving the same summary twice at the same moment is saving it once. */
  lemma UpsertIdempotent(table: map<SummaryKey, SummaryRow>, key: SummaryKey, a: DailySummary, now: Timestamp)
    ensures Upsert(Upsert(table, key, a, now), key, a, now) == Upsert(table, key, a, now)
  {
  }
}
