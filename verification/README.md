# HP2550 weather receiver: a verified model

This project models the logic of the HP2550 weather-station receiver in
Dafny. It covers five source files.

- **The ingestion normaliser** (`Apache/weather/utils.php`). An Ecowitt
  upload arrives as a string-to-string payload and becomes one normalised
  outdoor reading. `EcowittDataProcessor::processRawData` lower-cases the
  keys and drops the indoor and "feels like" keys. It converts °F, mph,
  inHg and inches to SI units and range-checks each value before
  rounding it to two decimals. A field that fails leaves its key out.
  The helpers in `DataConverter` (unit conversions, `parseDateTime`,
  `safeFloat`, `safeInt`) and `DataValidator` (six range checks) are
  each modelled by a function of the same name, within the limits listed
  under "Left out". `processRawData` is an imperative method
  (`EcowittProcessor.ProcessRawData`). It keeps the code's loops and its
  field order, and it is proved equal to a declarative definition,
  `Normalise(raw, now)`. That definition gives each output key its
  conversion through a table, `ConversionOf`. The lemmas in
  `EcowittProperties` state the per-field rules against the payload.
- **The observation store** (`Apache/weather/models.php`). A
  `WeatherObservation` class holds the `weather_observation` table as a
  sequence of rows. `saveObservation` is modelled as a method: it deletes
  the rows for the (station, time) pair, then inserts one new row, or it
  rolls back. The read queries are functions over the table:
  `findByPasskey`, `getLatestByStation`, `getDataCount` and
  `getDataByPeriod`. `StoredReadings` connects the normaliser to the
  store: every reading `processRawData` builds is saved as a row whose
  columns are the reading's fields.
- **The daily aggregation** (`Database/daily_aggregation_functions.php`).
  The SQL of `calculateDailySummary` is read over a sequence of rows:
  - `WHERE` becomes a filter;
  - `MAX`/`MIN`/`SUM`/`AVG` skip NULLs;
  - `ROUND(x, 1)` rounds half away from zero;
  - `ORDER BY time_utc LIMIT 1` becomes the earliest matching row.

  The companion time lookups keep the code's guards, and each lookup
  fails on its own. `saveDailySummary` is an upsert into a table keyed by
  (station_id, observation_date). It is a method of `SummaryTable`.
- **The nightly driver** (`Database/daily_aggregation.php`). The pending
  (station, date) pairs come back sorted and distinct. A loop calculates
  and saves each pair and counts the successes in `processedDates`.
- **The CSV bulk importer** (`migration/csv_importer.php`). This is a
  `CSVWeatherImporter` class with the three counters. It has:
  - the header check;
  - `processCSVRow`, with its own `safeFloat`/`safeInt` and the four
    time formats;
  - the batching loop of `importFromCSV`;
  - `saveBatch`, whose `INSERT ... ON DUPLICATE KEY UPDATE` overwrites
    only some columns.

Conventions used throughout:

- Numbers are exact reals.
- PHP's `round` and MySQL's `ROUND` are the function `Numeric.RoundTo`,
  which rounds halves away from zero.
- PHP's `is_numeric` and `(float)` cast are written out character by
  character (`PhpText.ParseNumeric`).
- `DateTime::createFromFormat` is a small token engine
  (`DateTimes.CreateFromFormat`), and the `Y-m-d H:i:s` round trip is
  proved (`DateTimes.ParseFormatted`).

Everything outside the model is an explicit parameter:

- the current time (`now`);
- SHA-256 (`hash`);
- a database failure: `dbFails` for a save, `failing` for the set of
  failing queries, `saveFails` for a failing summary save, and `rejects`
  for the records the database refuses;
- a fatal error before the aggregation loop (`fatal`).

Four behaviours of the code surprise its own description. Each is
stated as a lemma:

- A rounded aggregate can match no row
  (`DailySummaryProperties.RoundedMaximumMayMatchNoRow`).
- The companion lookups also see rows that have no temperature
  (`DailySummaryProperties.LookupSeesRowsWithoutTemperature`).
- The rounded humidity average can fall below the unrounded minimum
  (`DailySummaryProperties.HumidityAverageMayFallBelowMinimum`).
- Two of the four CSV time formats are redundant
  (`CsvImporter.RedundantFormats`).

Where the system's own documentation and the code disagree, the model
follows the code:

- 29.50 inHg converts to about 998.98 hPa with the code's factor
  33.8638866667, not to 998.84.
- The 10-minute average wind field is `wind_speed_avg10m_ms`.
- A day without any temperature row does not raise "No valid data". The
  aggregate query without `GROUP BY` always returns one row, so the
  summary of such a day has NULL statistics, and that branch is
  unreachable.

## Model

| member | source | states |
|---|---|---|
| Numeric.RoundHalfAway | Apache/weather/utils.php:94 | the integer `round()` gives is within one half of the input, halves going away from zero, and is never negative for a non-negative input |
| Numeric.RoundTo | Apache/weather/utils.php:205 | `round(x, 2)` is within 0.005 of x and `ROUND(x, 1)` within 0.05 |
| Numeric.RoundToIsNearest | Apache/weather/utils.php:205 | `round(x, digits)` is a whole multiple of 10^-digits, and x lies within half a unit of it, a tie going away from zero |
| Numeric.RoundToIsUnique | Apache/weather/utils.php:205 | that contract determines the result: any multiple of 10^-digits within half a unit, ties away from zero, is `round(x, digits)` |
| Numeric.RoundToMonotone | Database/daily_aggregation_functions.php:23-25 | rounding to a fixed number of decimals never reverses the order of two values |
| Numeric.RoundToWithin | Apache/weather/utils.php:111-154 | a value between two whole-number bounds stays between them after rounding |
| Numeric.RoundToIdempotent | Apache/weather/utils.php:205 | rounding an already rounded value changes nothing |
| Numeric.RoundToNonNegative | Apache/weather/utils.php:252-261 | rounding a non-negative value never makes it negative |
| Numeric.RoundHalfAwayMonotone | Apache/weather/utils.php:94 | rounding to a whole number never reverses the order of two values |
| Numeric.ToInt64 | Apache/weather/utils.php:94 | `(int)` of a whole number lies in [-2^63, 2^63), is congruent to it modulo 2^64, and is the number itself when it fits |
| Numeric.ToInt64Unique | Apache/weather/utils.php:94 | range and congruence determine the cast: any such value equals `ToInt64` |
| Numeric.ToInt64Wraps | Apache/weather/utils.php:94 | 10^19 casts to 10^19 - 2^64, and 2^64 casts to 0 |
| PhpText.ToLower | Apache/weather/utils.php:180 | `strtolower` keeps the length and lower-cases each ASCII letter in place |
| PhpText.ToLowerIdempotent | Apache/weather/utils.php:180-182 | a lower-cased key lower-cases to itself, so filtered keys are stable |
| PhpText.TrimLeft | Apache/weather/utils.php:48 | the result is a suffix of the input; every character removed is one `trim` strips, and the result does not start with one |
| PhpText.TrimRight | Apache/weather/utils.php:48 | the result is a prefix of the input; every character removed is one `trim` strips, and the result does not end with one |
| PhpText.Prefix | Apache/weather/utils.php:305 | `substr($s, 0, 64)` is the first min(64, length) elements of s (elements are characters here, where PHP counts bytes; see Left out) |
| PhpText.SkipSpace | Apache/weather/utils.php:77 | exactly the leading whitespace `is_numeric` allows is skipped |
| PhpText.ParseNumeric | Apache/weather/utils.php:77-78 | a string is numeric iff, after leading whitespace, it holds one decimal number followed only by whitespace; its value is that number's value |
| PhpText.FloatVal | migration/csv_importer.php:173 | `floatval` of a numeric string is its numeric value |
| DateTimes.BeforeStrictTotal | Apache/weather/models.php:148 | the `ORDER BY time_utc` order is irreflexive, asymmetric, transitive and total |
| DateTimes.FormatYmdHis | Apache/weather/utils.php:192 | `format('Y-m-d H:i:s')` is always 19 characters |
| DateTimes.Pad2 | Apache/weather/utils.php:192 | a two-digit field renders as exactly two digits that read back as the number |
| DateTimes.Pad4 | Apache/weather/utils.php:192 | the year renders as exactly four digits that read back as the number |
| DateTimes.Compile | Apache/weather/utils.php:54 | a format compiles character by character: `Y` reads one to four digits, `m`/`n`/`d`/`j`/`H`/`G` one or two, `i`/`s` exactly two, a space any run of spaces and tabs (none included), any other character itself |
| DateTimes.BlankRun | Apache/weather/utils.php:54 | the blank run a format space skips is all spaces and tabs and stops at the first other character |
| DateTimes.ReadsDateTime | Apache/weather/utils.php:54 | the tokens of a `Y-m-d H:i:s`-shaped format fill all six fields from text with a one-to-four-digit year and any blank run between date and time |
| DateTimes.ReadsYmdHis | Apache/weather/utils.php:54 | `createFromFormat('Y-m-d H:i:s', …)` of such text is that timestamp when it is valid, and false otherwise |
| DateTimes.ShortYearRead | Apache/weather/utils.php:54 | "999-01-01 00:00:00" parses, as year 999 |
| DateTimes.BlankRunRead | Apache/weather/utils.php:54 | a run of spaces and a tab between date and time parses |
| DateTimes.ParseFormatted | Apache/weather/utils.php:54 | `createFromFormat('Y-m-d H:i:s', …)` reads back every rendered timestamp exactly |
| DataConverter.FahrenheitToCelsius | Apache/weather/utils.php:19-21 | the inverse c·9/5 + 32 recovers the Fahrenheit input |
| DataConverter.MphToMs | Apache/weather/utils.php:26-28 | dividing by 0.44704 recovers the input, and the sign is kept |
| DataConverter.InHgToHpa | Apache/weather/utils.php:33-35 | dividing by 33.8638866667 recovers the input, and the sign is kept |
| DataConverter.InchToMm | Apache/weather/utils.php:40-42 | dividing by 25.4 recovers the input, and the sign is kept |
| DataConverter.ParseDateTime | Apache/weather/utils.php:47-67 | a string that means "now" or does not parse gives the clock; any other string gives its `Y-m-d H:i:s` parse |
| DataConverter.DigitFirstNotNow | Apache/weather/utils.php:48 | a string starting with a digit never reads as "now" |
| DataConverter.ParseDateTimeFormatted | Apache/weather/utils.php:47-61 | a `Y-m-d H:i:s` rendering parses back to its timestamp, whatever the clock |
| DataConverter.SafeFloat | Apache/weather/utils.php:72-83 | null and '' give the default; a numeric string gives its value; any other result is the default |
| DataConverter.SafeInt | Apache/weather/utils.php:88-99 | as safeFloat; a numeric string gives a 64-bit integer congruent modulo 2^64 to its half-away rounding, and within one half of the number when that rounding fits in 64 bits |
| DataConverter.SafeConversionsOfString | Apache/weather/utils.php:72-99 | with a null default, a present string converts to its numeric value, or to null when it has none |
| DataValidator.ValidationSurvivesRounding | Apache/weather/utils.php:111-154 | a value that passes a range check still passes it after rounding to two decimals |
| EcowittProcessor.Filtered | Apache/weather/utils.php:174-184 | the filtered payload holds only lower-case keys and no excluded key |
| EcowittProcessor.FilterPayload | Apache/weather/utils.php:178-184 | the key-filtering loop computes `Filtered` of the payload |
| EcowittProcessor.PutTime | Apache/weather/utils.php:189-197 | the time step adds `time_utc` exactly as `Field` defines it |
| EcowittProcessor.PutTemperature | Apache/weather/utils.php:200-208 | the temperature step adds `temp_c` exactly as `Field` defines it |
| EcowittProcessor.PutHumidity | Apache/weather/utils.php:211-216 | the humidity step adds `humidity` exactly as `Field` defines it |
| EcowittProcessor.PutPressure | Apache/weather/utils.php:219-234 | the pressure step adds `pressure_hpa` exactly as `Field` defines it |
| EcowittProcessor.PutWindDirection | Apache/weather/utils.php:237-242 | the wind-direction step adds `wind_dir_deg` exactly as `Field` defines it |
| EcowittProcessor.PutMapped | Apache/weather/utils.php:245-286 | the wind and rain loops add every mapped target exactly as `Field` defines it |
| EcowittProcessor.PutSolar | Apache/weather/utils.php:289-294 | the solar step adds `solar_wm2` exactly as `Field` defines it |
| EcowittProcessor.PutUv | Apache/weather/utils.php:296-301 | the UV step adds `uv_index` exactly as `Field` defines it |
| EcowittProcessor.PutStationType | Apache/weather/utils.php:304-306 | the metadata step adds `stationtype` exactly as `Field` defines it |
| EcowittProcessor.PutModel | Apache/weather/utils.php:307-309 | the metadata step adds `model` exactly as `Field` defines it |
| EcowittProcessor.ProcessRawData | Apache/weather/utils.php:174-317 | processRawData returns exactly `Normalise(raw, now)`, the declarative reading |
| EcowittProperties.FilteredLastWins | Apache/weather/utils.php:179-183 | a kept key holds the value of its last occurrence in the payload |
| EcowittProperties.FilteredKeysFromPayload | Apache/weather/utils.php:179-183 | every filtered key is the lower-cased form of some payload key |
| EcowittProperties.FilteredIgnoresExcluded | Apache/weather/utils.php:166-184 | inserting an excluded key, in any case and at any position, leaves the filtered payload unchanged |
| EcowittProperties.FilteredCaseInsensitive | Apache/weather/utils.php:179-182 | payloads whose keys agree up to letter case filter to the same map |
| EcowittProperties.InReading | Apache/weather/utils.php:186-316 | a known key is in the reading exactly when its field is not left out, with that field's value |
| EcowittProperties.ExcludedKeysIgnored | Apache/weather/utils.php:166-184 | an excluded key never influences the reading |
| EcowittProperties.KeyCaseIgnored | Apache/weather/utils.php:179-182 | the letter case of the payload's keys never influences the reading |
| EcowittProperties.ReadingShape | Apache/weather/utils.php:189-309 | time_utc is always present; only known keys appear; weekly, monthly and yearly rain never do |
| EcowittProperties.TimeRule | Apache/weather/utils.php:189-197 | time_utc is the parsed dateutc re-formatted when it is present, not "now" and parses; otherwise it is the clock |
| EcowittProperties.TimePassesThrough | Apache/weather/utils.php:189-192 | a dateutc already in `Y-m-d H:i:s` form passes through unchanged |
| EcowittProperties.TemperatureRule | Apache/weather/utils.php:200-208 | temp_c is present iff tempf is numeric and the unrounded Celsius value is in [-40, 60] (tempf in [-40, 140]); its value is that value rounded to 2 decimals |
| EcowittProperties.PressureFromRelative | Apache/weather/utils.php:219-234 | with baromrelin present, it alone decides pressure_hpa: present iff numeric and the converted value is in [870, 1080]; the value is rounded to 2 decimals |
| EcowittProperties.PressureFromAbsolute | Apache/weather/utils.php:225-234 | without baromrelin, pressure_hpa comes from baromabsin by the same rule |
| EcowittProperties.ScaledRule | Apache/weather/utils.php:252-261 | a scaled field is present iff its key is numeric and the converted value is not negative, rounded to 2 decimals |
| EcowittProperties.WindRule | Apache/weather/utils.php:245-262 | each of the four wind fields is its mph key × 0.44704, kept iff not negative, rounded to 2 decimals |
| EcowittProperties.RainRule | Apache/weather/utils.php:266-286 | each of the four rain fields is its inch key × 25.4, kept iff not negative, rounded to 2 decimals |
| EcowittProperties.HumidityRule | Apache/weather/utils.php:211-216 | humidity is present iff numeric and in [0, 100] before rounding; it is rounded to 2 decimals |
| EcowittProperties.UvRule | Apache/weather/utils.php:296-301 | uv_index is present iff uv is numeric and in [0, 15]; it is rounded to 2 decimals |
| EcowittProperties.SolarRule | Apache/weather/utils.php:289-294 | solar_wm2 is present iff solarradiation is numeric and not negative; it is rounded to 2 decimals |
| EcowittProperties.WindDirectionRule | Apache/weather/utils.php:237-242 | wind_dir_deg is the nearest whole degree cast to 64 bits, present iff that value is in [0, 360] |
| EcowittProperties.MetadataRule | Apache/weather/utils.php:304-309 | stationtype and model are present iff sent, cut by `substr($s, 0, 64)` (`PhpText.Prefix`, which counts characters rather than bytes) |
| EcowittProperties.StoredValuesInRange | Apache/weather/utils.php:111-154 | every stored numeric field lies in its validator's range after rounding |
| EcowittProperties.AtmosphereInRange | Apache/weather/utils.php:200-234 | stored temperature, humidity and pressure lie in their ranges |
| EcowittProperties.RadiationInRange | Apache/weather/utils.php:289-301 | stored UV lies in [0, 15] and stored solar radiation is not negative |
| EcowittProperties.WindAndRainInRange | Apache/weather/utils.php:245-286 | every stored wind and rain field is not negative |
| Models.FindByPasskey | Apache/weather/models.php:22-40 | the station found is active and its stored hash is hash(passkey); none is found iff no active station has that hash |
| Models.StationById | Apache/weather/models.php:146 | the JOIN partner has the observation's station_id; none exists iff no station has it |
| Models.InsertData | Apache/weather/models.php:115-116 | model and stationtype are removed; station_id is the argument unless the reading has one; every other key is kept unchanged |
| Models.ToRow | Apache/weather/models.php:98-118 | the INSERT stores a row iff station_id is text and time_utc parses; the row carries them, and created_at is the clock |
| Models.Delete | Apache/weather/models.php:91-95 | the DELETE never adds rows |
| Models.DeleteEffect | Apache/weather/models.php:91-95 | the DELETE removes exactly the rows of the key and keeps every copy of every other row |
| Models.WeatherObservation.constructor | Apache/weather/models.php:79-81 | the store starts with the given table |
| Models.WeatherObservation.SaveObservation | Apache/weather/models.php:86-137 | on a database error the table is unchanged and an error is raised; otherwise the rows of the key are replaced by the one new row and true is returned |
| Models.SaveLeavesOneRow | Apache/weather/models.php:91-118 | after a save the key holds exactly one row, the new one |
| Models.SaveKeepsOtherRows | Apache/weather/models.php:91-95 | rows of every other key keep their number of copies |
| Models.SaveKeepsKeysUnique | Apache/weather/models.php:91-118 | a save keeps (station_id, time_utc) unique |
| Models.DeleteKeepsKeysUnique | Apache/weather/models.php:91-95 | the DELETE keeps (station_id, time_utc) unique |
| Models.LastWriteWins | Apache/weather/models.php:86-137 | two saves of the same key equal the second save alone |
| Models.DeleteIdempotent | Apache/weather/models.php:91-95 | deleting a key twice is deleting it once |
| Models.DeleteAppend | Apache/weather/models.php:91-95 | the DELETE acts on each part of the table independently |
| Models.InsertIgnoresMetadata | Apache/weather/models.php:115-116 | model and stationtype never reach the row; station_id comes from the argument |
| Models.GetDataCount | Apache/weather/models.php:168-178 | the count is at most the table size and is zero iff the station has no row |
| Models.CountKeyZero | Apache/weather/models.php:91-93 | a key counts zero rows iff no row has it |
| Models.SaveChangesCount | Apache/weather/models.php:91-118 | a save changes the station's count by one, less the rows it replaces |
| Models.CountDelete | Apache/weather/models.php:91-95 | the DELETE lowers the station's count by the rows of the key |
| Models.CountAppend | Apache/weather/models.php:170-171 | the count of a table is the sum of the counts of its parts |
| Models.NonNull | Apache/weather/models.php:157-159 | `array_filter(... !== null)` keeps exactly the non-NULL columns, each with its value |
| Models.Latest | Apache/weather/models.php:148-149 | the row chosen is in the table and no row is ahead of it in the order (time_utc DESC, created_at DESC); none is chosen only for no rows |
| Models.NewerStrictOrder | Apache/weather/models.php:148 | that order is asymmetric and transitive, and "not ahead" is transitive |
| Models.JoinedRows | Apache/weather/models.php:144-147 | the joined rows are exactly the station's rows, when the station exists |
| Models.GetLatestByStation | Apache/weather/models.php:142-163 | null iff the station has no joined row; otherwise the NULL-free join of a station row that no other station row is ahead of |
| Models.InsertNewestFirst | Apache/weather/models.php:190 | inserting into a newest-first list keeps it newest-first and adds exactly that row |
| Models.SortNewestFirst | Apache/weather/models.php:190 | `ORDER BY time_utc DESC` yields a newest-first permutation of the rows |
| Models.Take | Apache/weather/models.php:191 | `LIMIT n` is the first min(n, size) rows |
| Models.PeriodRows | Apache/weather/models.php:184-195 | at most `limit` rows, newest first, each a row of the station within [start, end] |
| Models.PeriodKeepsNewest | Apache/weather/models.php:188-191 | a period row left out implies `limit` rows were returned, none of them older than it |
| Models.GetDataByPeriod | Apache/weather/models.php:183-203 | as many result rows as selected rows, never more than `limit` |
| Models.PeriodResultRow | Apache/weather/models.php:184-202 | the i-th returned row is the NULL-free join of the i-th selected row, so the selection's newest-first order and limit carry over to the result |
| Models.PeriodResultRows | Apache/weather/models.php:184-202 | each returned row is the NULL-free join of a row of that existing station whose time_utc is within [start, end] |
| StoredReadings.FieldKind | Apache/weather/utils.php:200-301 | a measured field is a float, except wind_dir_deg, which is an integer |
| StoredReadings.RowColumns | Apache/weather/models.php:98-118 | each measured column of the inserted row is the bound parameter of that name, NULL when absent |
| StoredReadings.NormalisedReadingSaves | Apache/weather/models.php:98-118 | every normalised reading becomes a row of the station, at the reading's time, created now, with each measured column equal to the reading's field or NULL (an unbound parameter read as NULL; see the PDO line under Left out) |
| StoredReadings.StoredRow | Apache/weather/models.php:115-118 | a normalised reading always yields a storable row for the given station at the reading's time |
| StoredReadings.StoredColumn | Apache/weather/models.php:98-118 | each measured column of the stored row is the reading's field |
| SqlAggregates.Where | Database/daily_aggregation_functions.php:51-54 | `WHERE` keeps exactly the rows that satisfy the condition |
| SqlAggregates.Values | Database/daily_aggregation_functions.php:20-55 | an aggregate's input holds at most one value per row (NULLs skipped) |
| SqlAggregates.ValueOfRow | Database/daily_aggregation_functions.php:20-55 | every non-NULL entry of a column is among the aggregated values |
| SqlAggregates.ValueSource | Database/daily_aggregation_functions.php:20-55 | every aggregated value comes from a row's non-NULL entry |
| SqlAggregates.MaxOf | Database/daily_aggregation_functions.php:24 | `MAX` is NULL over no values; otherwise it is a value and no value exceeds it |
| SqlAggregates.MinOf | Database/daily_aggregation_functions.php:25 | `MIN` is NULL over no values; otherwise it is a value and no value is below it |
| SqlAggregates.MaxOfColumn | Database/daily_aggregation_functions.php:320 | `MAX(column)` is NULL iff every entry is NULL; otherwise it bounds every entry and some row attains it |
| SqlAggregates.SumOf | Database/daily_aggregation_functions.php:48 | `SUM` is NULL exactly over no values |
| SqlAggregates.AvgOf | Database/daily_aggregation_functions.php:23 | `AVG` is NULL exactly over no values |
| SqlAggregates.CountAtLeast | Database/daily_aggregation_functions.php:49 | the count of values at or above a threshold is at most the number of values |
| SqlAggregates.NotAfterTotalPreorder | Database/daily_aggregation_functions.php:86 | `ORDER BY time_utc` is a total preorder |
| SqlAggregates.EarliestIsFirstMatch | Database/daily_aggregation_functions.php:80-94 | the row found matches the value and no matching row is earlier; none is found iff the value is NULL or no row matches |
| SqlAggregates.ScaleAll | Database/daily_aggregation_functions.php:48 | `solar_wm2 * 0.0036` scales each value and keeps the count |
| SqlAggregates.TotalBounds | Database/daily_aggregation_functions.php:23 | values between lo and hi total between n·lo and n·hi |
| SqlAggregates.AvgBetweenMinMax | Database/daily_aggregation_functions.php:23-25 | MIN ≤ AVG ≤ MAX over any non-empty set of values |
| SqlAggregates.TotalScaled | Database/daily_aggregation_functions.php:48 | SUM(x·k) is k·SUM(x) |
| DailySummaries.Rounded | Database/daily_aggregation_functions.php:23-47 | `ROUND(x, 1)` keeps NULL and gives a whole multiple of 0.1 within 0.05 of the value, a tie going away from zero |
| DailySummaries.DayRows | Database/daily_aggregation_functions.php:82-84 | the lookups search exactly the station-day's rows, with or without a temperature |
| DailySummaries.TempRows | Database/daily_aggregation_functions.php:51-54 | the basic statistics range exactly over the station-day's rows with a temperature |
| DailySummaries.SummaryOf | Database/daily_aggregation_functions.php:13-354 | the summary is an error exactly when the basic-statistics query fails |
| DailySummaries.CalculateDailySummary | Database/daily_aggregation_functions.php:13-354 | the step-by-step calculation returns exactly `SummaryOf` |
| DailySummaries.LookupExtremeTimes | Database/daily_aggregation_functions.php:80-218 | the temperature times are always looked up; the humidity and pressure times only when their maximum is truthy; nothing else changes |
| DailySummaries.LookupWindAndRain | Database/daily_aggregation_functions.php:221-341 | wind, gust and UV lookups run only for a maximum > 0, with time and direction from the same row; the hourly-rain maximum is always computed; nothing else changes |
| DailySummaries.Upsert | Database/daily_aggregation_functions.php:363-422 | the key gets the new summary and updated_at = NOW(); created_at survives an overwrite; other keys are unchanged |
| DailySummaries.SummaryTable.SaveDailySummary | Database/daily_aggregation_functions.php:359-489 | on failure the table is unchanged and an error is raised; otherwise the table is the upsert of the summary |
| DailySummaryProperties.WhereAppend | Database/daily_aggregation_functions.php:51-54 | filtering a concatenation filters each part |
| DailySummaryProperties.OnlyTheStationDayCounts | Database/daily_aggregation_functions.php:51-54 | rows of other stations or days, anywhere in the table, change nothing in the summary |
| DailySummaryProperties.TemperaturesPresent | Database/daily_aggregation_functions.php:54 | there is a temperature value exactly when a row is selected |
| DailySummaryProperties.RoundedAggregatesOrdered | Database/daily_aggregation_functions.php:23-25 | ROUND(MIN) ≤ ROUND(AVG) ≤ ROUND(MAX) |
| DailySummaryProperties.StatisticsOrdered | Database/daily_aggregation_functions.php:20-55 | temperature statistics exist iff a row has a temperature; then min ≤ avg ≤ max; pressure is ordered the same way; humidity min ≤ max |
| DailySummaryProperties.HumidityAverageMayFallBelowMinimum | Database/daily_aggregation_functions.php:28-30 | a single humidity of 50.04 stores average 50.0 below minimum 50.04 |
| DailySummaryProperties.RoundedMaximumMayMatchNoRow | Database/daily_aggregation_functions.php:80-94 | a single temperature of 21.26 stores temp_max 21.3 and no temp_max_time |
| DailySummaryProperties.LookupSeesRowsWithoutTemperature | Database/daily_aggregation_functions.php:175-189 | an earlier row without temperature supplies pressure_sea_max_time |
| DailySummaryProperties.HumidityLookupsFindARow | Database/daily_aggregation_functions.php:127-159 | the unrounded humidity extremes always find their row when the lookups run and do not fail |
| DailySummaryProperties.CompanionTimeIsEarliestMatch | Database/daily_aggregation_functions.php:80-94 | a companion time is the time of the earliest station-day row holding the value; it is null iff the query fails, the value is NULL or no row holds it |
| DailySummaryProperties.HourlyRainMaximum | Database/daily_aggregation_functions.php:319-331 | precipitation_max_1h is the unrounded maximum hourly rain over every station-day row; it is null iff its query fails or no row has hourly rain |
| DailySummaryProperties.SolarRadiationIsScaledTotal | Database/daily_aggregation_functions.php:48 | solar_radiation is ROUND(0.0036·Σ solar_wm2, 1), NULL over no value |
| DailySummaryProperties.SunshineHoursBounds | Database/daily_aggregation_functions.php:49 | sunshine_hours exists iff a row is selected and lies between 0 and the rounded 0.05 h per row |
| DailySummaryProperties.TemperatureLookupFailureIsolated | Database/daily_aggregation_functions.php:96-122 | a failing temperature-time query nulls only its own field |
| DailySummaryProperties.HumidityLookupFailureIsolated | Database/daily_aggregation_functions.php:144-170 | a failing humidity-time query nulls only its own field |
| DailySummaryProperties.PressureLookupFailureIsolated | Database/daily_aggregation_functions.php:191-217 | a failing pressure-time query nulls only its own field |
| DailySummaryProperties.WindLookupFailureIsolated | Database/daily_aggregation_functions.php:241-285 | a failing wind or gust query nulls only its own time and direction |
| DailySummaryProperties.UvAndRainLookupFailureIsolated | Database/daily_aggregation_functions.php:306-341 | a failing UV or hourly-rain query nulls only its own field |
| DailySummaryProperties.CompanionFailureIsolated | Database/daily_aggregation_functions.php:90-341 | any failing companion query nulls its own fields and leaves the rest of the summary as it was |
| DailySummaryProperties.UpsertIdempotent | Database/daily_aggregation_functions.php:391-421 | saving the same summary twice at the same moment equals saving it once |
| DailyAggregation.StrLessIrreflexive | Database/daily_aggregation.php:42 | the string order is irreflexive |
| DailyAggregation.StrLessTransitive | Database/daily_aggregation.php:42 | the string order is transitive |
| DailyAggregation.StrLessTotal | Database/daily_aggregation.php:42 | the string order is total on distinct strings |
| DailyAggregation.PairOrder | Database/daily_aggregation.php:42 | `ORDER BY station_id, observation_date` is a strict total order |
| DailyAggregation.Insert | Database/daily_aggregation.php:33-42 | adding a pair to a sorted list keeps it sorted and adds exactly that pair |
| DailyAggregation.PendingDates | Database/daily_aggregation.php:32-46 | the pending list is sorted by station, then date |
| DailyAggregation.PendingDatesAreThePendingSet | Database/daily_aggregation.php:32-43 | the pending list holds exactly the pairs with an observation before today and no summary row |
| DailyAggregation.SortedDistinct | Database/daily_aggregation.php:33 | a sorted pending list has no duplicates (`DISTINCT`) |
| DailyAggregation.CountSucceeded | Database/daily_aggregation.php:20 | the count of successes never exceeds the number of pairs |
| DailyAggregation.SaveAllKeepsOthers | Database/daily_aggregation.php:61-77 | a key that is not a succeeding pair is left as it was |
| DailyAggregation.SaveAllEffect | Database/daily_aggregation.php:61-77 | each succeeding pair holds its summary, updated now, and created now if it is new |
| DailyAggregation.ProcessPending | Database/daily_aggregation.php:61-77 | the loop counts exactly the pairs where both calculate and save succeed, and leaves the table as `SaveAll` |
| DailyAggregation.RunDailyAggregation | Database/daily_aggregation.php:28-83 | a fatal error exits 1 with nothing changed; otherwise the script exits 0 after processing exactly the pending pairs in order |
| CsvImporter.ValidateCSVHeaders | migration/csv_importer.php:154-164 | Ok iff both Time and the temperature header are present; otherwise the first missing header is reported |
| CsvImporter.Combine | migration/csv_importer.php:170 | `array_combine` succeeds iff the lengths agree, and its keys are the headers |
| CsvImporter.CombineLastWins | migration/csv_importer.php:170 | a header maps to the field under its last occurrence |
| CsvImporter.CsvSafeFloatAgrees | migration/csv_importer.php:273-278 | the importer's safeFloat, '0' case included, agrees with the receiver's on every input |
| CsvImporter.CsvSafeIntAgrees | migration/csv_importer.php:283-288 | the importer's safeInt agrees with the receiver's on every input |
| CsvImporter.ZeroIsNumeric | migration/csv_importer.php:274-275 | '0' is numeric with value 0 |
| CsvImporter.FirstFormatWins | migration/csv_importer.php:257-268 | the parse fails iff every format fails; otherwise the first accepting format decides |
| CsvImporter.ReadsFirstFormat | migration/csv_importer.php:258 | 'Y/n/j G:i:s' reads a one-to-four-digit year, the other fields and a blank run, giving that timestamp when it is valid |
| CsvImporter.ShortYearImported | migration/csv_importer.php:257-268 | the time "1/2/24 0:00:00" is read by the first format as 0001-02-24 00:00:00 |
| CsvImporter.RedundantFormats | migration/csv_importer.php:258 | 'Y/m/d H:i:s' accepts exactly what 'Y/n/j G:i:s' does, and 'm/d/Y H:i:s' exactly what 'n/j/Y G:i:s' does |
| CsvImporter.ConvertRow | migration/csv_importer.php:169-203 | a record exists iff the temperature is in (-50, 80) and the time parses; it carries both, and rain_rate_mmh is NULL |
| CsvImporter.MissingTemperatureAccepted | migration/csv_importer.php:173-177 | a missing temperature reads as 0 and the line is kept iff its time parses |
| CsvImporter.RaggedLineSkipped | migration/csv_importer.php:170 | a line with a different field count from the header is skipped |
| CsvImporter.NoTimeFromEmpty | migration/csv_importer.php:180-185 | no format reads a time from the empty string |
| CsvImporter.Accepted | migration/csv_importer.php:58-75 | the accepted records are at most one per data line |
| CsvImporter.AcceptedSnoc | migration/csv_importer.php:65-68 | one more data line appends its record, if any, at the end |
| CsvImporter.Upserted | migration/csv_importer.php:209-221 | an existing key keeps the table size; a new key adds one row |
| CsvImporter.DuplicateKeyUpdate | migration/csv_importer.php:216-220 | on a duplicate only temp_c, humidity, pressure_hpa and created_at change, and only in rows of that key; a new key appends one row with the unlisted columns NULL |
| CsvImporter.UpsertKeepsKeysUnique | migration/csv_importer.php:209-220 | the statement keeps the key unique, and afterwards the key has a row |
| CsvImporter.UpsertIdempotent | migration/csv_importer.php:209-220 | executing the statement twice with one record at one time equals executing it once |
| CsvImporter.ImportedCount | migration/csv_importer.php:244 | the imported count never exceeds the batch |
| CsvImporter.SaveRecordsAppend | migration/csv_importer.php:71-93 | saving in two batches equals saving the records one after another, with counts adding up |
| CsvImporter.SaveRecordsKeepKeysUnique | migration/csv_importer.php:225-250 | a batch save keeps the table's keys unique |
| CsvImporter.FlattenSnoc | migration/csv_importer.php:71-73 | one more flushed batch appends its records |
| CsvImporter.CSVWeatherImporter.constructor | migration/csv_importer.php:18-21 | counters start at zero, with the given batch size |
| CsvImporter.CSVWeatherImporter.ProcessCSVRow | migration/csv_importer.php:169-203 | returns `ConvertRow` and counts one skip exactly when the line is rejected |
| CsvImporter.CSVWeatherImporter.SaveBatch | migration/csv_importer.php:208-252 | runs the statement for each record in order; each record counts exactly once, as imported or as skipped |
| CsvImporter.CSVWeatherImporter.BufferRecord | migration/csv_importer.php:67-75 | appends the record; the buffer is saved as one flush exactly when it reaches batchSize (every flush holds exactly max(batchSize, 1) records), otherwise it is kept; the counters and the table follow the flushed records |
| CsvImporter.CSVWeatherImporter.ImportLine | migration/csv_importer.php:61-81 | one data line is counted as processed, converted and buffered; the flushes and the buffer stay the accepted records so far, every flush full (max(batchSize, 1) records) and the buffer below that |
| CsvImporter.CSVWeatherImporter.ImportLines | migration/csv_importer.php:58-88 | the flushed batches plus the buffer are the accepted records in file order; every flush holds exactly max(batchSize, 1) records and the remaining buffer fewer; the counters and the table follow them |
| CsvImporter.CSVWeatherImporter.ImportFromCSV | migration/csv_importer.php:26-117 | a missing header raises before any line is read; otherwise every accepted record reaches the table exactly once, in file order, in flushes of exactly max(batchSize, 1) records except the last, which holds the non-empty remainder; processed and imported + skipped each grow by the number of lines, and the report is `getStatistics()` |

## Left out

- The HTTP endpoints, `RequestUtils` and `ResponseUtils` (in `Apache/weather/utils.php`), the configuration files, and the logger (including the warnings `safeFloat`/`safeInt` log) are not part of this model. They are routing, superglobals and file output. The warning condition itself is the predicate `DataConverter.ConversionWarns`.
- `WeatherStation::getActiveStations`, `WeatherStation::getById`, `WeatherObservation::getStatistics` and `checkDatabaseHealth` are not part of this model. They are unfiltered listings and health checks outside the core.
- SHA-256 is an uninterpreted function parameter; its collision behaviour is not modelled.
- `DateTime::createFromFormat` is modelled as a token reader over the format letters the code uses. Each number is read greedily up to its width: 1–4 digits for `Y`, 1–2 for `m`, `n`, `d`, `j`, `G`, `H`, and exactly 2 for `i`, `s`. A space in the format skips any run of spaces and tabs, including none. It leaves out PHP's leniency about out-of-range fields, which PHP rolls into the next unit and the model rejects, and the `!`/`|` reset rules.
- DateTimes.Compile: newer PHP releases also let a format space skip the no-break spaces U+00A0 and U+202F; the model skips only spaces and tabs.
- IEEE double behaviour and MySQL DECIMAL storage are left out. Numbers are exact reals, so an expression such as `(F-32)*5/9` has no representation error, and a number beyond the double range does not become INF (whose `(int)` is 0 in PHP); the model wraps its exact value instead. The 64-bit wrap of `(int)` itself is modelled (`Numeric.ToInt64`).
- PDO values arrive as strings, so `if ($stats['humidity_max'])` on a DECIMAL string such as "0.0" is truthy in PHP. The model applies the guard to the numeric value.
- Transactions are one atomic state update. Locking, concurrent writers and partial commits are not modelled.
- PDO's named-parameter arity check is not modelled. The `saveObservation` insert binds only the keys the reading holds; the model treats every absent column as NULL.
- A `Text` value bound to a numeric column is stored as NULL. MySQL's strict-mode errors and implicit casts are left out.
- The strict MySQL DATETIME check is not modelled. A `time_utc` that does not parse makes the insert fail as a database error.
- String collation: `StrLess` compares characters by code point, not by the database collation.
- The `id` and `created_at` columns of `weather_observation` are simplified. `created_at` is the save's clock; `id` is not modelled.
- `getDataByPeriod` with a negative `LIMIT` is not modelled: `limit` is a natural number.
- Models.FindByPasskey: the SELECT has no `ORDER BY`, so the row MySQL returns among several matches is unspecified. The model returns the first match in table order.
- Models.GetDataByPeriod: its own contract states only the row count. The rows' contents and order are stated separately by `Models.PeriodResultRow`, `Models.PeriodResultRows`, `Models.PeriodRows` and `Models.PeriodKeepsNewest`.
- PhpText.Prefix: PHP's `substr` counts bytes, but the model's strings are sequences of characters. For ASCII text the two agree. A `model` or `stationtype` with non-ASCII characters and more than 64 bytes is cut at 64 characters here, whereas PHP cuts at 64 bytes and can split a UTF-8 sequence. Byte encoding is not part of this model.
- The calculate and the save of one aggregation pair share one clock `now`. Every `NOW()` in a run is that one timestamp.
- The aggregation script's echo output, timing and `exit` are reduced to `RunDailyAggregation`'s exit code and counter.
- `CSVWeatherImporter::ensureStationExists` is not part of this model. Neither is the file handling of `importFromCSV`: the existence check, `fopen`/`fclose`, reading with `fgetcsv` (the file is given as its header and its lines, already split), the progress echo and the duration.
- `array_combine` on a line with a different field count is modelled as PHP 7 does it (false, so every field is null). PHP 8 raises a `ValueError`, which is not caught by `catch (Exception $e)`; that path is left out.
- A database refusal of a record inside `saveBatch` is the predicate `rejects`. A refused record counts as skipped. A failure of `prepare()` itself, which would escape `saveBatch` and be caught per line by the loop, is not modelled.
- The per-line `catch` in `importFromCSV` is not modelled. `processCSVRow` throws only through the PHP 8 `array_combine` error above.
