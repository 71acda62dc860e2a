/**
 * DataConverter: unit conversions to SI, the timestamp parser with its
 * fall-back to the current time, and the tolerant number conversions.
 */
module DataConverter {
  import opened Common
  import opened Numeric
  import opened PhpText
  import opened DateTimes

  /** fahrenheitToCelsius; the inverse c * 9/5 + 32 recovers the input. */
  function FahrenheitToCelsius(fahrenheit: real): (celsius: real)
    ensures celsius * 9.0 / 5.0 + 32.0 == fahrenheit
  {
    (fahrenheit - 32.0) * 5.0 / 9.0
  }

  /** mphToMs: 1 mph is 0.44704 m/s exactly; the sign is kept. */
  function MphToMs(mph: real): (ms: real)
    ensures ms / 0.44704 == mph
    ensures ms >= 0.0 <==> mph >= 0.0
  {
    mph * 0.44704
  }

  /** inHgToHpa with the code's factor 33.8638866667; the sign is kept. */
  function InHgToHpa(inHg: real): (hpa: real)
    ensures hpa / 33.8638866667 == inHg
    ensures hpa >= 0.0 <==> inHg >= 0.0
  {
    inHg * 33.8638866667
  }

  /** inchToMm: 1 inch is 25.4 mm; the sign is kept. */
  function InchToMm(inch: real): (mm: real)
    ensures mm / 25.4 == inch
    ensures mm >= 0.0 <==> inch >= 0.0
  {
    inch * 25.4
  }

  /** True when strtolower(trim($dateStr)) is "now". */
  predicate MeansNow(dateStr: string) {
    ToLower(Trim(dateStr)) == "now"
  }

  /**
   * parseDateTime: "now" (any case, surrounding blanks) is the clock; any
   * other string is read with the format Y-m-d H:i:s, and a string that
   * does not parse falls back to the clock.
   */
  function ParseDateTime(dateStr: string, now: Timestamp): (dt: Timestamp)
    ensures dt == now || CreateFromFormat(YmdHis, dateStr) == Some(dt)
    ensures MeansNow(dateStr) || CreateFromFormat(YmdHis, dateStr).None? ==> dt == now
    ensures !MeansNow(dateStr) && CreateFromFormat(YmdHis, dateStr).Some? ==> dt == CreateFromFormat(YmdHis, dateStr).value
  {
    if MeansNow(dateStr) then now
    else
      match CreateFromFormat(YmdHis, dateStr)
      case None => now
      case Some(parsed) => parsed
  }

  /** A string that starts with a digit never reads as "now". */
  lemma DigitFirstNotNow(s: string)
    requires s != [] && IsDigit(s[0])
    ensures !MeansNow(s)
  {
    assert TrimLeft(s) == s;
    var t := Trim(s);
    if |t| == 3 {
      assert t[0] == s[0];
      assert ToLower(t)[0] == LowerChar(s[0]) == s[0];
    }
  }

  /** A timestamp rendered as Y-m-d H:i:s parses back to itself, whatever the clock says. */
  lemma ParseDateTimeFormatted(dt: Timestamp, now: Timestamp)
    ensures ParseDateTime(FormatYmdHis(dt), now) == dt
  {
    var s := FormatYmdHis(dt);
    assert s[0] == Pad4(dt.date.year)[0];
    DigitFirstNotNow(s);
    ParseFormatted(dt);
  }

  /** A warning is logged exactly for a present, non-empty, non-numeric value. */
  predicate ConversionWarns(value: Option<string>) {
    value.Some? && value.value != "" && !IsNumeric(value.value)
  }

  /**
   * safeFloat: null and '' give the default, a numeric string its value,
   * anything else the default (with a warning, see ConversionWarns).
   */
  function SafeFloat(value: Option<string>, default: Option<real>): (r: Option<real>)
    ensures value.None? || value == Some("") ==> r == default
    ensures value.Some? && IsNumeric(value.value) ==> r == ParseNumeric(value.value)
    ensures r != default ==> value.Some? && IsNumeric(value.value)
  {
    if value.None? || value.value == "" then default
    else if IsNumeric(value.value) then Some(ParseNumeric(value.value).value)
    else default
  }

  /**
   * safeInt: as safeFloat, with the number rounded to the nearest integer,
   * halves away from zero, then cast to a 64-bit integer, which wraps a
   * number outside [-2^63, 2^63).
   */
  function SafeInt(value: Option<string>, default: Option<int>): (r: Option<int>)
    ensures value.None? || value == Some("") ==> r == default
    ensures value.Some? && IsNumeric(value.value) ==>
      r.Some? && -Int64Bound <= r.value < Int64Bound &&
      (RoundHalfAway(ParseNumeric(value.value).value) - r.value) % (2 * Int64Bound) == 0
    ensures value.Some? && IsNumeric(value.value) && -Int64Bound <= RoundHalfAway(ParseNumeric(value.value).value) < Int64Bound ==>
      r.Some? && -0.5 <= r.value as real - ParseNumeric(value.value).value <= 0.5
    ensures r != default ==> value.Some? && IsNumeric(value.value)
  {
    if value.None? || value.value == "" then default
    else if IsNumeric(value.value) then Some(ToInt64(RoundHalfAway(ParseNumeric(value.value).value)))
    else default
  }

  /** With a null default, a present string converts to its numeric value, or to null when it has none. */
  lemma SafeConversionsOfString(s: string)
    ensures SafeFloat(Some(s), None) == ParseNumeric(s)
    ensures SafeInt(Some(s), None) == if IsNumeric(s) then Some(ToInt64(RoundHalfAway(ParseNumeric(s).value))) else None
  {
  }
}
