/**
 * DataValidator: the range checks the normaliser applies before it keeps
 * a value. Each check accepts a missing value (null).
 */
module DataValidator {
  import opened Common
  import opened Numeric

  predicate ValidateTemperature(tempC: Option<real>) {
    tempC.None? || -40.0 <= tempC.value <= 60.0
  }

  predicate ValidateHumidity(humidity: Option<real>) {
    humidity.None? || 0.0 <= humidity.value <= 100.0
  }

  predicate ValidatePressure(pressureHpa: Option<real>) {
    pressureHpa.None? || 870.0 <= pressureHpa.value <= 1080.0
  }

  predicate ValidateWindDirection(windDir: Option<int>) {
    windDir.None? || 0 <= windDir.value <= 360
  }

  predicate ValidatePositive(value: Option<real>) {
    value.None? || value.value >= 0.0
  }

  predicate ValidateUVIndex(uv: Option<real>) {
    uv.None? || 0.0 <= uv.value <= 15.0
  }

  /**
   * Every bound is a whole number, so a value that passes a check still
   * passes it after rounding to two decimals: what is stored is in range.
   */
  lemma ValidationSurvivesRounding(x: real)
    ensures ValidateTemperature(Some(x)) ==> ValidateTemperature(Some(RoundTo(x, 2)))
    ensures ValidateHumidity(Some(x)) ==> ValidateHumidity(Some(RoundTo(x, 2)))
    ensures ValidatePressure(Some(x)) ==> ValidatePressure(Some(RoundTo(x, 2)))
    ensures ValidatePositive(Some(x)) ==> ValidatePositive(Some(RoundTo(x, 2)))
    ensures ValidateUVIndex(Some(x)) ==> ValidateUVIndex(Some(RoundTo(x, 2)))
  {
    if -40.0 <= x <= 60.0 { RoundToWithin(x, -40, 60, 2); }
    if 0.0 <= x <= 100.0 { RoundToWithin(x, 0, 100, 2); }
    if 870.0 <= x <= 1080.0 { RoundToWithin(x, 870, 1080, 2); }
    if x >= 0.0 { RoundToNonNegative(x, 2); }
    if 0.0 <= x <= 15.0 { RoundToWithin(x, 0, 15, 2); }
  }
}
