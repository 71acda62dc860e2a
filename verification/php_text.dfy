/**
 * The PHP string primitives the ingestion code leans on: strtolower, trim,
 * substr, is_numeric, the (float) cast and floatval. Strings are sequences
 * of characters; PHP's byte semantics coincide with these for ASCII text.
 */
module PhpText {
  import opened Common
  import opened Numeric

  /** strtolower: ASCII upper-case letters become lower-case, everything else is kept. */
  function LowerChar(c: char): char {
    if 'A' <= c <= 'Z' then (c as int - 'A' as int + 'a' as int) as char else c
  }

  function ToLower(s: string): (r: string)
    ensures |r| == |s|
    ensures forall i :: 0 <= i < |s| ==> r[i] == LowerChar(s[i])
  {
    seq(|s|, i requires 0 <= i < |s| => LowerChar(s[i]))
  }

  /** Lower-casing a lower-cased string changes nothing. */
  lemma ToLowerIdempotent(s: string)
    ensures ToLower(ToLower(s)) == ToLower(s)
  {
    assert forall i :: 0 <= i < |s| ==> LowerChar(LowerChar(s[i])) == LowerChar(s[i]);
  }

  /** The characters trim() removes by default: " \t\n\r\0\x0B". */
  predicate IsTrimmable(c: char) {
    c == ' ' || c == '\t' || c == '\n' || c == '\r' || c == '\0' || c == '\U{B}'
  }

  function TrimLeft(s: string): (r: string)
    ensures |r| <= |s| && r == s[|s| - |r|..]
    ensures r != [] ==> !IsTrimmable(r[0])
    ensures forall i :: 0 <= i < |s| - |r| ==> IsTrimmable(s[i])
  {
    if s != [] && IsTrimmable(s[0]) then TrimLeft(s[1..]) else s
  }

  function TrimRight(s: string): (r: string)
    ensures |r| <= |s| && r == s[..|r|]
    ensures r != [] ==> !IsTrimmable(r[|r| - 1])
    ensures forall i :: |r| <= i < |s| ==> IsTrimmable(s[i])
  {
    if s != [] && IsTrimmable(s[|s| - 1]) then TrimRight(s[..|s| - 1]) else s
  }

  function Trim(s: string): string {
    TrimRight(TrimLeft(s))
  }

  /** substr($s, 0, $n) for n >= 0: the first n characters, or all of s when it is shorter. */
  function Prefix(s: string, n: nat): (r: string)
    ensures |r| == Min(n, |s|)
    ensures r == s[..|r|]
  {
    if |s| <= n then s else s[..n]
  }

  // ---- numeric strings ----

  predicate IsDigit(c: char) {
    '0' <= c <= '9'
  }

  predicate AllDigits(s: string) {
    forall i :: 0 <= i < |s| ==> IsDigit(s[i])
  }

  /** The number of leading decimal digits of s. */
  function DigitRun(s: string): (n: nat)
    ensures n <= |s|
    ensures AllDigits(s[..n])
    ensures n < |s| ==> !IsDigit(s[n])
  {
    if s != [] && IsDigit(s[0]) then 1 + DigitRun(s[1..]) else 0
  }

  /** The value of a string of decimal digits; the empty string is 0. */
  function DigitsValue(s: string): (v: nat)
    requires AllDigits(s)
    ensures v < Pow10(|s|)
  {
    if s == [] then 0 else 10 * DigitsValue(s[..|s| - 1]) + (s[|s| - 1] as int - '0' as int)
  }

  /** The whitespace is_numeric accepts around a number: " \t\n\r\v\f". */
  predicate IsNumericSpace(c: char) {
    c == ' ' || c == '\t' || c == '\n' || c == '\r' || c == '\U{B}' || c == '\U{C}'
  }

  function SkipSpace(s: string): (r: string)
    ensures |r| <= |s| && r == s[|s| - |r|..]
    ensures r != [] ==> !IsNumericSpace(r[0])
    ensures forall i :: 0 <= i < |s| - |r| ==> IsNumericSpace(s[i])
  {
    if s != [] && IsNumericSpace(s[0]) then SkipSpace(s[1..]) else s
  }

  predicate AllSpace(s: string) {
    forall i :: 0 <= i < |s| ==> IsNumericSpace(s[i])
  }

  /** 10^e for any whole exponent, as a real. */
  function PowerOfTen(e: int): (r: real)
    ensures r > 0.0
  {
    if e >= 0 then Pow10(e) as real else 1.0 / Pow10(-e) as real
  }

  /** An optional exponent part [eE][+-]?D+ at the start of s, as (exponent, length); (0, 0) when there is none. */
  function ExponentPrefix(s: string): (r: (int, nat))
    ensures r.1 <= |s|
  {
    if s != [] && (s[0] == 'e' || s[0] == 'E') then
      var signLen := if |s| > 1 && (s[1] == '+' || s[1] == '-') then 1 else 0;
      var digits := DigitRun(s[1 + signLen..]);
      if digits == 0 then (0, 0)
      else
        var magnitude: int := DigitsValue(s[1 + signLen..][..digits]);
        (if signLen == 1 && s[1] == '-' then -magnitude else magnitude, 1 + signLen + digits)
    else (0, 0)
  }

  /**
   * The longest prefix of s shaped like a PHP decimal number,
   * [+-]? (D+ ('.' D*)? | '.' D+) ([eE][+-]?D+)?, as (value, length).
   */
  function NumberPrefix(s: string): (r: Option<(real, nat)>)
    ensures r.Some? ==> 0 < r.value.1 <= |s|
  {
    var signLen := if s != [] && (s[0] == '+' || s[0] == '-') then 1 else 0;
    var body := s[signLen..];
    var intLen := DigitRun(body);
    var hasDot := intLen < |body| && body[intLen] == '.';
    var fraction := if hasDot then body[intLen + 1..][..DigitRun(body[intLen + 1..])] else [];
    if intLen == 0 && |fraction| == 0 then None
    else
      var mantissaLen := if hasDot then intLen + 1 + |fraction| else intLen;
      var mantissa := DigitsValue(body[..intLen]) as real + DigitsValue(fraction) as real / Pow10(|fraction|) as real;
      var exponent := ExponentPrefix(body[mantissaLen..]);
      var magnitude := mantissa * PowerOfTen(exponent.0);
      Some((if signLen == 1 && s[0] == '-' then -magnitude else magnitude, signLen + mantissaLen + exponent.1))
  }

  /**
   * is_numeric($s) together with the value (float)$s then has: optional
   * leading and trailing whitespace around one decimal number.
   */
  function ParseNumeric(s: string): (r: Option<real>)
    ensures r.Some? ==> NumberPrefix(SkipSpace(s)).Some? && r.value == NumberPrefix(SkipSpace(s)).value.0
    ensures r.Some? <==>
      NumberPrefix(SkipSpace(s)).Some? && AllSpace(SkipSpace(s)[NumberPrefix(SkipSpace(s)).value.1..])
  {
    var t := SkipSpace(s);
    match NumberPrefix(t)
    case None => None
    case Some(p) => if AllSpace(t[p.1..]) then Some(p.0) else None
  }

  predicate IsNumeric(s: string) {
    ParseNumeric(s).Some?
  }

  /** floatval($s): the value of the leading number after whitespace, 0 when there is none. */
  function FloatVal(s: string): (r: real)
    ensures IsNumeric(s) ==> r == ParseNumeric(s).value
  {
    match NumberPrefix(SkipSpace(s))
    case None => 0.0
    case Some(p) => p.0
  }
}
