/**
 * Calendar timestamps as MySQL DATETIME holds them, the "Y-m-d H:i:s"
 * rendering PHP's DateTime::format produces, and the part of
 * DateTime::createFromFormat the code uses (numeric fields and literal
 * separators, no roll-over of out-of-range fields).
 */
module DateTimes {
  import opened Common
  import opened PhpText

  datatype Date = Date(year: int, month: int, day: int)
  datatype TimeOfDay = TimeOfDay(hour: int, minute: int, second: int)
  /** A second-precision timestamp; DATE(t) is t.date and TIME(t) is t.time. */
  datatype DateTime = DateTime(date: Date, time: TimeOfDay)

  predicate IsLeapYear(y: int) {
    y % 4 == 0 && (y % 100 != 0 || y % 400 == 0)
  }

  function DaysInMonth(y: int, m: int): int
    requires 1 <= m <= 12
  {
    if m == 2 then (if IsLeapYear(y) then 29 else 28)
    else if m == 4 || m == 6 || m == 9 || m == 11 then 30
    else 31
  }

  /** Years of at most four digits, as DATETIME and the "Y" format field hold them. */
  predicate ValidDate(d: Date) {
    0 <= d.year <= 9999 && 1 <= d.month <= 12 && 1 <= d.day <= DaysInMonth(d.year, d.month)
  }

  predicate ValidTime(t: TimeOfDay) {
    0 <= t.hour <= 23 && 0 <= t.minute <= 59 && 0 <= t.second <= 59
  }

  predicate ValidDateTime(dt: DateTime) {
    ValidDate(dt.date) && ValidTime(dt.time)
  }

  /** A timestamp a DATETIME column can hold. */
  type Timestamp = dt: DateTime | ValidDateTime(dt) witness DateTime(Date(1970, 1, 1), TimeOfDay(0, 0, 0))

  // ---- chronological order ----

  predicate DateBefore(a: Date, b: Date) {
    a.year < b.year || (a.year == b.year && (a.month < b.month || (a.month == b.month && a.day < b.day)))
  }

  predicate TimeBefore(a: TimeOfDay, b: TimeOfDay) {
    a.hour < b.hour || (a.hour == b.hour && (a.minute < b.minute || (a.minute == b.minute && a.second < b.second)))
  }

  /** Strictly earlier: the order of ORDER BY time_utc. */
  predicate Before(a: DateTime, b: DateTime) {
    DateBefore(a.date, b.date) || (a.date == b.date && TimeBefore(a.time, b.time))
  }

  predicate NotAfter(a: DateTime, b: DateTime) {
    !Before(b, a)
  }

  /** Before is a strict total order on timestamps. */
  lemma BeforeStrictTotal(a: DateTime, b: DateTime, c: DateTime)
    ensures !Before(a, a)
    ensures Before(a, b) ==> !Before(b, a)
    ensures Before(a, b) && Before(b, c) ==> Before(a, c)
    ensures a == b || Before(a, b) || Before(b, a)
  {
  }

  // ---- DateTime::format('Y-m-d H:i:s') ----

  function DigitChar(d: int): (c: char)
    requires 0 <= d <= 9
    ensures IsDigit(c) && c as int - '0' as int == d
  {
    ('0' as int + d) as char
  }

  /** A number as exactly two digits, zero-padded. */
  function Pad2(n: int): (s: string)
    requires 0 <= n <= 99
    ensures |s| == 2 && AllDigits(s) && DigitsValue(s) == n
  {
    var s := [DigitChar(n / 10), DigitChar(n % 10)];
    assert s[..1] == [s[0]] && s[..1][..0] == [];
    s
  }

  /** A number as exactly four digits, zero-padded. */
  function Pad4(n: int): (s: string)
    requires 0 <= n <= 9999
    ensures |s| == 4 && AllDigits(s) && DigitsValue(s) == n
  {
    var s := Pad2(n / 100) + Pad2(n % 100);
    assert s[..3] == Pad2(n / 100) + [s[2]];
    assert s[..3][..2] == Pad2(n / 100);
    s
  }

  function FormatYmdHis(dt: Timestamp): (s: string)
    ensures |s| == 19
  {
    Pad4(dt.date.year) + "-" + Pad2(dt.date.month) + "-" + Pad2(dt.date.day) + " " +
    Pad2(dt.time.hour) + ":" + Pad2(dt.time.minute) + ":" + Pad2(dt.time.second)
  }

  // ---- DateTime::createFromFormat ----

  datatype Slot = YearSlot | MonthSlot | DaySlot | HourSlot | MinuteSlot | SecondSlot

  /**
   * One element of a compiled format: a literal character, a number of
   * minWidth..maxWidth digits, or a run of blanks (possibly empty).
   */
  datatype Token = Lit(c: char) | Num(slot: Slot, minWidth: nat, maxWidth: nat) | Blanks

  /** The characters a space in a format skips: spaces and tabs. */
  predicate IsBlank(c: char) {
    c == ' ' || c == '\t'
  }

  predicate AllBlanks(b: string) {
    forall i :: 0 <= i < |b| ==> IsBlank(b[i])
  }

  /** The length of the run of blanks s starts with. */
  function BlankRun(s: string): (n: nat)
    ensures n <= |s|
    ensures AllBlanks(s[..n])
    ensures n < |s| ==> !IsBlank(s[n])
  {
    if s != [] && IsBlank(s[0]) then 1 + BlankRun(s[1..]) else 0
  }

  /**
   * How createFromFormat reads each format character: "Y" one to four
   * digits; "m"/"n", "d"/"j" and "H"/"G" one or two digits ("with or
   * without leading zeros"); "i" and "s" exactly two; a space any run of
   * spaces and tabs, none included. Any other character must appear literally.
   */
  function Letter(c: char): Token {
    match c
    case 'Y' => Num(YearSlot, 1, 4)
    case ' ' => Blanks
    case 'm' => Num(MonthSlot, 1, 2)
    case 'n' => Num(MonthSlot, 1, 2)
    case 'd' => Num(DaySlot, 1, 2)
    case 'j' => Num(DaySlot, 1, 2)
    case 'H' => Num(HourSlot, 1, 2)
    case 'G' => Num(HourSlot, 1, 2)
    case 'i' => Num(MinuteSlot, 2, 2)
    case 's' => Num(SecondSlot, 2, 2)
    case _ => Lit(c)
  }

  function Compile(format: string): (tokens: seq<Token>)
    ensures |tokens| == |format|
    ensures forall i :: 0 <= i < |format| ==> tokens[i] == Letter(format[i])
  {
    seq(|format|, i requires 0 <= i < |format| => Letter(format[i]))
  }

  /** Reads s against the tokens left to right, each number greedily; any unread rest fails the parse. */
  function Scan(tokens: seq<Token>, s: string, fields: map<Slot, int>): Option<map<Slot, int>>
    decreases |tokens|
  {
    if tokens == [] then (if s == [] then Some(fields) else None)
    else
      match tokens[0]
      case Lit(c) =>
        if s != [] && s[0] == c then Scan(tokens[1..], s[1..], fields) else None
      case Num(slot, lo, hi) =>
        var n := Min(DigitRun(s), hi);
        if n < lo then None
        else Scan(tokens[1..], s[n..], fields[slot := DigitsValue(s[..n])])
      case Blanks =>
        Scan(tokens[1..], s[BlankRun(s)..], fields)
  }

  /** DateTime::createFromFormat($format, $s), None standing for false. */
  function CreateFromFormat(format: string, s: string): Option<Timestamp> {
    match Scan(Compile(format), s, map[])
    case None => None
    case Some(f) =>
      if YearSlot in f && MonthSlot in f && DaySlot in f && HourSlot in f && MinuteSlot in f && SecondSlot in f then
        var dt := DateTime(Date(f[YearSlot], f[MonthSlot], f[DaySlot]), TimeOfDay(f[HourSlot], f[MinuteSlot], f[SecondSlot]));
        if ValidDateTime(dt) then Some(dt) else None
      else None
  }

  const YmdHis := "Y-m-d H:i:s"

  // ---- the round trip ----

  lemma {:induction false} DigitRunOfDigits(p: string, rest: string)
    requires AllDigits(p)
    ensures DigitRun(p + rest) == |p| + DigitRun(rest)
  {
    if p != [] {
      assert (p + rest)[0] == p[0];
      assert (p + rest)[1..] == p[1..] + rest;
      DigitRunOfDigits(p[1..], rest);
    } else {
      assert p + rest == rest;
    }
  }

  /** A number token reads all of p when p fills its width or no further digit follows. */
  lemma ScanNumber(tokens: seq<Token>, p: string, rest: string, fields: map<Slot, int>)
    requires tokens != [] && tokens[0].Num?
    requires tokens[0].minWidth <= |p| <= tokens[0].maxWidth
    requires AllDigits(p)
    requires |p| == tokens[0].maxWidth || rest == [] || !IsDigit(rest[0])
    ensures Scan(tokens, p + rest, fields) == Scan(tokens[1..], rest, fields[tokens[0].slot := DigitsValue(p)])
  {
    DigitRunOfDigits(p, rest);
    assert (p + rest)[..|p|] == p;
    assert (p + rest)[|p|..] == rest;
  }

  lemma ScanLiteral(tokens: seq<Token>, c: char, rest: string, fields: map<Slot, int>)
    requires tokens != [] && tokens[0] == Lit(c)
    ensures Scan(tokens, [c] + rest, fields) == Scan(tokens[1..], rest, fields)
  {
    assert ([c] + rest)[1..] == rest;
  }

  lemma {:induction false} BlankRunOfBlanks(b: string, rest: string)
    requires AllBlanks(b)
    requires rest == [] || !IsBlank(rest[0])
    ensures BlankRun(b + rest) == |b|
  {
    if b != [] {
      assert (b + rest)[1..] == b[1..] + rest;
      BlankRunOfBlanks(b[1..], rest);
    }
  }

  /** A blanks token reads the whole run b, empty or not. */
  lemma ScanBlanks(tokens: seq<Token>, b: string, rest: string, fields: map<Slot, int>)
    requires tokens != [] && tokens[0] == Blanks
    requires AllBlanks(b)
    requires rest == [] || !IsBlank(rest[0])
    ensures Scan(tokens, b + rest, fields) == Scan(tokens[1..], rest, fields)
  {
    BlankRunOfBlanks(b, rest);
    assert (b + rest)[|b|..] == rest;
  }

  /** The tokens of a format "Y", sep, "m", sep, "d H:i:s", or the same with the unpadded letters n, j and G. */
  function DateTimeTokens(sep: char): seq<Token> {
    [Num(YearSlot, 1, 4), Lit(sep), Num(MonthSlot, 1, 2), Lit(sep), Num(DaySlot, 1, 2), Blanks,
     Num(HourSlot, 1, 2), Lit(':'), Num(MinuteSlot, 2, 2), Lit(':'), Num(SecondSlot, 2, 2)]
  }

  lemma CompileYmdHis()
    ensures Compile(YmdHis) == DateTimeTokens('-')
  {
  }

  /** Text of the shape those tokens read: digit fields y, mo, d, h, mi, se and the blank run b, nested to the right. */
  function DateTimeText(sep: char, y: string, mo: string, d: string, b: string, h: string, mi: string, se: string): string {
    y + ([sep] + (mo + ([sep] + (d + (b + (h + ([':'] + (mi + ([':'] + se)))))))))
  }

  /** A number followed by a literal separator that is not a digit. */
  lemma ScanNumberThenLiteral(tokens: seq<Token>, p: string, c: char, rest: string, fields: map<Slot, int>)
    requires |tokens| >= 2 && tokens[0].Num? && tokens[1] == Lit(c) && !IsDigit(c)
    requires tokens[0].minWidth <= |p| <= tokens[0].maxWidth
    requires AllDigits(p)
    ensures Scan(tokens, p + ([c] + rest), fields) == Scan(tokens[2..], rest, fields[tokens[0].slot := DigitsValue(p)])
  {
    ScanNumber(tokens, p, [c] + rest, fields);
    ScanLiteral(tokens[1..], c, rest, fields[tokens[0].slot := DigitsValue(p)]);
    assert tokens[1..][1..] == tokens[2..];
  }

  /** The date half of the text fills year, month and day. */
  lemma ScanDatePart(t: seq<Token>, sep: char, y: string, mo: string, d: string, rest: string)
    requires |t| >= 5 && t[0] == Num(YearSlot, 1, 4) && t[1] == Lit(sep) && t[2] == Num(MonthSlot, 1, 2)
    requires t[3] == Lit(sep) && t[4] == Num(DaySlot, 1, 2)
    requires AllDigits(y) && 1 <= |y| <= 4
    requires AllDigits(mo) && 1 <= |mo| <= 2
    requires AllDigits(d) && 1 <= |d| <= 2
    requires |d| == 2 || rest == [] || !IsDigit(rest[0])
    requires !IsDigit(sep)
    ensures Scan(t, y + ([sep] + (mo + ([sep] + (d + rest)))), map[]) ==
      Scan(t[5..], rest, map[YearSlot := DigitsValue(y), MonthSlot := DigitsValue(mo), DaySlot := DigitsValue(d)])
  {
    var f0: map<Slot, int> := map[];
    var f1 := f0[YearSlot := DigitsValue(y)];
    var f2 := f1[MonthSlot := DigitsValue(mo)];
    ScanNumberThenLiteral(t, y, sep, mo + ([sep] + (d + rest)), f0);
    ScanNumberThenLiteral(t[2..], mo, sep, d + rest, f1);
    assert t[2..][2..] == t[4..];
    ScanNumber(t[4..], d, rest, f2);
    assert t[4..][1..] == t[5..];
  }

  /** The time half of the text fills hour, minute and second and ends the scan. */
  lemma ScanTimePart(t: seq<Token>, b: string, h: string, mi: string, se: string, fields: map<Slot, int>)
    requires t == [Blanks, Num(HourSlot, 1, 2), Lit(':'), Num(MinuteSlot, 2, 2), Lit(':'), Num(SecondSlot, 2, 2)]
    requires AllBlanks(b)
    requires AllDigits(h) && 1 <= |h| <= 2
    requires AllDigits(mi) && |mi| == 2
    requires AllDigits(se) && |se| == 2
    ensures Scan(t, b + (h + ([':'] + (mi + ([':'] + se)))), fields) ==
      Some(fields[HourSlot := DigitsValue(h)][MinuteSlot := DigitsValue(mi)][SecondSlot := DigitsValue(se)])
  {
    var s1 := h + ([':'] + (mi + ([':'] + se)));
    var f1 := fields[HourSlot := DigitsValue(h)];
    var f2 := f1[MinuteSlot := DigitsValue(mi)];
    assert IsDigit(s1[0]);
    ScanBlanks(t, b, s1, fields);
    ScanNumberThenLiteral(t[1..], h, ':', mi + ([':'] + se), fields);
    assert t[1..][2..] == t[3..];
    ScanNumberThenLiteral(t[3..], mi, ':', se, f1);
    assert t[3..][2..] == t[5..];
    assert se == se + [];
    ScanNumber(t[5..], se, [], f2);
    assert t[5..][1..] == [];
  }

  /**
   * The tokens read a year of one to four digits, month, day and hour of
   * one or two, minute and second of two, and any run of blanks between
   * date and time, filling every field.
   */
  lemma ReadsDateTime(sep: char, y: string, mo: string, d: string, b: string, h: string, mi: string, se: string)
    requires !IsDigit(sep)
    requires AllDigits(y) && 1 <= |y| <= 4
    requires AllDigits(mo) && 1 <= |mo| <= 2
    requires AllDigits(d) && 1 <= |d| <= 2
    requires AllBlanks(b) && (b != [] || |d| == 2)
    requires AllDigits(h) && 1 <= |h| <= 2
    requires AllDigits(mi) && |mi| == 2
    requires AllDigits(se) && |se| == 2
    ensures Scan(DateTimeTokens(sep), DateTimeText(sep, y, mo, d, b, h, mi, se), map[]) ==
      Some(map[YearSlot := DigitsValue(y), MonthSlot := DigitsValue(mo), DaySlot := DigitsValue(d),
               HourSlot := DigitsValue(h), MinuteSlot := DigitsValue(mi), SecondSlot := DigitsValue(se)])
  {
    var rest := b + (h + ([':'] + (mi + ([':'] + se))));
    assert b != [] ==> rest[0] == b[0];
    ScanDatePart(DateTimeTokens(sep), sep, y, mo, d, rest);
    assert DateTimeTokens(sep)[5..] == [Blanks, Num(HourSlot, 1, 2), Lit(':'), Num(MinuteSlot, 2, 2), Lit(':'), Num(SecondSlot, 2, 2)];
    ScanTimePart(DateTimeTokens(sep)[5..], b, h, mi, se, map[YearSlot := DigitsValue(y), MonthSlot := DigitsValue(mo), DaySlot := DigitsValue(d)]);
  }

  /** A scan that fills all six fields yields their timestamp when it is a valid one. */
  lemma ReadFields(format: string, s: string, y: int, mo: int, d: int, h: int, mi: int, se: int)
    requires Scan(Compile(format), s, map[]) ==
      Some(map[YearSlot := y, MonthSlot := mo, DaySlot := d, HourSlot := h, MinuteSlot := mi, SecondSlot := se])
    ensures var dt := DateTime(Date(y, mo, d), TimeOfDay(h, mi, se));
      CreateFromFormat(format, s) == if ValidDateTime(dt) then Some(dt) else None
  {
    var f := map[YearSlot := y, MonthSlot := mo, DaySlot := d, HourSlot := h, MinuteSlot := mi, SecondSlot := se];
    assert YearSlot in f && MonthSlot in f && DaySlot in f && HourSlot in f && MinuteSlot in f && SecondSlot in f;
    assert f[YearSlot] == y && f[MonthSlot] == mo && f[DaySlot] == d;
    assert f[HourSlot] == h && f[MinuteSlot] == mi && f[SecondSlot] == se;
  }

  /**
   * "Y-m-d H:i:s" reads such text as that timestamp when it is a valid one,
   * and as nothing otherwise.
   */
  lemma ReadsYmdHis(y: string, mo: string, d: string, b: string, h: string, mi: string, se: string)
    requires AllDigits(y) && 1 <= |y| <= 4
    requires AllDigits(mo) && 1 <= |mo| <= 2
    requires AllDigits(d) && 1 <= |d| <= 2
    requires AllBlanks(b) && (b != [] || |d| == 2)
    requires AllDigits(h) && 1 <= |h| <= 2
    requires AllDigits(mi) && |mi| == 2
    requires AllDigits(se) && |se| == 2
    ensures var dt := DateTime(Date(DigitsValue(y), DigitsValue(mo), DigitsValue(d)),
                               TimeOfDay(DigitsValue(h), DigitsValue(mi), DigitsValue(se)));
      CreateFromFormat(YmdHis, DateTimeText('-', y, mo, d, b, h, mi, se)) == if ValidDateTime(dt) then Some(dt) else None
  {
    CompileYmdHis();
    ReadsDateTime('-', y, mo, d, b, h, mi, se);
    ReadFields(YmdHis, DateTimeText('-', y, mo, d, b, h, mi, se), DigitsValue(y), DigitsValue(mo), DigitsValue(d),
               DigitsValue(h), DigitsValue(mi), DigitsValue(se));
  }

  /** Reading back what format('Y-m-d H:i:s') wrote gives the same timestamp. */
  lemma ParseFormatted(dt: Timestamp)
    ensures CreateFromFormat(YmdHis, FormatYmdHis(dt)) == Some(dt)
  {
    var tm := dt.time;
    assert FormatYmdHis(dt) ==
      DateTimeText('-', Pad4(dt.date.year), Pad2(dt.date.month), Pad2(dt.date.day), " ", Pad2(tm.hour), Pad2(tm.minute), Pad2(tm.second));
    ReadsYmdHis(Pad4(dt.date.year), Pad2(dt.date.month), Pad2(dt.date.day), " ", Pad2(tm.hour), Pad2(tm.minute), Pad2(tm.second));
  }

  lemma SmallDigitValues()
    ensures AllDigits("999") && DigitsValue("999") == 999
    ensures AllDigits("2024") && DigitsValue("2024") == 2024
    ensures AllDigits("01") && DigitsValue("01") == 1
    ensures AllDigits("00") && DigitsValue("00") == 0
  {
    assert "999"[..2] == "99" && "99"[..1] == "9";
    assert "2024"[..3] == "202" && "202"[..2] == "20" && "20"[..1] == "2";
    assert "01"[..1] == "0" && "00"[..1] == "0";
  }

  /** A year of fewer than four digits is read. */
  lemma ShortYearRead()
    ensures CreateFromFormat(YmdHis, "999-01-01 00:00:00") == Some(DateTime(Date(999, 1, 1), TimeOfDay(0, 0, 0)))
  {
    SmallDigitValues();
    assert "999-01-01 00:00:00" == DateTimeText('-', "999", "01", "01", " ", "00", "00", "00");
    ReadsYmdHis("999", "01", "01", " ", "00", "00", "00");
  }

  /** A run of several blanks between date and time is read. */
  lemma BlankRunRead()
    ensures CreateFromFormat(YmdHis, "2024-01-01 \t 00:00:00") == Some(DateTime(Date(2024, 1, 1), TimeOfDay(0, 0, 0)))
  {
    SmallDigitValues();
    assert "2024-01-01 \t 00:00:00" == DateTimeText('-', "2024", "01", "01", " \t ", "00", "00", "00");
    ReadsYmdHis("2024", "01", "01", " \t ", "00", "00", "00");
  }
}
