/**
 * Calendar instants and the three text forms the server reads and writes:
 * RFC 3339 section 5.6 (chrono's `to_rfc3339` and `parse_from_rfc3339`), the IMF-fixdate of
 * RFC 7231 section 7.1.1.1 (the `Date` header, format `%a, %d %b %Y %H:%M:%S GMT`) and
 * the text SQLite's `datetime()` returns (`%Y-%m-%d %H:%M:%S`).
 */
module Time {
  import opened Wrappers

  /** A `DateTime<Utc>`: a proleptic Gregorian date and a time of day, in UTC. */
  datatype DateTime = DateTime(
    year: int, month: int, day: int,
    hour: int, minute: int, second: int, nano: int)

  predicate IsLeapYear(y: int) {
    (y % 4 == 0 && y % 100 != 0) || y % 400 == 0
  }

  function DaysInMonth(y: int, m: int): int
    requires 1 <= m <= 12
  {
    if m == 2 then (if IsLeapYear(y) then 29 else 28)
    else if m == 4 || m == 6 || m == 9 || m == 11 then 30
    else 31
  }

  predicate ValidDate(y: int, m: int, d: int) {
    1 <= m <= 12 && 1 <= d <= DaysInMonth(y, m)
  }

  /** A real instant (leap seconds, which chrono folds into `nano`, are not modelled). */
  predicate Valid(t: DateTime) {
    && ValidDate(t.year, t.month, t.day)
    && 0 <= t.hour < 24 && 0 <= t.minute < 60 && 0 <= t.second < 60
    && 0 <= t.nano < 1_000_000_000
  }

  /** A `DateTime<Utc>` value: always a real instant. */
  type Instant = t: DateTime | Valid(t) witness DateTime(1970, 1, 1, 0, 0, 0, 0)

  /** Years that every format writes as exactly four digits. */
  predicate FourDigitYear(t: DateTime) {
    0 <= t.year <= 9999
  }

  // ---------------------------------------------------------------- digits

  predicate IsDigit(c: char) {
    '0' <= c <= '9'
  }

  predicate AllDigits(s: string) {
    forall k :: 0 <= k < |s| ==> IsDigit(s[k])
  }

  function DigitChar(d: nat): (c: char)
    requires d < 10
    ensures IsDigit(c)
  {
    (48 + d) as char
  }

  function DigitValue(c: char): (d: nat)
    requires IsDigit(c)
    ensures d < 10
  {
    (c as int) - 48
  }

  function Pow10(n: nat): (r: nat)
    ensures r >= 1
  {
    if n == 0 then 1 else 10 * Pow10(n - 1)
  }

  /** The last `width` decimal digits of `n`, zero-padded on the left. */
  function Pad(n: nat, width: nat): (r: string)
    ensures |r| == width && AllDigits(r)
  {
    if width == 0 then "" else Pad(n / 10, width - 1) + [DigitChar(n % 10)]
  }

  /** The number a string of decimal digits stands for. */
  function DigitsValue(s: string): nat
    requires AllDigits(s)
  {
    if |s| == 0 then 0 else 10 * DigitsValue(s[..|s| - 1]) + DigitValue(s[|s| - 1])
  }

  /** Reading back what `Pad` wrote gives the number, when it fits in the width. */
  lemma {:induction false} DigitsValuePad(n: nat, width: nat)
    requires n < Pow10(width)
    ensures DigitsValue(Pad(n, width)) == n
  {
    if width > 0 {
      var p := Pad(n, width);
      assert p[..|p| - 1] == Pad(n / 10, width - 1);
      DigitsValuePad(n / 10, width - 1);
    }
  }

  /** The number of decimal digits of `n` (at least one). */
  function NumDigits(n: nat): (w: nat)
    ensures w >= 1 && n < Pow10(w)
  {
    if n < 10 then 1 else 1 + NumDigits(n / 10)
  }

  // ---------------------------------------------------------------- readers

  /** Exactly `n` digits from the front of `s`, with what follows them. */
  function ReadDigits(s: string, n: nat): Option<(nat, string)>
  {
    if |s| < n || !AllDigits(s[..n]) then None else Some((DigitsValue(s[..n]), s[n..]))
  }

  /** The character `c` at the front of `s`, with what follows it. */
  function Expect(s: string, c: char): Option<string>
  {
    if |s| > 0 && s[0] == c then Some(s[1..]) else None
  }

  lemma ReadPad(n: nat, width: nat, rest: string)
    requires n < Pow10(width)
    ensures ReadDigits(Pad(n, width) + rest, width) == Some((n, rest))
  {
    var s := Pad(n, width) + rest;
    assert s[..width] == Pad(n, width);
    assert s[width..] == rest;
    DigitsValuePad(n, width);
  }

  lemma ExpectAt(c: char, rest: string)
    ensures Expect([c] + rest, c) == Some(rest)
  {
    assert ([c] + rest)[1..] == rest;
  }

  // ---------------------------------------------------------------- writers

  /** chrono's `%Y`: four digits for years 0 to 9999, otherwise a sign and at least four digits. */
  function FormatYear(y: int): string
  {
    if 0 <= y <= 9999 then Pad(y, 4)
    else
      var a := if y < 0 then -y else y;
      (if y < 0 then "-" else "+") + Pad(a, if NumDigits(a) < 4 then 4 else NumDigits(a))
  }

  /** `%Y-%m-%d`. */
  function FormatDate(t: DateTime): string
    requires Valid(t)
  {
    FormatYear(t.year) + ("-" + (Pad(t.month, 2) + ("-" + Pad(t.day, 2))))
  }

  /** `%H:%M:%S`. */
  function FormatClock(t: DateTime): string
    requires Valid(t)
  {
    Pad(t.hour, 2) + (":" + (Pad(t.minute, 2) + (":" + Pad(t.second, 2))))
  }

  /** chrono's `%.f` in automatic mode: nothing, or a dot and 3, 6 or 9 digits. */
  function Fraction(nano: nat): string
    requires nano < 1_000_000_000
  {
    if nano == 0 then ""
    else if nano % 1_000_000 == 0 then "." + Pad(nano / 1_000_000, 3)
    else if nano % 1_000 == 0 then "." + Pad(nano / 1_000, 6)
    else "." + Pad(nano, 9)
  }

  /** `DateTime<Utc>::to_rfc3339`: `%Y-%m-%dT%H:%M:%S%.f+00:00`. */
  function ToRfc3339(t: DateTime): string
    requires Valid(t)
  {
    FormatDate(t) + ("T" + (FormatClock(t) + (Fraction(t.nano) + "+00:00")))
  }

  /** The text SQLite's `datetime()` returns for a stored instant: `%Y-%m-%d %H:%M:%S`. */
  function SqliteDatetime(t: DateTime): string
    requires Valid(t)
  {
    FormatDate(t) + (" " + FormatClock(t))
  }

  /** Days since 1970-01-01 of a proleptic Gregorian date (the civil-to-days formula). */
  function DaysFromCivil(y: int, m: int, d: int): int
    requires 1 <= m <= 12
  {
    var y' := if m <= 2 then y - 1 else y;
    var era := y' / 400;
    var yoe := y' - era * 400;
    var mp := if m > 2 then m - 3 else m + 9;
    var doy := (153 * mp + 2) / 5 + d - 1;
    var doe := yoe * 365 + yoe / 4 - yoe / 100 + doy;
    era * 146097 + doe - 719468
  }

  /** Day of the week, 0 for Sunday: 1970-01-01 was a Thursday. */
  function Weekday(t: DateTime): (w: nat)
    requires Valid(t)
    ensures w < 7
  {
    (DaysFromCivil(t.year, t.month, t.day) + 4) % 7
  }

  function WeekdayName(w: nat): string
    requires w < 7
  {
    ["Sun", "Mon", "Tue", "Wed", "Thu", "Fri", "Sat"][w]
  }

  function MonthName(m: int): string
    requires 1 <= m <= 12
  {
    ["Jan", "Feb", "Mar", "Apr", "May", "Jun", "Jul", "Aug", "Sep", "Oct", "Nov", "Dec"][m - 1]
  }

  /** The IMF-fixdate of RFC 7231 section 7.1.1.1: `%a, %d %b %Y %H:%M:%S GMT`. */
  function ImfFixdate(t: DateTime): string
    requires Valid(t)
  {
    WeekdayName(Weekday(t)) + ", " + Pad(t.day, 2) + " " + MonthName(t.month) + " "
      + FormatYear(t.year) + " " + FormatClock(t) + " GMT"
  }

  lemma DigitsOneLine(s: string)
    requires AllDigits(s)
    ensures '\n' !in s
  {
    forall k | 0 <= k < |s|
      ensures s[k] != '\n'
    {
      assert IsDigit(s[k]);
    }
  }

  /** The `Date` header value is one line: it can be a line of a signature string. */
  lemma ImfFixdateOneLine(t: DateTime)
    requires Valid(t)
    ensures '\n' !in ImfFixdate(t)
  {
    var y := t.year;
    var a := if y < 0 then -y else y;
    DigitsOneLine(Pad(t.day, 2));
    if 0 <= y <= 9999 {
      DigitsOneLine(Pad(y, 4));
    } else {
      DigitsOneLine(Pad(a, if NumDigits(a) < 4 then 4 else NumDigits(a)));
    }
    DigitsOneLine(Pad(t.hour, 2));
    DigitsOneLine(Pad(t.minute, 2));
    DigitsOneLine(Pad(t.second, 2));
    assert '\n' !in WeekdayName(Weekday(t));
    assert '\n' !in MonthName(t.month);
    assert '\n' !in FormatYear(t.year);
    assert '\n' !in FormatClock(t);
  }

  // ---------------------------------------------------------------- parsers

  /** `%Y-%m-%d` with a four-digit year, and what follows it. */
  function ParseDate(s: string): Option<(int, int, int, string)>
  {
    match ReadDigits(s, 4)
    case None => None
    case Some((y, s1)) =>
      match Expect(s1, '-')
      case None => None
      case Some(s2) =>
        match ReadDigits(s2, 2)
        case None => None
        case Some((m, s3)) =>
          match Expect(s3, '-')
          case None => None
          case Some(s4) =>
            match ReadDigits(s4, 2)
            case None => None
            case Some((d, s5)) => Some((y, m, d, s5))
  }

  /** `%H:%M:%S`, and what follows it. */
  function ParseClock(s: string): Option<(int, int, int, string)>
  {
    match ReadDigits(s, 2)
    case None => None
    case Some((h, s1)) =>
      match Expect(s1, ':')
      case None => None
      case Some(s2) =>
        match ReadDigits(s2, 2)
        case None => None
        case Some((mi, s3)) =>
          match Expect(s3, ':')
          case None => None
          case Some(s4) =>
            match ReadDigits(s4, 2)
            case None => None
            case Some((sec, s5)) => Some((h, mi, sec, s5))
  }

  /** The longest run of digits at the front of `s`. */
  function DigitRun(s: string): (n: nat)
    ensures n <= |s| && AllDigits(s[..n])
    ensures n < |s| ==> !IsDigit(s[n])
  {
    if |s| == 0 || !IsDigit(s[0]) then 0
    else
      var n := 1 + DigitRun(s[1..]);
      assert s[..n] == [s[0]] + s[1..][..n - 1];
      n
  }

  /**
   * An optional `.` and one or more digits, read as nanoseconds: the first nine
   * digits count, padded on the right with zeros; later digits are dropped.
   */
  function ParseFraction(s: string): Option<(nat, string)>
  {
    if |s| == 0 || s[0] != '.' then Some((0, s))
    else
      var n := DigitRun(s[1..]);
      if n == 0 then None
      else
        var digits := s[1..][..n];
        var kept := if n <= 9 then digits else digits[..9];
        Some((DigitsValue(kept) * Pow10(9 - |kept|), s[1..][n..]))
  }

  /** `Z`, `z` or `+HH:MM`/`-HH:MM` closing the text; the offset east of UTC in minutes. */
  function ParseOffset(s: string): Option<int>
  {
    if s == "Z" || s == "z" then Some(0)
    else if |s| > 0 && (s[0] == '+' || s[0] == '-') then
      match ReadDigits(s[1..], 2)
      case None => None
      case Some((h, s1)) =>
        match Expect(s1, ':')
        case None => None
        case Some(s2) =>
          match ReadDigits(s2, 2)
          case None => None
          case Some((m, s3)) =>
            if s3 != "" || h >= 24 || m >= 60 then None
            else Some(if s[0] == '+' then h * 60 + m else -(h * 60 + m))
    else None
  }

  function NextDay(y: int, m: int, d: int): (r: (int, int, int))
    requires ValidDate(y, m, d)
    ensures ValidDate(r.0, r.1, r.2)
  {
    if d < DaysInMonth(y, m) then (y, m, d + 1)
    else if m < 12 then (y, m + 1, 1)
    else (y + 1, 1, 1)
  }

  function PrevDay(y: int, m: int, d: int): (r: (int, int, int))
    requires ValidDate(y, m, d)
    ensures ValidDate(r.0, r.1, r.2)
  {
    if d > 1 then (y, m, d - 1)
    else if m > 1 then (y, m - 1, DaysInMonth(y, m - 1))
    else (y - 1, 12, 31)
  }

  /** `t` moved by `delta` minutes (less than a day either way), carrying into the date. */
  function Shift(t: DateTime, delta: int): (r: DateTime)
    requires Valid(t) && -1440 < delta < 1440
    ensures Valid(r)
    ensures r.second == t.second && r.nano == t.nano
  {
    var mins := t.hour * 60 + t.minute + delta;
    var (y, m, d, mins') :=
      if mins < 0 then
        var p := PrevDay(t.year, t.month, t.day); (p.0, p.1, p.2, mins + 1440)
      else if mins >= 1440 then
        var n := NextDay(t.year, t.month, t.day); (n.0, n.1, n.2, mins - 1440)
      else (t.year, t.month, t.day, mins);
    DateTime(y, m, d, mins' / 60, mins' % 60, t.second, t.nano)
  }

  /**
   * `DateTime::parse_from_rfc3339(s).map(|dt| dt.to_utc())`: the RFC 3339 section 5.6
   * `date-time` grammar (`T` or `t` between date and time), then the local time moved
   * to UTC by its offset.
   */
  function ParseRfc3339(s: string): (r: Option<DateTime>)
    ensures r.Some? ==> Valid(r.value)
  {
    match ParseDate(s)
    case None => None
    case Some((y, mo, d, s1)) =>
      if |s1| == 0 || (s1[0] != 'T' && s1[0] != 't') then None
      else
        match ParseClock(s1[1..])
        case None => None
        case Some((h, mi, sec, s2)) =>
          match ParseFraction(s2)
          case None => None
          case Some((nano, s3)) =>
            match ParseOffset(s3)
            case None => None
            case Some(off) =>
              var local := DateTime(y, mo, d, h, mi, sec, nano);
              if !Valid(local) then None else Some(Shift(local, -off))
  }

  /** `NaiveDateTime::parse_from_str(s, "%Y-%m-%d %H:%M:%S").and_utc()`, fixed-width fields. */
  function ParseSqlite(s: string): (r: Option<DateTime>)
    ensures r.Some? ==> Valid(r.value) && r.value.nano == 0
  {
    match ParseDate(s)
    case None => None
    case Some((y, mo, d, s1)) =>
      match Expect(s1, ' ')
      case None => None
      case Some(s2) =>
        match ParseClock(s2)
        case None => None
        case Some((h, mi, sec, s3)) =>
          var t := DateTime(y, mo, d, h, mi, sec, 0);
          if s3 != "" || !Valid(t) then None else Some(t)
  }

  // ---------------------------------------------------------------- round trips

  lemma ParseDateOf(t: DateTime, rest: string)
    requires Valid(t) && FourDigitYear(t)
    ensures ParseDate(FormatDate(t) + rest) == Some((t.year, t.month, t.day, rest))
  {
    var dd := Pad(t.day, 2);
    var mm := Pad(t.month, 2);
    var s5 := dd + rest;
    var s4 := "-" + s5;
    var s3 := mm + s4;
    var s2 := "-" + s3;
    assert FormatDate(t) + rest == Pad(t.year, 4) + s2;
    ReadPad(t.year, 4, s2);
    ExpectAt('-', s3);
    ReadPad(t.month, 2, s4);
    ExpectAt('-', s5);
    ReadPad(t.day, 2, rest);
  }

  lemma ParseClockOf(t: DateTime, rest: string)
    requires Valid(t)
    ensures ParseClock(FormatClock(t) + rest) == Some((t.hour, t.minute, t.second, rest))
  {
    var s5 := Pad(t.second, 2) + rest;
    var s4 := ":" + s5;
    var s3 := Pad(t.minute, 2) + s4;
    var s2 := ":" + s3;
    assert FormatClock(t) + rest == Pad(t.hour, 2) + s2;
    ReadPad(t.hour, 2, s2);
    ExpectAt(':', s3);
    ReadPad(t.minute, 2, s4);
    ExpectAt(':', s5);
    ReadPad(t.second, 2, rest);
  }

  lemma DigitRunOf(digits: string, rest: string)
    requires AllDigits(digits)
    requires |rest| > 0 && !IsDigit(rest[0])
    ensures DigitRun(digits + rest) == |digits|
    decreases |digits|
  {
    if |digits| > 0 {
      assert (digits + rest)[1..] == digits[1..] + rest;
      DigitRunOf(digits[1..], rest);
    } else {
      assert digits + rest == rest;
    }
  }

  /** What `Fraction` writes, followed by the offset, is read back as the same nanoseconds. */
  lemma ParseFractionOf(nano: nat, rest: string)
    requires nano < 1_000_000_000
    requires |rest| > 0 && !IsDigit(rest[0]) && rest[0] != '.'
    ensures ParseFraction(Fraction(nano) + rest) == Some((nano, rest))
  {
    Pow10Values();
    if nano == 0 {
      assert Fraction(nano) + rest == rest;
    } else if nano % 1_000_000 == 0 {
      assert nano / 1_000_000 < 1_000;
      assert Fraction(nano) == "." + Pad(nano / 1_000_000, 3);
      ParseFractionPad(nano / 1_000_000, 3, rest);
    } else if nano % 1_000 == 0 {
      assert nano / 1_000 < 1_000_000;
      assert Fraction(nano) == "." + Pad(nano / 1_000, 6);
      ParseFractionPad(nano / 1_000, 6, rest);
    } else {
      assert Fraction(nano) == "." + Pad(nano, 9);
      ParseFractionPad(nano, 9, rest);
    }
  }

  lemma Pow10Values()
    ensures Pow10(0) == 1 && Pow10(3) == 1_000 && Pow10(6) == 1_000_000 && Pow10(9) == 1_000_000_000
  {
    assert Pow10(1) == 10 && Pow10(2) == 100 && Pow10(4) == 10_000 && Pow10(5) == 100_000;
    assert Pow10(7) == 10_000_000 && Pow10(8) == 100_000_000;
  }

  /** A `.` and `width` digits, then a non-digit, read as `value` scaled to nanoseconds. */
  lemma ParseFractionPad(value: nat, width: nat, rest: string)
    requires 1 <= width <= 9 && value < Pow10(width)
    requires |rest| > 0 && !IsDigit(rest[0])
    ensures ParseFraction("." + Pad(value, width) + rest) == Some((value * Pow10(9 - width), rest))
  {
    var digits := Pad(value, width);
    var s := "." + digits + rest;
    assert s[1..] == digits + rest;
    DigitRunOf(digits, rest);
    assert s[1..][..width] == digits;
    assert s[1..][width..] == rest;
    DigitsValuePad(value, width);
  }

  lemma ParseOffsetUtc()
    ensures ParseOffset("+00:00") == Some(0)
  {
    var s := "+00:00";
    assert s[1..] == Pad(0, 2) + ":00";
    ReadPad(0, 2, ":00");
    ExpectAt(':', "00");
    assert "00" == Pad(0, 2) + "";
    ReadPad(0, 2, "");
  }

  lemma ShiftZero(t: DateTime)
    requires Valid(t)
    ensures Shift(t, 0) == t
  {
  }

  /** RFC 3339 round trip: chrono reads back exactly the instant it wrote. */
  lemma ParseRfc3339Of(t: DateTime)
    requires Valid(t) && FourDigitYear(t)
    ensures ParseRfc3339(ToRfc3339(t)) == Some(t)
  {
    var tail := "+00:00";
    var s2 := Fraction(t.nano) + tail;
    var s1 := "T" + (FormatClock(t) + s2);
    assert ToRfc3339(t) == FormatDate(t) + s1;
    ParseDateOf(t, s1);
    assert s1[1..] == FormatClock(t) + s2;
    ParseClockOf(t, s2);
    ParseFractionOf(t.nano, tail);
    ParseOffsetUtc();
    ShiftZero(t);
  }

  /** SQLite round trip: the `datetime()` text reads back as the instant to the second. */
  lemma ParseSqliteOf(t: DateTime)
    requires Valid(t) && FourDigitYear(t)
    ensures ParseSqlite(SqliteDatetime(t)) == Some(t.(nano := 0))
  {
    var s1 := " " + FormatClock(t);
    assert SqliteDatetime(t) == FormatDate(t) + s1;
    ParseDateOf(t, s1);
    ExpectAt(' ', FormatClock(t));
    assert FormatClock(t) == FormatClock(t) + "";
    ParseClockOf(t, "");
  }

  /** RFC 3339 text is never mistaken for SQLite text: a `T` stands where SQLite has a space. */
  lemma ParseSqliteRejectsRfc3339(t: DateTime)
    requires Valid(t) && FourDigitYear(t)
    ensures ParseSqlite(ToRfc3339(t)) == None
  {
    var s1 := "T" + (FormatClock(t) + (Fraction(t.nano) + "+00:00"));
    assert ToRfc3339(t) == FormatDate(t) + s1;
    ParseDateOf(t, s1);
  }

  lemma PrevNextDay(y: int, m: int, d: int)
    requires ValidDate(y, m, d)
    ensures var n := NextDay(y, m, d); PrevDay(n.0, n.1, n.2) == (y, m, d)
  {
  }

  lemma NextPrevDay(y: int, m: int, d: int)
    requires ValidDate(y, m, d)
    ensures var p := PrevDay(y, m, d); NextDay(p.0, p.1, p.2) == (y, m, d)
  {
  }

  /** Moving to UTC loses nothing: moving back by the same offset gives the local time again. */
  lemma ShiftBack(t: DateTime, delta: int)
    requires Valid(t) && -1440 < delta < 1440
    ensures Shift(Shift(t, delta), -delta) == t
  {
    var mins := t.hour * 60 + t.minute + delta;
    if mins < 0 {
      PrevNextDay(t.year, t.month, t.day);
      NextPrevDay(t.year, t.month, t.day);
    } else if mins >= 1440 {
      PrevNextDay(t.year, t.month, t.day);
    }
  }

  /** Calendar checks of the weekday: 1 January 2025 was a Wednesday, 1 January 2000 a Saturday, 29 February 2024 a Thursday. */
  lemma WeekdayExamples()
    ensures WeekdayName(Weekday(DateTime(2025, 1, 1, 0, 0, 0, 0))) == "Wed"
    ensures WeekdayName(Weekday(DateTime(2000, 1, 1, 0, 0, 0, 0))) == "Sat"
    ensures WeekdayName(Weekday(DateTime(2024, 2, 29, 0, 0, 0, 0))) == "Thu"
  {
    assert DaysFromCivil(2025, 1, 1) == 20089;
    assert DaysFromCivil(2000, 1, 1) == 10957;
    assert DaysFromCivil(2024, 2, 29) == 19782;
  }
}
