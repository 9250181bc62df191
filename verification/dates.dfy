/** Calendar dates and the two java.time parsers the availability filter uses:
    `LocalDate.parse` (ISO_LOCAL_DATE) and `Instant.parse` (ISO_INSTANT) followed by
    `.atOffset(ZoneOffset.UTC).toLocalDate()`. Years are the four-digit years 0000..9999
    and an instant must carry the `Z` designator. */
module Dates {
  import opened Common

  /** java.time.LocalDate */
  datatype Date = Date(year: int, month: int, day: int)

  predicate IsLeapYear(y: int)
  {
    y % 4 == 0 && (y % 100 != 0 || y % 400 == 0)
  }

  function DaysInMonth(y: int, m: int): (n: int)
    requires 1 <= m <= 12
    ensures 28 <= n <= 31
  {
    if m == 2 then (if IsLeapYear(y) then 29 else 28)
    else if m == 4 || m == 6 || m == 9 || m == 11 then 30
    else 31
  }

  /** The fields name a day of the proleptic Gregorian calendar. */
  predicate ValidDate(d: Date)
  {
    1 <= d.month <= 12 && 1 <= d.day <= DaysInMonth(d.year, d.month)
  }

  /** `!a.isAfter(b)`: a is on or before b. */
  predicate DateLe(a: Date, b: Date)
  {
    a.year < b.year || (a.year == b.year && (a.month < b.month || (a.month == b.month && a.day <= b.day)))
  }

  /** The day after d. */
  function NextDay(d: Date): (r: Date)
    requires ValidDate(d)
    ensures ValidDate(r)
    ensures DateLe(d, r) && r != d
  {
    if d.day < DaysInMonth(d.year, d.month) then Date(d.year, d.month, d.day + 1)
    else if d.month < 12 then Date(d.year, d.month + 1, 1)
    else Date(d.year + 1, 1, 1)
  }

  predicate IsDigit(c: char)
  {
    '0' <= c <= '9'
  }

  predicate AllDigits(s: string)
  {
    forall i :: 0 <= i < |s| ==> IsDigit(s[i])
  }

  function DigitValue(c: char): int
    requires IsDigit(c)
  {
    c as int - '0' as int
  }

  function DigitChar(n: int): (c: char)
    requires 0 <= n <= 9
    ensures IsDigit(c) && DigitValue(c) == n
  {
    ('0' as int + n) as char
  }

  /** The value of two decimal digits. */
  function Num2(s: string): int
    requires |s| == 2 && AllDigits(s)
  {
    10 * DigitValue(s[0]) + DigitValue(s[1])
  }

  /** The value of four decimal digits. */
  function Num4(s: string): int
    requires |s| == 4 && AllDigits(s)
  {
    100 * (10 * DigitValue(s[0]) + DigitValue(s[1])) + (10 * DigitValue(s[2]) + DigitValue(s[3]))
  }

  /** s has the shape `YYYY-MM-DD`. */
  predicate DateShaped(s: string)
  {
    |s| == 10 && AllDigits(s[0..4]) && s[4] == '-' && AllDigits(s[5..7]) && s[7] == '-' && AllDigits(s[8..10])
  }

  function DateFields(s: string): Date
    requires DateShaped(s)
  {
    Date(Num4(s[0..4]), Num2(s[5..7]), Num2(s[8..10]))
  }

  /** `LocalDate.parse(s)`: None where Java throws DateTimeParseException. */
  function ParseLocalDate(s: string): (r: Option<Date>)
    ensures r.Some? ==> ValidDate(r.value) && 0 <= r.value.year <= 9999
  {
    if DateShaped(s) && ValidDate(DateFields(s)) then Some(DateFields(s)) else None
  }

  /** s has the shape `HH:MM:SS`. */
  predicate TimeShaped(s: string)
  {
    |s| == 8 && AllDigits(s[0..2]) && s[2] == ':' && AllDigits(s[3..5]) && s[5] == ':' && AllDigits(s[6..8])
  }

  /** An optional fraction of a second: empty, or a point followed by at most nine digits. */
  predicate FractionShaped(f: string)
  {
    f == "" || (f[0] == '.' && |f| <= 10 && AllDigits(f[1..]))
  }

  predicate FractionIsZero(f: string)
    requires FractionShaped(f)
  {
    forall i :: 1 <= i < |f| ==> f[i] == '0'
  }

  /** `Instant.parse(s).atOffset(ZoneOffset.UTC).toLocalDate()` for an instant written
      `YYYY-MM-DDTHH:MM:SS[.fraction]Z`; None where Java throws DateTimeParseException.
      `24:00:00` denotes the start of the next day and `23:59:60` a leap second. */
  function ParseInstantDate(s: string): (r: Option<Date>)
    ensures r.Some? ==> ValidDate(r.value)
  {
    if |s| < 20 || !DateShaped(s[..10]) || s[10] != 'T' || !TimeShaped(s[11..19]) || s[|s| - 1] != 'Z'
       || !FractionShaped(s[19..|s| - 1])
    then None
    else
      var d := DateFields(s[..10]);
      var fraction := s[19..|s| - 1];
      var t := s[11..19];
      var hour, minute, second := Num2(t[0..2]), Num2(t[3..5]), Num2(t[6..8]);
      if !ValidDate(d) then None
      else if hour == 24 && minute == 0 && second == 0 && FractionIsZero(fraction) then Some(NextDay(d))
      else if hour <= 23 && minute <= 59 && (second <= 59 || (hour == 23 && minute == 59 && second == 60))
      then Some(d)
      else None
  }

  function Pad2(n: int): (s: string)
    requires 0 <= n <= 99
    ensures |s| == 2 && AllDigits(s)
  {
    [DigitChar(n / 10), DigitChar(n % 10)]
  }

  function Pad4(n: int): (s: string)
    requires 0 <= n <= 9999
    ensures |s| == 4 && AllDigits(s)
  {
    Pad2(n / 100) + Pad2(n % 100)
  }

  /** `LocalDate.toString()` for a four-digit year: `YYYY-MM-DD`. */
  function FormatDate(d: Date): (s: string)
    requires ValidDate(d) && 0 <= d.year <= 9999
    ensures DateShaped(s)
  {
    Pad4(d.year) + "-" + Pad2(d.month) + "-" + Pad2(d.day)
  }

  lemma Pad2Value(n: int)
    requires 0 <= n <= 99
    ensures Num2(Pad2(n)) == n
  {
  }

  lemma Pad4Value(n: int)
    requires 0 <= n <= 9999
    ensures Num4(Pad4(n)) == n
  {
    var hi, lo := Pad2(n / 100), Pad2(n % 100);
    Pad2Value(n / 100);
    Pad2Value(n % 100);
    assert Pad4(n) == hi + lo;
    assert Num4(hi + lo) == 100 * Num2(hi) + Num2(lo);
  }

  lemma FormatFields(d: Date)
    requires ValidDate(d) && 0 <= d.year <= 9999
    ensures DateFields(FormatDate(d)) == d
  {
    var s := FormatDate(d);
    assert s[0..4] == Pad4(d.year);
    assert s[5..7] == Pad2(d.month);
    assert s[8..10] == Pad2(d.day);
    Pad4Value(d.year);
    Pad2Value(d.month);
    Pad2Value(d.day);
  }

  /** Round trip: a formatted date parses back to itself. */
  lemma ParseFormatRoundTrip(d: Date)
    requires ValidDate(d) && 0 <= d.year <= 9999
    ensures ParseLocalDate(FormatDate(d)) == Some(d)
  {
    FormatFields(d);
  }

  /** Round trip: midnight UTC of a day parses back to that day. */
  lemma ParseInstantOfMidnight(d: Date)
    requires ValidDate(d) && 0 <= d.year <= 9999
    ensures ParseInstantDate(FormatDate(d) + "T00:00:00Z") == Some(d)
  {
    var s := FormatDate(d) + "T00:00:00Z";
    assert s[..10] == FormatDate(d);
    assert s[11..19] == "00:00:00";
    assert s[19..|s| - 1] == "";
    FormatFields(d);
  }

  /** `HH:MM:SS` for a two-digit hour, minute and second. */
  function FormatTime(hour: int, minute: int, second: int): (s: string)
    requires 0 <= hour <= 99 && 0 <= minute <= 99 && 0 <= second <= 99
    ensures TimeShaped(s)
  {
    Pad2(hour) + ":" + Pad2(minute) + ":" + Pad2(second)
  }

  /** The instant `YYYY-MM-DDTHH:MM:SS<fraction>Z`. */
  function FormatInstant(d: Date, hour: int, minute: int, second: int, fraction: string): string
    requires ValidDate(d) && 0 <= d.year <= 9999
    requires 0 <= hour <= 99 && 0 <= minute <= 99 && 0 <= second <= 99
  {
    FormatDate(d) + "T" + FormatTime(hour, minute, second) + fraction + "Z"
  }

  /** A time of day before 24:00, the leap second 23:59:60 included, falls on the day written,
      whatever its fraction; 24:00:00 with a zero fraction is the start of the next day; every
      other time is refused. */
  lemma ParseInstantOfTime(d: Date, hour: int, minute: int, second: int, fraction: string)
    requires ValidDate(d) && 0 <= d.year <= 9999
    requires 0 <= hour <= 99 && 0 <= minute <= 99 && 0 <= second <= 99
    requires FractionShaped(fraction)
    ensures hour <= 23 && minute <= 59 && (second <= 59 || (hour == 23 && minute == 59 && second == 60)) ==>
      ParseInstantDate(FormatInstant(d, hour, minute, second, fraction)) == Some(d)
    ensures hour == 24 && minute == 0 && second == 0 && FractionIsZero(fraction) ==>
      ParseInstantDate(FormatInstant(d, hour, minute, second, fraction)) == Some(NextDay(d))
    ensures hour == 24 && !(minute == 0 && second == 0 && FractionIsZero(fraction)) ==>
      ParseInstantDate(FormatInstant(d, hour, minute, second, fraction)) == None
    ensures hour > 24 || minute > 59 || second > 60 || (second == 60 && !(hour == 23 && minute == 59)) ==>
      ParseInstantDate(FormatInstant(d, hour, minute, second, fraction)) == None
  {
    var s := FormatInstant(d, hour, minute, second, fraction);
    var t := FormatTime(hour, minute, second);
    assert s[..10] == FormatDate(d);
    assert s[10] == 'T';
    assert s[11..19] == t;
    assert s[19..|s| - 1] == fraction;
    assert s[|s| - 1] == 'Z';
    assert t[0..2] == Pad2(hour) && t[3..5] == Pad2(minute) && t[6..8] == Pad2(second);
    FormatFields(d);
    Pad2Value(hour);
    Pad2Value(minute);
    Pad2Value(second);
  }
}
