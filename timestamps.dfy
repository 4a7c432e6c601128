/**
 * Naive UTC `datetime.datetime` values: their fields, their ordering,
 * subtraction of a `timedelta` that stays within the hour, and `strftime`
 * with the directives `%Y %m %d %H %M`.
 */
module Timestamps {
  import opened Wrappers

  datatype Fields = Fields(year: int, month: int, day: int, hour: int, minute: int, second: int, microsecond: int)

  predicate IsLeapYear(year: int) {
    year % 4 == 0 && (year % 100 != 0 || year % 400 == 0)
  }

  function DaysInMonth(year: int, month: int): (n: int)
    requires 1 <= month <= 12
    ensures 28 <= n <= 31
  {
    if month == 2 then (if IsLeapYear(year) then 29 else 28)
    else if month == 4 || month == 6 || month == 9 || month == 11 then 30
    else 31
  }

  /** The range checks `datetime.datetime(...)` makes on its arguments. */
  predicate WellFormed(f: Fields) {
    && 1 <= f.year <= 9999
    && 1 <= f.month <= 12
    && 1 <= f.day <= DaysInMonth(f.year, f.month)
    && 0 <= f.hour < 24
    && 0 <= f.minute < 60
    && 0 <= f.second < 60
    && 0 <= f.microsecond < 1000000
  }

  type DateTime = f: Fields | WellFormed(f) witness Fields(1970, 1, 1, 0, 0, 0, 0)

  /** `a < b` on datetimes: lexicographic on the fields, most significant first. */
  predicate Before(a: Fields, b: Fields) {
    if a.year != b.year then a.year < b.year
    else if a.month != b.month then a.month < b.month
    else if a.day != b.day then a.day < b.day
    else if a.hour != b.hour then a.hour < b.hour
    else if a.minute != b.minute then a.minute < b.minute
    else if a.second != b.second then a.second < b.second
    else a.microsecond < b.microsecond
  }

  /** `Before` is a strict total order, as datetime comparison is. */
  lemma BeforeIsStrictTotalOrder(a: Fields, b: Fields, c: Fields)
    ensures !Before(a, a)
    ensures Before(a, b) && Before(b, c) ==> Before(a, c)
    ensures a == b || Before(a, b) || Before(b, a)
    ensures !(Before(a, b) && Before(b, a))
  {
  }

  /** Microseconds elapsed since the start of the hour. */
  function OffsetInHour(t: Fields): int {
    t.minute * 60000000 + t.second * 1000000 + t.microsecond
  }

  /**
   * `t - timedelta(microseconds=delta)` for a delta that does not reach back
   * past the start of the hour: date and hour stay, the time within the
   * hour goes back by `delta`.
   */
  function MinusWithinHour(t: DateTime, delta: int): (r: DateTime)
    requires 0 <= delta <= OffsetInHour(t)
    ensures r.year == t.year && r.month == t.month && r.day == t.day && r.hour == t.hour
    ensures OffsetInHour(r) == OffsetInHour(t) - delta
  {
    var o := OffsetInHour(t) - delta;
    var q := o / 1000000;
    assert o == q * 1000000 + o % 1000000;
    assert q == (q / 60) * 60 + q % 60;
    assert o / 60000000 == q / 60;
    t.(minute := q / 60, second := q % 60, microsecond := o % 1000000)
  }

  /** Two times in the same hour with equal offsets have equal minute, second and microsecond. */
  lemma OffsetInHourInjective(a: DateTime, b: DateTime)
    requires OffsetInHour(a) == OffsetInHour(b)
    ensures a.minute == b.minute && a.second == b.second && a.microsecond == b.microsecond
  {
    var sa := a.second * 1000000 + a.microsecond;
    var sb := b.second * 1000000 + b.microsecond;
    assert (a.minute - b.minute) * 60000000 == sb - sa;
    assert a.minute == b.minute;
    assert (a.second - b.second) * 1000000 == b.microsecond - a.microsecond;
  }

  /** The same instant with seconds and microseconds cleared. */
  function TruncateToMinute(t: DateTime): (r: DateTime)
    ensures r.year == t.year && r.month == t.month && r.day == t.day && r.hour == t.hour && r.minute == t.minute
    ensures r.second == 0 && r.microsecond == 0
    ensures !Before(t, r) && 0 <= OffsetInHour(t) - OffsetInHour(r) < 60000000
  {
    t.(second := 0, microsecond := 0)
  }

  // strftime

  function DigitChar(d: int): char
    requires 0 <= d < 10
  {
    ('0' as int + d) as char
  }

  /** `%Y`: the year in decimal, unpadded as the C library on Linux prints it. */
  function Decimal(n: nat): string {
    if n < 10 then [DigitChar(n)] else Decimal(n / 10) + [DigitChar(n % 10)]
  }

  /** `%m %d %H %M`: two digits, zero-padded. */
  function Pad2(n: int): string
    requires 0 <= n < 100
  {
    [DigitChar(n / 10), DigitChar(n % 10)]
  }

  /** `t.strftime("%Y-%m-%d" + [sep] + "%H:%M" + suffix)`. */
  function Strftime(t: DateTime, sep: char, suffix: string): string {
    Decimal(t.year) + "-" + Pad2(t.month) + "-" + Pad2(t.day) + [sep] + Pad2(t.hour) + ":" + Pad2(t.minute) + suffix
  }

  // Reading a formatted stamp back, to state what it encodes.

  function DigitValue(c: char): Option<nat> {
    if '0' <= c <= '9' then Some(c as int - '0' as int) else None
  }

  function ParseNat(s: string): Option<nat> {
    if s == [] then Some(0)
    else
      var n :- ParseNat(s[..|s| - 1]);
      var d :- DigitValue(s[|s| - 1]);
      Some(n * 10 + d)
  }

  /**
   * Reads a stamp laid out as `YYYY-MM-DD{sep}hh:mm{suffix}` with a four-digit
   * year, giving the minute it names; None for anything else.
   */
  function ParseStamp(s: string, sep: char, suffix: string): Option<Fields> {
    if |s| != 16 + |suffix| || s[4] != '-' || s[7] != '-' || s[10] != sep || s[13] != ':' || s[16..] != suffix then None
    else
      var year :- ParseNat(s[..4]);
      var month :- ParseNat(s[5..7]);
      var day :- ParseNat(s[8..10]);
      var hour :- ParseNat(s[11..13]);
      var minute :- ParseNat(s[14..16]);
      Some(Fields(year, month, day, hour, minute, 0, 0))
  }

  lemma {:induction false} ParseDecimal(n: nat)
    ensures ParseNat(Decimal(n)) == Some(n)
  {
    var s := Decimal(n);
    if n < 10 {
      assert s[..0] == [];
    } else {
      assert s[..|s| - 1] == Decimal(n / 10);
      ParseDecimal(n / 10);
    }
  }

  lemma ParsePad2(n: int)
    requires 0 <= n < 100
    ensures ParseNat(Pad2(n)) == Some(n)
  {
    var s := Pad2(n);
    assert s[..1][..0] == [];
    assert s[..1] == [DigitChar(n / 10)];
    assert DigitValue(DigitChar(n / 10)) == Some(n / 10);
    assert DigitValue(DigitChar(n % 10)) == Some(n % 10);
    assert ParseNat(s[..1]) == Some(n / 10);
    assert s[..|s| - 1] == s[..1];
  }

  lemma DecimalFourDigits(n: nat)
    requires 1000 <= n <= 9999
    ensures |Decimal(n)| == 4
  {
    assert 100 <= n / 10 <= 999;
    assert 10 <= n / 10 / 10 <= 99;
    assert 1 <= n / 10 / 10 / 10 <= 9;
    assert |Decimal(n / 10 / 10 / 10)| == 1;
    assert |Decimal(n / 10 / 10)| == 2;
    assert |Decimal(n / 10)| == 3;
  }

  /**
   * For a four-digit year, the formatted stamp has 16 characters before the
   * suffix and reads back as exactly the instant's minute: seconds and
   * microseconds are dropped and nothing else is lost.
   */
  lemma StrftimeRoundTrip(t: DateTime, sep: char, suffix: string)
    requires 1000 <= t.year
    ensures |Strftime(t, sep, suffix)| == 16 + |suffix|
    ensures ParseStamp(Strftime(t, sep, suffix), sep, suffix) == Some(TruncateToMinute(t))
  {
    var s := Strftime(t, sep, suffix);
    DecimalFourDigits(t.year);
    ParseDecimal(t.year);
    ParsePad2(t.month);
    ParsePad2(t.day);
    ParsePad2(t.hour);
    ParsePad2(t.minute);
    assert s[..4] == Decimal(t.year);
    assert s[5..7] == Pad2(t.month);
    assert s[8..10] == Pad2(t.day);
    assert s[11..13] == Pad2(t.hour);
    assert s[14..16] == Pad2(t.minute);
    assert s[16..] == suffix;
  }

  /** For four-digit years, two instants format alike exactly when they fall in the same minute. */
  lemma StrftimeInjective(a: DateTime, b: DateTime, sep: char, suffix: string)
    requires 1000 <= a.year && 1000 <= b.year
    ensures Strftime(a, sep, suffix) == Strftime(b, sep, suffix) <==> TruncateToMinute(a) == TruncateToMinute(b)
  {
    StrftimeRoundTrip(a, sep, suffix);
    StrftimeRoundTrip(b, sep, suffix);
  }
}
