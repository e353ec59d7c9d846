/**
 * Wall-clock readings and the fixed-width decimal formats both handlers
 * produce with `strftime`: `%Y%m` (the month the aggregator searches for)
 * and `%Y%m%d_%H%M%S` (the timestamp the collector embeds in object keys).
 */
module Calendar {
  import opened Wrappers

  /** A naive `datetime` value, as read from the clock by the caller. */
  datatype DateTime = DateTime(year: int, month: int, day: int, hour: int, minute: int, second: int)

  /** A calendar date (the `datetime` after `replace(day=1)` and friends). */
  datatype Date = Date(year: int, month: int, day: int)

  /** The range of years a Python `datetime` can hold. */
  const MinYear: int := 1
  const MaxYear: int := 9999

  predicate IsLeapYear(y: int) {
    y % 4 == 0 && (y % 100 != 0 || y % 400 == 0)
  }

  function DaysInMonth(y: int, m: int): int
    requires 1 <= m <= 12
  {
    if m == 2 then (if IsLeapYear(y) then 29 else 28)
    else if m == 4 || m == 6 || m == 9 || m == 11 then 30
    else 31
  }

  predicate ValidDate(d: Date) {
    && MinYear <= d.year <= MaxYear
    && 1 <= d.month <= 12
    && 1 <= d.day <= DaysInMonth(d.year, d.month)
  }

  function DateOf(t: DateTime): Date {
    Date(t.year, t.month, t.day)
  }

  predicate ValidDateTime(t: DateTime) {
    && ValidDate(DateOf(t))
    && 0 <= t.hour < 24 && 0 <= t.minute < 60 && 0 <= t.second < 60
  }

  /** Chronological order on dates: by year, then month, then day. */
  predicate Before(a: Date, b: Date) {
    || a.year < b.year
    || (a.year == b.year && (a.month < b.month || (a.month == b.month && a.day < b.day)))
  }

  // ---------------------------------------------------------------------
  // Zero-padded decimal digits

  function DigitChar(d: int): char
    requires 0 <= d < 10
  {
    (48 + d) as char
  }

  function DigitValue(c: char): Option<int> {
    if '0' <= c <= '9' then Some(c as int - 48) else None
  }

  /** `%02d`, as `strftime` writes `%m`, `%d`, `%H`, `%M` and `%S`. */
  function Pad2(n: int): string
    requires 0 <= n < 100
  {
    [DigitChar(n / 10), DigitChar(n % 10)]
  }

  /** `%04d`, as `strftime` writes `%Y`. */
  function Pad4(n: int): string
    requires 0 <= n < 10000
  {
    Pad2(n / 100) + Pad2(n % 100)
  }

  function Parse2(s: string): Option<int>
    requires |s| == 2
  {
    match (DigitValue(s[0]), DigitValue(s[1]))
    case (Some(a), Some(b)) => Some(10 * a + b)
    case _ => None
  }

  function Parse4(s: string): Option<int>
    requires |s| == 4
  {
    match (Parse2(s[..2]), Parse2(s[2..]))
    case (Some(a), Some(b)) => Some(100 * a + b)
    case _ => None
  }

  lemma Pad2RoundTrip(n: int)
    requires 0 <= n < 100
    ensures Parse2(Pad2(n)) == Some(n)
  {
  }

  lemma Parse2Exact(s: string)
    requires |s| == 2 && Parse2(s).Some?
    ensures 0 <= Parse2(s).value < 100 && Pad2(Parse2(s).value) == s
  {
    var a, b := DigitValue(s[0]).value, DigitValue(s[1]).value;
    assert (10 * a + b) / 10 == a && (10 * a + b) % 10 == b;
  }

  lemma Pad4RoundTrip(n: int)
    requires 0 <= n < 10000
    ensures Parse4(Pad4(n)) == Some(n)
  {
    var s := Pad4(n);
    assert s[..2] == Pad2(n / 100) && s[2..] == Pad2(n % 100);
    Pad2RoundTrip(n / 100);
    Pad2RoundTrip(n % 100);
  }

  lemma Parse4Exact(s: string)
    requires |s| == 4 && Parse4(s).Some?
    ensures 0 <= Parse4(s).value < 10000 && Pad4(Parse4(s).value) == s
  {
    var a, b := Parse2(s[..2]).value, Parse2(s[2..]).value;
    Parse2Exact(s[..2]);
    Parse2Exact(s[2..]);
    assert (100 * a + b) / 100 == a && (100 * a + b) % 100 == b;
    assert s == s[..2] + s[2..];
  }

  // ---------------------------------------------------------------------
  // The two strftime formats shared by the handlers

  /** `strftime('%Y%m')`: the month label the aggregator searches for. */
  function YearMonth(t: DateTime): string
    requires ValidDateTime(t)
  {
    Pad4(t.year) + Pad2(t.month)
  }

  /** `strftime('%Y%m%d_%H%M%S')`: the timestamp the collector puts in its keys. */
  function Timestamp(t: DateTime): string
    requires ValidDateTime(t)
  {
    YearMonth(t) + Pad2(t.day) + "_" + Pad2(t.hour) + Pad2(t.minute) + Pad2(t.second)
  }

  /** Reads a `%Y%m%d_%H%M%S` timestamp back; `None` for anything else. */
  function ParseTimestamp(s: string): Option<DateTime> {
    if |s| != 15 || s[8] != '_' then None
    else
      match (Parse4(s[0..4]), Parse2(s[4..6]), Parse2(s[6..8]), Parse2(s[9..11]), Parse2(s[11..13]), Parse2(s[13..15]))
      case (Some(y), Some(mo), Some(d), Some(h), Some(mi), Some(se)) =>
        var t := DateTime(y, mo, d, h, mi, se);
        if ValidDateTime(t) then Some(t) else None
      case _ => None
  }

  /** A month label determines its year and month. */
  lemma {:induction false} YearMonthInjective(a: DateTime, b: DateTime)
    requires ValidDateTime(a) && ValidDateTime(b)
    ensures YearMonth(a) == YearMonth(b) <==> (a.year == b.year && a.month == b.month)
  {
    if YearMonth(a) == YearMonth(b) {
      var s := YearMonth(a);
      assert s[..4] == Pad4(a.year) && s[4..] == Pad2(a.month);
      assert YearMonth(b)[..4] == Pad4(b.year) && YearMonth(b)[4..] == Pad2(b.month);
      Pad4RoundTrip(a.year);
      Pad4RoundTrip(b.year);
      Pad2RoundTrip(a.month);
      Pad2RoundTrip(b.month);
    }
  }

  /** Formatting then parsing a timestamp gives the original reading back. */
  lemma {:induction false} TimestampRoundTrip(t: DateTime)
    requires ValidDateTime(t)
    ensures ParseTimestamp(Timestamp(t)) == Some(t)
  {
    var s := Timestamp(t);
    assert s[0..4] == Pad4(t.year);
    assert s[4..6] == Pad2(t.month);
    assert s[6..8] == Pad2(t.day);
    assert s[8] == '_';
    assert s[9..11] == Pad2(t.hour);
    assert s[11..13] == Pad2(t.minute);
    assert s[13..15] == Pad2(t.second);
    Pad4RoundTrip(t.year);
    Pad2RoundTrip(t.month);
    Pad2RoundTrip(t.day);
    Pad2RoundTrip(t.hour);
    Pad2RoundTrip(t.minute);
    Pad2RoundTrip(t.second);
  }

  /** Every string the parser accepts is the timestamp of what it returns. */
  lemma {:induction false} TimestampExact(s: string)
    requires ParseTimestamp(s).Some?
    ensures ValidDateTime(ParseTimestamp(s).value)
    ensures Timestamp(ParseTimestamp(s).value) == s
  {
    var t := ParseTimestamp(s).value;
    Parse4Exact(s[0..4]);
    Parse2Exact(s[4..6]);
    Parse2Exact(s[6..8]);
    Parse2Exact(s[9..11]);
    Parse2Exact(s[11..13]);
    Parse2Exact(s[13..15]);
    assert s == s[0..4] + s[4..6] + s[6..8] + [s[8]] + s[9..11] + s[11..13] + s[13..15];
  }
}
