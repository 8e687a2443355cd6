/**
 * Calendar instants as MongoDB's date operators see them in UTC, and the
 * fixed-width decimal renderings used by `$dateToString` (`%Y`, `%m`, `%d`)
 * and by `Date.prototype.toISOString`.
 */
module Calendar {

  const MillisPerDay: nat := 86400000

  /**
   * A UTC instant: calendar date plus milliseconds since midnight. The year
   * is signed, because an ISO date string may carry a six-digit year with a
   * sign (`-000001-01-01`).
   */
  datatype Timestamp = Timestamp(year: int, month: nat, day: nat, millis: nat)

  predicate IsLeapYear(y: nat)
  {
    y % 4 == 0 && (y % 100 != 0 || y % 400 == 0)
  }

  function DaysInMonth(y: nat, m: nat): nat
  {
    if m == 2 then (if IsLeapYear(y) then 29 else 28)
    else if m == 4 || m == 6 || m == 9 || m == 11 then 30
    else 31
  }

  /** A real calendar day in the years 0-9999, the only ones `$dateToString` formats, and a time of day. */
  predicate Valid(t: Timestamp)
  {
    && 0 <= t.year <= 9999
    && 1 <= t.month <= 12
    && 1 <= t.day <= DaysInMonth(t.year, t.month)
    && t.millis < MillisPerDay
  }

  /** Strictly earlier in time: lexicographic on (year, month, day, millis). */
  predicate Before(a: Timestamp, b: Timestamp)
  {
    || a.year < b.year
    || (a.year == b.year && a.month < b.month)
    || (a.year == b.year && a.month == b.month && a.day < b.day)
    || (a.year == b.year && a.month == b.month && a.day == b.day && a.millis < b.millis)
  }

  /** A position on a time line that orders valid timestamps like `Before` (used as a sort rank). */
  function Ordinal(t: Timestamp): int
  {
    ((t.year * 12 + (t.month - 1)) * 31 + (t.day - 1)) * MillisPerDay + t.millis
  }

  lemma MulMonotone(x: int, y: int, base: int)
    requires base > 0 && x < y
    ensures x * base + base <= y * base
  {
    var d := y - x;
    assert (d - 1) * base >= 0;
    assert y * base == x * base + d * base;
    assert d * base == (d - 1) * base + base;
  }

  lemma MixedRadix(a1: int, b1: int, a2: int, b2: int, base: int)
    requires base > 0 && 0 <= b1 < base && 0 <= b2 < base
    ensures a1 * base + b1 < a2 * base + b2 <==> a1 < a2 || (a1 == a2 && b1 < b2)
    ensures a1 * base + b1 == a2 * base + b2 <==> a1 == a2 && b1 == b2
  {
    if a1 < a2 {
      MulMonotone(a1, a2, base);
    } else if a2 < a1 {
      MulMonotone(a2, a1, base);
    }
  }

  /** `Ordinal` orders valid timestamps exactly as `Before` does, and tells distinct ones apart. */
  lemma OrdinalOrder(a: Timestamp, b: Timestamp)
    requires Valid(a) && Valid(b)
    ensures Ordinal(a) < Ordinal(b) <==> Before(a, b)
    ensures Ordinal(a) == Ordinal(b) <==> a == b
  {
    MixedRadix(a.year, a.month - 1, b.year, b.month - 1, 12);
    MixedRadix(a.year * 12 + (a.month - 1), a.day - 1, b.year * 12 + (b.month - 1), b.day - 1, 31);
    MixedRadix((a.year * 12 + (a.month - 1)) * 31 + (a.day - 1), a.millis,
               (b.year * 12 + (b.month - 1)) * 31 + (b.day - 1), b.millis, MillisPerDay);
  }

  function Pow10(w: nat): nat
  {
    if w == 0 then 1 else 10 * Pow10(w - 1)
  }

  function DigitChar(d: nat): char
    requires d < 10
  {
    ('0' as int + d) as char
  }

  /** The value of one decimal digit character. */
  function CharValue(c: char): nat
  {
    if '0' <= c <= '9' then c as int - '0' as int else 0
  }

  predicate IsDigit(c: char)
  {
    '0' <= c <= '9'
  }

  /** The `w` lowest decimal digits of `n`, zero-padded on the left. */
  function Digits(n: nat, w: nat): (s: string)
    ensures |s| == w
    ensures forall i | 0 <= i < |s| :: IsDigit(s[i])
  {
    if w == 0 then "" else Digits(n / 10, w - 1) + [DigitChar(n % 10)]
  }

  /** The number a string of decimal digits denotes. */
  function DigitsValue(s: string): nat
  {
    if s == [] then 0 else DigitsValue(s[..|s| - 1]) * 10 + CharValue(s[|s| - 1])
  }

  /** Reading back a zero-padded rendering gives the number, when it fits the width. */
  lemma {:induction false} DigitsRoundTrip(n: nat, w: nat)
    requires n < Pow10(w)
    ensures DigitsValue(Digits(n, w)) == n
  {
    if w > 0 {
      DigitsRoundTrip(n / 10, w - 1);
      var s := Digits(n, w);
      assert s[..|s| - 1] == Digits(n / 10, w - 1);
    }
  }

  /**
   * `$dateToString` with format `%Y`: the four digits of a year in 0-9999.
   * MongoDB refuses every other year, and the query then fails as a whole
   * (`SalesData`), so the lowest four digits stand in for such a year here.
   */
  function FormatY(t: Timestamp): string
  {
    Digits(t.year % 10000, 4)
  }

  /** For a valid timestamp the `%Y` rendering reads back to the year. */
  lemma FormatYReadsBack(t: Timestamp)
    requires Valid(t)
    ensures FormatY(t) == Digits(t.year, 4)
    ensures DigitsValue(FormatY(t)) == t.year
  {
    assert Pow10(2) == 100;
    assert Pow10(4) == 10000;
    assert t.year % 10000 == t.year;
    DigitsRoundTrip(t.year, 4);
  }

  /** `$dateToString` with format `%Y-%m`. */
  function FormatYm(t: Timestamp): string
  {
    FormatY(t) + "-" + Digits(t.month, 2)
  }

  /** `$dateToString` with format `%Y-%m-%d`. */
  function FormatYmd(t: Timestamp): string
  {
    FormatYm(t) + "-" + Digits(t.day, 2)
  }

  /** `new Date(t).toISOString()`: `YYYY-MM-DDTHH:mm:ss.sssZ`. */
  function IsoString(t: Timestamp): string
  {
    FormatYmd(t) + "T"
      + Digits(t.millis / 3600000, 2) + ":" + Digits(t.millis / 60000 % 60, 2) + ":"
      + Digits(t.millis / 1000 % 60, 2) + "." + Digits(t.millis % 1000, 3) + "Z"
  }
}
