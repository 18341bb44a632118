/**
 * Calendar date-times as Python's `datetime` holds them, and the `strftime`
 * fields the pipeline prints. The current time is never read: every
 * operation that uses it takes a `DateTime` parameter.
 */
module Clock {
  import opened Text

  datatype DateTime = DateTime(year: int, month: int, day: int, hour: int, minute: int, second: int)

  predicate IsLeap(y: int)
  {
    y % 4 == 0 && (y % 100 != 0 || y % 400 == 0)
  }

  function DaysInMonth(y: int, m: int): (d: int)
    requires 1 <= m <= 12
    ensures 28 <= d <= 31
  {
    if m == 2 then (if IsLeap(y) then 29 else 28)
    else if m == 4 || m == 6 || m == 9 || m == 11 then 30
    else 31
  }

  /** The values `datetime(year, month, day, hour, minute, second)` accepts without raising. */
  predicate Valid(t: DateTime)
  {
    1 <= t.year <= 9999 && 1 <= t.month <= 12 && 1 <= t.day <= DaysInMonth(t.year, t.month) &&
    0 <= t.hour < 24 && 0 <= t.minute < 60 && 0 <= t.second < 60
  }

  /** Chronological order on date-times. */
  predicate Before(a: DateTime, b: DateTime)
  {
    a.year < b.year || (a.year == b.year &&
    (a.month < b.month || (a.month == b.month &&
    (a.day < b.day || (a.day == b.day &&
    (a.hour < b.hour || (a.hour == b.hour &&
    (a.minute < b.minute || (a.minute == b.minute && a.second < b.second)))))))))
  }

  /** A number that orders valid date-times chronologically, used as a sort key. */
  function Ordinal(t: DateTime): int
  {
    ((((t.year * 12 + t.month) * 31 + t.day) * 24 + t.hour) * 60 + t.minute) * 60 + t.second
  }

  lemma OrdinalStep(hi1: int, lo1: int, hi2: int, lo2: int, base: int)
    requires 0 <= lo1 < base && 0 <= lo2 < base
    ensures hi1 * base + lo1 < hi2 * base + lo2 <==> hi1 < hi2 || (hi1 == hi2 && lo1 < lo2)
  {
    if hi1 < hi2 {
      MulGap(hi1, hi2, base);
    } else if hi2 < hi1 {
      MulGap(hi2, hi1, base);
    }
  }

  /** A larger high part outweighs any low part below the base. */
  lemma {:induction false} MulGap(a: int, b: int, base: int)
    requires a < b && 0 < base
    ensures a * base + base <= b * base
    decreases b - a
  {
    if a + 1 < b {
      MulGap(a, b - 1, base);
    }
    assert (b - 1) * base + base == b * base;
  }

  /** The sort key agrees with chronological order, and equal keys mean equal date-times. */
  lemma OrdinalOrder(a: DateTime, b: DateTime)
    requires Valid(a) && Valid(b)
    ensures Ordinal(a) < Ordinal(b) <==> Before(a, b)
    ensures Ordinal(a) == Ordinal(b) <==> a == b
  {
    var ym1, ym2 := a.year * 12 + a.month - 1, b.year * 12 + b.month - 1;
    OrdinalStep(a.year, a.month - 1, b.year, b.month - 1, 12);
    var d1, d2 := ym1 * 31 + a.day - 1, ym2 * 31 + b.day - 1;
    OrdinalStep(ym1, a.day - 1, ym2, b.day - 1, 31);
    var h1, h2 := d1 * 24 + a.hour, d2 * 24 + b.hour;
    OrdinalStep(d1, a.hour, d2, b.hour, 24);
    var m1, m2 := h1 * 60 + a.minute, h2 * 60 + b.minute;
    OrdinalStep(h1, a.minute, h2, b.minute, 60);
    OrdinalStep(m1, a.second, m2, b.second, 60);
    assert Ordinal(a) - Ordinal(b) == (m1 * 60 + a.second) - (m2 * 60 + b.second);
    OrdinalStep(m2, b.second, m1, a.second, 60);
  }

  /** `%Y`: the year in decimal (the C library does not pad years below 1000). */
  function YearText(t: DateTime): string
  {
    if t.year >= 0 then Decimal(t.year) else IntToString(t.year)
  }

  /** A two-digit `strftime` field (`%m`, `%d`, `%H`, `%M`, `%S`). */
  function Two(n: int): (r: string)
    ensures 0 <= n < 100 ==> |r| == 2 && AllDigits(r) && DigitsValue(r) == n
  {
    Format02d(n)
  }

  /** `strftime('%Y年%m月')`. */
  function MonthText(t: DateTime): string
  {
    YearText(t) + "年" + Two(t.month) + "月"
  }

  /** `strftime('%Y%m%d_%H%M%S')`. */
  function CompactStamp(t: DateTime): string
  {
    YearText(t) + Two(t.month) + Two(t.day) + "_" + Two(t.hour) + Two(t.minute) + Two(t.second)
  }

  /** `strftime('%Y%m%d_%H%M')`. */
  function CompactMinute(t: DateTime): string
  {
    YearText(t) + Two(t.month) + Two(t.day) + "_" + Two(t.hour) + Two(t.minute)
  }

  /** `strftime('%Y-%m-%d %H:%M:%S')`. */
  function IsoSeconds(t: DateTime): string
  {
    YearText(t) + "-" + Two(t.month) + "-" + Two(t.day) + " " + Two(t.hour) + ":" + Two(t.minute) + ":" + Two(t.second)
  }

  /** `isoformat()` of a date-time without microseconds: `YYYY-MM-DDTHH:MM:SS`, the year padded to four digits. */
  function IsoFormat(t: DateTime): string
  {
    (if t.year >= 0 then ZeroPad(t.year, 4) else IntToString(t.year)) +
    "-" + Two(t.month) + "-" + Two(t.day) + "T" + Two(t.hour) + ":" + Two(t.minute) + ":" + Two(t.second)
  }
}
