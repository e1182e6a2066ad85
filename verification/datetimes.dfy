/** Wall-clock timestamps as LocalDateTime holds them, down to the
    nanosecond.  A requested instant may carry a fraction of a second even
    though the stored windows are written to the second.  Resolution only
    ever compares timestamps, so an `Instant` is any integer encoding that
    orders the same way the calendar does. */
module DateTimes {

  /** The integer form of a timestamp that the price filters compare. */
  type Instant = int

  datatype DateTime = DateTime(year: int, month: int, day: int, hour: int, minute: int, second: int, nano: int)

  predicate IsLeapYear(year: int) {
    year % 4 == 0 && (year % 100 != 0 || year % 400 == 0)
  }

  function DaysInMonth(year: int, month: int): (n: int)
    requires 1 <= month <= 12
    ensures 28 <= n <= 31
    ensures month == 2 ==> (n == 29 <==> IsLeapYear(year))
  {
    if month == 2 then (if IsLeapYear(year) then 29 else 28)
    else if month == 4 || month == 6 || month == 9 || month == 11 then 30
    else 31
  }

  /** Nanoseconds in one second. */
  const NanosPerSecond: int := 1_000_000_000

  /** A real calendar date and time of day. */
  predicate ValidDateTime(t: DateTime) {
    && 1 <= t.month <= 12
    && 1 <= t.day <= DaysInMonth(t.year, t.month)
    && 0 <= t.hour < 24
    && 0 <= t.minute < 60
    && 0 <= t.second < 60
    && 0 <= t.nano < NanosPerSecond
  }

  /** Chronological order of two date-times: the date first (year, month,
      day), then the time of day, as LocalDateTime compares them. */
  predicate IsBefore(a: DateTime, b: DateTime) {
    if a.year != b.year then a.year < b.year
    else if a.month != b.month then a.month < b.month
    else if a.day != b.day then a.day < b.day
    else if a.hour != b.hour then a.hour < b.hour
    else if a.minute != b.minute then a.minute < b.minute
    else if a.second != b.second then a.second < b.second
    else a.nano < b.nano
  }

  /** Appends a two-digit field to a decimal number. */
  function Shift(high: int, low: int): int {
    high * 100 + low
  }

  /** Appends a nine-digit nanosecond field to a decimal number. */
  function ShiftNanos(high: int, nano: int): int {
    high * NanosPerSecond + nano
  }

  /** The timestamp packed as the decimal number yyyyMMddHHmmss followed by
      nine digits of nanoseconds. */
  function ToInstant(t: DateTime): Instant {
    ShiftNanos(Shift(Shift(Shift(Shift(Shift(t.year, t.month), t.day), t.hour), t.minute), t.second), t.nano)
  }

  /** A timestamp on a whole second. */
  function At(year: int, month: int, day: int, hour: int, minute: int, second: int): Instant {
    ToInstant(DateTime(year, month, day, hour, minute, second, 0))
  }

  /** Appending a two-digit field keeps lexicographic order. */
  lemma ShiftOrder(a: int, b: int, c: int, d: int)
    requires 0 <= b < 100 && 0 <= d < 100
    ensures Shift(a, b) < Shift(c, d) <==> a < c || (a == c && b < d)
    ensures Shift(a, b) == Shift(c, d) <==> a == c && b == d
  {
  }

  /** Appending the nanosecond field keeps lexicographic order. */
  lemma ShiftNanosOrder(a: int, b: int, c: int, d: int)
    requires 0 <= b < NanosPerSecond && 0 <= d < NanosPerSecond
    ensures ShiftNanos(a, b) < ShiftNanos(c, d) <==> a < c || (a == c && b < d)
    ensures ShiftNanos(a, b) == ShiftNanos(c, d) <==> a == c && b == d
  {
  }

  /** The packed integers order valid date-times chronologically and tell
      distinct ones apart, so comparing Instants is comparing LocalDateTimes. */
  lemma ToInstantIsChronological(a: DateTime, b: DateTime)
    requires ValidDateTime(a) && ValidDateTime(b)
    ensures IsBefore(a, b) <==> ToInstant(a) < ToInstant(b)
    ensures a == b <==> ToInstant(a) == ToInstant(b)
  {
    ShiftOrder(a.year, a.month, b.year, b.month);
    var am, bm := Shift(a.year, a.month), Shift(b.year, b.month);
    ShiftOrder(am, a.day, bm, b.day);
    var ad, bd := Shift(am, a.day), Shift(bm, b.day);
    ShiftOrder(ad, a.hour, bd, b.hour);
    var ah, bh := Shift(ad, a.hour), Shift(bd, b.hour);
    ShiftOrder(ah, a.minute, bh, b.minute);
    var ai, bi := Shift(ah, a.minute), Shift(bh, b.minute);
    ShiftOrder(ai, a.second, bi, b.second);
    var asec, bsec := Shift(ai, a.second), Shift(bi, b.second);
    ShiftNanosOrder(asec, a.nano, bsec, b.nano);
  }

}
