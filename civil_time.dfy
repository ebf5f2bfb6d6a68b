/**
 * `datetime.fromtimestamp(t, tz=timezone.utc)` for non-negative epoch seconds, and the
 * `strftime("%Y%m%d%H%M%S")` rendering the session schema builds its sort keys from.
 */
module CivilTime {
  import opened Wrappers
  import opened Types
  import opened PyText

  const SECONDS_PER_DAY: nat := 86400
  const EPOCH_YEAR: int := 1970
  /** `datetime.MAXYEAR`. */
  const MAX_YEAR: int := 9999

  datatype DateTime = DateTime(year: int, month: int, day: int, hour: int, minute: int, second: int)

  // ---------------------------------------------------------------------------
  // The proleptic Gregorian calendar
  // ---------------------------------------------------------------------------

  predicate IsLeapYear(y: int) {
    y % 4 == 0 && (y % 100 != 0 || y % 400 == 0)
  }

  function DaysInYear(y: int): nat {
    if IsLeapYear(y) then 366 else 365
  }

  function DaysInMonth(y: int, m: int): nat
    requires 1 <= m <= 12
  {
    if m == 2 then (if IsLeapYear(y) then 29 else 28)
    else if m == 4 || m == 6 || m == 9 || m == 11 then 30
    else 31
  }

  /** Days of year `y` that lie before the first of month `m`. */
  function DaysBeforeMonth(y: int, m: int): nat
    requires 1 <= m <= 12
  {
    var table := [0, 31, 59, 90, 120, 151, 181, 212, 243, 273, 304, 334];
    table[m - 1] + (if IsLeapYear(y) && m > 2 then 1 else 0)
  }

  /** Days from 1 January of year `lo` to 1 January of year `hi`. */
  function DaysBetween(lo: int, hi: int): nat
    requires lo <= hi
    decreases hi - lo
  {
    if lo == hi then 0 else DaysInYear(lo) + DaysBetween(lo + 1, hi)
  }

  predicate ValidDateTime(d: DateTime) {
    && 1 <= d.year <= MAX_YEAR
    && 1 <= d.month <= 12
    && 1 <= d.day <= DaysInMonth(d.year, d.month)
    && 0 <= d.hour < 24
    && 0 <= d.minute < 60
    && 0 <= d.second < 60
  }

  /** Seconds from the epoch to `d`, the inverse of `FromTimestamp`. */
  function EpochSeconds(d: DateTime): int
    requires ValidDateTime(d) && d.year >= EPOCH_YEAR
  {
    var days := DaysBetween(EPOCH_YEAR, d.year) + DaysBeforeMonth(d.year, d.month) + d.day - 1;
    days * SECONDS_PER_DAY + d.hour * 3600 + d.minute * 60 + d.second
  }

  // ---------------------------------------------------------------------------
  // Day number to calendar date
  // ---------------------------------------------------------------------------

  /** The year holding day `days` counted from 1 January of `y`, and the day's index within it. */
  function YearOf(days: nat, y: int): (r: (int, nat))
    ensures r.0 >= y && r.1 < DaysInYear(r.0) && DaysBetween(y, r.0) + r.1 == days
    decreases days
  {
    if days < DaysInYear(y) then (y, days) else YearOf(days - DaysInYear(y), y + 1)
  }

  /** Month and day of month of day `doy` counted from the first of month `m` of year `y`. */
  function MonthOf(doy: nat, y: int, m: int): (r: (int, int))
    requires 1 <= m <= 12
    requires DaysBeforeMonth(y, m) + doy < DaysInYear(y)
    ensures m <= r.0 <= 12 && 1 <= r.1 <= DaysInMonth(y, r.0)
    ensures DaysBeforeMonth(y, r.0) + r.1 - 1 == DaysBeforeMonth(y, m) + doy
    decreases 12 - m
  {
    if doy < DaysInMonth(y, m) then (m, doy + 1)
    else MonthOf(doy - DaysInMonth(y, m), y, m + 1)
  }

  lemma {:induction false} YearOfReachesBound(days: nat, y: int, bound: int)
    requires y <= bound
    ensures YearOf(days, y).0 >= bound <==> days >= DaysBetween(y, bound)
    decreases days
  {
    if days >= DaysInYear(y) && y < bound {
      YearOfReachesBound(days - DaysInYear(y), y + 1, bound);
    }
  }

  /** First second after 31 December 9999, 23:59:59 UTC. */
  function EndOfTime(): nat {
    DaysBetween(EPOCH_YEAR, MAX_YEAR + 1) * SECONDS_PER_DAY
  }

  /**
   * `datetime.fromtimestamp(t, tz=timezone.utc)`: the calendar date and time `t` seconds
   * after the epoch, or `ValueError` once the year would pass 9999.
   */
  function FromTimestamp(t: nat): (r: Result<DateTime, Exception>)
    ensures r.Success? ==> ValidDateTime(r.value) && r.value.year >= EPOCH_YEAR
    ensures r.Success? ==> EpochSeconds(r.value) == t
    ensures r.Failure? <==> t >= EndOfTime()
    ensures r.Failure? ==> r.error.kind == ValueError
  {
    var days := t / SECONDS_PER_DAY;
    var secs := t % SECONDS_PER_DAY;
    var (y, doy) := YearOf(days, EPOCH_YEAR);
    YearOfReachesBound(days, EPOCH_YEAR, MAX_YEAR + 1);
    if y > MAX_YEAR then
      Failure(Exception(ValueError, "year " + IntToString(y) + " is out of range"))
    else
      var (m, d) := MonthOf(doy, y, 1);
      Success(DateTime(y, m, d, secs / 3600, secs % 3600 / 60, secs % 60))
  }

  lemma EpochIsMidnightNewYear()
    ensures FromTimestamp(0) == Success(DateTime(1970, 1, 1, 0, 0, 0))
  {
  }

  // ---------------------------------------------------------------------------
  // strftime
  // ---------------------------------------------------------------------------

  /** `%Y` as glibc renders it: the year's decimal digits, with no zero-fill below 1000. */
  function YearField(y: int): string {
    IntToString(y)
  }

  /** A four-digit year renders in its four-digit slot. */
  lemma YearFieldFixed(y: int)
    requires 1000 <= y <= 9999
    ensures YearField(y) == FixedDigits(y, 4)
  {
    assert Pow10(3) == 1000 && Pow10(4) == 10000;
    DecimalLong(y, 3);
    ZeroPadFixed(y, 4);
  }

  /** `strftime("%Y%m%d%H%M%S")`. */
  function Timestamp14(d: DateTime): string {
    YearField(d.year) + ZeroPad(d.month, 2) + ZeroPad(d.day, 2)
      + ZeroPad(d.hour, 2) + ZeroPad(d.minute, 2) + ZeroPad(d.second, 2)
  }

  /** A valid date and time renders as 14 digits, each field in its fixed-width slot. */
  lemma {:induction false} Timestamp14Digits(d: DateTime)
    requires ValidDateTime(d) && d.year >= 1000
    ensures Timestamp14(d) == FixedDigits(d.year, 4) + FixedDigits(d.month, 2) + FixedDigits(d.day, 2)
                              + FixedDigits(d.hour, 2) + FixedDigits(d.minute, 2) + FixedDigits(d.second, 2)
    ensures |Timestamp14(d)| == 14 && AllDigits(Timestamp14(d))
  {
    assert Pow10(2) == 100;
    YearFieldFixed(d.year);
    ZeroPadFixed(d.month, 2);
    ZeroPadFixed(d.day, 2);
    ZeroPadFixed(d.hour, 2);
    ZeroPadFixed(d.minute, 2);
    ZeroPadFixed(d.second, 2);
    var y, mo, dd := FixedDigits(d.year, 4), FixedDigits(d.month, 2), FixedDigits(d.day, 2);
    var h, mi, se := FixedDigits(d.hour, 2), FixedDigits(d.minute, 2), FixedDigits(d.second, 2);
    AllDigitsConcat(y, mo);
    AllDigitsConcat(y + mo, dd);
    AllDigitsConcat(y + mo + dd, h);
    AllDigitsConcat(y + mo + dd + h, mi);
    AllDigitsConcat(y + mo + dd + h + mi, se);
  }

  /** The rendering is injective on valid date-times: every field reads back from its slot. */
  lemma {:induction false} Timestamp14Injective(d1: DateTime, d2: DateTime)
    requires ValidDateTime(d1) && ValidDateTime(d2) && d1.year >= 1000 && d2.year >= 1000
    requires Timestamp14(d1) == Timestamp14(d2)
    ensures d1 == d2
  {
    Timestamp14Digits(d1);
    Timestamp14Digits(d2);
    assert Pow10(2) == 100 && Pow10(4) == 10000;
    var y1, mo1, dd1, h1, mi1, s1 := FixedDigits(d1.year, 4), FixedDigits(d1.month, 2), FixedDigits(d1.day, 2),
      FixedDigits(d1.hour, 2), FixedDigits(d1.minute, 2), FixedDigits(d1.second, 2);
    var y2, mo2, dd2, h2, mi2, s2 := FixedDigits(d2.year, 4), FixedDigits(d2.month, 2), FixedDigits(d2.day, 2),
      FixedDigits(d2.hour, 2), FixedDigits(d2.minute, 2), FixedDigits(d2.second, 2);
    assert y1 + mo1 + dd1 + h1 + mi1 + s1 == y2 + mo2 + dd2 + h2 + mi2 + s2;
    ConcatSameLength(y1 + mo1 + dd1 + h1 + mi1, s1, y2 + mo2 + dd2 + h2 + mi2, s2);
    ConcatSameLength(y1 + mo1 + dd1 + h1, mi1, y2 + mo2 + dd2 + h2, mi2);
    ConcatSameLength(y1 + mo1 + dd1, h1, y2 + mo2 + dd2, h2);
    ConcatSameLength(y1 + mo1, dd1, y2 + mo2, dd2);
    ConcatSameLength(y1, mo1, y2, mo2);
    FixedDigitsInjective(d1.year, d2.year, 4);
    FixedDigitsInjective(d1.month, d2.month, 2);
    FixedDigitsInjective(d1.day, d2.day, 2);
    FixedDigitsInjective(d1.hour, d2.hour, 2);
    FixedDigitsInjective(d1.minute, d2.minute, 2);
    FixedDigitsInjective(d1.second, d2.second, 2);
  }

  /** The `ts` of a session key: `t` rendered in UTC, or the error `fromtimestamp` raises. */
  function TimestampOf(t: nat): (r: Result<string, Exception>)
    ensures r.Success? ==> |r.value| == 14 && AllDigits(r.value)
    ensures r.Failure? <==> t >= EndOfTime()
  {
    var dt :- FromTimestamp(t);
    Timestamp14Digits(dt);
    Success(Timestamp14(dt))
  }

  /** Distinct instants give distinct `ts` strings. */
  lemma {:induction false} TimestampOfInjective(t1: nat, t2: nat)
    requires TimestampOf(t1).Success? && TimestampOf(t2).Success?
    requires TimestampOf(t1).value == TimestampOf(t2).value
    ensures t1 == t2
  {
    var d1, d2 := FromTimestamp(t1).value, FromTimestamp(t2).value;
    Timestamp14Injective(d1, d2);
  }
}
