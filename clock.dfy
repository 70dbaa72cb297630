/**
 * The part of .NET's DateTime that the price service depends on: a calendar
 * reading (year down to the sub-second ticks) together with its Kind, the
 * conversion to UTC, and instant equality.
 */
module Clock {

  /** DateTimeKind: how a reading is to be interpreted. */
  datatype Kind = Unspecified | Utc | Local

  /** A calendar reading; `fraction` counts the 100-nanosecond ticks within the second. */
  datatype Civil = Civil(year: nat, month: nat, day: nat, hour: nat, minute: nat, second: nat, fraction: nat)

  datatype DateTime = DateTime(civil: Civil, kind: Kind)

  /** 100-nanosecond ticks in one second and in one hour, as in .NET. */
  const TicksPerSecond: int := 10_000_000
  const TicksPerHour: int := 36_000_000_000

  predicate IsLeapYear(year: nat)
  {
    year % 4 == 0 && (year % 100 != 0 || year % 400 == 0)
  }

  function DaysInMonth(year: nat, month: nat): nat
    requires 1 <= month <= 12
  {
    if month == 2 then (if IsLeapYear(year) then 29 else 28)
    else if month in {4, 6, 9, 11} then 30
    else 31
  }

  /** The range of DateTime: 0001-01-01 00:00:00 up to 9999-12-31 23:59:59.9999999. */
  predicate ValidCivil(c: Civil)
  {
    && 1 <= c.year <= 9999
    && 1 <= c.month <= 12
    && 1 <= c.day <= DaysInMonth(c.year, c.month)
    && c.hour < 24
    && c.minute < 60
    && c.second < 60
    && c.fraction < TicksPerSecond
  }

  /**
   * DateTime.ToUniversalTime. A UTC reading is returned as it is; a Local or
   * Unspecified one is converted by the host time zone, which is given here
   * as `zone` (local calendar reading to UTC calendar reading).
   */
  function ToUniversalTime(t: DateTime, zone: Civil -> Civil): (u: DateTime)
    ensures u.kind == Utc
  {
    if t.kind == Utc then t else DateTime(zone(t.civil), Utc)
  }

  /** DateTime's `==`: it compares the instant (the ticks) and ignores Kind. */
  predicate SameInstant(a: DateTime, b: DateTime)
  {
    a.civil == b.civil
  }

  /** Converting to UTC yields a UTC reading, and converting it again changes nothing. */
  lemma ToUniversalTimeIdempotent(t: DateTime, zone: Civil -> Civil)
    ensures ToUniversalTime(t, zone).kind == Utc
    ensures ToUniversalTime(ToUniversalTime(t, zone), zone) == ToUniversalTime(t, zone)
    ensures t.kind == Utc ==> ToUniversalTime(t, zone) == t
  {
  }

}
