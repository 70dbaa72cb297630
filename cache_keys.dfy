/**
 * The cache key `btc_price_{timestamp:yyyyMMddHH}`: the requested reading's
 * own year, month, day and hour, zero-padded and concatenated after a fixed
 * prefix. The reading is formatted as given; no conversion to UTC happens.
 */
module CacheKeys {

  import opened Wrappers
  import opened Clock

  const Prefix: string := "btc_price_"

  /** The fields of a reading that the key keeps. */
  datatype HourBucket = HourBucket(year: nat, month: nat, day: nat, hour: nat)

  function BucketOf(t: DateTime): HourBucket
  {
    HourBucket(t.civil.year, t.civil.month, t.civil.day, t.civil.hour)
  }

  function Pow10(n: nat): (p: nat)
    ensures p >= 1
  {
    if n == 0 then 1 else 10 * Pow10(n - 1)
  }

  predicate IsDigit(c: char)
  {
    '0' <= c <= '9'
  }

  function DigitChar(d: nat): char
    requires d < 10
  {
    ('0' as int + d) as char
  }

  function DigitValue(c: char): nat
  {
    if IsDigit(c) then c as int - '0' as int else 0
  }

  /** The `width` lowest decimal digits of `n`, most significant first (the custom format "0000"). */
  function Digits(n: nat, width: nat): (s: string)
    ensures |s| == width
    ensures forall i :: 0 <= i < |s| ==> IsDigit(s[i])
  {
    if width == 0 then "" else Digits(n / 10, width - 1) + [DigitChar(n % 10)]
  }

  /** The number a string of decimal digits denotes. */
  function DecimalValue(s: string): nat
  {
    if s == [] then 0 else 10 * DecimalValue(s[..|s| - 1]) + DigitValue(s[|s| - 1])
  }

  lemma {:induction false} DecimalValueOfDigits(n: nat, width: nat)
    requires n < Pow10(width)
    ensures DecimalValue(Digits(n, width)) == n
  {
    if width > 0 {
      var s := Digits(n, width);
      assert s[..|s| - 1] == Digits(n / 10, width - 1);
      assert n / 10 < Pow10(width - 1);
      DecimalValueOfDigits(n / 10, width - 1);
    }
  }

  /** The key under which the price for reading `t` is cached. */
  function PriceCacheKey(t: DateTime): (k: string)
    ensures |k| == |Prefix| + 10 && k[..|Prefix|] == Prefix
    ensures forall i :: |Prefix| <= i < |k| ==> IsDigit(k[i])
  {
    var tail := Digits(t.civil.year, 4) + Digits(t.civil.month, 2) + Digits(t.civil.day, 2) + Digits(t.civil.hour, 2);
    assert forall j :: 0 <= j < |tail| ==> IsDigit(tail[j]);
    Prefix + tail
  }

  /** Reads the hour bucket back out of a cache key; None for a string of another shape. */
  function ParseCacheKey(k: string): Option<HourBucket>
  {
    if |k| == 20 && k[..10] == Prefix && forall i :: 10 <= i < 20 ==> IsDigit(k[i]) then
      Some(HourBucket(DecimalValue(k[10..14]), DecimalValue(k[14..16]), DecimalValue(k[16..18]), DecimalValue(k[18..20])))
    else
      None
  }

  /** Every key of a valid reading parses back to that reading's hour bucket. */
  lemma ParseCacheKeyRoundTrip(t: DateTime)
    requires ValidCivil(t.civil)
    ensures ParseCacheKey(PriceCacheKey(t)) == Some(BucketOf(t))
  {
    var c := t.civil;
    var y, mo, d, h := Digits(c.year, 4), Digits(c.month, 2), Digits(c.day, 2), Digits(c.hour, 2);
    var k := PriceCacheKey(t);
    assert k == Prefix + y + mo + d + h;
    assert k[..10] == Prefix;
    assert k[10..14] == y;
    assert k[14..16] == mo;
    assert k[16..18] == d;
    assert k[18..20] == h;
    assert forall i :: 10 <= i < 20 ==> IsDigit(k[i]) by {
      forall i | 10 <= i < 20 ensures IsDigit(k[i]) {
        if i < 14 { assert k[i] == y[i - 10]; }
        else if i < 16 { assert k[i] == mo[i - 14]; }
        else if i < 18 { assert k[i] == d[i - 16]; }
        else { assert k[i] == h[i - 18]; }
      }
    }
    assert Pow10(2) == 100 && Pow10(4) == 10000;
    DecimalValueOfDigits(c.year, 4);
    DecimalValueOfDigits(c.month, 2);
    DecimalValueOfDigits(c.day, 2);
    DecimalValueOfDigits(c.hour, 2);
  }

  /**
   * Two valid readings share a key exactly when they agree on year, month,
   * day and hour: readings within one hour share a key, and distinct hours
   * get distinct keys. Minutes, seconds and Kind play no part.
   */
  lemma CacheKeyIdentifiesHour(a: DateTime, b: DateTime)
    requires ValidCivil(a.civil) && ValidCivil(b.civil)
    ensures PriceCacheKey(a) == PriceCacheKey(b) <==> BucketOf(a) == BucketOf(b)
  {
    ParseCacheKeyRoundTrip(a);
    ParseCacheKeyRoundTrip(b);
  }

  /** The key is taken from the reading as given: a Local and a UTC reading of the same calendar
      time share one key, yet whenever the host zone shifts that time they are different UTC
      instants, so one cache entry answers both. */
  lemma LocalAndUtcReadingsShareKey(c: Civil, zone: Civil -> Civil)
    requires zone(c) != c
    ensures PriceCacheKey(DateTime(c, Local)) == PriceCacheKey(DateTime(c, Utc))
    ensures !SameInstant(ToUniversalTime(DateTime(c, Local), zone), ToUniversalTime(DateTime(c, Utc), zone))
  {
  }

}
