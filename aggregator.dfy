/**
 * GetAggregatedPriceAsync: the ordered fallback cache -> store -> both
 * upstream quotes -> mean -> append -> cache. `Resolution` states what one
 * call does to the cache and the store and what it answers; the service
 * class at the end performs it step by step on its own fields and is
 * proved to agree with it. The two upstream quotes (what FetchPriceFromApi
 * returned for the Bitstamp and the Bitfinex URL), the clock reading, and
 * whether saving to the store succeeds are inputs of a call.
 */
module Aggregator {

  import opened Wrappers
  import opened Clock
  import opened CacheKeys
  import opened Cache
  import opened Store

  /** What a call produces: a price, null (no price), or the exception a failed save raises. */
  datatype Outcome = Found(price: real) | NotFound | StorageFault

  /** The two pieces of state a call can change. */
  datatype State = State(cache: Entries, store: seq<BitcoinPrice>)

  datatype Step = Step(outcome: Outcome, after: State)

  /** Which part of the fallback chain a call reaches. */
  datatype Path = FromCache | FromStore | FromUpstream

  /** Cached prices live for one hour. */
  const CacheTtl: int := TicksPerHour

  /** The consensus of two quotes: their arithmetic mean. */
  function Mean(p1: real, p2: real): real
  {
    (p1 + p2) / 2.0
  }

  /** The mean does not depend on which source is asked first, and lies between the two quotes. */
  lemma MeanIsOrderFreeAndBetween(p1: real, p2: real)
    ensures Mean(p1, p2) == Mean(p2, p1)
    ensures p1 <= p2 ==> p1 <= Mean(p1, p2) <= p2
    ensures p2 <= p1 ==> p2 <= Mean(p1, p2) <= p1
  {
  }

  /** The path a call takes depends only on the state, the timestamp and the clock, never on the quotes. */
  function PathOf(s: State, zone: Civil -> Civil, timestamp: DateTime, now: int): Path
  {
    if TryGetValue(s.cache, PriceCacheKey(timestamp), now).Some? then FromCache
    else if FirstOrDefault(s.store, ToUniversalTime(timestamp, zone)).Some? then FromStore
    else FromUpstream
  }

  /** One call of GetAggregatedPriceAsync. */
  function Resolution(s: State, zone: Civil -> Civil, timestamp: DateTime, now: int,
                      quote1: Option<real>, quote2: Option<real>, saveSucceeds: bool): Step
  {
    var key := PriceCacheKey(timestamp);
    match TryGetValue(s.cache, key, now)
    case Some(cached) => Step(Found(cached), s)
    case None =>
      var utc := ToUniversalTime(timestamp, zone);
      match FirstOrDefault(s.store, utc)
      case Some(record) =>
        Step(Found(record.aggregatedPrice), State(Set(s.cache, key, record.aggregatedPrice, CacheTtl, now), s.store))
      case None =>
        if quote1.None? || quote2.None? then Step(NotFound, s)
        else
          var aggregated := Mean(quote1.value, quote2.value);
          if !saveSucceeds then Step(StorageFault, s)
          else
            var store' := s.store + [BitcoinPrice(utc, aggregated)];
            Step(Found(aggregated), State(Set(s.cache, key, aggregated, CacheTtl, now), store'))
  }

  // What one call does, path by path.

  /** A live cache entry answers at once; nothing changes and neither quote is looked at. */
  lemma ResolutionCacheHit(s: State, zone: Civil -> Civil, timestamp: DateTime, now: int,
                           quote1: Option<real>, quote2: Option<real>, saveSucceeds: bool)
    requires IsLive(s.cache, PriceCacheKey(timestamp), now)
    ensures PathOf(s, zone, timestamp, now) == FromCache
    ensures Resolution(s, zone, timestamp, now, quote1, quote2, saveSucceeds)
         == Step(Found(s.cache[PriceCacheKey(timestamp)].value), s)
  {
  }

  /** On a cache miss, a record for exactly the UTC instant answers; its price is cached for one hour
      under the key and the store is unchanged. */
  lemma ResolutionStoreHit(s: State, zone: Civil -> Civil, timestamp: DateTime, now: int,
                           quote1: Option<real>, quote2: Option<real>, saveSucceeds: bool, record: BitcoinPrice)
    requires !IsLive(s.cache, PriceCacheKey(timestamp), now)
    requires FirstOrDefault(s.store, ToUniversalTime(timestamp, zone)) == Some(record)
    ensures PathOf(s, zone, timestamp, now) == FromStore
    ensures record in s.store && SameInstant(record.timestamp, ToUniversalTime(timestamp, zone))
    ensures Resolution(s, zone, timestamp, now, quote1, quote2, saveSucceeds)
         == Step(Found(record.aggregatedPrice),
                 State(s.cache[PriceCacheKey(timestamp) := CacheEntry(record.aggregatedPrice, now + TicksPerHour)], s.store))
  {
  }

  /** On a full miss, a missing quote (either one) gives no price and writes nothing. */
  lemma ResolutionMissingQuote(s: State, zone: Civil -> Civil, timestamp: DateTime, now: int,
                               quote1: Option<real>, quote2: Option<real>, saveSucceeds: bool)
    requires PathOf(s, zone, timestamp, now) == FromUpstream
    requires quote1.None? || quote2.None?
    ensures Resolution(s, zone, timestamp, now, quote1, quote2, saveSucceeds) == Step(NotFound, s)
  {
  }

  /** On a full miss with both quotes, the answer is their mean; the store gains exactly one record,
      stamped with the full UTC instant, and the key then maps to the mean for one hour. */
  lemma ResolutionPersistsMean(s: State, zone: Civil -> Civil, timestamp: DateTime, now: int, p1: real, p2: real)
    requires PathOf(s, zone, timestamp, now) == FromUpstream
    ensures Resolution(s, zone, timestamp, now, Some(p1), Some(p2), true)
         == Step(Found((p1 + p2) / 2.0),
                 State(s.cache[PriceCacheKey(timestamp) := CacheEntry((p1 + p2) / 2.0, now + TicksPerHour)],
                       s.store + [BitcoinPrice(ToUniversalTime(timestamp, zone), (p1 + p2) / 2.0)]))
  {
  }

  /** A save that fails raises StorageFault; the cache is written only after a save succeeds, so
      neither the store nor the cache changes. */
  lemma ResolutionSaveFault(s: State, zone: Civil -> Civil, timestamp: DateTime, now: int, p1: real, p2: real)
    requires PathOf(s, zone, timestamp, now) == FromUpstream
    ensures Resolution(s, zone, timestamp, now, Some(p1), Some(p2), false) == Step(StorageFault, s)
  {
  }

  /** Off the upstream path the quotes and the save are never consulted: any other values give the same step. */
  lemma QuotesConsultedOnlyOnFullMiss(s: State, zone: Civil -> Civil, timestamp: DateTime, now: int,
                                      quote1: Option<real>, quote2: Option<real>, saveSucceeds: bool,
                                      other1: Option<real>, other2: Option<real>, otherSave: bool)
    requires PathOf(s, zone, timestamp, now) != FromUpstream
    ensures Resolution(s, zone, timestamp, now, quote1, quote2, saveSucceeds)
         == Resolution(s, zone, timestamp, now, other1, other2, otherSave)
  {
  }

  // Properties across all paths and across calls.

  /** The store is append-only: a call keeps every existing record and adds at most the record of
      the price it answers. Anything but a price leaves the whole state as it was. */
  lemma ResolutionAppendOnly(s: State, zone: Civil -> Civil, timestamp: DateTime, now: int,
                             quote1: Option<real>, quote2: Option<real>, saveSucceeds: bool)
    ensures var step := Resolution(s, zone, timestamp, now, quote1, quote2, saveSucceeds);
      && s.store <= step.after.store
      && (step.after.store == s.store
          || (step.outcome.Found? && step.after.store == s.store + [BitcoinPrice(ToUniversalTime(timestamp, zone), step.outcome.price)]))
      && (!step.outcome.Found? ==> step.after == s)
  {
  }

  /** After a call answers a price, the key of its timestamp serves that price, and asking again for
      the same timestamp before the entry expires answers the same price from the cache and changes
      nothing, whatever the quotes. An entry written on this call expires one hour from now. */
  lemma ResolutionIdempotent(s: State, zone: Civil -> Civil, timestamp: DateTime, now: int,
                             quote1: Option<real>, quote2: Option<real>, saveSucceeds: bool,
                             later: int, other1: Option<real>, other2: Option<real>, otherSave: bool)
    requires Resolution(s, zone, timestamp, now, quote1, quote2, saveSucceeds).outcome.Found?
    ensures var step := Resolution(s, zone, timestamp, now, quote1, quote2, saveSucceeds);
      var key := PriceCacheKey(timestamp);
      && IsLive(step.after.cache, key, now)
      && step.after.cache[key].value == step.outcome.price
      && (PathOf(s, zone, timestamp, now) != FromCache ==> step.after.cache[key].expiresAt == now + CacheTtl)
      && (later < step.after.cache[key].expiresAt ==>
            Resolution(step.after, zone, timestamp, later, other1, other2, otherSave) == Step(step.outcome, step.after))
  {
  }

  /** Once a call has answered a price from the store or from upstream, the next call for the same
      timestamp, at any later clock reading, with any quotes, is a cache or store hit with the same
      price: the record for that UTC instant is in the store for good. */
  lemma StableAfterExpiry(s: State, zone: Civil -> Civil, timestamp: DateTime, now: int,
                          quote1: Option<real>, quote2: Option<real>, saveSucceeds: bool,
                          later: int, other1: Option<real>, other2: Option<real>, otherSave: bool)
    requires PathOf(s, zone, timestamp, now) != FromCache
    requires Resolution(s, zone, timestamp, now, quote1, quote2, saveSucceeds).outcome.Found?
    ensures var step := Resolution(s, zone, timestamp, now, quote1, quote2, saveSucceeds);
      && PathOf(step.after, zone, timestamp, later) != FromUpstream
      && Resolution(step.after, zone, timestamp, later, other1, other2, otherSave).outcome == step.outcome
  {
    var step := Resolution(s, zone, timestamp, now, quote1, quote2, saveSucceeds);
    if PathOf(s, zone, timestamp, now) == FromUpstream {
      AppendedRecordIsFound(s.store, BitcoinPrice(ToUniversalTime(timestamp, zone), step.outcome.price));
    }
  }

  /** An answer served from the cache need not outlive the entry. A Local 10:15 call in a zone one
      hour ahead of UTC stores 100 for 09:15 UTC under the key of 10:00. A UTC 10:15 call an instant
      later is answered 100 from that entry, though nothing is stored for 10:15 UTC; once the entry
      has expired, the same UTC 10:15 call with quotes of 300 answers 300. */
  lemma CachedAnswerChangesAfterExpiry(zone: Civil -> Civil)
    requires zone(Civil(2025, 3, 1, 10, 15, 0, 0)) == Civil(2025, 3, 1, 9, 15, 0, 0)
    ensures var local := DateTime(Civil(2025, 3, 1, 10, 15, 0, 0), Local);
      var utc := DateTime(Civil(2025, 3, 1, 10, 15, 0, 0), Utc);
      var first := Resolution(State(map[], []), zone, local, 0, Some(100.0), Some(100.0), true);
      var second := Resolution(first.after, zone, utc, 1, Some(300.0), Some(300.0), true);
      var third := Resolution(second.after, zone, utc, TicksPerHour, Some(300.0), Some(300.0), true);
      && first.outcome == Found(100.0)
      && second.outcome == Found(100.0)
      && third.outcome == Found(300.0)
  {
  }

  /** A stored record for the exact instant does not protect that instant's answer: another instant
      whose reading shares the cache key can rewrite the entry, and the cache is asked first. A UTC
      10:15 call stores 100 for 10:15 UTC. An hour later a Local 10:15 call (09:15 UTC, nothing
      stored) answers 300 and writes it under the same key, and the next UTC 10:15 call answers 300
      from the cache while the store still holds 100 for 10:15 UTC. */
  lemma SharedKeyOverridesStoredAnswer(zone: Civil -> Civil)
    requires zone(Civil(2025, 3, 1, 10, 15, 0, 0)) == Civil(2025, 3, 1, 9, 15, 0, 0)
    ensures var utc := DateTime(Civil(2025, 3, 1, 10, 15, 0, 0), Utc);
      var local := DateTime(Civil(2025, 3, 1, 10, 15, 0, 0), Local);
      var first := Resolution(State(map[], []), zone, utc, 0, Some(100.0), Some(100.0), true);
      var second := Resolution(first.after, zone, local, TicksPerHour, Some(300.0), Some(300.0), true);
      var third := Resolution(second.after, zone, utc, TicksPerHour + 1, Some(100.0), Some(100.0), true);
      && first.outcome == Found(100.0)
      && second.outcome == Found(300.0)
      && third.outcome == Found(300.0)
      && FirstOrDefault(third.after.store, utc) == Some(BitcoinPrice(utc, 100.0))
  {
  }

  /** Timestamps in the same hour (as given, before any conversion) share the cached answer: once one
      of them has resolved to a price, every other one resolves to that price until the entry expires. */
  lemma SameHourSharesAnswer(s: State, zone: Civil -> Civil, first: DateTime, now: int,
                             quote1: Option<real>, quote2: Option<real>, saveSucceeds: bool,
                             second: DateTime, later: int,
                             other1: Option<real>, other2: Option<real>, otherSave: bool)
    requires ValidCivil(first.civil) && ValidCivil(second.civil) && BucketOf(first) == BucketOf(second)
    requires Resolution(s, zone, first, now, quote1, quote2, saveSucceeds).outcome.Found?
    requires later < Resolution(s, zone, first, now, quote1, quote2, saveSucceeds).after.cache[PriceCacheKey(first)].expiresAt
    ensures var step := Resolution(s, zone, first, now, quote1, quote2, saveSucceeds);
      Resolution(step.after, zone, second, later, other1, other2, otherSave) == Step(step.outcome, step.after)
  {
  }

  /** Every cache entry is backed by a stored record: its key is the key of some timestamp whose UTC
      instant the record carries, and it holds that record's price. The cache adds no content of its own. */
  ghost predicate CacheBackedByStore(s: State, zone: Civil -> Civil)
  {
    forall k :: k in s.cache ==> EntryBacked(s, zone, k)
  }

  ghost predicate EntryBacked(s: State, zone: Civil -> Civil, k: string)
    requires k in s.cache
  {
    exists t: DateTime, i ::
      && PriceCacheKey(t) == k
      && 0 <= i < |s.store|
      && SameInstant(s.store[i].timestamp, ToUniversalTime(t, zone))
      && s.store[i].aggregatedPrice == s.cache[k].value
  }

  /** Calls keep the cache backed by the store (it holds from the empty state on, since the service
      only ever caches, under the key of `t`, the price of the record it has just read or written for
      the UTC instant of `t`). */
  lemma {:induction false} ResolutionKeepsCacheBacked(s: State, zone: Civil -> Civil, timestamp: DateTime, now: int,
                                                      quote1: Option<real>, quote2: Option<real>, saveSucceeds: bool)
    requires CacheBackedByStore(s, zone)
    ensures CacheBackedByStore(Resolution(s, zone, timestamp, now, quote1, quote2, saveSucceeds).after, zone)
  {
    var step := Resolution(s, zone, timestamp, now, quote1, quote2, saveSucceeds);
    var key := PriceCacheKey(timestamp);
    var utc := ToUniversalTime(timestamp, zone);
    var after := step.after;
    forall k | k in after.cache
      ensures EntryBacked(after, zone, k)
    {
      if k in s.cache && after.cache[k] == s.cache[k] {
        assert EntryBacked(s, zone, k);
        var t, i :| PriceCacheKey(t) == k && 0 <= i < |s.store|
                    && SameInstant(s.store[i].timestamp, ToUniversalTime(t, zone))
                    && s.store[i].aggregatedPrice == s.cache[k].value;
        assert after.store[i] == s.store[i];
      } else {
        assert k == key;
        match PathOf(s, zone, timestamp, now)
        case FromCache =>
        case FromStore =>
          var j := FirstMatch(s.store, utc).value;
          assert SameInstant(after.store[j].timestamp, utc) && after.store[j].aggregatedPrice == after.cache[k].value;
        case FromUpstream =>
          var j := |s.store|;
          assert SameInstant(after.store[j].timestamp, utc) && after.store[j].aggregatedPrice == after.cache[k].value;
      }
    }
  }

  /** A service that starts with an empty cache is backed, whatever records the store already holds
      (a fresh database or one persisted by an earlier run). */
  lemma EmptyCacheIsBacked(store: seq<BitcoinPrice>, zone: Civil -> Civil)
    ensures CacheBackedByStore(State(map[], store), zone)
  {
  }

  /** The lookup matches the exact UTC instant, not its hour: with a record already stored for the
      same hour but another instant, an uncached call fetches again and appends a second record for
      that hour, with a price that need not equal the first. */
  lemma ExactInstantLookupRefetchesSameHour(s: State, zone: Civil -> Civil, timestamp: DateTime, now: int,
                                            p1: real, p2: real, earlier: BitcoinPrice)
    requires !IsLive(s.cache, PriceCacheKey(timestamp), now)
    requires FirstOrDefault(s.store, ToUniversalTime(timestamp, zone)).None?
    requires earlier in s.store && BucketOf(earlier.timestamp) == BucketOf(ToUniversalTime(timestamp, zone))
    ensures var step := Resolution(s, zone, timestamp, now, Some(p1), Some(p2), true);
      && earlier in step.after.store
      && step.after.store[|s.store|] == BitcoinPrice(ToUniversalTime(timestamp, zone), (p1 + p2) / 2.0)
      && BucketOf(step.after.store[|s.store|].timestamp) == BucketOf(earlier.timestamp)
  {
  }

  /** A concrete instance: 10:00 UTC stored at 100, then 10:30 UTC asked with fresh quotes of 200. */
  lemma SecondSampleForSameHour(zone: Civil -> Civil)
    ensures var ten := DateTime(Civil(2025, 3, 1, 10, 0, 0, 0), Utc);
      var halfPast := DateTime(Civil(2025, 3, 1, 10, 30, 0, 0), Utc);
      var s := State(map[], [BitcoinPrice(ten, 100.0)]);
      var step := Resolution(s, zone, halfPast, 0, Some(200.0), Some(200.0), true);
      && BucketOf(ten) == BucketOf(halfPast)
      && step.outcome == Found(200.0)
      && step.after.store == [BitcoinPrice(ten, 100.0), BitcoinPrice(halfPast, 200.0)]
  {
  }

  /** Equal quotes give that same price; quotes of 45000 and 45200 give exactly 45100. */
  lemma MeanOfQuotes(p: real)
    ensures Mean(p, p) == p
    ensures Mean(45000.0, 45200.0) == 45100.0
  {
  }

  /**
   * The service: the cache and the store it updates in place, and the host
   * time zone its UTC conversion uses.
   */
  class BitcoinPriceAggregatorService {
    var cache: Entries
    var store: seq<BitcoinPrice>
    const zone: Civil -> Civil

    constructor (cache: Entries, store: seq<BitcoinPrice>, zone: Civil -> Civil)
      ensures this.cache == cache && this.store == store && this.zone == zone
    {
      this.cache := cache;
      this.store := store;
      this.zone := zone;
    }

    /** GetAggregatedPriceAsync for `timestamp`, at clock reading `now`. */
    method GetAggregatedPrice(timestamp: DateTime, now: int, quote1: Option<real>, quote2: Option<real>, saveSucceeds: bool)
      returns (price: Outcome)
      modifies this
      ensures Step(price, State(cache, store))
           == Resolution(old(State(cache, store)), zone, timestamp, now, quote1, quote2, saveSucceeds)
    {
      var cacheKey := PriceCacheKey(timestamp);
      var cachedPrice := TryGetValue(cache, cacheKey, now);
      if cachedPrice.Some? {
        return Found(cachedPrice.value);
      }

      var utc := ToUniversalTime(timestamp, zone);
      var dbPrice := FirstOrDefault(store, utc);
      if dbPrice.Some? {
        cache := Set(cache, cacheKey, dbPrice.value.aggregatedPrice, CacheTtl, now);
        return Found(dbPrice.value.aggregatedPrice);
      }

      if quote1.None? || quote2.None? {
        return NotFound;
      }
      var aggregatedPrice := Mean(quote1.value, quote2.value);
      var newPrice := BitcoinPrice(utc, aggregatedPrice);
      if !saveSucceeds {
        return StorageFault;
      }
      store := store + [newPrice];

      cache := Set(cache, cacheKey, aggregatedPrice, CacheTtl, now);
      return Found(aggregatedPrice);
    }
  }

  // The service's own three scenarios, as a client of the method's contract.

  /** A price cached under the timestamp's key is served as it is. */
  method ServesCachedPrice(testTime: DateTime, now: int, zone: Civil -> Civil)
  {
    var cache := Set(map[], PriceCacheKey(testTime), 45000.5, TicksPerHour, now);
    var service := new BitcoinPriceAggregatorService(cache, [], zone);
    var result := service.GetAggregatedPrice(testTime, now, None, None, true);
    assert result == Found(45000.5);
  }

  /** A price stored for the UTC timestamp is served when nothing is cached. */
  method ServesStoredPrice(testTime: DateTime, now: int, zone: Civil -> Civil)
    requires testTime.kind == Utc
  {
    var service := new BitcoinPriceAggregatorService(map[], [BitcoinPrice(testTime, 46000.8)], zone);
    var result := service.GetAggregatedPrice(testTime, now, None, None, true);
    assert result == Found(46000.8);
  }

  /** With nothing cached or stored and both sources quoting 45000, the price is 45000 and it is stored. */
  method FetchesAndStoresPrice(testTime: DateTime, now: int, zone: Civil -> Civil)
  {
    var service := new BitcoinPriceAggregatorService(map[], [], zone);
    var result := service.GetAggregatedPrice(testTime, now, Some(45000.0), Some(45000.0), true);
    assert result == Found(45000.0);
    assert service.store == [BitcoinPrice(ToUniversalTime(testTime, zone), 45000.0)];
  }

}
