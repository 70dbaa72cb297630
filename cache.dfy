/**
 * The in-memory cache as the price service uses it: `TryGetValue` and `Set`
 * with an absolute expiry one time-to-live after the moment of insertion.
 * Clock readings are UTC ticks of the cache's own clock.
 */
module Cache {

  import opened Wrappers

  datatype CacheEntry = CacheEntry(value: real, expiresAt: int)

  type Entries = map<string, CacheEntry>

  /** An entry is live until its expiry instant; at that instant it has expired. */
  predicate IsLive(entries: Entries, key: string, now: int)
  {
    key in entries && now < entries[key].expiresAt
  }

  /** TryGetValue: a live entry's value, otherwise a miss. */
  function TryGetValue(entries: Entries, key: string, now: int): Option<real>
  {
    if IsLive(entries, key, now) then Some(entries[key].value) else None
  }

  /** Set with a time-to-live relative to now: overwrites any entry under the key. */
  function Set(entries: Entries, key: string, value: real, ttl: int, now: int): Entries
  {
    entries[key := CacheEntry(value, now + ttl)]
  }

  /** A value just set is served under its key until the time-to-live runs out, and not after. */
  lemma TryGetValueAfterSet(entries: Entries, key: string, value: real, ttl: int, now: int, later: int)
    ensures TryGetValue(Set(entries, key, value, ttl, now), key, later)
         == if later < now + ttl then Some(value) else None
  {
  }

  /** Setting one key leaves what every other key serves unchanged. */
  lemma SetLeavesOtherKeys(entries: Entries, key: string, value: real, ttl: int, now: int, other: string, later: int)
    requires other != key
    ensures TryGetValue(Set(entries, key, value, ttl, now), other, later) == TryGetValue(entries, other, later)
  {
  }

}
