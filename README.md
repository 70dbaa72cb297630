# Bitcoin price aggregation: a Dafny model

This project models the price-resolution core of the Bitcoin price service. It answers "what was the aggregated BTC price for this timestamp?" by trying, in order:

1. an in-memory cache keyed by the timestamp's hour (`btc_price_yyyyMMddHH`);
2. a persistent store of earlier answers, looked up by the exact UTC instant (a hit is copied into the cache for one hour);
3. two upstream quotes, Bitstamp and Bitfinex. If either is missing, the answer is "no price" and nothing is written. Otherwise the answer is their mean, which is appended to the store and then cached for one hour.

It also models how one upstream response becomes a quote (`FetchPriceFromApi` from the received response on). The URL picks the response shape, the closing price is dug out of the JSON document, and every failure becomes "no price".

Files and modules:

- `wrappers.dfy` (`Wrappers`): `Option`.
- `clock.dfy` (`Clock`): a `DateTime` as a calendar reading plus its Kind. `ToUniversalTime` uses a host time-zone conversion that is passed in as a function, and instant equality ignores Kind, as `DateTime ==` does.
- `cache_keys.dfy` (`CacheKeys`): the cache key format, a parser for it, and the proof that keys identify exactly the hour.
- `cache.dfy` (`Cache`): the cache's `TryGetValue` and `Set`-with-time-to-live over a map of entries with absolute expiry instants.
- `store.dfy` (`Store`): the `BitcoinPrice` record, the exact-instant `FirstOrDefault`, and how appends affect it.
- `extraction.dfy` (`Extraction`): a JSON value type, the `JsonElement` accessors (each returns None where the library throws), the two shapes, and `ExtractPrice`. A path-navigation function serves as an independent description of where each shape keeps its price.
- `aggregator.dfy` (`Aggregator`): `Resolution`, the pure statement of one call. It comes with lemmas for every path and for properties across calls. The `BitcoinPriceAggregatorService` class keeps the cache and the store as fields, and its `GetAggregatedPrice` method updates them step by step and is proved to agree with `Resolution`. Three client methods (`ServesCachedPrice`, `ServesStoredPrice`, `FetchesAndStoresPrice`) replay the scenarios of BitcoinPriceService.Tests/BitcoinPriceAggregatorServiceTests.cs:21-101 against the method's contract.

A call's inputs are:
- the requested timestamp;
- the cache clock's reading `now` (UTC ticks);
- the two upstream quotes, i.e. what `FetchPriceFromApi` returned for the Bitstamp and the Bitfinex URL;
- whether saving to the store succeeds.

Prices are `real`.

## Where the code differs from one sample per UTC hour

The intended behaviour is one stored sample per UTC hour, with the store as the only source of truth and a repeat request answered without fetching again. The model follows the code as written:

- The store lookup matches the exact UTC instant of the request, not its UTC hour. The stored timestamp is also the full instant, not truncated. So `T` and `T + 30 minutes` in the same hour can get two different stored samples once the cache entry has expired (`ExactInstantLookupRefetchesSameHour`, with a concrete instance in `SecondSampleForSameHour`). So one sample per UTC hour, with the store as the only source of truth, does not hold. What does hold: a stored instant keeps its first answer under later appends (`FirstOrDefaultStableUnderAppend`), and every cached price is a stored price (`ResolutionKeepsCacheBacked`).
- The cache key is formatted from the request's own calendar reading, with no UTC conversion. The store key is its UTC conversion. The same instant given as Local and as UTC time can therefore use different cache keys. Conversely, a Local 10:15 and a UTC 10:15 reading share one cache key while being different UTC instants, so a live entry written for one of them answers the other with the price stored for a different instant (`LocalAndUtcReadingsShareKey`, and the second call of `CachedAnswerChangesAfterExpiry`).
- When an answer came from the store or from upstream, its record stays in the store, so the next call for the same timestamp, at any clock reading, is a cache or store hit with the same price (`StableAfterExpiry`). This does not extend to every later call: a stored record for the exact instant does not protect that instant's answer from a cache entry written under the same key by another instant, because the cache is asked before the store. A UTC 10:15 call stores 100; an hour later a Local 10:15 call (09:15 UTC in a zone one hour ahead) answers 300 under the same key, and the next UTC 10:15 call answers 300 from the cache while the store still holds 100 for 10:15 UTC (`SharedKeyOverridesStoredAnswer`). An answer served from the cache under a shared key can change once the entry expires. A Local 10:15 call in a zone one hour ahead stores 100 for 09:15 UTC; a UTC 10:15 call is then answered 100 from the cache, and after an hour the same UTC 10:15 call with quotes of 300 answers 300 (`CachedAnswerChangesAfterExpiry`).
- The extracted price is whatever the number parser yields. The code does not check that it is finite or non-negative.
- A failing save propagates as an exception (`StorageFault` here), and nothing is cached. A failing lookup is not modelled (see below).

## Model

| member | source | states |
|---|---|---|
| `CacheKeys.PriceCacheKey` | BitcoinPriceService/Services/BitcoinPriceAggregatorService.cs:24 | the key is the prefix followed by exactly ten characters, each a decimal digit; what those digits identify is stated by `ParseCacheKeyRoundTrip` and `CacheKeyIdentifiesHour` |
| `CacheKeys.Digits` | BitcoinPriceService/Services/BitcoinPriceAggregatorService.cs:24 | a fixed-width zero-padded field (`yyyy`, `MM`, `dd`, `HH`) has exactly its width and consists of decimal digits only |
| `CacheKeys.DecimalValueOfDigits` | BitcoinPriceService/Services/BitcoinPriceAggregatorService.cs:24 | the zero-padded rendering of a number that fits its width reads back as that number |
| `CacheKeys.ParseCacheKeyRoundTrip` | BitcoinPriceService/Services/BitcoinPriceAggregatorService.cs:24 | the key of every valid reading parses back to its year, month, day and hour |
| `CacheKeys.CacheKeyIdentifiesHour` | BitcoinPriceService/Services/BitcoinPriceAggregatorService.cs:24 | two valid readings share a cache key if and only if they agree on year, month, day and hour (minutes, seconds and Kind do not matter) |
| `CacheKeys.LocalAndUtcReadingsShareKey` | BitcoinPriceService/Services/BitcoinPriceAggregatorService.cs:24-33 | a Local and a UTC reading of the same calendar time share a cache key, yet are different UTC instants whenever the zone shifts that time |
| `Clock.ToUniversalTime` | BitcoinPriceService/Services/BitcoinPriceAggregatorService.cs:33 | the result is always a UTC reading; its further properties are in `ToUniversalTimeIdempotent` |
| `Clock.ToUniversalTimeIdempotent` | BitcoinPriceService/Services/BitcoinPriceAggregatorService.cs:33 | converting to UTC gives a UTC reading, a UTC reading is returned unchanged, and converting twice equals converting once |
| `Cache.TryGetValue` | BitcoinPriceService/Services/BitcoinPriceAggregatorService.cs:26 | cache lookup with expiry; its contract is carried by `TryGetValueAfterSet` and `SetLeavesOtherKeys` |
| `Cache.Set` | BitcoinPriceService/Services/BitcoinPriceAggregatorService.cs:37 | set with a time-to-live from now; its contract is carried by `TryGetValueAfterSet` and `SetLeavesOtherKeys` |
| `Cache.TryGetValueAfterSet` | BitcoinPriceService/Services/BitcoinPriceAggregatorService.cs:26-37 | a value just set under a key is served until its time-to-live has run out, and is a miss from the expiry instant on |
| `Cache.SetLeavesOtherKeys` | BitcoinPriceService/Services/BitcoinPriceAggregatorService.cs:37 | setting one key changes nothing that any other key serves |
| `Store.FirstMatch` | BitcoinPriceService/Services/BitcoinPriceAggregatorService.cs:32-33 | the lookup finds the first record stamped with exactly the instant; no earlier record matches; none is found only when no record matches |
| `Store.FirstOrDefault` | BitcoinPriceService/Services/BitcoinPriceAggregatorService.cs:32-33 | a found record is in the store and stamped with exactly the instant; none is found exactly when no record is (first-match order is `FirstMatch`) |
| `Store.FirstOrDefaultStableUnderAppend` | BitcoinPriceService/Services/BitcoinPriceAggregatorService.cs:32-54 | appending a record never changes the answer for an instant that already has a record |
| `Store.AppendedRecordIsFound` | BitcoinPriceService/Services/BitcoinPriceAggregatorService.cs:48-54 | after an append, the appended record's instant is found: that record, unless an earlier one has the same instant |
| `Extraction.ExtractPrice` | BitcoinPriceService/Services/BitcoinPriceAggregatorService.cs:61-111 | a price only comes from a successful, non-blank response and a URL that names a known source; the exact result is stated by `ExtractPriceFollowsPath` |
| `Extraction.ExtractPriceFollowsPath` | BitcoinPriceService/Services/BitcoinPriceAggregatorService.cs:69-104 | the extraction gives a price exactly when the response succeeded with a non-blank body that parses, the URL names a known source (Bitstamp first), and the body holds the close at that source's path (`data.ohlc[0].close` as a string that parses, or `[0][2]` as a number); the price is then that close |
| `Extraction.BitstampClose` | BitcoinPriceService/Services/BitcoinPriceAggregatorService.cs:75-92 | the Bitstamp accessor chain; its contract is carried by `BitstampCloseFollowsPath` |
| `Extraction.BitstampCloseFollowsPath` | BitcoinPriceService/Services/BitcoinPriceAggregatorService.cs:75-92 | the Bitstamp chain of property, length and index accesses gives the parsed `data.ohlc[0].close` string and nothing else; an empty array, a missing member, a null or non-string close, or an unparseable close give no price |
| `Extraction.BitfinexClose` | BitcoinPriceService/Services/BitcoinPriceAggregatorService.cs:94-102 | the Bitfinex accessor chain; its contract is carried by `BitfinexCloseFollowsPath` |
| `Extraction.BitfinexCloseFollowsPath` | BitcoinPriceService/Services/BitcoinPriceAggregatorService.cs:95-102 | the Bitfinex chain gives the number at `root[0][2]` and nothing else; an empty or non-array root, a short candle or a non-number give no price |
| `Extraction.ExtractPriceRejectsFailedResponse` | BitcoinPriceService/Services/BitcoinPriceAggregatorService.cs:69-70 | an unsuccessful response or a null or all-whitespace body gives no price |
| `Extraction.ExtractPriceRejectsUnknownSource` | BitcoinPriceService/Services/BitcoinPriceAggregatorService.cs:75-104 | a URL naming neither source gives no price whatever the body |
| `Extraction.BitstampEmptyOhlc` | BitcoinPriceService/Services/BitcoinPriceAggregatorService.cs:77-104 | a Bitstamp body with an empty `data.ohlc` array gives no price |
| `Extraction.BitfinexEmptyRoot` | BitcoinPriceService/Services/BitcoinPriceAggregatorService.cs:95-104 | a Bitfinex body whose root array is empty gives no price |
| `Extraction.ConfiguredUrlsNameTheirSources` | BitcoinPriceService/Services/BitcoinPriceAggregatorService.cs:13 | the Bitstamp URL contains "bitstamp"; the Bitfinex URL contains "bitfinex" and not "bitstamp", so the Bitstamp test that comes first passes it on to the Bitfinex shape |
| `Extraction.ConfiguredUrlsSelectTheirShapes` | BitcoinPriceService/Services/BitcoinPriceAggregatorService.cs:41-42 | with a parsed body, the Bitstamp URL reads it in the Bitstamp shape and the Bitfinex URL in the Bitfinex shape |
| `Aggregator.Resolution` | BitcoinPriceService/Services/BitcoinPriceAggregatorService.cs:22-58 | one call as a function of the old state; its contract is carried by the path lemmas `ResolutionCacheHit` to `ResolutionSaveFault` and the cross-call lemmas below |
| `Aggregator.Mean` | BitcoinPriceService/Services/BitcoinPriceAggregatorService.cs:46 | the aggregate of two quotes; its contract is carried by `MeanIsOrderFreeAndBetween` and `MeanOfQuotes` |
| `Aggregator.MeanIsOrderFreeAndBetween` | BitcoinPriceService/Services/BitcoinPriceAggregatorService.cs:41-46 | the mean is the same whichever source is asked first, and lies between the two quotes |
| `Aggregator.BitcoinPriceAggregatorService.constructor` | BitcoinPriceService/Services/BitcoinPriceAggregatorService.cs:15-20 | the service starts on the cache, store and time zone it is given |
| `Aggregator.BitcoinPriceAggregatorService.GetAggregatedPrice` | BitcoinPriceService/Services/BitcoinPriceAggregatorService.cs:22-58 | the answer and the new cache and store are exactly those `Resolution` gives for the old cache and store |
| `Aggregator.ResolutionCacheHit` | BitcoinPriceService/Services/BitcoinPriceAggregatorService.cs:24-30 | a live entry under the key is the answer; cache and store are unchanged and the call takes the cache path |
| `Aggregator.ResolutionStoreHit` | BitcoinPriceService/Services/BitcoinPriceAggregatorService.cs:32-38 | on a cache miss, a stored record for exactly the UTC instant is the answer; the key then maps to that price with an expiry one hour from now; the store is unchanged |
| `Aggregator.ResolutionMissingQuote` | BitcoinPriceService/Services/BitcoinPriceAggregatorService.cs:41-44 | on a full miss, if either quote is missing the answer is "no price" and cache and store are exactly as before |
| `Aggregator.ResolutionPersistsMean` | BitcoinPriceService/Services/BitcoinPriceAggregatorService.cs:46-57 | on a full miss with both quotes the answer is (p1 + p2) / 2; the store gains exactly one record stamped with the full UTC instant; the key maps to that price for one hour |
| `Aggregator.ResolutionSaveFault` | BitcoinPriceService/Services/BitcoinPriceAggregatorService.cs:53-56 | a failing save raises a storage fault and leaves both store and cache unchanged (the cache is written only after the save) |
| `Aggregator.QuotesConsultedOnlyOnFullMiss` | BitcoinPriceService/Services/BitcoinPriceAggregatorService.cs:26-42 | on the cache and store paths the result does not depend on the quotes or the save outcome |
| `Aggregator.ResolutionAppendOnly` | BitcoinPriceService/Services/BitcoinPriceAggregatorService.cs:44-54 | every call keeps the old store as a prefix and adds at most the record of the price it answers; any answer other than a price leaves the whole state unchanged |
| `Aggregator.ResolutionIdempotent` | BitcoinPriceService/Services/BitcoinPriceAggregatorService.cs:26-56 | after a call answers a price, the key serves it (expiring one hour from now if written by this call), and asking again before expiry gives the same price from the cache with no change, whatever the quotes |
| `Aggregator.StableAfterExpiry` | BitcoinPriceService/Services/BitcoinPriceAggregatorService.cs:26-54 | after an answer from the store or from upstream, the next call for the same timestamp, at any clock reading and with any quotes, is a cache or store hit with the same price |
| `Aggregator.SharedKeyOverridesStoredAnswer` | BitcoinPriceService/Services/BitcoinPriceAggregatorService.cs:24-56 | a UTC 10:15 answer of 100, backed by its stored record, becomes 300 after a Local 10:15 call in a zone one hour ahead rewrites the shared key once the entry has expired; the store still answers 100 for 10:15 UTC |
| `Aggregator.CachedAnswerChangesAfterExpiry` | BitcoinPriceService/Services/BitcoinPriceAggregatorService.cs:24-57 | a UTC 10:15 call answered 100 from an entry written by a Local 10:15 call answers 300 once that entry has expired, so a cache answer is not stable beyond the time-to-live |
| `Aggregator.SameHourSharesAnswer` | BitcoinPriceService/Services/BitcoinPriceAggregatorService.cs:24-29 | once a timestamp has resolved to a price, any timestamp in the same hour as given resolves to that price from the cache until the entry expires |
| `Aggregator.ResolutionKeepsCacheBacked` | BitcoinPriceService/Services/BitcoinPriceAggregatorService.cs:35-56 | if every cache entry is backed before a call (its key is the key of some timestamp `t`, and the store holds a record for the UTC instant of `t` with the entry's price), the same holds after it |
| `Aggregator.EmptyCacheIsBacked` | BitcoinPriceService/Services/BitcoinPriceAggregatorService.cs:35-56 | an empty cache over any store, fresh or persisted by an earlier run, satisfies the key-linked backing invariant, for every host time zone |
| `Aggregator.ExactInstantLookupRefetchesSameHour` | BitcoinPriceService/Services/BitcoinPriceAggregatorService.cs:32-54 | with an expired cache entry and a stored record for the same UTC hour but another instant, the call appends a second record for that hour |
| `Aggregator.SecondSampleForSameHour` | BitcoinPriceService/Services/BitcoinPriceAggregatorService.cs:32-54 | concretely: 10:00 UTC stored at 100 and 10:30 UTC asked with quotes of 200 answers 200 and leaves two records for the hour |
| `Aggregator.MeanOfQuotes` | BitcoinPriceService/Services/BitcoinPriceAggregatorService.cs:46 | equal quotes give that same price; 45000 and 45200 give exactly 45100 |

## Left out

- HTTP transport (RestSharp client, request and response): a response is an input to `ExtractPrice`, and the two quotes are inputs to a call. A transport error is an unsuccessful response.
- JSON parsing (`JsonDocument.Parse`) and `double.TryParse`, including its dependence on the current culture: both are foreign and are passed in as partial functions (`Parsers`).
- Floating point: prices and means are `real`, so rounding of the mean and overflow of `GetDouble` on out-of-range numbers are not modelled, nor are the NaN and infinity values that `double.TryParse` accepts ("NaN", "Infinity"), which `real` cannot hold; the parser parameter yields only finite values, so the model cannot exhibit a non-finite price.
- The host time zone: `ToUniversalTime` takes the local-to-UTC conversion as a function and says nothing about its result's validity.
- Culture-specific calendars in the key format: the key uses the Gregorian reading as given.
- Cache internals: lookups treat an expired entry as a miss but do not purge it. No lookup can observe the difference. Eviction under memory pressure is not modelled.
- Time passing within a call: one clock reading serves the lookup and the later `Set`. In the service, the fetches take time before the `Set`.
- Store mechanics (EF Core and SQLite): the auto-assigned `Id`, database creation, query order (taken as insertion order), and change tracking are not modelled. In particular, a record added before a failed save stays tracked and could be written by a later save. A failing lookup query is not modelled either.
- Logging, startup configuration, and the HTTP endpoint mapping null to "not found": these are I/O and presentation.
- Concurrent first-time resolutions of the same hour: each call is one sequential step here.
