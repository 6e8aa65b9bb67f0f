# ShipOptix shipping-price engine in Dafny

This project models the shipping-price engine of the ShipOptix server. It also proves properties of the model. The engine has six parts:

- **Transport strategy** (`transport.dfy`). It takes an ordered table of distance tiers. A distance selects the first tier whose half-open interval `[minDistance, maxDistance)` contains it, and the base charge is rate × distance × weight.
  - The default table has three tiers: aeroplane `[500, ∞)` at 1, truck `[100, 500)` at 2, and mini van `[0, 100)` at 3.
  - A distance that no tier contains is an error.
- **Delivery-speed registry** (`delivery.dfy`). `standard` leaves the base charge as it is. `express` adds 10 plus 1.2 per kg. Any other key that is not a name every object inherits is rejected, and the error lists the registry's keys. The inherited names are covered under "## Findings".
- **Cache manager** (`cache.dfy`, `app_cache.dfy`). This is the single key/value cache with a time-to-live per entry.
  - It is a class over a map from keys to entries. Each entry carries an expiry in milliseconds of a clock the caller passes in.
  - `get` evicts an expired entry.
  - `set` without a time-to-live, or with a time-to-live of 0, uses the standard one, which defaults to 3600 seconds.
  - The application keeps distances under `dist:` keys and nearest-warehouse answers under `nearest:` keys. The invariant `WellTyped` says each kind of key holds its own kind of value.
- **Memoised distance** (`distance.dfy`).
  - A live entry under `dist:<fromId>:<toId>` is returned as it is.
  - Otherwise the great-circle distance is computed, stored and returned.
- **Nearest warehouse** (`warehouse.dfy`).
  - A live cached answer for the seller is returned before anything is checked.
  - Otherwise the seller, the product's ownership and a non-empty warehouse list are checked, in that order.
  - Then each warehouse's distance is obtained through the distance cache, and a running minimum is kept with strict `<`, so the first smallest distance wins.
  - The answer is cached under `nearest:<sellerId>`.
- **Shipping charge** (`shipping.dfy`).
  - It checks the warehouse, the customer and the product, in that order.
  - It gets the warehouse-to-customer distance through the cache, then the transport base charge, then the delivery speed. It rounds with `Math.round(x * 100) / 100`.
  - The combined operation resolves the seller's nearest warehouse first and then charges from it.

Every state-changing operation is a method. The cache is a class, and the services are methods that take the cache, the storage contents and the clock. Each method is proved equal to a pure function of its inputs and the old cache entries: `CalculateSpec`, `FindNearestSpec`, `ShippingSpec` or `CombinedSpec`. The lemmas are stated about those functions.

The great-circle formula is a function-valued parameter of type `Haversine`. Storage is a `Db` value: maps keyed by id, plus the warehouse list in the order the store returns it.

Two details of the code are kept as written:
- The distance cache key is the ordered pair `dist:<from>:<to>`, not a normalised one, so the two directions between two points are cached separately (`DistKeyOrdered`).
- Rounding is `Math.round`, i.e. the floor of `x * 100 + 0.5`. Half-way amounts therefore go up, also for negative amounts (`RoundCentsHalfway`), rather than away from zero.

## Model

| member | source | states |
|---|---|---|
| Common.IntToStringInjective | server/src/services/warehouse.service.ts:28 | Distinct integers render as distinct decimal strings, so template-literal keys built from distinct ids differ |
| Cache.EffectiveTtl | server/src/cache/cacheManager.ts:38-44 | A missing or zero time-to-live falls back to the standard one; any other value is used as given |
| Cache.Lookup | server/src/cache/cacheManager.ts:28-30 | `get` yields a value exactly when the key is among the live contents, and then yields that key's live value |
| Cache.GetKeepsLive | server/src/cache/cacheManager.ts:28-30 | Evicting an expired entry on read leaves the live contents unchanged, and the key is left absent or alive |
| Cache.StoreThenLookup | server/src/cache/cacheManager.ts:38-44 | After `set` with a non-negative time-to-live the key reads back the stored value, and every other key reads as before |
| Cache.ExpiryWindow | server/src/cache/cacheManager.ts:15-20 | An entry written with a positive time-to-live is served exactly until that many seconds after the write |
| Cache.StoreLive | server/src/cache/cacheManager.ts:38-44 | The live contents after `set` are the old ones with the key updated, or with the key removed if the new entry is already expired |
| Cache.DeleteLive | server/src/cache/cacheManager.ts:49-51 | `delete` removes exactly one key from the live contents |
| Cache.SweepKeepsLive | server/src/cache/cacheManager.ts:16-20 | The periodic check removes only expired entries: the live contents stay and everything left is alive |
| Cache.CacheManager.constructor | server/src/cache/cacheManager.ts:10-20 | The default cache has a standard time-to-live of 3600 s, a check period of 0.2 × 3600 s, and no entries |
| Cache.CacheManager.WithTtl | server/src/cache/cacheManager.ts:15-20 | A cache built with a time-to-live uses it as the standard one and checks every 0.2 × that many seconds |
| Cache.CacheManager.Get | server/src/cache/cacheManager.ts:28-30 | Returns the live value or nothing, and evicts an expired entry under the key |
| Cache.CacheManager.Set | server/src/cache/cacheManager.ts:38-44 | Stores the value under the key with the effective time-to-live and touches no other key |
| Cache.CacheManager.Delete | server/src/cache/cacheManager.ts:49-51 | Removes the key and keeps every other entry |
| Cache.CacheManager.Flush | server/src/cache/cacheManager.ts:56-58 | Leaves no entries |
| Cache.CacheManager.Sweep | server/src/cache/cacheManager.ts:16-20 | Keeps exactly the entries alive at the given time |
| AppCache.KeyKindsDisjoint | server/src/services/warehouse.service.ts:28 | No key is both a distance key and a nearest-answer key, so the two uses of the shared cache never overwrite each other |
| AppCache.NewAppCache | server/src/cache/cacheManager.ts:69 | The singleton is a fresh, empty cache with the default time-to-live, and it satisfies the key-kind invariant |
| Repositories.ProductByIdAndSeller | server/src/repositories/product.repository.ts:30-37 | A product is found exactly when the id exists and the product belongs to the seller |
| Repositories.WarehouseById | server/src/repositories/warehouse.repository.ts:15-22 | A warehouse found is listed and has the id; nothing is found only when no listed warehouse has the id |
| Transport.FirstMatch | server/src/strategies/transport.strategy.ts:64-66 | The position of the first tier whose half-open interval holds the distance; every earlier tier does not hold it |
| Transport.TransportStrategy.GetTransportMode | server/src/strategies/transport.strategy.ts:63-75 | Fails exactly when no tier holds the distance, with that distance; otherwise returns the first tier holding it |
| Transport.TransportStrategy.CalculateBaseCharge | server/src/strategies/transport.strategy.ts:85-88 | Fails exactly when tier selection fails; otherwise returns rate × distance × weight of the selected tier |
| Transport.DefaultTiersDisjoint | server/src/strategies/transport.strategy.ts:17-36 | No distance lies in two default tiers |
| Transport.DefaultTableSelection | server/src/strategies/transport.strategy.ts:17-36 | The default table covers exactly the non-negative distances, assigning mini van below 100, truck below 500 and aeroplane from 500; a negative distance fails |
| Transport.DefaultBaseCharge | server/src/strategies/transport.strategy.ts:85-88 | With the default table the base charge succeeds exactly for non-negative distances and is the assigned tier's rate × distance × weight |
| Transport.DefaultBoundaries | server/tests/unit/transport.strategy.test.ts:13-55 | 0 and 99.99 give mini van, 100 and 499.99 give truck, 500 gives aeroplane; the rates are 3, 2 and 1 |
| Transport.DefaultBaseChargeValues | server/tests/unit/transport.strategy.test.ts:59-81 | (50, 2) gives 300, (200, 5) gives 2000, (800, 10) gives 8000, and (50, 0.5) gives 75 |
| Transport.ChargeDropsAtBoundary | server/src/strategies/transport.strategy.ts:17-36 | For a positive weight, 99 km costs more than 100 km: the base charge is not monotone in distance |
| Transport.GapFails | server/src/strategies/transport.strategy.ts:63-72 | A custom table with a gap fails for every distance inside the gap |
| Delivery.CalculateFinalCharge | server/src/strategies/delivery.strategy.ts:24-40 | Standard leaves the base charge as it is; for a non-negative weight neither speed lowers it, and express adds at least the flat fee of 10 |
| Delivery.Find | server/src/strategies/delivery.strategy.ts:55 | A registry lookup succeeds exactly for a registered key and returns the strategy registered under it |
| Delivery.GetDeliveryStrategy | server/src/strategies/delivery.strategy.ts:54-61 | Succeeds exactly for a supported speed, with its registered strategy; otherwise fails with the speed and the list of valid keys |
| Delivery.SupportedSpeedsValue | server/src/strategies/delivery.strategy.ts:65 | The supported speeds are the registry's keys, `standard` then `express` |
| Delivery.RegistryRoundTrip | server/src/strategies/delivery.strategy.ts:43-46 | Each speed is found under its key, and each key that is found names its own speed |
| Delivery.StandardIsIdentity | server/src/strategies/delivery.strategy.ts:24-28 | Standard returns the base charge and ignores the weight |
| Delivery.ExpressSurcharge | server/src/strategies/delivery.strategy.ts:33-40 | Express is standard plus 10 plus 1.2 × weight, so at least 10 more for a non-negative weight |
| Delivery.FinalChargeValues | server/tests/unit/delivery.strategy.test.ts:12-48 | Standard (100, 5) gives 100 and (0, 5) gives 0; express (100, 5) gives 116, (50, 0.5) gives 60.6, (0, 10) gives 22 and (8000, 25) gives 8040 |
| Delivery.UnsupportedSpeedRejected | server/tests/unit/delivery.strategy.test.ts:52-56 | "overnight" is rejected, and the error lists `standard` and `express` |
| Delivery.IndexRegistry | server/src/strategies/delivery.strategy.ts:55 | Indexing the registry object gives a strategy exactly for the supported speeds, and an inherited member (one of `Object.prototype`'s methods, its legacy accessor helpers or `__proto__`) exactly for the other inherited names |
| Delivery.GetDeliveryStrategyAsWritten | server/src/strategies/delivery.strategy.ts:54-61 | The check as written rejects only keys that index to nothing |
| Delivery.InheritedNamePassesCheck | server/src/strategies/delivery.strategy.ts:55-56 | "constructor" and "__proto__" pass the check as written but yield no strategy, while the registry lookup rejects "constructor" |
| Delivery.AsWrittenAgreesElsewhere | server/src/strategies/delivery.strategy.ts:54-61 | For keys that are not inherited names, the check as written and the registry lookup give the same outcome |
| Distance.DistKeyKind | server/src/services/distance.service.ts:30 | Every distance key has the `dist:` prefix and never the `nearest:` one |
| Distance.DistKeyOrdered | server/src/services/distance.service.ts:30 | For point ids of the program's form `<kind>:<raw id>` (`seller:<n>`, `wh:<id>`, `cust:<id>`) with colon-free kinds and raw ids, (a, b) and (b, a) share a key exactly when a equals b |
| Distance.DistKeyInjective | server/src/services/distance.service.ts:30 | From a fixed origin, distinct destinations have distinct keys |
| Distance.DistKeyAmbiguous | server/src/services/distance.service.ts:30 | Ids containing colons let two different pairs of points share one key |
| Distance.CalculateSpec | server/src/services/distance.service.ts:30-42 | Keeps the key-kind invariant and changes no key other than the one computed |
| Distance.CalculateHit | server/src/services/distance.service.ts:33-36 | On a hit, a stored 0 included, the cached distance is returned whatever the coordinates, and the cache is unchanged |
| Distance.CalculateMiss | server/src/services/distance.service.ts:39-42 | On a miss the formula's value is returned and stored under the key with the standard time-to-live |
| Distance.CalculateStores | server/src/services/distance.service.ts:33-42 | After any call the key reads back the distance returned |
| Distance.CalculateIdempotent | server/src/services/distance.service.ts:30-42 | A second call at the same time returns the first call's distance, whatever the formula gives, and changes nothing |
| Distance.CalculateNonNegative | server/src/services/distance.service.ts:30-42 | A non-negative formula and non-negative cached distances give a non-negative result and keep cached distances non-negative |
| Distance.Calculate | server/src/services/distance.service.ts:22-43 | The returned distance and the new cache entries are those of `CalculateSpec` on the old entries, and the invariant holds |
| Warehouse.NearestKey | server/src/services/warehouse.service.ts:28 | The answer key is a `nearest:` key and never a distance key |
| Warehouse.NearestKeyInjective | server/src/services/warehouse.service.ts:28 | Two sellers share an answer key exactly when they are the same seller; the product plays no part |
| Warehouse.Scan | server/src/services/warehouse.service.ts:62-76 | The scan yields one distance per listed warehouse and keeps the key-kind invariant |
| Warehouse.FirstMinimum | server/src/services/warehouse.service.ts:72-75 | The position of the smallest distance, strictly below every earlier one |
| Warehouse.RunningStep | server/src/services/warehouse.service.ts:56-75 | Starting from infinity, the running minimum moves to a new distance exactly when it is strictly smaller, so it tracks the first minimum |
| Warehouse.ScanStep | server/src/services/warehouse.service.ts:62-70 | Scanning one more warehouse appends its cached-or-computed distance and applies its distance lookup to the cache |
| Warehouse.ScanFrame | server/src/services/warehouse.service.ts:62-70 | The scan changes no key other than the distance keys of the warehouses it visits |
| Warehouse.ScanKeyInjective | server/src/services/warehouse.service.ts:63-70 | From one seller, distinct warehouse ids give distinct distance keys |
| Warehouse.NextKeyUntouched | server/src/services/warehouse.service.ts:62-70 | With distinct ids, scanning a prefix of the list leaves the next warehouse's key as it was |
| Warehouse.ColdScanDistances | server/src/services/warehouse.service.ts:62-70 | With no live distances for the warehouses and distinct ids, the scan's distances are exactly the formula's |
| Warehouse.CachedHitSkipsValidation | server/src/services/warehouse.service.ts:28-32 | A live cached answer is returned unchanged, with the cache unchanged, whatever the seller, product or warehouse data |
| Warehouse.FindNearestOutcomes | server/src/services/warehouse.service.ts:34-84 | Without a live cached answer: missing seller, then product not owned, then empty list; otherwise success with a listed warehouse at the first smallest scan distance |
| Warehouse.NearestOnColdCache | server/src/services/warehouse.service.ts:56-84 | On a cold cache with distinct ids, the answer is a listed warehouse whose formula distance is at most every other's and strictly below every earlier one's |
| Warehouse.FindNearestIdempotent | server/src/services/warehouse.service.ts:86-89 | A successful answer is cached under the seller's key, and a second call at the same time returns it for any product and changes nothing |
| Warehouse.FindNearestErrorWritesNothing | server/src/services/warehouse.service.ts:34-53 | On an error the cache only loses an expired answer for the seller, and its live contents are unchanged |
| Warehouse.FindNearestSpec | server/src/services/warehouse.service.ts:23-90 | Keeps the key-kind invariant of the shared cache |
| Warehouse.ScanForNearest | server/src/services/warehouse.service.ts:56-76 | The loop leaves the cache as the scan does and picks the warehouse at the first smallest distance |
| Warehouse.FindNearestWarehouse | server/src/services/warehouse.service.ts:23-90 | The answer and the new cache entries are those of `FindNearestSpec` on the old entries, and the invariant holds |
| Shipping.RoundCents | server/src/services/shipping.service.ts:81 | The rounded amount is a whole number of hundredths within half a hundredth of the input, and non-negative for a non-negative input |
| Shipping.RoundCentsIdempotent | server/src/services/shipping.service.ts:81 | Rounding a rounded amount changes nothing |
| Shipping.RoundCentsHalfway | server/src/services/shipping.service.ts:81 | Half-way amounts round up: 0.125 gives 0.13 and -0.125 gives -0.12 |
| Shipping.ChargeFor | server/src/services/shipping.service.ts:71-82 | A successful charge is a whole number of hundredths |
| Shipping.ChargeForOutcomes | server/src/services/shipping.service.ts:74-78 | The charge succeeds exactly for a non-negative distance and a supported speed; a negative distance fails before an unsupported speed; the values are the rounded tier charge, plus the express fees for express |
| Shipping.StandardChargeFor | server/src/services/shipping.service.ts:74-81 | With the standard speed the charge is the rounded rate × distance × weight of the distance's tier |
| Shipping.ChargeForBounds | server/src/services/shipping.service.ts:80-82 | A successful charge is within half a hundredth of the unrounded final charge, and non-negative for a non-negative weight |
| Shipping.ChargeForValues | server/src/services/shipping.service.ts:74-81 | 250 km at 2 kg standard gives 1000; 50 km at 0.5 kg express gives 85.6; a negative distance fails before an unknown speed |
| Shipping.ShippingSpec | server/src/services/shipping.service.ts:37-83 | Keeps the key-kind invariant of the shared cache; a successful charge is a whole number of hundredths |
| Shipping.ShippingOutcomes | server/src/services/shipping.service.ts:44-69 | A missing warehouse, then customer, then product fails and leaves the cache; otherwise the distance is cached between `wh:<id>` and `cust:<id>` and the charge is for that distance, even when the charge then fails |
| Shipping.ShippingOnCachedDistance | server/src/services/shipping.service.ts:62-78 | With a live cached distance the charge is the one for that distance, whatever the coordinates, and the cache is unchanged |
| Shipping.ShippingOnColdDistance | server/src/services/shipping.service.ts:62-78 | With no live cached distance, the charge is the one for the formula's distance between the warehouse's and the customer's locations |
| Shipping.CalculateShippingCharge | server/src/services/shipping.service.ts:37-83 | The result and the new cache entries are those of `ShippingSpec` on the old entries, and the invariant holds |
| Shipping.CombinedSpec | server/src/services/shipping.service.ts:94-118 | Keeps the key-kind invariant of the shared cache; a successful combined answer carries a charge in whole hundredths |
| Shipping.CombinedComposes | server/src/services/shipping.service.ts:101-117 | A failing nearest lookup is the whole outcome; a success carries the nearest warehouse unchanged and the charge from it on the cache the lookup left; a failing charge is the outcome |
| Shipping.CombinedStaleWarehouse | server/src/services/shipping.service.ts:101-112 | A cached answer naming a warehouse no longer listed makes the combined operation fail with that warehouse missing |
| Shipping.ScanAndChargeKeysDiffer | server/src/services/shipping.service.ts:62-69 | The scan's distance keys and a charge's distance key never coincide |
| Shipping.CalculateCombined | server/src/services/shipping.service.ts:94-118 | The answer and the new cache entries are those of `CombinedSpec` on the old entries, and the invariant holds |

## Left out

- Shipping.ChargeFor: the shipping charge, and so `ShippingSpec` and `CombinedSpec`, uses the corrected speed lookup `GetDeliveryStrategy`. For a speed that is an inherited name such as `"constructor"`, the model fails with an unsupported-speed error. The code as written passes the check at `delivery.strategy.ts:56` and then throws a type error at `shipping.service.ts:78`. The route schema admits only `standard` and `express`, so HTTP callers never reach this difference.
- The great-circle formula (`server/src/utils/haversine.ts`) uses floating-point trigonometry. Every operation takes it as a parameter instead. Its non-negativity is a hypothesis where a lemma needs it, and no other property of it is assumed.
- Numbers are reals. JavaScript's binary floating point, its rounding error and `-0` are not modelled. `parseFloat` of the stored coordinate and weight strings is taken to give the real they denote.
- Time is a caller-supplied clock in milliseconds, and one request reads it once. The node-cache library's background timer is modelled as the `Sweep` method rather than as a timer. Its statistics (`getStats`) are not modelled, and neither is the `useClones: false` option, which matters only for mutable values.
- Node-cache's expiry rules are modelled from its documented behaviour, because the library's source is not part of this model:
  - an entry expiring at `t` is alive while `now <= t`;
  - a time-to-live of 0 means the entry never expires;
  - a read evicts an expired entry.
- `async`/`await` is not modelled. Requests are sequential, so two requests interleaving over the shared cache is not modelled either.
- The HTTP layer is not modelled: routes, schema validation, the error handler and the error objects' status codes and message texts. An error is its kind and payload (`Failure`). The `toFixed(2)` rendering of the distance in the no-tier message is not modelled.
- The repositories and the database are not modelled as such. Storage is a `Db` value. Warehouse lookup by id returns the first listed match. Listing returns the stored order.
- The nearest-warehouse answer's location is a `Location(lat, lng)`. The field name `long` in the response object is not modelled.
- The distance service's `calculate` takes the coordinates as `Location` values, not as four numbers.
- The client application and the seed, migration and warehouse-factory scripts are not part of this model.

## Findings

| source | as written | input that shows it | evidently intended | confidence | as-written member | corrected member |
|---|---|---|---|---|---|---|
| server/src/strategies/delivery.strategy.ts:55-56 | `strategies[speed]` is tested only for truthiness, so names inherited from `Object.prototype` pass the check | speed `"constructor"`: the lookup yields a function, no error is raised, and the later `calculateFinalCharge` call fails as a type error | any key other than `standard` and `express` fails with "Unsupported delivery speed" and the list of valid keys | not executed; reachable only by callers that bypass the route schema, which admits just the two speeds | Delivery.InheritedNamePassesCheck | Delivery.GetDeliveryStrategy |
