/** The memoised distance between two identified points.

    A distance is cached under the ordered key `dist:<fromId>:<toId>`: a live entry
    is returned as it is, otherwise the great-circle distance is computed, stored
    with the standard time-to-live, and returned. */
module Distance {
  import opened Common
  import opened Types
  import opened Cache
  import opened AppCache

  /** The great-circle distance in km from (lat1, lng1) to (lat2, lng2). Its
      trigonometry is not part of this model: every operation takes it as a parameter. */
  type Haversine = (real, real, real, real) -> real

  function DistKey(fromId: string, toId: string): string {
    "dist:" + fromId + ":" + toId
  }

  lemma DistKeyKind(fromId: string, toId: string)
    ensures IsDistKey(DistKey(fromId, toId)) && !IsNearestKey(DistKey(fromId, toId))
  {
    assert DistKey(fromId, toId)[..5] == "dist:";
    KeyKindsDisjoint(DistKey(fromId, toId));
  }

  /** The position of the first colon in `t`, or `|t|` when it has none. */
  function ColonIndex(t: string): (i: nat)
    ensures i <= |t|
  {
    if t == [] || t[0] == ':' then 0 else 1 + ColonIndex(t[1..])
  }

  /** In `x:y` with a colon-free `x`, the first colon ends `x`. */
  lemma {:induction false} ColonIndexAfter(x: string, y: string)
    requires ':' !in x
    ensures ColonIndex(x + ":" + y) == |x|
  {
    if x != [] {
      assert (x + ":" + y)[1..] == x[1..] + ":" + y;
      ColonIndexAfter(x[1..], y);
    }
  }

  /** A string splits uniquely at its first colon. */
  lemma SplitAtColon(x: string, y: string, x': string, y': string)
    requires ':' !in x && ':' !in x'
    requires x + ":" + y == x' + ":" + y'
    ensures x == x' && y == y'
  {
    var s := x + ":" + y;
    ColonIndexAfter(x, y);
    ColonIndexAfter(x', y');
    assert x == s[..|x|] == x';
    assert y == s[|x| + 1..] == y';
  }

  /** The key is ordered: for point identifiers of the form `<kind>:<raw id>` with
      colon-free kinds and raw ids, such as `seller:<n>`, `wh:<id>` and
      `cust:<id>`, the two directions between two distinct points are cached
      separately. */
  lemma DistKeyOrdered(kind1: string, raw1: string, kind2: string, raw2: string)
    requires ':' !in kind1 && ':' !in raw1 && ':' !in kind2 && ':' !in raw2
    ensures var a := kind1 + ":" + raw1;
      var b := kind2 + ":" + raw2;
      DistKey(a, b) == DistKey(b, a) <==> a == b
  {
    var a := kind1 + ":" + raw1;
    var b := kind2 + ":" + raw2;
    if DistKey(a, b) == DistKey(b, a) {
      assert kind1 + ":" + (raw1 + ":" + b) == DistKey(a, b)[5..]
          == DistKey(b, a)[5..] == kind2 + ":" + (raw2 + ":" + a);
      SplitAtColon(kind1, raw1 + ":" + b, kind2, raw2 + ":" + a);
      SplitAtColon(raw1, b, raw2, a);
    }
  }

  /** With a fixed origin, distinct destinations have distinct keys. */
  lemma DistKeyInjective(fromId: string, toId: string, otherToId: string)
    requires DistKey(fromId, toId) == DistKey(fromId, otherToId)
    ensures toId == otherToId
  {
    var n := 6 + |fromId|;
    assert toId == DistKey(fromId, toId)[n..] == DistKey(fromId, otherToId)[n..] == otherToId;
  }

  /** Identifiers containing colons make the key ambiguous: two different pairs of
      points can share one cache entry. */
  lemma DistKeyAmbiguous()
    ensures DistKey("wh:A:cust:B", "cust:C") == DistKey("wh:A", "cust:B:cust:C")
  {
  }

  /** The distance returned and the entries afterwards, given the distance the
      formula would compute. */
  function CalculateSpec(m: Entries, now: int, stdTtl: int, key: string, computed: real): (r: (real, Entries))
    requires WellTyped(m) && IsDistKey(key)
    ensures WellTyped(r.1)
    ensures forall k :: k != key ==> (k in r.1 <==> k in m)
    ensures forall k :: k != key && k in m ==> r.1[k] == m[k]
  {
    KeyKindsDisjoint(key);
    match Lookup(m, key, now)
    case Some(cached) => (cached.km, AfterGet(m, key, now))
    case None => (computed, Store(AfterGet(m, key, now), key, Km(computed), EffectiveTtl(None, stdTtl), now))
  }

  /** On a hit (a stored 0 included) the cached value is returned, the entries are
      unchanged and the points' coordinates play no part. */
  lemma CalculateHit(m: Entries, now: int, stdTtl: int, key: string, computed: real, cached: real)
    requires WellTyped(m) && IsDistKey(key)
    requires Lookup(m, key, now) == Some(Km(cached))
    ensures CalculateSpec(m, now, stdTtl, key, computed) == (cached, m)
  {
  }

  /** On a miss the computed distance is returned and stored under the key with
      the standard time-to-live, replacing any expired entry. */
  lemma CalculateMiss(m: Entries, now: int, stdTtl: int, key: string, computed: real)
    requires WellTyped(m) && IsDistKey(key)
    requires Lookup(m, key, now).None?
    ensures CalculateSpec(m, now, stdTtl, key, computed)
         == (computed, m[key := Entry(Km(computed), ExpiryFor(stdTtl, now))])
  {
    assert AfterGet(m, key, now)[key := Entry(Km(computed), ExpiryFor(stdTtl, now))]
        == m[key := Entry(Km(computed), ExpiryFor(stdTtl, now))];
  }

  /** After any call the key holds the distance returned. */
  lemma CalculateStores(m: Entries, now: int, stdTtl: int, key: string, computed: real)
    requires WellTyped(m) && IsDistKey(key) && stdTtl >= 0
    ensures var (d, m') := CalculateSpec(m, now, stdTtl, key, computed);
      Lookup(m', key, now) == Some(Km(d))
  {
    if Lookup(m, key, now).None? {
      CalculateMiss(m, now, stdTtl, key, computed);
    }
  }

  /** Memoisation: a second call at the same time returns the first call's
      distance, whatever the formula would give, and changes nothing. */
  lemma CalculateIdempotent(m: Entries, now: int, stdTtl: int, key: string, computed: real, recomputed: real)
    requires WellTyped(m) && IsDistKey(key) && stdTtl >= 0
    ensures var (d, m') := CalculateSpec(m, now, stdTtl, key, computed);
      CalculateSpec(m', now, stdTtl, key, recomputed) == (d, m')
  {
    var (d, m') := CalculateSpec(m, now, stdTtl, key, computed);
    CalculateStores(m, now, stdTtl, key, computed);
    CalculateHit(m', now, stdTtl, key, recomputed, d);
  }

  /** Non-negative formula values keep every cached distance non-negative, so every
      distance returned is non-negative. */
  lemma CalculateNonNegative(m: Entries, now: int, stdTtl: int, key: string, computed: real)
    requires WellTyped(m) && IsDistKey(key)
    requires DistancesNonNegative(m) && computed >= 0.0
    ensures CalculateSpec(m, now, stdTtl, key, computed).0 >= 0.0
    ensures DistancesNonNegative(CalculateSpec(m, now, stdTtl, key, computed).1)
  {
  }

  /** Cached distance between two points: the service's `calculate`. */
  method Calculate(cache: CacheManager<CacheValue>, now: int, fromId: string, from: Location,
                   toId: string, to: Location, haversine: Haversine) returns (distance: real)
    requires WellTyped(cache.entries)
    modifies cache
    ensures (distance, cache.entries)
         == CalculateSpec(old(cache.entries), now, cache.stdTtl, DistKey(fromId, toId),
                          haversine(from.lat, from.lng, to.lat, to.lng))
    ensures WellTyped(cache.entries)
  {
    var cacheKey := DistKey(fromId, toId);
    DistKeyKind(fromId, toId);
    var cached := cache.Get(cacheKey, now);
    if cached.Some? {
      return cached.value.km;
    }
    distance := haversine(from.lat, from.lng, to.lat, to.lng);
    cache.Set(cacheKey, Km(distance), None, now);
  }
}
