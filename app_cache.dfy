/** How the application uses its single shared cache: one instance with the
    default time-to-live, holding distances under `dist:` keys and
    nearest-warehouse answers under `nearest:` keys. */
module AppCache {
  import opened Types
  import opened Cache

  /** The values the shared cache holds. */
  datatype CacheValue = Km(km: real) | Nearest(response: WarehouseLocationResponse)

  type Entries = map<string, Entry<CacheValue>>

  predicate HasPrefix(p: string, k: string) {
    |p| <= |k| && k[..|p|] == p
  }

  predicate IsDistKey(k: string) {
    HasPrefix("dist:", k)
  }

  predicate IsNearestKey(k: string) {
    HasPrefix("nearest:", k)
  }

  /** Each reader asks the cache for the type it stored under that kind of key. */
  predicate WellTyped(m: Entries) {
    forall k :: k in m ==> (IsDistKey(k) ==> m[k].value.Km?) && (IsNearestKey(k) ==> m[k].value.Nearest?)
  }

  /** Every cached distance is non-negative. */
  predicate DistancesNonNegative(m: Entries) {
    forall k :: k in m && m[k].value.Km? ==> m[k].value.km >= 0.0
  }

  /** The two kinds of key never coincide, so the two uses never overwrite each other. */
  lemma KeyKindsDisjoint(k: string)
    ensures !(IsDistKey(k) && IsNearestKey(k))
  {
    if IsDistKey(k) {
      assert k[0] == k[..5][0] == 'd';
    }
  }

  /** The application's shared cache. */
  method NewAppCache() returns (c: CacheManager<CacheValue>)
    ensures fresh(c) && c.stdTtl == DEFAULT_TTL && c.entries == map[]
    ensures WellTyped(c.entries) && DistancesNonNegative(c.entries)
  {
    c := new CacheManager<CacheValue>();
  }
}
