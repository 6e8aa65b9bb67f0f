/** The in-memory key/value cache with per-entry time-to-live.

    The cache is an abstract finite map from string keys to entries; each entry
    remembers when it expires, in milliseconds of a clock `now` that the caller
    supplies. An entry whose expiry is `Never` lives until it is deleted; an entry
    that expires at `t` is alive while `now <= t`. Reading an expired entry evicts
    it, and `Sweep` evicts every expired entry at once (the periodic check). */
module Cache {
  import opened Common

  /** Default time-to-live of an entry, in seconds. */
  const DEFAULT_TTL: int := 3600

  datatype Expiry = Never | At(ms: int)

  datatype Entry<V> = Entry(value: V, expiry: Expiry)

  predicate Alive<V>(e: Entry<V>, now: int) {
    e.expiry.Never? || now <= e.expiry.ms
  }

  /** The time-to-live a `set` call stores with: its own `ttl` when that is given
      and non-zero, the cache's standard one otherwise. */
  function EffectiveTtl(ttl: Option<int>, stdTtl: int): (t: int)
    ensures ttl.None? ==> t == stdTtl
    ensures ttl == Some(0) ==> t == stdTtl
    ensures ttl.Some? && ttl.value != 0 ==> t == ttl.value
  {
    match ttl
    case Some(seconds) => if seconds != 0 then seconds else stdTtl
    case None => stdTtl
  }

  /** When an entry stored at `now` with time-to-live `ttl` seconds expires;
      a time-to-live of zero means never. */
  function ExpiryFor(ttl: int, now: int): Expiry {
    if ttl == 0 then Never else At(now + ttl * 1000)
  }

  /** The abstract contents of the cache at time `now`: its live entries. */
  function Live<V>(m: map<string, Entry<V>>, now: int): map<string, V> {
    map k | k in m && Alive(m[k], now) :: m[k].value
  }

  /** What `get` returns. */
  function Lookup<V>(m: map<string, Entry<V>>, key: string, now: int): (r: Option<V>)
    ensures r.Some? <==> key in Live(m, now)
    ensures r.Some? ==> r.value == Live(m, now)[key]
  {
    if key in m && Alive(m[key], now) then Some(m[key].value) else None
  }

  /** The entries after `get`: an expired entry under `key` is evicted. */
  function AfterGet<V>(m: map<string, Entry<V>>, key: string, now: int): map<string, Entry<V>> {
    if key in m && !Alive(m[key], now) then m - {key} else m
  }

  /** The entries after `set` with the given effective time-to-live. */
  function Store<V>(m: map<string, Entry<V>>, key: string, value: V, ttl: int, now: int): map<string, Entry<V>> {
    m[key := Entry(value, ExpiryFor(ttl, now))]
  }

  /** The entries after the periodic check has evicted every expired one. */
  function Swept<V>(m: map<string, Entry<V>>, now: int): map<string, Entry<V>> {
    map k | k in m && Alive(m[k], now) :: m[k]
  }

  /** Evicting an expired entry on read is invisible: the live contents stay. */
  lemma GetKeepsLive<V>(m: map<string, Entry<V>>, key: string, now: int)
    ensures Live(AfterGet(m, key, now), now) == Live(m, now)
    ensures key !in AfterGet(m, key, now) || Alive(AfterGet(m, key, now)[key], now)
  {
    var a := AfterGet(m, key, now);
    assert forall k :: k in Live(a, now) <==> k in Live(m, now);
  }

  /** After a `set` with a non-negative time-to-live, the key reads back the value
      stored and every other key reads as before. */
  lemma StoreThenLookup<V>(m: map<string, Entry<V>>, key: string, value: V, ttl: int, now: int, other: string)
    requires ttl >= 0
    ensures Lookup(Store(m, key, value, ttl, now), key, now) == Some(value)
    ensures other != key ==> Lookup(Store(m, key, value, ttl, now), other, now) == Lookup(m, other, now)
  {
  }

  /** A stored entry with a positive time-to-live is served exactly until
      `ttl` seconds after it was written: the window in which it can be stale. */
  lemma ExpiryWindow<V>(m: map<string, Entry<V>>, key: string, value: V, ttl: int, written: int, now: int)
    requires ttl > 0
    ensures Lookup(Store(m, key, value, ttl, written), key, now).Some? <==> now <= written + ttl * 1000
  {
  }

  /** The live contents after `set`: the key maps to the new value if that entry is
      alive at the time of reading, and is absent otherwise. */
  lemma StoreLive<V>(m: map<string, Entry<V>>, key: string, value: V, ttl: int, written: int, now: int)
    ensures Live(Store(m, key, value, ttl, written), now)
         == if Alive(Entry(value, ExpiryFor(ttl, written)), now) then Live(m, now)[key := value]
            else Live(m, now) - {key}
  {
    var after := Live(Store(m, key, value, ttl, written), now);
    var expected := if Alive(Entry(value, ExpiryFor(ttl, written)), now) then Live(m, now)[key := value]
                    else Live(m, now) - {key};
    assert forall k :: k in after <==> k in expected;
  }

  /** `delete` removes exactly one key from the live contents. */
  lemma DeleteLive<V>(m: map<string, Entry<V>>, key: string, now: int)
    ensures Live(m - {key}, now) == Live(m, now) - {key}
  {
    assert forall k :: k in Live(m - {key}, now) <==> k in Live(m, now) - {key};
  }

  /** The periodic check removes only expired entries: the live contents stay, and
      whatever is left is alive. */
  lemma SweepKeepsLive<V>(m: map<string, Entry<V>>, now: int)
    ensures Live(Swept(m, now), now) == Live(m, now)
    ensures forall k :: k in Swept(m, now) ==> Alive(Swept(m, now)[k], now)
  {
    assert forall k :: k in Live(Swept(m, now), now) <==> k in Live(m, now);
  }

  /** The cache object. The application uses a single instance of it. */
  class CacheManager<V> {
    var entries: map<string, Entry<V>>
    /** The standard time-to-live, in seconds. */
    const stdTtl: int
    /** The interval of the periodic check, in seconds. */
    const checkPeriod: real

    /** A cache with the default time-to-live (the application's singleton). */
    constructor ()
      ensures stdTtl == DEFAULT_TTL && checkPeriod == 720.0
      ensures entries == map[]
    {
      stdTtl := DEFAULT_TTL;
      checkPeriod := DEFAULT_TTL as real * 0.2;
      entries := map[];
    }

    /** A cache with an explicit standard time-to-live. */
    constructor WithTtl(ttlSeconds: int)
      ensures stdTtl == ttlSeconds && checkPeriod == ttlSeconds as real * 0.2
      ensures entries == map[]
    {
      stdTtl := ttlSeconds;
      checkPeriod := ttlSeconds as real * 0.2;
      entries := map[];
    }

    /** The live value under `key`, or `None`; an expired entry is evicted. */
    method Get(key: string, now: int) returns (r: Option<V>)
      modifies this
      ensures r == Lookup(old(entries), key, now)
      ensures entries == AfterGet(old(entries), key, now)
    {
      if key in entries && Alive(entries[key], now) {
        r := Some(entries[key].value);
      } else {
        r := None;
        entries := entries - {key};
      }
    }

    /** Stores `value` under `key`; a missing or zero `ttl` falls back to the
        standard time-to-live. */
    method Set(key: string, value: V, ttl: Option<int>, now: int)
      modifies this
      ensures entries == Store(old(entries), key, value, EffectiveTtl(ttl, stdTtl), now)
    {
      if ttl.Some? && ttl.value != 0 {
        entries := entries[key := Entry(value, ExpiryFor(ttl.value, now))];
      } else {
        entries := entries[key := Entry(value, ExpiryFor(stdTtl, now))];
      }
    }

    /** Removes `key` and nothing else. */
    method Delete(key: string)
      modifies this
      ensures entries == old(entries) - {key}
      ensures forall k :: k != key && k in old(entries) ==> k in entries && entries[k] == old(entries)[k]
    {
      entries := entries - {key};
    }

    /** Removes every entry. */
    method Flush()
      modifies this
      ensures entries == map[]
    {
      entries := map[];
    }

    /** The periodic check: evicts every entry expired at `now`. */
    method Sweep(now: int)
      modifies this
      ensures entries == Swept(old(entries), now)
    {
      entries := map k | k in entries && Alive(entries[k], now) :: entries[k];
    }
  }
}
