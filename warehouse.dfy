/** Nearest-warehouse resolution for a seller.

    A live cached answer for the seller is returned before anything is checked;
    otherwise the seller, the product's ownership and the warehouse list are
    checked in that order, every warehouse's distance from the seller is obtained
    through the distance cache, the first warehouse at the smallest distance wins,
    and the answer is cached under a key built from the seller id alone. */
module Warehouse {
  import opened Common
  import opened Types
  import opened Cache
  import opened AppCache
  import opened Repositories
  import opened Distance

  /** The answer cache key: the product id is not part of it. */
  function NearestKey(sellerId: int): (key: string)
    ensures IsNearestKey(key) && !IsDistKey(key)
  {
    var key := "nearest:" + IntToString(sellerId);
    assert key[..8] == "nearest:";
    KeyKindsDisjoint(key);
    key
  }

  function SellerPointId(sellerId: int): string {
    "seller:" + IntToString(sellerId)
  }

  function WarehousePointId(warehouseId: string): string {
    "wh:" + warehouseId
  }

  function Response(w: Warehouse): WarehouseLocationResponse {
    WarehouseLocationResponse(w.id, w.location)
  }

  /** The distance key of warehouse `w` as seen from point `fromId`. */
  function ScanKey(fromId: string, w: Warehouse): (key: string)
    ensures IsDistKey(key)
  {
    DistKeyKind(fromId, WarehousePointId(w.id));
    DistKey(fromId, WarehousePointId(w.id))
  }

  /** Different sellers never share an answer cache entry. */
  lemma NearestKeyInjective(sellerId: int, otherSellerId: int)
    ensures NearestKey(sellerId) == NearestKey(otherSellerId) <==> sellerId == otherSellerId
  {
    if NearestKey(sellerId) == NearestKey(otherSellerId) {
      assert IntToString(sellerId) == NearestKey(sellerId)[8..] == NearestKey(otherSellerId)[8..] == IntToString(otherSellerId);
      IntToStringInjective(sellerId, otherSellerId);
    }
  }

  /** The distances the scan obtains, warehouse by warehouse in list order, and the
      entries after it. Each distance goes through the distance cache. */
  function Scan(m: Entries, now: int, stdTtl: int, fromId: string, from: Location,
                ws: seq<Warehouse>, haversine: Haversine): (r: (seq<real>, Entries))
    requires WellTyped(m)
    ensures |r.0| == |ws| && WellTyped(r.1)
    decreases |ws|
  {
    if ws == [] then ([], m)
    else
      var (ds, m1) := Scan(m, now, stdTtl, fromId, from, ws[..|ws| - 1], haversine);
      var w := ws[|ws| - 1];
      DistKeyKind(fromId, WarehousePointId(w.id));
      var (d, m2) := CalculateSpec(m1, now, stdTtl, ScanKey(fromId, w),
                                   haversine(from.lat, from.lng, w.location.lat, w.location.lng));
      (ds + [d], m2)
  }

  /** `k` is the position of the smallest distance, and of the first one when
      several are equally small. */
  predicate IsFirstMinimum(ds: seq<real>, k: int) {
    && 0 <= k < |ds|
    && (forall j :: 0 <= j < |ds| ==> ds[k] <= ds[j])
    && (forall j :: 0 <= j < k ==> ds[k] < ds[j])
  }

  function FirstMinimum(ds: seq<real>): (k: nat)
    requires |ds| > 0
    ensures IsFirstMinimum(ds, k)
  {
    if |ds| == 1 then 0
    else
      var k := FirstMinimum(ds[..|ds| - 1]);
      if ds[|ds| - 1] < ds[k] then |ds| - 1 else k
  }

  /** The running minimum of the scan: infinity before the first distance. */
  function RunningMin(ds: seq<real>): ExtReal {
    if ds == [] then Infinity else Finite(ds[FirstMinimum(ds)])
  }

  /** The position the scan holds as nearest: the first, before any distance. */
  function RunningNearest(ds: seq<real>): nat {
    if ds == [] then 0 else FirstMinimum(ds)
  }

  /** Appending a distance moves the running minimum to it exactly when it is
      strictly smaller than the current one. */
  lemma RunningStep(ds: seq<real>, d: real)
    ensures RunningNearest(ds + [d]) == if RunningMin(ds).Exceeds(d) then |ds| else RunningNearest(ds)
    ensures RunningMin(ds + [d]) == if RunningMin(ds).Exceeds(d) then Finite(d) else RunningMin(ds)
  {
    if ds != [] {
      assert (ds + [d])[..|ds|] == ds;
    }
  }

  /** One more warehouse scanned: its distance is appended and the entries are
      those after its distance lookup. */
  lemma ScanStep(m: Entries, now: int, stdTtl: int, fromId: string, from: Location,
                 ws: seq<Warehouse>, i: int, haversine: Haversine)
    requires WellTyped(m) && 0 <= i < |ws|
    ensures var before := Scan(m, now, stdTtl, fromId, from, ws[..i], haversine);
      var after := Scan(m, now, stdTtl, fromId, from, ws[..i + 1], haversine);
      var step := CalculateSpec(before.1, now, stdTtl, DistKey(fromId, WarehousePointId(ws[i].id)),
                                haversine(from.lat, from.lng, ws[i].location.lat, ws[i].location.lng));
      after.0 == before.0 + [step.0] && after.1 == step.1
  {
    assert ws[..i + 1][..i] == ws[..i];
  }

  /** The answer and the entries after a lookup for this seller and product. */
  function FindNearestSpec(m: Entries, now: int, stdTtl: int, db: Db, sellerId: int, productId: int,
                           haversine: Haversine): (r: (Result<WarehouseLocationResponse, Failure>, Entries))
    requires WellTyped(m)
    ensures WellTyped(r.1)
  {
    var key := NearestKey(sellerId);
    var m1 := AfterGet(m, key, now);
    match Lookup(m, key, now)
    case Some(cached) => (Ok(cached.response), m1)
    case None =>
      match SellerById(db, sellerId)
      case None => (Err(SellerNotFound(sellerId)), m1)
      case Some(seller) =>
        if ProductByIdAndSeller(db, productId, sellerId).None? then
          (Err(ProductNotFoundForSeller(productId, sellerId)), m1)
        else if |db.warehouses| == 0 then
          (Err(NoWarehouses), m1)
        else
          var (ds, m2) := Scan(m1, now, stdTtl, SellerPointId(sellerId), seller.location, db.warehouses, haversine);
          var result := Response(db.warehouses[FirstMinimum(ds)]);
          (Ok(result), Store(m2, key, Nearest(result), EffectiveTtl(None, stdTtl), now))
  }

  /** The scan writes only the distance keys of the warehouses it visits. */
  lemma {:induction false} ScanFrame(m: Entries, now: int, stdTtl: int, fromId: string, from: Location,
                                     ws: seq<Warehouse>, haversine: Haversine, k: string)
    requires WellTyped(m)
    requires forall i :: 0 <= i < |ws| ==> k != ScanKey(fromId, ws[i])
    ensures var m' := Scan(m, now, stdTtl, fromId, from, ws, haversine).1;
      (k in m' <==> k in m) && (k in m ==> m'[k] == m[k])
    decreases |ws|
  {
    if ws != [] {
      ScanFrame(m, now, stdTtl, fromId, from, ws[..|ws| - 1], haversine, k);
      assert k != ScanKey(fromId, ws[|ws| - 1]);
    }
  }

  /** Warehouse point identifiers are distinct for distinct warehouse ids. */
  lemma ScanKeyInjective(fromId: string, w1: Warehouse, w2: Warehouse)
    requires ScanKey(fromId, w1) == ScanKey(fromId, w2)
    ensures w1.id == w2.id
  {
    DistKeyInjective(fromId, WarehousePointId(w1.id), WarehousePointId(w2.id));
    assert w1.id == WarehousePointId(w1.id)[3..] == WarehousePointId(w2.id)[3..] == w2.id;
  }

  /** With distinct warehouse ids, scanning a prefix of the list leaves the key of
      the next warehouse as it was. */
  lemma NextKeyUntouched(m: Entries, now: int, stdTtl: int, fromId: string, from: Location,
                         ws: seq<Warehouse>, n: int, haversine: Haversine)
    requires WellTyped(m) && 0 <= n < |ws|
    requires forall i, j :: 0 <= i < j < |ws| ==> ws[i].id != ws[j].id
    ensures Lookup(Scan(m, now, stdTtl, fromId, from, ws[..n], haversine).1, ScanKey(fromId, ws[n]), now)
         == Lookup(m, ScanKey(fromId, ws[n]), now)
  {
    var key := ScanKey(fromId, ws[n]);
    forall i | 0 <= i < n
      ensures key != ScanKey(fromId, ws[..n][i])
    {
      if key == ScanKey(fromId, ws[i]) {
        ScanKeyInjective(fromId, ws[n], ws[i]);
      }
    }
    ScanFrame(m, now, stdTtl, fromId, from, ws[..n], haversine, key);
  }

  /** The formula's distance from `from` to each warehouse, in list order. */
  function FormulaDistances(from: Location, ws: seq<Warehouse>, haversine: Haversine): (ds: seq<real>)
    ensures |ds| == |ws|
    ensures forall i :: 0 <= i < |ws| ==>
      ds[i] == haversine(from.lat, from.lng, ws[i].location.lat, ws[i].location.lng)
  {
    if ws == [] then []
    else
      var w := ws[|ws| - 1];
      FormulaDistances(from, ws[..|ws| - 1], haversine) + [haversine(from.lat, from.lng, w.location.lat, w.location.lng)]
  }

  /** On a cache holding no live distance for any of the warehouses, and with
      distinct warehouse ids, every distance the scan uses is the formula's value. */
  lemma {:induction false} ColdScanDistances(m: Entries, now: int, stdTtl: int, fromId: string, from: Location,
                                             ws: seq<Warehouse>, haversine: Haversine)
    requires WellTyped(m)
    requires forall i :: 0 <= i < |ws| ==> Lookup(m, ScanKey(fromId, ws[i]), now).None?
    requires forall i, j :: 0 <= i < j < |ws| ==> ws[i].id != ws[j].id
    ensures Scan(m, now, stdTtl, fromId, from, ws, haversine).0 == FormulaDistances(from, ws, haversine)
    decreases |ws|
  {
    if ws != [] {
      var n := |ws| - 1;
      var init := ws[..n];
      var w := ws[n];
      var (ds, m1) := Scan(m, now, stdTtl, fromId, from, init, haversine);
      var computed := haversine(from.lat, from.lng, w.location.lat, w.location.lng);
      NextKeyUntouched(m, now, stdTtl, fromId, from, ws, n, haversine);
      var d := CalculateSpec(m1, now, stdTtl, ScanKey(fromId, w), computed).0;
      assert d == computed;
      assert Scan(m, now, stdTtl, fromId, from, ws, haversine).0 == ds + [d] by {
        ScanStep(m, now, stdTtl, fromId, from, ws, n, haversine);
        assert ws[..n + 1] == ws;
      }
      assert ds == FormulaDistances(from, init, haversine) by {
        ColdScanDistances(m, now, stdTtl, fromId, from, init, haversine);
      }
    }
  }

  /** A live cached answer is returned as it is and nothing changes: the seller,
      the product and the warehouses are not looked at. */
  lemma CachedHitSkipsValidation(m: Entries, now: int, stdTtl: int, db: Db, sellerId: int, productId: int,
                                 haversine: Haversine, response: WarehouseLocationResponse)
    requires WellTyped(m)
    requires Lookup(m, NearestKey(sellerId), now) == Some(Nearest(response))
    ensures FindNearestSpec(m, now, stdTtl, db, sellerId, productId, haversine) == (Ok(response), m)
  {
  }

  /** Without a live cached answer, the checks fail in order: seller, product
      ownership, non-empty warehouse list; when all pass the answer is a
      warehouse of the list at the first smallest distance of the scan. */
  lemma FindNearestOutcomes(m: Entries, now: int, stdTtl: int, db: Db, sellerId: int, productId: int,
                            haversine: Haversine)
    requires WellTyped(m)
    requires Lookup(m, NearestKey(sellerId), now).None?
    ensures var r := FindNearestSpec(m, now, stdTtl, db, sellerId, productId, haversine).0;
      && (sellerId !in db.sellers ==> r == Err(SellerNotFound(sellerId)))
      && (sellerId in db.sellers && ProductByIdAndSeller(db, productId, sellerId).None? ==>
            r == Err(ProductNotFoundForSeller(productId, sellerId)))
      && (sellerId in db.sellers && ProductByIdAndSeller(db, productId, sellerId).Some? && db.warehouses == [] ==>
            r == Err(NoWarehouses))
      && (r.Ok? <==> sellerId in db.sellers && ProductByIdAndSeller(db, productId, sellerId).Some? && db.warehouses != [])
      && (r.Ok? ==>
            var ds := Scan(AfterGet(m, NearestKey(sellerId), now), now, stdTtl, SellerPointId(sellerId),
                           db.sellers[sellerId].location, db.warehouses, haversine).0;
            exists k :: IsFirstMinimum(ds, k) && r.value == Response(db.warehouses[k]))
  {
    if sellerId in db.sellers && ProductByIdAndSeller(db, productId, sellerId).Some? && db.warehouses != [] {
      var ds := Scan(AfterGet(m, NearestKey(sellerId), now), now, stdTtl, SellerPointId(sellerId),
                     db.sellers[sellerId].location, db.warehouses, haversine).0;
      assert IsFirstMinimum(ds, FirstMinimum(ds));
    }
  }

  /** The formula puts warehouse `k` at most as far from `s` as every listed
      warehouse, and strictly nearer than every one listed before it. */
  predicate IsNearestTo(s: Location, ws: seq<Warehouse>, k: int, haversine: Haversine) {
    && 0 <= k < |ws|
    && (forall j :: 0 <= j < |ws| ==>
          haversine(s.lat, s.lng, ws[k].location.lat, ws[k].location.lng)
            <= haversine(s.lat, s.lng, ws[j].location.lat, ws[j].location.lng))
    && (forall j :: 0 <= j < k ==>
          haversine(s.lat, s.lng, ws[k].location.lat, ws[k].location.lng)
            < haversine(s.lat, s.lng, ws[j].location.lat, ws[j].location.lng))
  }

  /** On a cold cache (no live answer for the seller, no live distance from the
      seller to any warehouse) with distinct warehouse ids, a successful answer is
      a warehouse of the list whose distance is at most every other's and strictly
      below every earlier one's. */
  lemma NearestOnColdCache(m: Entries, now: int, stdTtl: int, db: Db, sellerId: int, productId: int,
                           haversine: Haversine)
    requires WellTyped(m)
    requires Lookup(m, NearestKey(sellerId), now).None?
    requires forall i :: 0 <= i < |db.warehouses| ==>
      Lookup(m, ScanKey(SellerPointId(sellerId), db.warehouses[i]), now).None?
    requires forall i, j :: 0 <= i < j < |db.warehouses| ==> db.warehouses[i].id != db.warehouses[j].id
    ensures var r := FindNearestSpec(m, now, stdTtl, db, sellerId, productId, haversine).0;
      r.Ok? ==>
        exists k :: IsNearestTo(db.sellers[sellerId].location, db.warehouses, k, haversine)
                 && r.value == Response(db.warehouses[k])
  {
    var key := NearestKey(sellerId);
    var r := FindNearestSpec(m, now, stdTtl, db, sellerId, productId, haversine).0;
    if r.Ok? {
      var m1 := AfterGet(m, key, now);
      var fromId := SellerPointId(sellerId);
      var s := db.sellers[sellerId].location;
      var ws := db.warehouses;
      var ds := Scan(m1, now, stdTtl, fromId, s, ws, haversine).0;
      var k := FirstMinimum(ds);
      assert r.value == Response(ws[k]);
      assert IsNearestTo(s, ws, k, haversine) by {
        forall i | 0 <= i < |ws|
          ensures Lookup(m1, ScanKey(fromId, ws[i]), now).None?
        {
          assert Lookup(m1, ScanKey(fromId, ws[i]), now) == Lookup(m, ScanKey(fromId, ws[i]), now);
        }
        ColdScanDistances(m1, now, stdTtl, fromId, s, ws, haversine);
      }
    }
  }

  /** Whenever an answer is given it is cached under the seller's key, so a second
      call at the same time returns it again and changes nothing. */
  lemma FindNearestIdempotent(m: Entries, now: int, stdTtl: int, db: Db, sellerId: int, productId: int,
                              otherProductId: int, haversine: Haversine)
    requires WellTyped(m) && stdTtl >= 0
    ensures var (r, m') := FindNearestSpec(m, now, stdTtl, db, sellerId, productId, haversine);
      r.Ok? ==>
        && Lookup(m', NearestKey(sellerId), now) == Some(Nearest(r.value))
        && FindNearestSpec(m', now, stdTtl, db, sellerId, otherProductId, haversine) == (r, m')
  {
    var (r, m') := FindNearestSpec(m, now, stdTtl, db, sellerId, productId, haversine);
    if r.Ok? {
      if Lookup(m, NearestKey(sellerId), now).None? {
        StoreThenLookup(m', NearestKey(sellerId), Nearest(r.value), stdTtl, now, NearestKey(sellerId));
      }
      CachedHitSkipsValidation(m', now, stdTtl, db, sellerId, otherProductId, haversine, r.value);
    }
  }

  /** An error writes nothing: at most an expired answer for the seller is
      evicted, and the live contents of the cache stay as they were. */
  lemma FindNearestErrorWritesNothing(m: Entries, now: int, stdTtl: int, db: Db, sellerId: int, productId: int,
                                      haversine: Haversine)
    requires WellTyped(m)
    ensures var (r, m') := FindNearestSpec(m, now, stdTtl, db, sellerId, productId, haversine);
      r.Err? ==> m' == AfterGet(m, NearestKey(sellerId), now) && Live(m', now) == Live(m, now)
  {
    GetKeepsLive(m, NearestKey(sellerId), now);
  }

  /** The scan over a non-empty warehouse list: a running minimum that starts at
      infinity and is replaced only by a strictly smaller distance. */
  method ScanForNearest(cache: CacheManager<CacheValue>, now: int, fromId: string, from: Location,
                        warehouseList: seq<Warehouse>, haversine: Haversine)
    returns (nearestWarehouse: Warehouse)
    requires WellTyped(cache.entries) && |warehouseList| > 0
    modifies cache
    ensures var (ds, m) := Scan(old(cache.entries), now, cache.stdTtl, fromId, from, warehouseList, haversine);
      cache.entries == m && nearestWarehouse == warehouseList[FirstMinimum(ds)]
  {
    nearestWarehouse := warehouseList[0];
    var minDistance: ExtReal := Infinity;
    ghost var m0 := cache.entries;
    ghost var ds: seq<real> := [];

    for i := 0 to |warehouseList|
      invariant (ds, cache.entries) == Scan(m0, now, cache.stdTtl, fromId, from, warehouseList[..i], haversine)
      invariant minDistance == RunningMin(ds) && RunningNearest(ds) < |warehouseList|
      invariant nearestWarehouse == warehouseList[RunningNearest(ds)]
    {
      var warehouse := warehouseList[i];
      DistKeyKind(fromId, WarehousePointId(warehouse.id));
      var distance := Calculate(cache, now, fromId, from, WarehousePointId(warehouse.id),
                                warehouse.location, haversine);
      assert (ds + [distance], cache.entries)
          == Scan(m0, now, cache.stdTtl, fromId, from, warehouseList[..i + 1], haversine) by {
        ScanStep(m0, now, cache.stdTtl, fromId, from, warehouseList, i, haversine);
      }
      RunningStep(ds, distance);
      if minDistance.Exceeds(distance) {
        minDistance := Finite(distance);
        nearestWarehouse := warehouse;
      }
      ds := ds + [distance];
    }
    assert warehouseList[..|warehouseList|] == warehouseList;
  }

  /** The service's `findNearestWarehouse`. */
  method FindNearestWarehouse(cache: CacheManager<CacheValue>, db: Db, sellerId: int, productId: int,
                              now: int, haversine: Haversine)
    returns (r: Result<WarehouseLocationResponse, Failure>)
    requires WellTyped(cache.entries)
    modifies cache
    ensures (r, cache.entries)
         == FindNearestSpec(old(cache.entries), now, cache.stdTtl, db, sellerId, productId, haversine)
    ensures WellTyped(cache.entries)
  {
    var cacheKey := NearestKey(sellerId);
    var cached := cache.Get(cacheKey, now);
    if cached.Some? {
      return Ok(cached.value.response);
    }

    var seller := SellerById(db, sellerId);
    if seller.None? {
      return Err(SellerNotFound(sellerId));
    }

    var product := ProductByIdAndSeller(db, productId, sellerId);
    if product.None? {
      return Err(ProductNotFoundForSeller(productId, sellerId));
    }

    var warehouseList := db.warehouses;
    if |warehouseList| == 0 {
      return Err(NoWarehouses);
    }

    var nearestWarehouse := ScanForNearest(cache, now, SellerPointId(sellerId), seller.value.location,
                                           warehouseList, haversine);
    var result := Response(nearestWarehouse);
    cache.Set(cacheKey, Nearest(result), None, now);
    r := Ok(result);
  }
}
