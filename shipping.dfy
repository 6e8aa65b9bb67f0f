/** The shipping-charge orchestration.

    A charge from a warehouse to a customer checks the warehouse, the customer and
    the product in that order, obtains the warehouse-to-customer distance through
    the distance cache, takes the transport base charge, applies the delivery
    speed, and rounds to hundredths. The combined operation first resolves the
    seller's nearest warehouse and then charges from it. */
module Shipping {
  import opened Common
  import opened Types
  import opened Cache
  import opened AppCache
  import opened Repositories
  import opened Transport
  import opened Delivery
  import opened Distance
  import opened Warehouse

  /** An amount in whole hundredths, as the rounded charge always is. */
  predicate WholeCents(x: real) {
    (x * 100.0).Floor as real == x * 100.0
  }

  /** `Math.round(x * 100) / 100`: `Math.round` rounds half-way cases up, so it is
      the floor of `x * 100 + 0.5`, for negative values too. */
  function RoundCents(x: real): (r: real)
    ensures x - 0.005 < r <= x + 0.005
    ensures WholeCents(r)
    ensures x >= 0.0 ==> r >= 0.0
  {
    var n := (x * 100.0 + 0.5).Floor;
    assert n as real * 0.01 * 100.0 == n as real;
    n as real * 0.01
  }

  /** Rounding an amount already in whole hundredths changes nothing, so rounding
      twice is rounding once. */
  lemma RoundCentsIdempotent(x: real)
    ensures RoundCents(RoundCents(x)) == RoundCents(x)
  {
    var r := RoundCents(x);
    var n := (r * 100.0).Floor;
    assert r * 100.0 == n as real;
    assert (r * 100.0 + 0.5).Floor == n;
  }

  /** Half a hundredth rounds up, for positive and negative amounts alike. */
  lemma RoundCentsHalfway()
    ensures RoundCents(0.125) == 0.13
    ensures RoundCents(-0.125) == -0.12
    ensures RoundCents(60.6) == 60.6
  {
    assert (0.125 * 100.0 + 0.5).Floor == 13;
    assert (-0.125 * 100.0 + 0.5).Floor == -12;
    assert (60.6 * 100.0 + 0.5).Floor == 6060;
  }

  /** The point identifier of a customer; a warehouse's is `WarehousePointId`. */
  function CustomerPointId(customerId: string): string {
    "cust:" + customerId
  }

  /** The charge for a distance, a weight and a speed key: the transport base
      charge first, then the delivery speed, then rounding. */
  function ChargeFor(distanceKm: real, weightKg: real, speed: string): (r: Result<real, Failure>)
    ensures r.Ok? ==> WholeCents(r.value)
  {
    match transportStrategy.CalculateBaseCharge(distanceKm, weightKg)
    case Err(e) => Err(e)
    case Ok(baseCharge) =>
      match GetDeliveryStrategy(speed)
      case Err(e) => Err(e)
      case Ok(s) => Ok(RoundCents(CalculateFinalCharge(s, baseCharge, weightKg)))
  }

  /** With the default table and the supported speeds: the charge fails for a
      negative distance first, then for an unsupported speed; otherwise it is the
      rounded speed-adjusted charge of the tier the distance falls into. */
  lemma ChargeForOutcomes(distanceKm: real, weightKg: real, speed: string)
    ensures ChargeFor(distanceKm, weightKg, speed).Ok? <==> distanceKm >= 0.0 && speed in ["standard", "express"]
    ensures distanceKm < 0.0 ==> ChargeFor(distanceKm, weightKg, speed) == Err(NoTransportMode(distanceKm))
    ensures distanceKm >= 0.0 && speed !in ["standard", "express"] ==>
      ChargeFor(distanceKm, weightKg, speed) == Err(UnsupportedSpeed(speed, ["standard", "express"]))
    ensures distanceKm >= 0.0 && speed == "standard" ==>
      ChargeFor(distanceKm, weightKg, speed).value
        == RoundCents(DefaultTier(distanceKm).ratePerKmPerKg * distanceKm * weightKg)
    ensures distanceKm >= 0.0 && speed == "express" ==>
      ChargeFor(distanceKm, weightKg, speed).value
        == RoundCents(DefaultTier(distanceKm).ratePerKmPerKg * distanceKm * weightKg + 10.0 + 1.2 * weightKg)
  {
    DefaultBaseCharge(distanceKm, weightKg);
    SupportedSpeedsValue();
    RegistryRoundTrip(Standard, speed);
    RegistryRoundTrip(Express, speed);
  }

  /** The standard speed charges the rounded base charge of the distance's tier. */
  lemma StandardChargeFor(distanceKm: real, weightKg: real)
    requires distanceKm >= 0.0
    ensures ChargeFor(distanceKm, weightKg, "standard").Ok?
    ensures ChargeFor(distanceKm, weightKg, "standard").value
         == RoundCents(DefaultTier(distanceKm).ratePerKmPerKg * distanceKm * weightKg)
  {
    ChargeForOutcomes(distanceKm, weightKg, "standard");
  }

  /** A successful charge is within half a hundredth of the unrounded one, and is
      never negative for a non-negative distance and weight. */
  lemma ChargeForBounds(distanceKm: real, weightKg: real, speed: string)
    requires ChargeFor(distanceKm, weightKg, speed).Ok?
    ensures var exact := CalculateFinalCharge(GetDeliveryStrategy(speed).value,
                                              transportStrategy.CalculateBaseCharge(distanceKm, weightKg).value,
                                              weightKg);
      exact - 0.005 < ChargeFor(distanceKm, weightKg, speed).value <= exact + 0.005
    ensures weightKg >= 0.0 ==> ChargeFor(distanceKm, weightKg, speed).value >= 0.0
  {
    DefaultBaseCharge(distanceKm, weightKg);
    DefaultTableSelection(distanceKm);
  }

  /** Worked charges: 250 km at 2 kg by truck, and 50 km at 0.5 kg by mini van
      with express delivery. */
  lemma ChargeForValues()
    ensures ChargeFor(250.0, 2.0, "standard") == Ok(1000.0)
    ensures ChargeFor(50.0, 0.5, "express") == Ok(85.6)
    ensures ChargeFor(-1.0, 2.0, "overnight") == Err(NoTransportMode(-1.0))
  {
    ChargeForOutcomes(250.0, 2.0, "standard");
    ChargeForOutcomes(50.0, 0.5, "express");
    ChargeForOutcomes(-1.0, 2.0, "overnight");
    assert (1000.0 * 100.0 + 0.5).Floor == 100000;
    assert (85.6 * 100.0 + 0.5).Floor == 8560;
  }

  /** The charge and the entries after `calculateShippingCharge`. */
  function ShippingSpec(m: Entries, now: int, stdTtl: int, db: Db, warehouseId: string, customerId: string,
                        productId: int, speed: string, haversine: Haversine): (r: (Result<real, Failure>, Entries))
    requires WellTyped(m)
    ensures WellTyped(r.1)
    ensures r.0.Ok? ==> WholeCents(r.0.value)
  {
    match WarehouseById(db.warehouses, warehouseId)
    case None => (Err(WarehouseNotFound(warehouseId)), m)
    case Some(w) =>
      match CustomerById(db, customerId)
      case None => (Err(CustomerNotFound(customerId)), m)
      case Some(c) =>
        match ProductById(db, productId)
        case None => (Err(ProductNotFound(productId)), m)
        case Some(p) =>
          var key := DistKey(WarehousePointId(warehouseId), CustomerPointId(customerId));
          DistKeyKind(WarehousePointId(warehouseId), CustomerPointId(customerId));
          var (d, m1) := CalculateSpec(m, now, stdTtl, key,
                                       haversine(w.location.lat, w.location.lng, c.location.lat, c.location.lng));
          (ChargeFor(d, p.weightKg, speed), m1)
  }

  /** The checks fail in order (warehouse, customer, product) and leave the cache
      as it was; once they pass, the charge is the one for the distance the cache
      yields between the warehouse and the customer, and that distance is cached
      even when the charge itself then fails. */
  lemma ShippingOutcomes(m: Entries, now: int, stdTtl: int, db: Db, warehouseId: string, customerId: string,
                         productId: int, speed: string, haversine: Haversine)
    requires WellTyped(m) && stdTtl >= 0
    ensures var (r, m') := ShippingSpec(m, now, stdTtl, db, warehouseId, customerId, productId, speed, haversine);
      && (WarehouseById(db.warehouses, warehouseId).None? ==>
            r == Err(WarehouseNotFound(warehouseId)) && m' == m)
      && (WarehouseById(db.warehouses, warehouseId).Some? && customerId !in db.customers ==>
            r == Err(CustomerNotFound(customerId)) && m' == m)
      && (WarehouseById(db.warehouses, warehouseId).Some? && customerId in db.customers
          && productId !in db.products ==>
            r == Err(ProductNotFound(productId)) && m' == m)
      && (WarehouseById(db.warehouses, warehouseId).Some? && customerId in db.customers
          && productId in db.products ==>
            var key := DistKey(WarehousePointId(warehouseId), CustomerPointId(customerId));
            exists d :: Lookup(m', key, now) == Some(Km(d))
                     && r == ChargeFor(d, db.products[productId].weightKg, speed))
  {
    var (r, m') := ShippingSpec(m, now, stdTtl, db, warehouseId, customerId, productId, speed, haversine);
    if WarehouseById(db.warehouses, warehouseId).Some? && customerId in db.customers && productId in db.products {
      var w := WarehouseById(db.warehouses, warehouseId).value;
      var c := db.customers[customerId];
      var key := DistKey(WarehousePointId(warehouseId), CustomerPointId(customerId));
      var computed := haversine(w.location.lat, w.location.lng, c.location.lat, c.location.lng);
      DistKeyKind(WarehousePointId(warehouseId), CustomerPointId(customerId));
      CalculateStores(m, now, stdTtl, key, computed);
      var d := CalculateSpec(m, now, stdTtl, key, computed).0;
      assert Lookup(m', key, now) == Some(Km(d));
    }
  }

  /** With a live cached distance between the warehouse and the customer, the
      charge is the one for that distance, whatever the coordinates, and the
      cache is left as it was. */
  lemma ShippingOnCachedDistance(m: Entries, now: int, stdTtl: int, db: Db, warehouseId: string,
                                 customerId: string, productId: int, speed: string, haversine: Haversine, d: real)
    requires WellTyped(m)
    requires WarehouseById(db.warehouses, warehouseId).Some? && customerId in db.customers
    requires productId in db.products
    requires Lookup(m, DistKey(WarehousePointId(warehouseId), CustomerPointId(customerId)), now) == Some(Km(d))
    ensures ShippingSpec(m, now, stdTtl, db, warehouseId, customerId, productId, speed, haversine)
         == (ChargeFor(d, db.products[productId].weightKg, speed), m)
  {
    var key := DistKey(WarehousePointId(warehouseId), CustomerPointId(customerId));
    DistKeyKind(WarehousePointId(warehouseId), CustomerPointId(customerId));
    var w := WarehouseById(db.warehouses, warehouseId).value;
    var c := db.customers[customerId];
    CalculateHit(m, now, stdTtl, key, haversine(w.location.lat, w.location.lng, c.location.lat, c.location.lng), d);
  }

  /** With no live cached distance between the warehouse and the customer, the
      charge is the one for the formula's distance between their locations. */
  lemma ShippingOnColdDistance(m: Entries, now: int, stdTtl: int, db: Db, warehouseId: string,
                               customerId: string, productId: int, speed: string, haversine: Haversine)
    requires WellTyped(m)
    requires WarehouseById(db.warehouses, warehouseId).Some? && customerId in db.customers
    requires productId in db.products
    requires Lookup(m, DistKey(WarehousePointId(warehouseId), CustomerPointId(customerId)), now).None?
    ensures var w := WarehouseById(db.warehouses, warehouseId).value.location;
      var c := db.customers[customerId].location;
      ShippingSpec(m, now, stdTtl, db, warehouseId, customerId, productId, speed, haversine).0
        == ChargeFor(haversine(w.lat, w.lng, c.lat, c.lng), db.products[productId].weightKg, speed)
  {
    var key := DistKey(WarehousePointId(warehouseId), CustomerPointId(customerId));
    DistKeyKind(WarehousePointId(warehouseId), CustomerPointId(customerId));
    var w := WarehouseById(db.warehouses, warehouseId).value.location;
    var c := db.customers[customerId].location;
    CalculateMiss(m, now, stdTtl, key, haversine(w.lat, w.lng, c.lat, c.lng));
  }

  /** The service's `calculateShippingCharge`. */
  method CalculateShippingCharge(cache: CacheManager<CacheValue>, db: Db, warehouseId: string, customerId: string,
                                 productId: int, speed: string, now: int, haversine: Haversine)
    returns (r: Result<real, Failure>)
    requires WellTyped(cache.entries)
    modifies cache
    ensures (r, cache.entries)
         == ShippingSpec(old(cache.entries), now, cache.stdTtl, db, warehouseId, customerId, productId, speed, haversine)
    ensures WellTyped(cache.entries)
  {
    var warehouse := WarehouseById(db.warehouses, warehouseId);
    if warehouse.None? {
      return Err(WarehouseNotFound(warehouseId));
    }

    var customer := CustomerById(db, customerId);
    if customer.None? {
      return Err(CustomerNotFound(customerId));
    }

    var product := ProductById(db, productId);
    if product.None? {
      return Err(ProductNotFound(productId));
    }

    var w := warehouse.value.location;
    var c := customer.value.location;
    var distance := Calculate(cache, now, WarehousePointId(warehouseId), w, CustomerPointId(customerId), c, haversine);
    var weightKg := product.value.weightKg;

    var baseCharge := transportStrategy.CalculateBaseCharge(distance, weightKg);
    if baseCharge.Err? {
      return Err(baseCharge.error);
    }

    var deliveryStrategy := GetDeliveryStrategy(speed);
    if deliveryStrategy.Err? {
      return Err(deliveryStrategy.error);
    }
    var finalCharge := CalculateFinalCharge(deliveryStrategy.value, baseCharge.value, weightKg);

    r := Ok(RoundCents(finalCharge));
  }

  /** The answer and the entries after `calculateCombined`. */
  function CombinedSpec(m: Entries, now: int, stdTtl: int, db: Db, sellerId: int, customerId: string,
                        productId: int, speed: string, haversine: Haversine)
    : (r: (Result<CombinedShippingResponse, Failure>, Entries))
    requires WellTyped(m)
    ensures WellTyped(r.1)
    ensures r.0.Ok? ==> WholeCents(r.0.value.shippingCharge)
  {
    var (nearest, m1) := FindNearestSpec(m, now, stdTtl, db, sellerId, productId, haversine);
    match nearest
    case Err(e) => (Err(e), m1)
    case Ok(n) =>
      var (charge, m2) := ShippingSpec(m1, now, stdTtl, db, n.warehouseId, customerId, productId, speed, haversine);
      match charge
      case Err(e) => (Err(e), m2)
      case Ok(c) => (Ok(CombinedShippingResponse(c, n)), m2)
  }

  /** The combined answer succeeds exactly when both steps do; it carries the
      nearest warehouse unchanged and the charge from that warehouse, computed on
      the cache the first step left. A failing first step is the whole outcome. */
  lemma CombinedComposes(m: Entries, now: int, stdTtl: int, db: Db, sellerId: int, customerId: string,
                         productId: int, speed: string, haversine: Haversine)
    requires WellTyped(m)
    ensures var (r, m') := CombinedSpec(m, now, stdTtl, db, sellerId, customerId, productId, speed, haversine);
      var (nearest, m1) := FindNearestSpec(m, now, stdTtl, db, sellerId, productId, haversine);
      && (nearest.Err? ==> r == Err(nearest.error) && m' == m1)
      && (r.Ok? ==>
            && nearest == Ok(r.value.nearestWarehouse)
            && ShippingSpec(m1, now, stdTtl, db, r.value.nearestWarehouse.warehouseId, customerId,
                            productId, speed, haversine) == (Ok(r.value.shippingCharge), m'))
      && (nearest.Ok? && r.Err? ==>
            ShippingSpec(m1, now, stdTtl, db, nearest.value.warehouseId, customerId,
                         productId, speed, haversine) == (Err(r.error), m'))
  {
    var (nearest, m1) := FindNearestSpec(m, now, stdTtl, db, sellerId, productId, haversine);
    var r := CombinedSpec(m, now, stdTtl, db, sellerId, customerId, productId, speed, haversine);
    if nearest.Ok? {
      var (charge, m2) := ShippingSpec(m1, now, stdTtl, db, nearest.value.warehouseId, customerId,
                                       productId, speed, haversine);
      if charge.Ok? {
        assert r == (Ok(CombinedShippingResponse(charge.value, nearest.value)), m2);
      } else {
        assert r == (Err(charge.error), m2);
      }
    } else {
      assert r == (Err(nearest.error), m1);
    }
  }

  /** A cached nearest answer naming a warehouse that is no longer listed makes
      the combined operation fail with that warehouse missing. */
  lemma CombinedStaleWarehouse(m: Entries, now: int, stdTtl: int, db: Db, sellerId: int, customerId: string,
                               productId: int, speed: string, haversine: Haversine,
                               response: WarehouseLocationResponse)
    requires WellTyped(m)
    requires Lookup(m, NearestKey(sellerId), now) == Some(Nearest(response))
    requires WarehouseById(db.warehouses, response.warehouseId).None?
    ensures CombinedSpec(m, now, stdTtl, db, sellerId, customerId, productId, speed, haversine)
         == (Err(WarehouseNotFound(response.warehouseId)), m)
  {
    CachedHitSkipsValidation(m, now, stdTtl, db, sellerId, productId, haversine, response);
  }

  /** The distances of the nearest-warehouse scan and of a charge never share a
      cache entry: their keys differ right after the `dist:` prefix. */
  lemma ScanAndChargeKeysDiffer(sellerId: int, w: Repositories.Warehouse, warehouseId: string, customerId: string)
    ensures ScanKey(SellerPointId(sellerId), w) != DistKey(WarehousePointId(warehouseId), CustomerPointId(customerId))
  {
    assert ScanKey(SellerPointId(sellerId), w)[5] == 's';
    assert DistKey(WarehousePointId(warehouseId), CustomerPointId(customerId))[5] == 'w';
  }

  /** The service's `calculateCombined`. */
  method CalculateCombined(cache: CacheManager<CacheValue>, db: Db, sellerId: int, customerId: string,
                           productId: int, speed: string, now: int, haversine: Haversine)
    returns (r: Result<CombinedShippingResponse, Failure>)
    requires WellTyped(cache.entries)
    modifies cache
    ensures (r, cache.entries)
         == CombinedSpec(old(cache.entries), now, cache.stdTtl, db, sellerId, customerId, productId, speed, haversine)
    ensures WellTyped(cache.entries)
  {
    var nearestWarehouse := FindNearestWarehouse(cache, db, sellerId, productId, now, haversine);
    if nearestWarehouse.Err? {
      return Err(nearestWarehouse.error);
    }

    var shippingCharge := CalculateShippingCharge(cache, db, nearestWarehouse.value.warehouseId, customerId,
                                                  productId, speed, now, haversine);
    if shippingCharge.Err? {
      return Err(shippingCharge.error);
    }

    r := Ok(CombinedShippingResponse(shippingCharge.value, nearestWarehouse.value));
  }
}
