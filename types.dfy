/** The domain types of the shipping-price engine and the errors it throws. */
module Types {
  import opened Common

  /** The delivery speeds a charge can be computed for. */
  datatype DeliverySpeed = Standard | Express

  /** The transport modes a distance tier can name. */
  datatype TransportMode = Aeroplane | Truck | MiniVan

  /** One row of a transport table: the half-open distance interval
      [minDistance, maxDistance) in km and the rate per km per kg. */
  datatype TransportConfig = TransportConfig(
    mode: TransportMode,
    minDistance: real,
    maxDistance: ExtReal,
    ratePerKmPerKg: real)

  /** A geographic point in decimal degrees. */
  datatype Location = Location(lat: real, lng: real)

  /** The answer of the nearest-warehouse lookup. */
  datatype WarehouseLocationResponse = WarehouseLocationResponse(
    warehouseId: string,
    warehouseLocation: Location)

  /** The answer of the combined lookup-then-charge operation. */
  datatype CombinedShippingResponse = CombinedShippingResponse(
    shippingCharge: real,
    nearestWarehouse: WarehouseLocationResponse)

  /** What the engine throws. The services throw objects with status 404; the
      two strategies throw plain errors. */
  datatype Failure =
    | SellerNotFound(sellerId: int)
    | ProductNotFoundForSeller(productId: int, ownerId: int)
    | NoWarehouses
    | WarehouseNotFound(warehouseId: string)
    | CustomerNotFound(customerId: string)
    | ProductNotFound(productId: int)
    | NoTransportMode(distanceKm: real)
    | UnsupportedSpeed(speed: string, validOptions: seq<string>)
}
