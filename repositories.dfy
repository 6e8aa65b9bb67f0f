/** The records the engine reads from storage, and the lookups it uses. Storage is
    a value: each table is a map keyed by id, except the warehouses, which are
    listed in the order the store returns them. */
module Repositories {
  import opened Common
  import opened Types

  datatype Seller = Seller(id: int, location: Location)
  datatype Product = Product(id: int, sellerId: int, weightKg: real)
  datatype Warehouse = Warehouse(id: string, location: Location)
  datatype Customer = Customer(id: string, location: Location)

  datatype Db = Db(
    sellers: map<int, Seller>,
    products: map<int, Product>,
    warehouses: seq<Warehouse>,
    customers: map<string, Customer>)

  function SellerById(db: Db, id: int): Option<Seller> {
    if id in db.sellers then Some(db.sellers[id]) else None
  }

  function CustomerById(db: Db, id: string): Option<Customer> {
    if id in db.customers then Some(db.customers[id]) else None
  }

  function ProductById(db: Db, id: int): Option<Product> {
    if id in db.products then Some(db.products[id]) else None
  }

  /** The product with this id, provided it belongs to this seller. */
  function ProductByIdAndSeller(db: Db, productId: int, sellerId: int): (r: Option<Product>)
    ensures r.Some? <==> productId in db.products && db.products[productId].sellerId == sellerId
    ensures r.Some? ==> r == ProductById(db, productId)
  {
    if productId in db.products && db.products[productId].sellerId == sellerId
    then Some(db.products[productId]) else None
  }

  /** The first listed warehouse with this id. */
  function WarehouseById(ws: seq<Warehouse>, id: string): (r: Option<Warehouse>)
    ensures r.Some? ==> r.value in ws && r.value.id == id
    ensures r.None? ==> forall i :: 0 <= i < |ws| ==> ws[i].id != id
  {
    if ws == [] then None
    else if ws[0].id == id then Some(ws[0])
    else WarehouseById(ws[1..], id)
  }
}
