/**
 * backend/product-service/src/main.rs: the caller's product catalogue, scoped
 * to the authenticated user like the client service.
 */
module ProductService {
  import opened Wrappers
  import Tables
  import opened RustDb

  const NotFound: string := "Product not found"

  /** `CreateProductRequest`. */
  datatype ProductRequest = ProductRequest(name: string, description: Option<string>, price: real)

  function Stored(id: int, user: int, req: ProductRequest): (p: Product)
    ensures p.id == id && p.userId == user
    ensures p.name == req.name && p.description == req.description && p.price == req.price
  {
    Product(id, user, req.name, req.description, req.price)
  }

  predicate Owns(db: Database, user: int, id: int)
    reads db
  {
    id in db.products && db.products[id].userId == user
  }

  /** `list_products`: exactly the caller's products. */
  function ListProducts(db: Database, user: int): (rows: seq<Product>)
    reads db
    ensures forall p :: p in rows <==> p in db.products.Values && p.userId == user
  {
    Tables.Select(db.products, (p: Product) => p.userId == user)
  }

  /** `get_product`: the caller's product, or 404 "Product not found". */
  function GetProduct(db: Database, user: int, id: int): (r: Outcome<Product>)
    reads db
    ensures r.Ok? <==> Owns(db, user, id)
    ensures r.Ok? ==> r.value == db.products[id]
    ensures r.Fail? ==> r == Fail(404, NotFound)
  {
    if Owns(db, user, id) then Ok(db.products[id]) else Fail(404, NotFound)
  }

  /** `create_product`: a new product owned by the caller. */
  method CreateProduct(db: Database, user: int, req: ProductRequest, fault: bool) returns (r: Outcome<Product>)
    requires db.Valid()
    modifies db`products
    ensures db.Valid()
    ensures fault ==> r == Fail(500, DbError) && db.products == old(db.products)
    ensures !fault ==> r.Ok? && r.value.id !in old(db.products)
                       && r.value == Stored(r.value.id, user, req)
                       && db.products == old(db.products)[r.value.id := r.value]
    ensures r.Ok? ==> GetProduct(db, user, r.value.id) == Ok(r.value)
  {
    if fault {
      return Fail(500, DbError);
    }
    var id := Tables.NextId(db.products.Keys);
    var row := Stored(id, user, req);
    db.products := db.products[id := row];
    return Ok(row);
  }

  /** `update_product`: name, description and price of the caller's product; no match is a 500. */
  method UpdateProduct(db: Database, user: int, id: int, req: ProductRequest, fault: bool) returns (r: Outcome<Product>)
    requires db.Valid()
    modifies db`products
    ensures db.Valid()
    ensures fault ==> r == Fail(500, DbError) && db.products == old(db.products)
    ensures !fault && !old(Owns(db, user, id)) ==> r == Fail(500, RowNotFound) && db.products == old(db.products)
    ensures !fault && old(Owns(db, user, id)) ==>
              r == Ok(Stored(id, user, req)) && db.products == old(db.products)[id := Stored(id, user, req)]
    ensures forall k :: k in old(db.products) && old(db.products)[k].userId != user ==>
              k in db.products && db.products[k] == old(db.products)[k]
  {
    if fault {
      return Fail(500, DbError);
    }
    if !Owns(db, user, id) {
      return Fail(500, RowNotFound);
    }
    var row := Stored(id, user, req);
    db.products := db.products[id := row];
    return Ok(row);
  }

  /** `delete_product`: 204 when a row of the caller went, 404 when none matched. */
  method DeleteProduct(db: Database, user: int, id: int, fault: bool) returns (r: Outcome<int>)
    requires db.Valid()
    modifies db`products
    ensures db.Valid()
    ensures fault ==> r == Fail(500, DbError) && db.products == old(db.products)
    ensures !fault && !old(Owns(db, user, id)) ==> r == Fail(404, NotFound) && db.products == old(db.products)
    ensures !fault && old(Owns(db, user, id)) ==> r == Ok(204) && db.products == old(db.products) - {id}
    ensures forall k :: k in old(db.products) && old(db.products)[k].userId != user ==>
              k in db.products && db.products[k] == old(db.products)[k]
  {
    if fault {
      return Fail(500, DbError);
    }
    if !Owns(db, user, id) {
      return Fail(404, NotFound);
    }
    db.products := db.products - {id};
    return Ok(204);
  }
}
