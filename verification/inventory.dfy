/** The inventory store: the in-memory product list and the SQL writes behind
    adding, editing and deleting a product. */
module Inventory {
  import opened Common
  import opened Database

  /** A product as the screens see it. */
  datatype Product = Product(id: string, name: string, price: int, stock: int,
                             image: Option<string>, syncStatus: Option<SyncStatus>)

  /** The fields a new product is created from (a product without its id). */
  datatype NewProduct = NewProduct(name: string, price: int, stock: int, image: Option<string>)

  /** The fields an edit may carry; an absent field is left alone. */
  datatype Patch = Patch(name: Option<string>, price: Option<int>, stock: Option<int>,
                         image: Option<string>)

  /** The store's state: the last fetched product list and the loading flag. */
  datatype Store = Store(products: seq<Product>, isLoading: bool)

  const InitialStore := Store([], false)

  /** What the environment decides during one store action: which statement (if any) hits
      an I/O error, whether the refreshing read fails, and the order in which SQLite returns
      the rows of `products` (the query has no ORDER BY). */
  datatype Io = Io(fault: Option<nat>, readFails: bool, scan: seq<string>)

  /** What an action leaves: the store, the database, and whether its transaction committed. */
  datatype Outcome = Outcome(store: Store, db: Db, committed: bool)

  /** Stock of a product as the LEFT JOIN reports it: its `inventory_cache` row, else 0. */
  function StockOf(db: Db, id: string): int
  {
    if id in db.inventory then db.inventory[id].stock else 0
  }

  /** The product one joined row becomes. */
  function JoinRow(db: Db, id: string): Product
    requires id in db.products
  {
    var row := db.products[id];
    Product(id, row.name, row.price, StockOf(db, id), None, row.syncStatus)
  }

  /** `SELECT p.*, i.stock FROM products p LEFT JOIN inventory_cache i ON p.id = i.product_id`,
      rows visited in `scan` order, each mapped to a product without an image. */
  function Query(db: Db, scan: seq<string>): (r: seq<Product>)
    ensures |r| <= |scan|
    ensures forall i :: 0 <= i < |r| ==>
              && r[i].id in db.products
              && r[i].name == db.products[r[i].id].name
              && r[i].price == db.products[r[i].id].price
              && r[i].stock == StockOf(db, r[i].id)
              && r[i].image.None?
              && r[i].syncStatus == db.products[r[i].id].syncStatus
    ensures forall i :: 0 <= i < |scan| && scan[i] in db.products ==> JoinRow(db, scan[i]) in r
    decreases |scan|
  {
    if |scan| == 0 then []
    else
      var rest := Query(db, scan[1..]);
      assert forall i :: 1 <= i < |scan| ==> scan[i] == scan[1..][i - 1];
      if scan[0] in db.products then [JoinRow(db, scan[0])] + rest else rest
  }

  /** `scan` lists every row of `products` exactly once. */
  predicate EnumeratesProducts(db: Db, scan: seq<string>)
  {
    && (forall i, j :: 0 <= i < j < |scan| ==> scan[i] != scan[j])
    && (forall i :: 0 <= i < |scan| ==> scan[i] in db.products)
    && (forall id :: id in db.products ==> id in scan)
  }

  /** When SQLite visits every row once, the fetched list has one product per row, in
      visiting order. */
  lemma {:induction false} QueryOnePerRow(db: Db, scan: seq<string>)
    requires forall i :: 0 <= i < |scan| ==> scan[i] in db.products
    ensures |Query(db, scan)| == |scan|
    ensures forall i :: 0 <= i < |scan| ==> Query(db, scan)[i].id == scan[i]
    decreases |scan|
  {
    if |scan| > 0 {
      QueryOnePerRow(db, scan[1..]);
    }
  }

  /** `fetchProducts`: on success the list is replaced by the query result; on a failed read
      it is kept. The loading flag ends cleared either way. */
  function FetchProducts(s: Store, db: Db, io: Io): (r: Store)
    ensures !r.isLoading
    ensures io.readFails ==> r.products == s.products
    ensures !io.readFails ==> r.products == Query(db, io.scan)
    ensures !io.readFails ==> forall i :: 0 <= i < |r.products| ==>
              r.products[i].id in db.products && r.products[i].stock == StockOf(db, r.products[i].id)
  {
    if io.readFails then s.(isLoading := false) else Store(Query(db, io.scan), false)
  }

  /** When SQLite visits every row of `products` once, a successful fetch lists one product
      per row: every product row is fetched, and no id is fetched twice. */
  lemma FetchShowsEveryRow(s: Store, db: Db, io: Io)
    requires !io.readFails && EnumeratesProducts(db, io.scan)
    ensures var ps := FetchProducts(s, db, io).products;
            && |ps| == |db.products|
            && (forall id :: id in db.products ==> exists i :: 0 <= i < |ps| && ps[i].id == id)
            && (forall i, j :: 0 <= i < j < |ps| ==> ps[i].id != ps[j].id)
  {
    var ps := FetchProducts(s, db, io).products;
    QueryOnePerRow(db, io.scan);
    forall id | id in db.products
      ensures exists i :: 0 <= i < |ps| && ps[i].id == id
    {
      var i :| 0 <= i < |io.scan| && io.scan[i] == id;
      assert ps[i].id == id;
    }
    EnumerationSize(db, io.scan);
  }

  /** A scan that lists every row once is as long as the table. */
  lemma EnumerationSize(db: Db, scan: seq<string>)
    requires EnumeratesProducts(db, scan)
    ensures |db.products| == |scan|
  {
    assert db.products.Keys == set i | 0 <= i < |scan| :: scan[i];
    DistinctCount(scan);
  }

  /** A sequence without repeats has as many distinct elements as entries. */
  lemma {:induction false} DistinctCount(scan: seq<string>)
    requires forall i, j :: 0 <= i < j < |scan| ==> scan[i] != scan[j]
    ensures |set i | 0 <= i < |scan| :: scan[i]| == |scan|
    decreases |scan|
  {
    if |scan| > 0 {
      var rest := scan[1..];
      DistinctCount(rest);
      var a := set i | 0 <= i < |scan| :: scan[i];
      var b := set i | 0 <= i < |rest| :: rest[i];
      assert a == b + {scan[0]} by {
        forall x | x in a ensures x in b + {scan[0]} {
          var i :| 0 <= i < |scan| && scan[i] == x;
          if i > 0 { assert rest[i - 1] == x; }
        }
      }
      assert scan[0] !in b;
    }
  }

  /** The two inserts `addProduct` runs under one transaction. */
  function AddStatements(p: NewProduct, newId: string, now: string): seq<Stmt>
  {
    [InsertProductRow(newId, ProductRow(p.name, p.price, Some(now), Some(Pending))),
     InsertStockRow(newId, StockRow(p.stock, Some(now)))]
  }

  /** `addProduct`: inserts the product row (pending sync) and its stock row under the same
      fresh id, both or neither; the list is refreshed only after a commit. The image is not
      written anywhere. */
  function AddProduct(s: Store, db: Db, p: NewProduct, newId: string, now: string, io: Io): (r: Outcome)
    ensures r.committed <==> (io.fault.None? || io.fault.value >= 2)
                             && newId !in db.products && newId !in db.inventory
    ensures r.committed ==>
              && r.db.products == db.products[newId := ProductRow(p.name, p.price, Some(now), Some(Pending))]
              && r.db.inventory == db.inventory[newId := StockRow(p.stock, Some(now))]
              && r.db.meta == db.meta
              && r.store == FetchProducts(s, r.db, io)
    ensures !r.committed ==> r.db == db && r.store == s
  {
    var stmts := AddStatements(p, newId, now);
    TransactionOfTwo(db, stmts[0], stmts[1], io.fault);
    assert stmts == [stmts[0], stmts[1]];
    var tx := RunTransaction(db, stmts, io.fault);
    if tx.Ok? then Outcome(FetchProducts(s, tx.value, io), tx.value, true)
    else Outcome(s, db, false)
  }

  /** After a committed `addProduct`, a refetch that visits the new row shows the product
      with the given name, price and stock, pending sync, and no image. */
  lemma AddedProductIsFetched(s: Store, db: Db, p: NewProduct, newId: string, now: string, io: Io)
    requires AddProduct(s, db, p, newId, now, io).committed
    requires !io.readFails && newId in io.scan
    ensures Product(newId, p.name, p.price, p.stock, None, Some(Pending))
              in AddProduct(s, db, p, newId, now, io).store.products
  {
    var r := AddProduct(s, db, p, newId, now, io);
    var i :| 0 <= i < |io.scan| && io.scan[i] == newId;
    assert JoinRow(r.db, newId) == Product(newId, p.name, p.price, p.stock, None, Some(Pending));
  }

  /** The statements `updateProduct` runs: the COALESCE update when a name or price is given,
      the stock upsert when a stock is given. */
  function UpdateStatements(id: string, patch: Patch, now: string): seq<Stmt>
  {
    (if patch.name.Some? || patch.price.Some? then [UpdateProductRow(id, patch.name, patch.price, now)] else [])
    + (if patch.stock.Some? then [ReplaceStockRow(id, StockRow(patch.stock.value, Some(now)))] else [])
  }

  /** `updateProduct`. Given a name or price, the existing row takes the given fields, keeps
      the others, and is stamped and marked pending; given a stock, the stock row is upserted
      with that value, unclamped. The image is ignored. All or nothing. */
  function UpdateProduct(s: Store, db: Db, id: string, patch: Patch, now: string, io: Io): (r: Outcome)
    ensures r.committed <==> io.fault.None? || io.fault.value >= |UpdateStatements(id, patch, now)|
    ensures r.committed ==>
              && r.db.meta == db.meta
              && (forall k :: k != id ==> (k in r.db.products <==> k in db.products))
              && (forall k :: k != id && k in db.products ==> r.db.products[k] == db.products[k])
              && (id in r.db.products <==> id in db.products)
              && (id in db.products && (patch.name.Some? || patch.price.Some?) ==>
                    r.db.products[id] == ProductRow(patch.name.GetOr(db.products[id].name),
                                                    patch.price.GetOr(db.products[id].price),
                                                    Some(now), Some(Pending)))
              && (id in db.products && patch.name.None? && patch.price.None? ==>
                    r.db.products[id] == db.products[id])
              && (patch.stock.Some? ==> r.db.inventory == db.inventory[id := StockRow(patch.stock.value, Some(now))])
              && (patch.stock.None? ==> r.db.inventory == db.inventory)
              && r.store == FetchProducts(s, r.db, io)
    ensures !r.committed ==> r.db == db && r.store == s
  {
    var stmts := UpdateStatements(id, patch, now);
    TransactionOfAtMostTwo(db, stmts, io.fault);
    var tx := RunTransaction(db, stmts, io.fault);
    if tx.Ok? then Outcome(FetchProducts(s, tx.value, io), tx.value, true)
    else Outcome(s, db, false)
  }

  /** A stock-only update of an id with no product row creates a stock row that no fetch ever
      shows: the LEFT JOIN starts from `products`. */
  lemma OrphanStockIsInvisible(s: Store, db: Db, id: string, stock: int, now: string, io: Io, scan: seq<string>)
    requires id !in db.products
    requires UpdateProduct(s, db, id, Patch(None, None, Some(stock), None), now, io).committed
    ensures id in UpdateProduct(s, db, id, Patch(None, None, Some(stock), None), now, io).db.inventory
    ensures var d := UpdateProduct(s, db, id, Patch(None, None, Some(stock), None), now, io).db;
            forall p :: p in Query(d, scan) ==> p.id != id
  {
  }

  /** `deleteProduct`: removes the stock row, then the product row, in one transaction. */
  function DeleteProduct(s: Store, db: Db, id: string, io: Io): (r: Outcome)
    ensures r.committed <==> io.fault.None? || io.fault.value >= 2
    ensures r.committed ==> r.db == Db(db.products - {id}, db.inventory - {id}, db.meta)
    ensures r.committed ==> r.store == FetchProducts(s, r.db, io)
    ensures !r.committed ==> r.db == db && r.store == s
  {
    var stmts := [DeleteStockRow(id), DeleteProductRow(id)];
    TransactionOfTwo(db, stmts[0], stmts[1], io.fault);
    var tx := RunTransaction(db, stmts, io.fault);
    if tx.Ok? then Outcome(FetchProducts(s, tx.value, io), tx.value, true)
    else Outcome(s, db, false)
  }

  /** After a committed delete, the product is gone from every fetch and each other product
      is fetched exactly as before. */
  lemma DeleteLeavesOthers(s: Store, db: Db, id: string, io: Io, scan: seq<string>)
    requires DeleteProduct(s, db, id, io).committed
    ensures forall p :: p in Query(DeleteProduct(s, db, id, io).db, scan) ==> p.id != id
    ensures forall p :: p in Query(DeleteProduct(s, db, id, io).db, scan) ==> p in Query(db, scan)
  {
    var d := DeleteProduct(s, db, id, io).db;
    forall p | p in Query(d, scan)
      ensures p in Query(db, scan)
    {
      QueryDeleteSubset(db, id, scan, p);
    }
  }

  lemma {:induction false} QueryDeleteSubset(db: Db, id: string, scan: seq<string>, p: Product)
    requires p in Query(Db(db.products - {id}, db.inventory - {id}, db.meta), scan)
    ensures p in Query(db, scan)
    decreases |scan|
  {
    var d := Db(db.products - {id}, db.inventory - {id}, db.meta);
    if |scan| > 0 {
      var rest := Query(d, scan[1..]);
      if p in rest {
        QueryDeleteSubset(db, id, scan[1..], p);
      }
    }
  }
}
