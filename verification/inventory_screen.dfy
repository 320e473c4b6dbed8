/** The inventory screen: the stock buttons on each product card and the search filter
    (the point-of-sale screen filters its product grid the same way). */
module InventoryScreen {
  import opened Common
  import opened Text
  import opened Database
  import opened Inventory

  /** `Math.max(0, currentStock + change)`. */
  function NewStock(current: int, change: int): (n: int)
    ensures n >= 0 && n >= current + change
    ensures n == 0 || n == current + change
  {
    if current + change > 0 then current + change else 0
  }

  /** Minus on an empty stock leaves it empty. */
  lemma MinusAtZeroStaysZero()
    ensures NewStock(0, -1) == 0
  {
  }

  /** Plus adds exactly one to any stock that is not below -1; a stock further below zero
      (the store accepts one) jumps to 0 instead. */
  lemma PlusAddsOne(current: int)
    ensures current >= -1 ==> NewStock(current, 1) == current + 1
    ensures current < -1 ==> NewStock(current, 1) == 0
  {
  }

  /** `handleStockChange`: sends only the clamped stock to `updateProduct`. */
  function HandleStockChange(s: Store, db: Db, id: string, current: int, change: int, now: string, io: Io): (r: Outcome)
    ensures r.committed ==>
              && r.db.products == db.products
              && r.db.meta == db.meta
              && r.db.inventory == db.inventory[id := StockRow(NewStock(current, change), Some(now))]
    ensures !r.committed ==> r.db == db && r.store == s
  {
    var r := UpdateProduct(s, db, id, Patch(None, None, Some(NewStock(current, change)), None), now, io);
    assert r.committed ==> r.db.products == db.products by {
      if r.committed {
        assert forall k :: k in r.db.products <==> k in db.products;
      }
    }
    r
  }

  /** After a committed stock change on a listed product, a refetch shows the new stock, the
      same name and price, and a stock that is never negative. */
  lemma StockChangeIsFetched(s: Store, db: Db, id: string, current: int, change: int, now: string, io: Io)
    requires HandleStockChange(s, db, id, current, change, now, io).committed
    requires id in db.products && !io.readFails && id in io.scan
    ensures var r := HandleStockChange(s, db, id, current, change, now, io);
            var p := Product(id, db.products[id].name, db.products[id].price, NewStock(current, change),
                             None, db.products[id].syncStatus);
            && p in r.store.products
            && p.stock >= 0
  {
    var r := HandleStockChange(s, db, id, current, change, now, io);
    var i :| 0 <= i < |io.scan| && io.scan[i] == id;
    assert JoinRow(r.db, id).stock == NewStock(current, change);
  }

  /** The card matches when its lower-cased name contains the lower-cased query. */
  predicate Matches(p: Product, query: string)
  {
    Contains(Lower(p.name), Lower(query))
  }

  /** `products.filter(p => p.name.toLowerCase().includes(searchQuery.toLowerCase()))`. */
  function FilterByName(products: seq<Product>, query: string): (r: seq<Product>)
    ensures forall i :: 0 <= i < |r| ==> r[i] in products && Matches(r[i], query)
    ensures forall i :: 0 <= i < |products| && Matches(products[i], query) ==> products[i] in r
    ensures forall p :: multiset(r)[p] == if Matches(p, query) then multiset(products)[p] else 0
    ensures IsSubsequence(r, products)
  {
    Filter((p: Product) => Matches(p, query), products)
  }

  /** An empty search shows every product, in order. */
  lemma EmptyQueryShowsAll(products: seq<Product>)
    ensures FilterByName(products, "") == products
  {
    forall i | 0 <= i < |products|
      ensures Matches(products[i], "")
    {
      ContainsEmpty(Lower(products[i].name));
    }
    FilterKeepsAll((p: Product) => Matches(p, ""), products);
  }

  /** Matching ignores the case of ASCII letters in the query. */
  lemma QueryCaseIgnored(products: seq<Product>, query: string, other: string)
    requires Lower(query) == Lower(other)
    ensures FilterByName(products, query) == FilterByName(products, other)
  {
    FilterCongruent((p: Product) => Matches(p, query), (p: Product) => Matches(p, other), products);
  }

  /** Typing more narrows the list: when the longer query contains the shorter one, every
      product it shows is also shown for the shorter one. */
  lemma NarrowingQuery(products: seq<Product>, shorter: string, longer: string)
    requires Contains(Lower(longer), Lower(shorter))
    ensures forall p :: p in FilterByName(products, longer) ==> p in FilterByName(products, shorter)
  {
    forall p | p in FilterByName(products, longer)
      ensures p in FilterByName(products, shorter)
    {
      var r := FilterByName(products, longer);
      var i :| 0 <= i < |r| && r[i] == p;
      ContainsTransitive(Lower(p.name), Lower(longer), Lower(shorter));
      var j :| 0 <= j < |products| && products[j] == p;
    }
  }
}
