/** The cart store: an in-memory list of lines, each a product snapshot and a quantity. */
module Cart {
  import opened Common
  import opened Inventory

  /** One cart line. The product is the snapshot passed to the first `addToCart` for it. */
  datatype CartItem = CartItem(product: Product, quantity: int)

  /** Some line holds the product with this id. */
  predicate HasLine(items: seq<CartItem>, id: string)
  {
    exists i :: 0 <= i < |items| && items[i].product.id == id
  }

  predicate DistinctIds(items: seq<CartItem>)
  {
    forall i, j :: 0 <= i < j < |items| ==> items[i].product.id != items[j].product.id
  }

  predicate PositiveQuantities(items: seq<CartItem>)
  {
    forall i :: 0 <= i < |items| ==> items[i].quantity >= 1
  }

  /** The cart invariant: one line per product id, and every quantity at least 1. */
  predicate Valid(items: seq<CartItem>)
  {
    DistinctIds(items) && PositiveQuantities(items)
  }

  lemma ValidTail(items: seq<CartItem>)
    requires |items| > 0 && Valid(items)
    ensures Valid(items[1..])
    ensures !HasLine(items[1..], items[0].product.id)
  {
    DistinctTail(items);
  }

  /** `items.find(item => item.product.id === id)`. */
  function LineOf(items: seq<CartItem>, id: string): (r: Option<CartItem>)
    ensures r.Some? <==> HasLine(items, id)
    ensures r.Some? ==> r.value in items && r.value.product.id == id
    decreases |items|
  {
    if |items| == 0 then None
    else if items[0].product.id == id then Some(items[0])
    else
      assert forall i :: 1 <= i < |items| ==> items[i] == items[1..][i - 1];
      LineOf(items[1..], id)
  }

  /** `items.map(...)` changing the quantity of the lines with this id by `f`. */
  function MapLine(items: seq<CartItem>, id: string, f: int -> int): (r: seq<CartItem>)
    ensures |r| == |items|
    ensures forall i :: 0 <= i < |items| ==>
              && r[i].product == items[i].product
              && r[i].quantity == (if items[i].product.id == id then f(items[i].quantity) else items[i].quantity)
    decreases |items|
  {
    if |items| == 0 then []
    else
      var head := if items[0].product.id == id then items[0].(quantity := f(items[0].quantity)) else items[0];
      [head] + MapLine(items[1..], id, f)
  }

  function Inc(q: int): int { q + 1 }

  /** `addToCart`: a product already in the cart gets one more on its line, keeping the line's
      snapshot and position; a new product is appended with quantity 1. */
  function AddToCart(items: seq<CartItem>, p: Product): (r: seq<CartItem>)
    ensures !HasLine(items, p.id) ==> r == items + [CartItem(p, 1)]
    ensures HasLine(items, p.id) ==>
              && |r| == |items|
              && forall i :: 0 <= i < |items| ==>
                   && r[i].product == items[i].product
                   && r[i].quantity == items[i].quantity + (if items[i].product.id == p.id then 1 else 0)
    ensures Valid(items) ==> Valid(r)
  {
    if LineOf(items, p.id).Some? then MapLine(items, p.id, Inc)
    else
      var r := items + [CartItem(p, 1)];
      assert forall i :: 0 <= i < |items| ==> r[i] == items[i];
      r
  }

  /** `removeFromCart`: drops the lines with this id and keeps the rest in order. */
  function RemoveFromCart(items: seq<CartItem>, id: string): (r: seq<CartItem>)
    ensures forall i :: 0 <= i < |r| ==> r[i] in items && r[i].product.id != id
    ensures forall i :: 0 <= i < |items| && items[i].product.id != id ==> items[i] in r
    ensures forall l :: multiset(r)[l] == if l.product.id != id then multiset(items)[l] else 0
    ensures IsSubsequence(r, items)
    ensures !HasLine(items, id) ==> r == items
  {
    assert !HasLine(items, id) ==> Filter(OtherId(id), items) == items by {
      if !HasLine(items, id) { FilterKeepsAll(OtherId(id), items); }
    }
    Filter(OtherId(id), items)
  }

  /** The test `removeFromCart` filters with: the line is for another product. */
  function OtherId(id: string): CartItem -> bool
  {
    (l: CartItem) => l.product.id != id
  }

  /** One step of the filter: the head line is kept iff it is for another product. */
  lemma RemoveUnfold(items: seq<CartItem>, id: string)
    requires |items| > 0
    ensures RemoveFromCart(items, id)
              == (if items[0].product.id != id then [items[0]] else []) + RemoveFromCart(items[1..], id)
  {
    assert OtherId(id)(items[0]) == (items[0].product.id != id);
  }

  /** `removeFromCart` keeps the cart invariant. */
  lemma {:induction false} RemoveKeepsValid(items: seq<CartItem>, id: string)
    requires Valid(items)
    ensures Valid(RemoveFromCart(items, id))
    decreases |items|
  {
    if |items| > 0 {
      ValidTail(items);
      RemoveKeepsValid(items[1..], id);
      var rest := RemoveFromCart(items[1..], id);
      RemoveUnfold(items, id);
      if items[0].product.id != id {
        var r := [items[0]] + rest;
        forall i, j | 0 <= i < j < |r|
          ensures r[i].product.id != r[j].product.id
        {
          assert r[j] == rest[j - 1];
          if i > 0 {
            assert r[i] == rest[i - 1];
          } else {
            assert rest[j - 1] in items[1..];
          }
        }
      }
    }
  }

  /** `updateQuantity`: a quantity of 0 or less removes the line; otherwise the lines with
      this id take the new quantity and nothing else changes. */
  function UpdateQuantity(items: seq<CartItem>, id: string, quantity: int): (r: seq<CartItem>)
    ensures quantity <= 0 ==> r == RemoveFromCart(items, id)
    ensures quantity > 0 ==>
              && |r| == |items|
              && forall i :: 0 <= i < |items| ==>
                   && r[i].product == items[i].product
                   && r[i].quantity == (if items[i].product.id == id then quantity else items[i].quantity)
    ensures Valid(items) ==> Valid(r)
  {
    if quantity <= 0 then
      assert Valid(items) ==> Valid(RemoveFromCart(items, id)) by {
        if Valid(items) { RemoveKeepsValid(items, id); }
      }
      RemoveFromCart(items, id)
    else MapLine(items, id, _ => quantity)
  }

  /** `clearCart`. */
  function ClearCart(): (r: seq<CartItem>)
    ensures TotalItems(r) == 0 && TotalPrice(r) == 0
    ensures Valid(r)
  {
    []
  }

  /** `getTotalItems`: the sum of the quantities. */
  function TotalItems(items: seq<CartItem>): int
    decreases |items|
  {
    if |items| == 0 then 0 else items[0].quantity + TotalItems(items[1..])
  }

  /** A cart whose quantities are all at least 1 counts at least one item per line. */
  lemma {:induction false} TotalItemsAtLeastLines(items: seq<CartItem>)
    requires PositiveQuantities(items)
    ensures TotalItems(items) >= |items|
    decreases |items|
  {
    if |items| > 0 {
      assert forall i :: 0 <= i < |items| - 1 ==> items[1..][i] == items[i + 1];
      TotalItemsAtLeastLines(items[1..]);
    }
  }

  /** `getTotalPrice`: the sum of snapshot price times quantity. */
  function TotalPrice(items: seq<CartItem>): int
    decreases |items|
  {
    if |items| == 0 then 0 else items[0].product.price * items[0].quantity + TotalPrice(items[1..])
  }

  /** With no negative price or quantity in the cart, the total is not negative. */
  lemma {:induction false} TotalPriceNonNegative(items: seq<CartItem>)
    requires forall i :: 0 <= i < |items| ==> items[i].product.price >= 0 && items[i].quantity >= 0
    ensures TotalPrice(items) >= 0
    decreases |items|
  {
    if |items| > 0 {
      TotalPriceNonNegative(items[1..]);
      assert items[0].product.price * items[0].quantity >= 0;
    }
  }

  lemma {:induction false} TotalsAppend(a: seq<CartItem>, b: seq<CartItem>)
    ensures TotalItems(a + b) == TotalItems(a) + TotalItems(b)
    ensures TotalPrice(a + b) == TotalPrice(a) + TotalPrice(b)
    decreases |a|
  {
    if |a| == 0 {
      assert a + b == b;
    } else {
      assert (a + b)[1..] == a[1..] + b;
      TotalsAppend(a[1..], b);
    }
  }

  lemma {:induction false} MapLineAbsent(items: seq<CartItem>, id: string, f: int -> int)
    requires !HasLine(items, id)
    ensures MapLine(items, id, f) == items
  {
  }

  /** The tail of a cart with distinct ids has distinct ids and no line for the head's id. */
  lemma DistinctTail(items: seq<CartItem>)
    requires |items| > 0 && DistinctIds(items)
    ensures DistinctIds(items[1..])
    ensures !HasLine(items[1..], items[0].product.id)
  {
    var tail := items[1..];
    forall i, j | 0 <= i < j < |tail|
      ensures tail[i].product.id != tail[j].product.id
    {
      assert tail[i] == items[i + 1] && tail[j] == items[j + 1];
    }
    forall i | 0 <= i < |tail|
      ensures tail[i].product.id != items[0].product.id
    {
      assert tail[i] == items[i + 1];
    }
  }

  lemma ScaleDifference(price: int, after: int, before: int)
    ensures price * after == price * before + price * (after - before)
  {
  }

  /** Changing the quantity of the (unique) line with this id from `q` to `f(q)` changes the
      item count by `f(q) - q` and the price by the snapshot price times that. */
  lemma {:induction false} MapLineTotals(items: seq<CartItem>, id: string, f: int -> int)
    requires DistinctIds(items)
    ensures var line := LineOf(items, id);
            && TotalItems(MapLine(items, id, f))
                 == TotalItems(items) + (if line.Some? then f(line.value.quantity) - line.value.quantity else 0)
            && TotalPrice(MapLine(items, id, f))
                 == TotalPrice(items)
                    + (if line.Some? then line.value.product.price * (f(line.value.quantity) - line.value.quantity) else 0)
    decreases |items|
  {
    if |items| > 0 {
      var tail := items[1..];
      DistinctTail(items);
      MapLineTotals(tail, id, f);
      assert MapLine(items, id, f)[1..] == MapLine(tail, id, f);
      if items[0].product.id == id {
        MapLineAbsent(tail, id, f);
        ScaleDifference(items[0].product.price, f(items[0].quantity), items[0].quantity);
      }
    }
  }

  /** Each `addToCart` raises the item count by exactly 1. */
  lemma AddRaisesTotalItems(items: seq<CartItem>, p: Product)
    requires Valid(items)
    ensures TotalItems(AddToCart(items, p)) == TotalItems(items) + 1
  {
    if HasLine(items, p.id) {
      assert AddToCart(items, p) == MapLine(items, p.id, Inc);
      MapLineTotals(items, p.id, Inc);
      assert Inc(LineOf(items, p.id).value.quantity) - LineOf(items, p.id).value.quantity == 1;
    } else {
      TotalsAppend(items, [CartItem(p, 1)]);
    }
  }

  /** Each `addToCart` raises the total price by one unit of the line's snapshot price: the
      price stored when the line was created, not the price of the product passed now. */
  lemma AddRaisesTotalPrice(items: seq<CartItem>, p: Product)
    requires Valid(items)
    ensures var line := LineOf(items, p.id);
            TotalPrice(AddToCart(items, p))
              == TotalPrice(items) + (if line.Some? then line.value.product.price else p.price)
  {
    if LineOf(items, p.id).Some? {
      AddToExistingLine(items, p);
    } else {
      TotalsAppend(items, [CartItem(p, 1)]);
    }
  }

  lemma AddToExistingLine(items: seq<CartItem>, p: Product)
    requires DistinctIds(items) && LineOf(items, p.id).Some?
    ensures TotalPrice(AddToCart(items, p)) == TotalPrice(items) + LineOf(items, p.id).value.product.price
  {
    assert AddToCart(items, p) == MapLine(items, p.id, Inc);
    IncLinePrice(items, p.id);
  }

  lemma IncLinePrice(items: seq<CartItem>, id: string)
    requires DistinctIds(items) && LineOf(items, id).Some?
    ensures TotalPrice(MapLine(items, id, Inc)) == TotalPrice(items) + LineOf(items, id).value.product.price
  {
    MapLineTotals(items, id, Inc);
    var line := LineOf(items, id).value;
    assert Inc(line.quantity) - line.quantity == 1;
  }

  /** Removing a line lowers the totals by exactly that line's contribution. */
  lemma {:induction false} RemoveLowersTotals(items: seq<CartItem>, id: string)
    requires DistinctIds(items)
    ensures var line := LineOf(items, id);
            && TotalItems(RemoveFromCart(items, id))
                 == TotalItems(items) - (if line.Some? then line.value.quantity else 0)
            && TotalPrice(RemoveFromCart(items, id))
                 == TotalPrice(items) - (if line.Some? then line.value.product.price * line.value.quantity else 0)
    decreases |items|
  {
    if |items| > 0 {
      var tail := items[1..];
      DistinctTail(items);
      RemoveLowersTotals(tail, id);
      if items[0].product.id != id {
        assert ([items[0]] + RemoveFromCart(tail, id))[1..] == RemoveFromCart(tail, id);
      }
    }
  }
}
