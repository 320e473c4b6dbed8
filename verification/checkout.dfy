/** The checkout screen: the order summary and the minus/plus buttons on each line, both
    routed through `updateQuantity`. */
module Checkout {
  import opened Common
  import opened Cart
  import opened Orders
  import opened Payment

  /** What the screen shows: the item count in the header and the price summary. */
  datatype Summary = Summary(count: int, subTotal: int, discount: int, total: int)

  /** The discount is fixed at zero, so the amount due is the cart's price total. */
  function Summarize(items: seq<CartItem>): (r: Summary)
    ensures r.discount == 0
    ensures r.count == TotalItems(items)
    ensures r.total == r.subTotal == TotalPrice(items)
  {
    var subTotal := TotalPrice(items);
    Summary(TotalItems(items), subTotal, 0, subTotal - 0)
  }

  /** The amount the checkout screen asks for is the amount the payment screen records. */
  lemma CheckoutTotalIsRecorded(t: Till, s: Screen, now: Stamp)
    ensures Summarize(t.cart).total == HandlePay(t, s, now).orders[0].totalAmount
  {
  }

  /** The minus button on a line: `updateQuantity(id, quantity - 1)`. */
  function Minus(items: seq<CartItem>, line: CartItem): (r: seq<CartItem>)
    ensures Valid(items) ==> Valid(r)
  {
    UpdateQuantity(items, line.product.id, line.quantity - 1)
  }

  /** The plus button on a line: `updateQuantity(id, quantity + 1)`. */
  function Plus(items: seq<CartItem>, line: CartItem): (r: seq<CartItem>)
    ensures Valid(items) ==> Valid(r)
  {
    UpdateQuantity(items, line.product.id, line.quantity + 1)
  }

  /** In a cart with distinct ids, looking up a line's id finds that line. */
  lemma LineOfMember(items: seq<CartItem>, line: CartItem)
    requires DistinctIds(items) && line in items
    ensures LineOf(items, line.product.id) == Some(line)
  {
    var found := LineOf(items, line.product.id);
    assert found.Some? by {
      var j :| 0 <= j < |items| && items[j] == line;
      assert HasLine(items, line.product.id);
    }
    var i :| 0 <= i < |items| && items[i] == found.value;
    var j :| 0 <= j < |items| && items[j] == line;
    assert i == j;
  }

  /** Pressing minus on a line of quantity 1 removes the line: no line with that id is left. */
  lemma MinusAtOneRemoves(items: seq<CartItem>, line: CartItem)
    requires line in items && line.quantity == 1
    ensures Minus(items, line) == RemoveFromCart(items, line.product.id)
    ensures !HasLine(Minus(items, line), line.product.id)
  {
  }

  /** In a valid cart, pressing minus on a line lowers the item count by 1 and the total by
      the line's price, whether the line stays or goes. */
  lemma MinusLowersTotals(items: seq<CartItem>, line: CartItem)
    requires Valid(items) && line in items
    ensures TotalItems(Minus(items, line)) == TotalItems(items) - 1
    ensures TotalPrice(Minus(items, line)) == TotalPrice(items) - line.product.price
  {
    LineOfMember(items, line);
    if line.quantity == 1 {
      RemoveLowersTotals(items, line.product.id);
    } else {
      SetQuantityTotals(items, line.product.id, line.quantity - 1);
    }
  }

  /** Setting a positive quantity is a `MapLine` to that constant, so its effect on the totals
      is the difference in quantity on the one line with that id. */
  lemma SetQuantityTotals(items: seq<CartItem>, id: string, q: int)
    requires DistinctIds(items) && q > 0
    ensures var line := LineOf(items, id);
            && TotalItems(UpdateQuantity(items, id, q))
                 == TotalItems(items) + (if line.Some? then q - line.value.quantity else 0)
            && TotalPrice(UpdateQuantity(items, id, q))
                 == TotalPrice(items) + (if line.Some? then line.value.product.price * (q - line.value.quantity) else 0)
  {
    var f := (_: int) => q;
    assert UpdateQuantity(items, id, q) == MapLine(items, id, f);
    MapLineTotals(items, id, f);
  }

  /** In a valid cart, pressing plus on a line does what adding its product again does. */
  lemma PlusIsAdd(items: seq<CartItem>, line: CartItem)
    requires Valid(items) && line in items
    ensures Plus(items, line) == AddToCart(items, line.product)
  {
    var id := line.product.id;
    var j :| 0 <= j < |items| && items[j] == line;
    assert HasLine(items, id);
    var r := Plus(items, line);
    var a := AddToCart(items, line.product);
    forall i | 0 <= i < |items|
      ensures r[i] == a[i]
    {
      if items[i].product.id == id {
        assert i == j;
      }
    }
  }

  /** In a valid cart, pressing plus raises the item count by 1 and the total by the line's
      price. */
  lemma PlusRaisesTotals(items: seq<CartItem>, line: CartItem)
    requires Valid(items) && line in items
    ensures TotalItems(Plus(items, line)) == TotalItems(items) + 1
    ensures TotalPrice(Plus(items, line)) == TotalPrice(items) + line.product.price
  {
    PlusIsAdd(items, line);
    LineOfMember(items, line);
    AddRaisesTotalItems(items, line.product);
    AddRaisesTotalPrice(items, line.product);
  }
}
