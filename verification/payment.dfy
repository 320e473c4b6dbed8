/** The payment screen: the order id drawn once per screen, the payment-method choice, the
    change shown for cash, and `handlePay`, the step that turns the cart into an order. */
module Payment {
  import opened Common
  import opened Text
  import opened Database
  import opened Inventory
  import opened Cart
  import opened Orders

  /** The methods the dropdown offers, in display order. */
  const Methods: seq<string> := ["Cash", "E-Wallet", "Card"]

  /** `Math.floor(Math.random() * 9000000000) + 1000000000`, with the random draw given as the
      fraction `num / den` in [0, 1). */
  function OrderNumber(num: nat, den: nat): (n: int)
    requires num < den
    ensures 1000000000 <= n <= 9999999999
  {
    BelowScaled(num, den, 9000000000);
    num * 9000000000 / den + 1000000000
  }

  /** Scaling a fraction below 1 by `k` and flooring stays below `k`. */
  lemma BelowScaled(num: nat, den: nat, k: nat)
    requires num < den
    ensures 0 <= num * k / den < k || k == 0
  {
    if k > 0 {
      var q := num * k / den;
      assert num * k == q * den + num * k % den;
      MulLeft(num, den, k);
      if q >= k {
        MulLeft(k, q, den);
        assert false;
      }
    }
  }

  lemma MulLeft(a: int, b: int, c: nat)
    requires a <= b
    ensures a * c <= b * c
  {
    assert b * c - a * c == (b - a) * c;
  }

  /** The order id: `#` followed by the order number. */
  function OrderId(num: nat, den: nat): (id: string)
    requires num < den
  {
    "#" + IntToString(OrderNumber(num, den))
  }

  /** Every order id has eleven characters and its number reads back from the text after `#`. */
  lemma OrderIdShape(num: nat, den: nat)
    requires num < den
    ensures |OrderId(num, den)| == 11 && OrderId(num, den)[0] == '#'
    ensures ParseInt(OrderId(num, den)[1..]) == Some(OrderNumber(num, den))
  {
    var n := OrderNumber(num, den);
    assert Pow10(9) == 1000000000;
    NatToStringLength(n, 9);
    assert OrderId(num, den)[1..] == IntToString(n);
    ParseIntOfIntToString(n);
  }

  /** The screen's local state. The order id is drawn when the screen is created. */
  datatype Screen = Screen(orderId: string, paymentMethod: string, amountTendered: string)

  /** A freshly opened payment screen. */
  function Open(num: nat, den: nat): (s: Screen)
    requires num < den
    ensures s.paymentMethod == "Cash" && s.amountTendered == ""
    ensures |s.orderId| == 11
  {
    OrderIdShape(num, den);
    Screen(OrderId(num, den), Methods[0], "")
  }

  /** Picking the `k`-th entry of the dropdown. Only the method changes. */
  function SelectMethod(s: Screen, k: nat): (r: Screen)
    requires k < |Methods|
    ensures r.paymentMethod in Methods && r.paymentMethod == Methods[k]
    ensures r.orderId == s.orderId && r.amountTendered == s.amountTendered
  {
    s.(paymentMethod := Methods[k])
  }

  /** What the user can do on the screen: open the dropdown and pick the `k`-th method. The
      screen has no input for the tendered amount (`setAmountTendered` is never called), so
      no event changes it. */
  function Apply(s: Screen, picks: seq<nat>): Screen
    decreases |picks|
  {
    if |picks| == 0 then s
    else
      var next := if picks[0] < |Methods| then SelectMethod(s, picks[0]) else s;
      Apply(next, picks[1..])
  }

  /** Whatever the user does on the screen, the order id stays the one drawn at opening, the
      method stays one of the three offered and the tendered amount stays as it was. */
  lemma {:induction false} ScreenInvariant(s: Screen, picks: seq<nat>)
    requires s.paymentMethod in Methods
    ensures Apply(s, picks).orderId == s.orderId
    ensures Apply(s, picks).paymentMethod in Methods
    ensures Apply(s, picks).amountTendered == s.amountTendered
    decreases |picks|
  {
    if |picks| > 0 {
      var next := if picks[0] < |Methods| then SelectMethod(s, picks[0]) else s;
      ScreenInvariant(next, picks[1..]);
    }
  }

  /** The change row: hidden, or shown with an amount; `Shown(None)` is the `NaN` the screen
      renders when the tendered text is not a number. */
  datatype ChangeRow = Hidden | Shown(amount: Option<int>)

  /** The change row for the screen. `parseAmount` stands for `parseFloat` (`None` for `NaN`). */
  function Change(s: Screen, total: int, parseAmount: string -> Option<int>): (r: ChangeRow)
    ensures r.Shown? <==> s.paymentMethod == "Cash" && s.amountTendered != ""
    ensures r.Shown? ==> (r.amount.Some? <==> parseAmount(s.amountTendered).Some?)
    ensures r.Shown? && r.amount.Some? ==>
              var paid := parseAmount(s.amountTendered).value;
              && r.amount.value >= 0
              && r.amount.value >= paid - total
              && (r.amount.value == 0 || r.amount.value == paid - total)
  {
    if s.paymentMethod == "Cash" && s.amountTendered != "" then
      match parseAmount(s.amountTendered)
      case None => Shown(None)
      case Some(paid) => Shown(Some(if paid - total > 0 then paid - total else 0))
    else Hidden
  }

  /** The amount starts empty and nothing on the screen sets it, so the change row is never
      shown, whatever the method picked. */
  lemma ChangeNeverShown(num: nat, den: nat, picks: seq<nat>, total: int, parseAmount: string -> Option<int>)
    requires num < den
    ensures Change(Apply(Open(num, den), picks), total, parseAmount) == Hidden
  {
    ScreenInvariant(Open(num, den), picks);
  }

  /** When the customer pays at least the total, total plus change is exactly what was paid. */
  lemma ChangeSettles(s: Screen, total: int, parseAmount: string -> Option<int>)
    requires s.paymentMethod == "Cash" && s.amountTendered != ""
    requires parseAmount(s.amountTendered).Some? && parseAmount(s.amountTendered).value >= total
    ensures Change(s, total, parseAmount).Shown?
    ensures total + Change(s, total, parseAmount).amount.value == parseAmount(s.amountTendered).value
  {
  }

  /** The state `handlePay` touches and the state it could have touched. */
  datatype Till = Till(cart: seq<CartItem>, orders: seq<Order>, inventory: Store, db: Db)

  /** `handlePay`: records the cart as a new first order, with the cart's total, the screen's
      id and method, and the current time; then empties the cart. Stock and the database are
      not touched. */
  function HandlePay(t: Till, s: Screen, now: Stamp): (r: Till)
    ensures |r.orders| == |t.orders| + 1 && r.orders[1..] == t.orders
    ensures r.orders[0].items == t.cart
    ensures r.orders[0].totalAmount == TotalPrice(t.cart)
    ensures r.orders[0].id == s.orderId && r.orders[0].paymentMethod == s.paymentMethod
    ensures r.orders[0].date == now
    ensures r.cart == [] && TotalItems(r.cart) == 0
    ensures r.inventory == t.inventory && r.db == t.db
  {
    var order := Order(s.orderId, t.cart, TotalPrice(t.cart), s.paymentMethod, now);
    Till(ClearCart(), AddOrder(t.orders, order), t.inventory, t.db)
  }

  /** Paying adds exactly the cart's total to the recorded revenue. */
  lemma PayAddsCartTotal(t: Till, s: Screen, now: Stamp)
    ensures Revenue(HandlePay(t, s, now).orders) == Revenue(t.orders) + TotalPrice(t.cart)
  {
    var r := HandlePay(t, s, now);
    assert r.orders[1..] == t.orders;
  }

  /** The order just paid shows up in the month report of its own month. */
  lemma PaidOrderInItsMonth(t: Till, s: Screen, now: Stamp)
    ensures HandlePay(t, s, now).orders[0] in OrdersByMonth(HandlePay(t, s, now).orders, now.month, now.year)
  {
  }

  /** Selling two Kopi at 18000 from a stock of 10 records an order of 36000 and leaves the
      stock at 10: no sale decrements stock. */
  lemma KopiSale(s: Screen, now: Stamp, scan: seq<string>)
    ensures var db := Db(map["1" := ProductRow("Kopi", 18000, None, None)],
                         map["1" := StockRow(10, None)], map[]);
            var cart := AddToCart(AddToCart([], Kopi), Kopi);
            var r := HandlePay(Till(cart, [], InitialStore, db), s, now);
            && r.orders[0].totalAmount == 36000
            && r.orders[0].items == [CartItem(Kopi, 2)]
            && StockOf(r.db, "1") == 10
            && forall p :: p in Query(r.db, scan) ==> p.stock == 10
  {
    var once := AddToCart([], Kopi);
    assert once == [CartItem(Kopi, 1)];
    assert once[0].product.id == Kopi.id;
    var twice := AddToCart(once, Kopi);
    assert twice[0] == CartItem(Kopi, 2);
    assert twice == [CartItem(Kopi, 2)];
    assert TotalPrice(twice) == 18000 * 2 + TotalPrice([]);
  }
}
