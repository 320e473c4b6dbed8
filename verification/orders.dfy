/** The order history store and the calendar stamp every order carries. */
module Orders {
  import opened Common
  import opened Inventory
  import opened Cart

  /** Milliseconds in a day. */
  const DayMs := 86400000

  type Month = m: int | 0 <= m <= 11
  type DayOfMonth = d: int | 1 <= d <= 31 witness 1

  /** A moment as the screens read it from a `Date`: milliseconds on the local clock
      (time-zone offset already applied), with the local calendar year, month (0 for
      January, as `getMonth`) and day of the month (as `getDate`). */
  datatype Stamp = Stamp(time: int, year: int, month: Month, date: DayOfMonth)

  /** Local calendar days since 1 January 1970. */
  function DayNumber(time: int): int
  {
    time / DayMs
  }

  /** `getDay`: 0 for Sunday up to 6 for Saturday (1 January 1970 was a Thursday). */
  function Weekday(time: int): (w: int)
    ensures 0 <= w <= 6
  {
    (DayNumber(time) + 4) % 7
  }

  /** A day later is the next weekday, Saturday wrapping round to Sunday. */
  lemma WeekdayNext(time: int)
    ensures DayNumber(time + DayMs) == DayNumber(time) + 1
    ensures Weekday(time + DayMs) == (Weekday(time) + 1) % 7
  {
    var d := DayNumber(time);
    assert d * DayMs <= time < d * DayMs + DayMs;
    assert (d + 1) * DayMs <= time + DayMs < (d + 1) * DayMs + DayMs;
  }

  /** Calendar anchors: 1 January 1970 was a Thursday, and 5 January 2026 (day 20458) a
      Monday, from its first millisecond to its last. */
  lemma WeekdayAnchors()
    ensures Weekday(0) == 4
    ensures Weekday(20458 * DayMs) == 1
    ensures Weekday(20458 * DayMs + DayMs - 1) == 1
  {
  }

  /** An order line has the shape of a cart line. */
  type OrderItem = CartItem

  /** A completed sale. `totalAmount` is stored, not recomputed from `items`. */
  datatype Order = Order(id: string, items: seq<OrderItem>, totalAmount: int,
                         paymentMethod: string, date: Stamp)

  /** `addOrder`: the new order goes first; nothing is deduplicated. */
  function AddOrder(orders: seq<Order>, o: Order): (r: seq<Order>)
    ensures |r| == |orders| + 1
    ensures r[0] == o && r[1..] == orders
  {
    [o] + orders
  }

  /** The sum of the stored totals of the orders. */
  function Revenue(orders: seq<Order>): int
    decreases |orders|
  {
    if |orders| == 0 then 0 else orders[0].totalAmount + Revenue(orders[1..])
  }

  /** How many stored orders carry this id. */
  function CountId(orders: seq<Order>, id: string): nat
  {
    if |orders| == 0 then 0 else (if orders[0].id == id then 1 else 0) + CountId(orders[1..], id)
  }

  /** Adding an order whose id is already present yields one more entry with that id. */
  lemma AddOrderKeepsDuplicates(orders: seq<Order>, o: Order)
    ensures CountId(AddOrder(orders, o), o.id) == CountId(orders, o.id) + 1
    ensures CountId(AddOrder(AddOrder(orders, o), o), o.id) == CountId(orders, o.id) + 2
  {
    assert AddOrder(orders, o)[1..] == orders;
    assert AddOrder(AddOrder(orders, o), o)[1..] == AddOrder(orders, o);
  }

  /** `getOrdersByMonth(month, year)`: the orders dated in that month, in stored order, each
      as many times as it is stored. */
  function OrdersByMonth(orders: seq<Order>, month: int, year: int): (r: seq<Order>)
    ensures forall i :: 0 <= i < |r| ==> r[i] in orders && r[i].date.month == month && r[i].date.year == year
    ensures forall i :: 0 <= i < |orders| && orders[i].date.month == month && orders[i].date.year == year
              ==> orders[i] in r
    ensures forall o :: multiset(r)[o]
              == if o.date.month == month && o.date.year == year then multiset(orders)[o] else 0
    ensures IsSubsequence(r, orders)
  {
    Filter((o: Order) => o.date.month == month && o.date.year == year, orders)
  }

  /** `getOrdersByRange(start, end)`: the orders timed within both bounds, inclusive, in
      stored order, each as many times as it is stored. */
  function OrdersByRange(orders: seq<Order>, start: int, end: int): (r: seq<Order>)
    ensures forall i :: 0 <= i < |r| ==> r[i] in orders && start <= r[i].date.time <= end
    ensures forall i :: 0 <= i < |orders| && start <= orders[i].date.time <= end ==> orders[i] in r
    ensures forall o :: multiset(r)[o] == if start <= o.date.time <= end then multiset(orders)[o] else 0
    ensures IsSubsequence(r, orders)
  {
    Filter((o: Order) => start <= o.date.time <= end, orders)
  }

  /** A range whose start lies after its end selects nothing. */
  lemma EmptyRange(orders: seq<Order>, start: int, end: int)
    requires start > end
    ensures OrdersByRange(orders, start, end) == []
  {
  }

  // ----- the history the store starts with -----

  const Kopi := Product("1", "Kopi", 18000, 10, None, None)

  /** Local midnight of the given day number. */
  function Midnight(day: int, year: int, month: Month, date: DayOfMonth): Stamp
  {
    Stamp(day * DayMs, year, month, date)
  }

  /** The seeded history: today's order (two Kopi), yesterday's, and six orders in January
      2026 (day numbers 20458 = 5 January 2026 onward). Only the first lists its items. */
  function SeedOrders(todayId: string, now: Stamp, yesterday: Stamp): seq<Order>
  {
    [ Order(todayId, [CartItem(Kopi, 2)], 36000, "Cash", now),
      Order("ORD-YESTERDAY", [], 125000, "QRIS", yesterday),
      Order("ORD-JAN05", [], 450000, "Cash", Midnight(20458, 2026, 0, 5)),
      Order("ORD-JAN12", [], 320000, "Debit", Midnight(20465, 2026, 0, 12)),
      Order("ORD-JAN19", [], 550000, "QRIS", Midnight(20472, 2026, 0, 19)),
      Order("ORD-JAN21", [], 150000, "Cash", Midnight(20474, 2026, 0, 21)),
      Order("ORD-JAN26", [], 280000, "Cash", Midnight(20479, 2026, 0, 26)),
      Order("ORD-JAN28", [], 180000, "QRIS", Midnight(20481, 2026, 0, 28)) ]
  }

  /** The stored total is not derived from the items: every seeded order but the first has
      no items and a non-zero total. The first one's total does match its items. */
  lemma SeedTotalsAreStored(todayId: string, now: Stamp, yesterday: Stamp)
    ensures var s := SeedOrders(todayId, now, yesterday);
            && TotalPrice(s[0].items) == s[0].totalAmount
            && forall i :: 1 <= i < |s| ==> s[i].items == [] && s[i].totalAmount != TotalPrice(s[i].items)
  {
    var s := SeedOrders(todayId, now, yesterday);
    assert TotalPrice(s[0].items) == 18000 * 2 + TotalPrice([]);
  }
}
