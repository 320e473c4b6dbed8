/** The reports screen: today's sales, the month's sales bucketed by week of the month, and
    the current Monday-to-Sunday week bucketed by day. */
module Reports {
  import opened Common
  import opened Orders

  /** `getWeekOfMonth`: `min(ceil(day / 7), 4)`; days from the 22nd on share week 4. */
  function WeekOfMonth(day: DayOfMonth): (w: int)
    ensures 1 <= w <= 4
    ensures w < 4 ==> 7 * (w - 1) < day <= 7 * w
    ensures w == 4 <==> day > 21
  {
    var weeks := (day + 6) / 7;
    if weeks < 4 then weeks else 4
  }

  /** The daily chart's slot for a `getDay` value: Monday is 0, Sunday is 6. */
  function DayIndex(weekday: int): (k: int)
    requires 0 <= weekday <= 6
    ensures 0 <= k <= 6
    ensures k == (weekday + 6) % 7
  {
    var k := weekday - 1;
    if k == -1 then 6 else k
  }

  /** Slot of an order in the monthly chart. */
  function WeekSlot(o: Order): int
  {
    WeekOfMonth(o.date.date) - 1
  }

  /** Slot of an order in the weekly chart. */
  function DaySlot(o: Order): int
  {
    DayIndex(Weekday(o.date.time))
  }

  /** Reference definition of one bucket: the total of the orders whose slot is `k`. */
  function BucketSum(orders: seq<Order>, slot: Order -> int, k: int): int
    decreases |orders|
  {
    if |orders| == 0 then 0
    else
      var last := orders[|orders| - 1];
      BucketSum(orders[..|orders| - 1], slot, k) + (if slot(last) == k then last.totalAmount else 0)
  }

  /** The total of the orders whose slot is one of the `n` buckets. */
  function InRangeTotal(orders: seq<Order>, slot: Order -> int, n: nat): int
    decreases |orders|
  {
    if |orders| == 0 then 0
    else
      var last := orders[|orders| - 1];
      InRangeTotal(orders[..|orders| - 1], slot, n) + (if 0 <= slot(last) < n then last.totalAmount else 0)
  }

  lemma {:induction false} RevenueAppend(a: seq<Order>, b: seq<Order>)
    ensures Revenue(a + b) == Revenue(a) + Revenue(b)
    decreases |a|
  {
    if |a| == 0 {
      assert a + b == b;
    } else {
      assert (a + b)[1..] == a[1..] + b;
      RevenueAppend(a[1..], b);
    }
  }

  /** When every order falls in some bucket, the in-range total is all the revenue. */
  lemma {:induction false} InRangeIsRevenue(orders: seq<Order>, slot: Order -> int, n: nat)
    requires forall i :: 0 <= i < |orders| ==> 0 <= slot(orders[i]) < n
    ensures InRangeTotal(orders, slot, n) == Revenue(orders)
    decreases |orders|
  {
    if |orders| > 0 {
      var init := orders[..|orders| - 1];
      InRangeIsRevenue(init, slot, n);
      assert orders == init + [orders[|orders| - 1]];
      RevenueAppend(init, [orders[|orders| - 1]]);
    }
  }

  lemma SumZeros(n: nat)
    ensures Sum(seq(n, _ => 0)) == 0
  {
    if n > 0 {
      assert seq(n, _ => 0)[1..] == seq(n - 1, _ => 0);
      SumZeros(n - 1);
    }
  }

  /** The `forEach` that adds each order's total to its slot of an `n`-slot chart, skipping
      slots out of range. Each bucket holds its reference total and the buckets together hold
      every in-range order's total. */
  method Bucket(orders: seq<Order>, n: nat, slot: Order -> int) returns (b: seq<int>)
    ensures |b| == n
    ensures forall k :: 0 <= k < n ==> b[k] == BucketSum(orders, slot, k)
    ensures Sum(b) == InRangeTotal(orders, slot, n)
  {
    b := seq(n, _ => 0);
    SumZeros(n);
    var i := 0;
    while i < |orders|
      invariant 0 <= i <= |orders|
      invariant |b| == n
      invariant forall k :: 0 <= k < n ==> b[k] == BucketSum(orders[..i], slot, k)
      invariant Sum(b) == InRangeTotal(orders[..i], slot, n)
    {
      var o := orders[i];
      var k := slot(o);
      assert orders[..i + 1][..i] == orders[..i];
      if 0 <= k < n {
        SumUpdate(b, k, o.totalAmount);
        b := b[k := b[k] + o.totalAmount];
      }
      i := i + 1;
    }
    assert orders[..i] == orders;
  }

  /** `Math.max(...buckets, 100000)`. */
  function ChartMax(b: seq<int>): (m: int)
    ensures m >= 100000
    ensures forall k :: 0 <= k < |b| ==> b[k] <= m
    ensures m == 100000 || m in b
  {
    if |b| == 0 then 100000
    else
      var rest := ChartMax(b[1..]);
      assert forall k :: 1 <= k < |b| ==> b[k] == b[1..][k - 1];
      if b[0] > rest then b[0] else rest
  }

  /** The current week, Monday 00:00:00.000 to Sunday 23:59:59.999 on the local clock. */
  datatype Window = Window(start: int, end: int)

  /** `startOfWeek`/`endOfWeek`: back to Monday (a Sunday counts as day 7), then to midnight;
      six days on, then to the last millisecond. */
  function WeekWindow(now: int): (w: Window)
    ensures Weekday(w.start) == 1 && w.start % DayMs == 0
    ensures w.start <= now <= w.end
    ensures w.end - w.start == 7 * DayMs - 1
    ensures Weekday(w.end) == 0
  {
    var weekday := Weekday(now);
    var dayOfWeek := if weekday == 0 then 7 else weekday;
    var startDay := DayNumber(now) - dayOfWeek + 1;
    var start := startDay * DayMs;
    var end := (startDay + 6) * DayMs + (23 * 3600000 + 59 * 60000 + 59 * 1000 + 999);
    assert DayNumber(start) == startDay;
    assert DayNumber(end) == startDay + 6;
    Window(start, end)
  }

  /** Inside the window the daily slot of a moment is the number of days since Monday, so
      the seven slots are the seven days of the window in order. */
  lemma SlotIsDaysSinceMonday(now: int, t: int)
    requires WeekWindow(now).start <= t <= WeekWindow(now).end
    ensures DayIndex(Weekday(t)) == DayNumber(t) - DayNumber(WeekWindow(now).start)
  {
    var w := WeekWindow(now);
    var d0 := DayNumber(w.start);
    assert w.start == d0 * DayMs;
    var d := DayNumber(t);
    assert d0 <= d <= d0 + 6;
    assert Weekday(t) == (d + 4) % 7;
    assert (d0 + 4) % 7 == 1;
  }

  /** The orders whose `toDateString` equals today's: the same local calendar day, in stored
      order, each as many times as it is stored. */
  function TodayOrders(orders: seq<Order>, now: int): (r: seq<Order>)
    ensures forall i :: 0 <= i < |r| ==> r[i] in orders && DayNumber(r[i].date.time) == DayNumber(now)
    ensures forall i :: 0 <= i < |orders| && DayNumber(orders[i].date.time) == DayNumber(now) ==> orders[i] in r
    ensures forall o :: multiset(r)[o] == if DayNumber(o.date.time) == DayNumber(now) then multiset(orders)[o] else 0
    ensures IsSubsequence(r, orders)
  {
    Filter((o: Order) => DayNumber(o.date.time) == DayNumber(now), orders)
  }

  /** Today's orders all fall inside the current week. */
  lemma TodayWithinWeek(orders: seq<Order>, now: int)
    ensures forall o :: o in TodayOrders(orders, now) ==>
              o in OrdersByRange(orders, WeekWindow(now).start, WeekWindow(now).end)
  {
    var w := WeekWindow(now);
    forall o | o in TodayOrders(orders, now)
      ensures o in OrdersByRange(orders, w.start, w.end)
    {
      var r := TodayOrders(orders, now);
      var i :| 0 <= i < |r| && r[i] == o;
      var j :| 0 <= j < |orders| && orders[j] == o;
      var d := DayNumber(now);
      assert DayNumber(w.start) <= d <= DayNumber(w.end);
      assert w.start == DayNumber(w.start) * DayMs;
      assert w.end - w.start == 7 * DayMs - 1;
    }
  }

  /** What the screen computes (the cost estimates and formatting aside). */
  datatype Report = Report(salesToday: int, weeklySales: seq<int>, maxWeeklySales: int,
                           dailySales: seq<int>, maxDailySales: int, salesMonth: int)

  method BuildReport(orders: seq<Order>, now: Stamp) returns (r: Report)
    ensures r.salesToday == Revenue(TodayOrders(orders, now.time))
    ensures |r.weeklySales| == 4 && |r.dailySales| == 7
    ensures forall k :: 0 <= k < 4 ==>
              r.weeklySales[k] == BucketSum(OrdersByMonth(orders, now.month, now.year), WeekSlot, k)
    ensures forall k :: 0 <= k < 7 ==>
              r.dailySales[k] == BucketSum(OrdersByRange(orders, WeekWindow(now.time).start, WeekWindow(now.time).end), DaySlot, k)
    ensures r.salesMonth == Revenue(OrdersByMonth(orders, now.month, now.year))
    ensures Sum(r.weeklySales) == r.salesMonth
    ensures Sum(r.dailySales) == Revenue(OrdersByRange(orders, WeekWindow(now.time).start, WeekWindow(now.time).end))
    ensures r.maxWeeklySales >= 100000 && forall k :: 0 <= k < 4 ==> r.weeklySales[k] <= r.maxWeeklySales
    ensures r.maxDailySales >= 100000 && forall k :: 0 <= k < 7 ==> r.dailySales[k] <= r.maxDailySales
  {
    var monthOrders := OrdersByMonth(orders, now.month, now.year);
    var window := WeekWindow(now.time);
    var weekOrders := OrdersByRange(orders, window.start, window.end);
    var weekly := Bucket(monthOrders, 4, WeekSlot);
    InRangeIsRevenue(monthOrders, WeekSlot, 4);
    var daily := Bucket(weekOrders, 7, DaySlot);
    InRangeIsRevenue(weekOrders, DaySlot, 7);
    r := Report(Revenue(TodayOrders(orders, now.time)), weekly, ChartMax(weekly),
                daily, ChartMax(daily), Revenue(monthOrders));
  }
}
