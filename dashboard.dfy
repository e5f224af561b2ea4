/** The admin dashboard's statistics: how many orders, their revenue, the
    newsletter and active-product counts, and the five most recent orders.

    The three fetches are inputs; the aggregation is pure and is applied to the
    component's state by `FetchDashboardData`, which always clears `loading`. */
module Dashboard {
  import opened Wrappers
  import opened OrderStore
  import MockClient
  import Rows

  datatype Stats = Stats(
    totalOrders: int,
    totalRevenue: int,
    newsletterSubscribers: int,
    totalProducts: int,
    recentOrders: seq<Order>)

  const InitialStats := Stats(0, 0, 0, 0, [])

  const RecentCount := 5

  /** `xs?.length || 0` */
  function CountOf<T>(data: Nullable<seq<T>>): (n: nat)
    ensures data.Present? ==> n == |data.value|
    ensures !data.Present? ==> n == 0
  {
    if data.Present? then |data.value| else 0
  }

  /** The sum of `total_cents` accumulated from the left, as `reduce` does. */
  function Revenue(orders: seq<Order>): (r: int)
    ensures (forall k :: 0 <= k < |orders| ==> orders[k].totalCents >= 0) ==> r >= 0
  {
    if orders == [] then 0
    else Revenue(orders[..|orders| - 1]) + orders[|orders| - 1].totalCents
  }

  /** Revenue adds up over consecutive stretches of the list. */
  lemma {:induction false} RevenueAppend(a: seq<Order>, b: seq<Order>)
    ensures Revenue(a + b) == Revenue(a) + Revenue(b)
  {
    if b == [] {
      assert a + b == a;
    } else {
      var last := b[|b| - 1];
      assert (a + b)[..|a + b| - 1] == a + b[..|b| - 1];
      RevenueAppend(a, b[..|b| - 1]);
    }
  }

  /** Revenue counts every order whatever its status: two lists with the same
      totals in the same places have the same revenue. */
  lemma {:induction false} RevenueIgnoresStatus(a: seq<Order>, b: seq<Order>)
    requires |a| == |b|
    requires forall k :: 0 <= k < |a| ==> a[k].totalCents == b[k].totalCents
    ensures Revenue(a) == Revenue(b)
  {
    if a != [] {
      RevenueIgnoresStatus(a[..|a| - 1], b[..|b| - 1]);
    }
  }

  /** `orders?.reduce((sum, order) => sum + order.total_cents, 0) || 0` */
  function TotalRevenue(data: Nullable<seq<Order>>): (r: int)
    ensures data.Present? ==> r == Revenue(data.value)
    ensures !data.Present? ==> r == 0
  {
    if data.Present? then Revenue(data.value) else 0
  }

  /** `orders?.slice(0, 5) || []` */
  function RecentOrders(data: Nullable<seq<Order>>): (r: seq<Order>)
    ensures data.Present? ==> |r| == if |data.value| < RecentCount then |data.value| else RecentCount
    ensures data.Present? ==> r <= data.value
    ensures !data.Present? ==> r == []
  {
    if !data.Present? then []
    else if |data.value| < RecentCount then data.value
    else data.value[..RecentCount]
  }

  /** Lexicographic order on ISO timestamps, which agrees with time order. */
  predicate NotAfter(a: string, b: string)
  {
    a == [] || (b != [] && (a[0] < b[0] || (a[0] == b[0] && NotAfter(a[1..], b[1..]))))
  }

  /** The order the fetch asks for: `created_at`, newest first. */
  predicate NewestFirst(orders: seq<Order>)
  {
    forall i, j :: 0 <= i < j < |orders| ==> NotAfter(orders[j].createdAt, orders[i].createdAt)
  }

  /** On a list sorted newest first, the recent orders keep that order and none
      of the orders left out is newer than any of them. */
  lemma RecentAreNewest(orders: seq<Order>)
    requires NewestFirst(orders)
    ensures NewestFirst(RecentOrders(Present(orders)))
    ensures var recent := RecentOrders(Present(orders));
            forall i, j :: 0 <= i < |recent| <= j < |orders| ==>
              NotAfter(orders[j].createdAt, recent[i].createdAt)
  {
  }

  /** `newsletters?.length || 0` and `products?.length || 0` count rows of any shape. */
  function Aggregate(orders: Nullable<seq<Order>>, newsletters: Nullable<seq<Rows.Row>>,
                     products: Nullable<seq<Rows.Row>>): (s: Stats)
    ensures s.totalOrders == CountOf(orders)
    ensures s.totalRevenue == TotalRevenue(orders)
    ensures s.newsletterSubscribers == CountOf(newsletters)
    ensures s.totalProducts == CountOf(products)
    ensures s.recentOrders == RecentOrders(orders)
  {
    Stats(CountOf(orders), TotalRevenue(orders), CountOf(newsletters), CountOf(products), RecentOrders(orders))
  }

  /** The outcome of the three awaited fetches, or the message of the first throw. */
  datatype Fetch =
    | Fetched(orders: Nullable<seq<Order>>, newsletters: Nullable<seq<Rows.Row>>,
              products: Nullable<seq<Rows.Row>>)
    | Threw(message: string)

  /** The component's state. */
  class DashboardView {
    var stats: Stats
    var loading: bool

    constructor ()
      ensures stats == InitialStats && loading
    {
      stats := InitialStats;
      loading := true;
    }

    /** `fetchDashboardData`: a throw is only logged and keeps the previous
        statistics; either way `finally` clears `loading`. */
    method FetchDashboardData(f: Fetch)
      modifies this
      ensures !loading
      ensures f.Threw? ==> stats == old(stats)
      ensures f.Fetched? ==> stats == Aggregate(f.orders, f.newsletters, f.products)
    {
      if f.Fetched? {
        stats := Aggregate(f.orders, f.newsletters, f.products);
      }
      loading := false;
    }
  }

  /** A first fetch that throws leaves every statistic at zero, with loading done. */
  method FirstFetchThrows(message: string) returns (view: DashboardView)
    ensures view.stats == InitialStats && !view.loading
  {
    view := new DashboardView();
    view.FetchDashboardData(Threw(message));
  }

  /** A string column; a missing column or one of another type reads as "". */
  function StrColumn(row: Rows.Row, column: string): string
  {
    if column in row && row[column].Str? then row[column].s else ""
  }

  /** An `orders` row as the page's `Order` type reads it. The mock rows have
      every column with its schema type; a column missing or of another type is
      read as the empty text, no value, or 0. */
  function OrderOf(row: Rows.Row): Order
  {
    var total := if "total_cents" in row && row["total_cents"].Num? then row["total_cents"].n else 0;
    var session := if "stripe_session_id" in row && row["stripe_session_id"].Str? then Some(row["stripe_session_id"].s) else None;
    var email := if "customer_email" in row && row["customer_email"].Str? then Some(row["customer_email"].s) else None;
    Order(StrColumn(row, "id"), session, email, total, StrColumn(row, "status"), StrColumn(row, "created_at"))
  }

  function OrdersOf(rows: seq<Rows.Row>): (orders: seq<Order>)
    ensures |orders| == |rows|
    ensures forall k :: 0 <= k < |rows| ==> orders[k] == OrderOf(rows[k])
  {
    seq(|rows|, k requires 0 <= k < |rows| => OrderOf(rows[k]))
  }

  /** Reading back a mock order row gives the order it was built from. */
  lemma OrderOfOrderRow(id: string, sessionId: string, email: string, totalCents: int, createdAt: string)
    ensures OrderOf(MockClient.OrderRow(id, sessionId, email, totalCents, createdAt)) ==
            Order(id, Some(sessionId), Some(email), totalCents, Completed, createdAt)
  {
  }

  /** In mock mode the orders query reads the three mock orders
      (`MockClient.OrdersQueryReadsMockOrders`); their statistics are 3 orders,
      all completed, with 2499 + 1299 + 3598 = 7396 cents of revenue, and all
      three are recent. */
  lemma MockOrderStats(now: int, stamp: int -> string)
    ensures var stats := Aggregate(Nullable.Present(OrdersOf(MockClient.MockOrders(now, stamp))),
                                   Nullable.Undefined, Nullable.Undefined);
            stats.totalOrders == 3 && stats.totalRevenue == 7396 && |stats.recentOrders| == 3 &&
            forall k :: 0 <= k < 3 ==> stats.recentOrders[k].status == Completed
  {
    MockOrdersReadBack(now, stamp);
    var orders := OrdersOf(MockClient.MockOrders(now, stamp));
    RevenueOfThree(orders[0], orders[1], orders[2]);
    assert orders == [orders[0], orders[1], orders[2]];
  }

  /** The three mock order rows read back as three completed orders of 2499,
      1299 and 3598 cents. */
  lemma MockOrdersReadBack(now: int, stamp: int -> string)
    ensures var orders := OrdersOf(MockClient.MockOrders(now, stamp));
            |orders| == 3 &&
            orders[0].totalCents == 2499 && orders[1].totalCents == 1299 && orders[2].totalCents == 3598 &&
            orders[0].status == Completed && orders[1].status == Completed && orders[2].status == Completed
  {
    var t1, t2, t3 := stamp(now - MockClient.DayMillis), stamp(now - 2 * MockClient.DayMillis),
                      stamp(now - 3 * MockClient.DayMillis);
    OrderOfOrderRow("1", "cs_demo_12345", "parent@example.com", 2499, t1);
    OrderOfOrderRow("2", "cs_demo_67890", "family@example.com", 1299, t2);
    OrderOfOrderRow("3", "cs_demo_11111", "teacher@school.edu", 3598, t3);
  }

  lemma RevenueOfThree(a: Order, b: Order, c: Order)
    ensures Revenue([a, b, c]) == a.totalCents + b.totalCents + c.totalCents
  {
    assert [a][..0] == [];
    assert Revenue([a]) == a.totalCents;
    assert [a, b][..1] == [a];
    assert Revenue([a, b]) == a.totalCents + b.totalCents;
    assert [a, b, c][..2] == [a, b];
  }

  /** The subscriber query as the dashboard writes it: `select('id')` on `newsletter`. */
  function SubscriberQuery(): MockClient.Stage
  {
    MockClient.Select(MockClient.From("newsletter"), "id")
  }

  /** The product query as the dashboard writes it: `select('id').eq('is_active', true)`. */
  function ActiveProductQuery(): MockClient.Stage
  {
    MockClient.Eq(MockClient.Select(MockClient.From("products"), "id"), "is_active", Rows.Bool(true))
  }

  /** Every mock product is active. */
  lemma AllMockProductsActive(now: int, stamp: int -> string)
    ensures Rows.FilterEq(MockClient.MockData("products", now, stamp), "is_active", Rows.Bool(true))
            == MockClient.MockData("products", now, stamp)
  {
    var rows := MockClient.MockData("products", now, stamp);
    assert rows == MockClient.MockProducts(stamp(now));
    Rows.FilterEqAllMatch(rows, "is_active", Rows.Bool(true));
  }

  /** As written, in mock mode: neither query ends in `order(...)`, so `await`
      yields a builder object whose `data` is undefined, and both counts are 0
      although the mock tables hold 3 subscribers and 7 active products. */
  lemma MockCountsAsWritten(now: int, stamp: int -> string)
    ensures CountOf(MockClient.Await(SubscriberQuery()).data) == 0
    ensures CountOf(MockClient.Await(ActiveProductQuery()).data) == 0
    ensures |MockClient.MockData("newsletter", now, stamp)| == 3
    ensures |Rows.FilterEq(MockClient.MockData("products", now, stamp), "is_active", Rows.Bool(true))| == 7
  {
    MockClient.NewsletterMockSize(now, stamp);
    MockClient.ProductsMockSize(now, stamp);
    AllMockProductsActive(now, stamp);
  }

  /** With thenable `select` and `eq` stages the same queries count the mock
      rows: 3 subscribers and 7 active products. */
  lemma MockCountsCorrected(now: int, stamp: int -> string)
    ensures CountOf(MockClient.AwaitThenable(SubscriberQuery(), now, stamp).data) == 3
    ensures CountOf(MockClient.AwaitThenable(ActiveProductQuery(), now, stamp).data) == 7
  {
    MockClient.NewsletterMockSize(now, stamp);
    MockClient.ProductsMockSize(now, stamp);
    AllMockProductsActive(now, stamp);
  }
}
