/** The flat controller's report over the Orders and Customers tables: the
    number of orders, the revenue, the number of orders per status, and the
    five customers who spent the most. */
module Reports {
  import opened Entities
  import opened Queries

  datatype CustomerOrderSummary = CustomerOrderSummary(
    customerId: int,
    customerName: string,
    orderCount: nat,
    totalSpent: int)

  /** The per-status counts are keyed by the status itself; the source keys
      them by the status name, which is the same thing since the names are
      distinct. */
  datatype OrderReportResponse = OrderReportResponse(
    totalOrders: nat,
    totalRevenue: int,
    ordersByStatus: map<OrderStatus, nat>,
    topCustomers: seq<CustomerOrderSummary>)

  /** The rows stored under `keys`, in the order of `keys`. */
  function RowsAt(keys: seq<int>, orders: map<int, OrderRecord>): (rows: seq<OrderRecord>)
    requires forall i :: 0 <= i < |keys| ==> keys[i] in orders
    ensures |rows| == |keys|
    ensures forall i :: 0 <= i < |rows| ==> rows[i] == orders[keys[i]]
  {
    seq(|keys|, i requires 0 <= i < |keys| => orders[keys[i]])
  }

  /** The rows of the Orders table, in ascending key order, each exactly
      once. */
  function RowsOf(orders: map<int, OrderRecord>): (rows: seq<OrderRecord>)
    ensures |rows| == |orders|
    ensures forall i :: 0 <= i < |rows| ==>
              AscendingKeys(orders.Keys)[i] in orders && rows[i] == orders[AscendingKeys(orders.Keys)[i]]
  {
    var keys := AscendingKeys(orders.Keys);
    assert forall i :: 0 <= i < |keys| ==> keys[i] in orders by {
      forall i | 0 <= i < |keys|
        ensures keys[i] in orders
      {
        assert keys[i] in keys;
      }
    }
    RowsAt(keys, orders)
  }

  /** `Sum(o => o.TotalAmount)`. */
  function Revenue(rows: seq<OrderRecord>): int
  {
    if rows == [] then 0 else Revenue(rows[..|rows| - 1]) + rows[|rows| - 1].totalAmount
  }

  function CountStatus(rows: seq<OrderRecord>, s: OrderStatus): nat
  {
    if rows == [] then 0
    else CountStatus(rows[..|rows| - 1], s) + if rows[|rows| - 1].status == s then 1 else 0
  }

  /** `GroupBy(o => o.Status)` with `Count()`: a key for each status that
      occurs, mapped to its number of orders. */
  function StatusCounts(rows: seq<OrderRecord>): (m: map<OrderStatus, nat>)
    ensures forall s :: s in m <==> CountStatus(rows, s) > 0
    ensures forall s :: s in m ==> m[s] == CountStatus(rows, s)
  {
    forall s: OrderStatus ensures s in AllStatuses {
      AllStatusesComplete(s);
    }
    map s | s in AllStatuses && CountStatus(rows, s) > 0 :: CountStatus(rows, s)
  }

  /** The count a status map gives `s`, 0 when `s` has no key. */
  function CountIn(m: map<OrderStatus, nat>, s: OrderStatus): nat
  {
    if s in m then m[s] else 0
  }

  /** The counts of a status map added up over the six statuses. */
  function TotalCount(m: map<OrderStatus, nat>): nat
  {
    CountIn(m, Pending) + CountIn(m, Confirmed) + CountIn(m, Processing)
    + CountIn(m, Shipped) + CountIn(m, Delivered) + CountIn(m, Cancelled)
  }

  /** Every order has exactly one status, so the per-status counts add up
      to the number of orders. */
  lemma StatusCountsAddUp(rows: seq<OrderRecord>)
    ensures TotalCount(StatusCounts(rows)) == |rows|
  {
    var m := StatusCounts(rows);
    forall s ensures CountIn(m, s) == CountStatus(rows, s) { }
    EachOrderCountedOnce(rows);
  }

  lemma {:induction false} EachOrderCountedOnce(rows: seq<OrderRecord>)
    ensures CountStatus(rows, Pending) + CountStatus(rows, Confirmed) + CountStatus(rows, Processing)
            + CountStatus(rows, Shipped) + CountStatus(rows, Delivered) + CountStatus(rows, Cancelled) == |rows|
  {
    if rows != [] {
      EachOrderCountedOnce(rows[..|rows| - 1]);
    }
  }

  function CountBy(rows: seq<OrderRecord>, c: int): nat
  {
    if rows == [] then 0
    else CountBy(rows[..|rows| - 1], c) + if rows[|rows| - 1].customerId == c then 1 else 0
  }

  function SpentBy(rows: seq<OrderRecord>, c: int): int
  {
    if rows == [] then 0
    else SpentBy(rows[..|rows| - 1], c) + if rows[|rows| - 1].customerId == c then rows[|rows| - 1].totalAmount else 0
  }

  /** The group of customer `c` in the join of orders with customers. */
  function Summary(customers: map<int, Customer>, rows: seq<OrderRecord>, c: int): CustomerOrderSummary
    requires c in customers
  {
    CustomerOrderSummary(c, customers[c].name, CountBy(rows, c), SpentBy(rows, c))
  }

  /** `g` is the group of a customer with at least one order. */
  predicate IsGroup(customers: map<int, Customer>, rows: seq<OrderRecord>, g: CustomerOrderSummary)
  {
    g.customerId in customers && g == Summary(customers, rows, g.customerId) && g.orderCount > 0
  }

  /** No customer has two groups. */
  predicate DistinctCustomers(g: seq<CustomerOrderSummary>)
  {
    forall i, j :: 0 <= i < j < |g| ==> g[i].customerId != g[j].customerId
  }

  /** The groups of the customers `keys` (ascending) that have at least one
      order, in the order of `keys`. */
  function Groups(keys: seq<int>, customers: map<int, Customer>, rows: seq<OrderRecord>): (g: seq<CustomerOrderSummary>)
    requires forall i :: 0 <= i < |keys| ==> keys[i] in customers
    requires forall i, j :: 0 <= i < j < |keys| ==> keys[i] < keys[j]
    ensures forall i :: 0 <= i < |g| ==> IsGroup(customers, rows, g[i]) && g[i].customerId in keys
    ensures forall c :: c in keys && CountBy(rows, c) > 0 ==> Summary(customers, rows, c) in g
    ensures DistinctCustomers(g)
  {
    if keys == [] then []
    else
      var rest := Groups(keys[1..], customers, rows);
      if CountBy(rows, keys[0]) > 0 then [Summary(customers, rows, keys[0])] + rest else rest
  }

  /** `Join(Customers).GroupBy(customer)`: one group per customer with at
      least one order. */
  function CustomerGroups(customers: map<int, Customer>, rows: seq<OrderRecord>): (g: seq<CustomerOrderSummary>)
    ensures forall i :: 0 <= i < |g| ==> IsGroup(customers, rows, g[i])
    ensures forall c :: c in customers && CountBy(rows, c) > 0 ==> Summary(customers, rows, c) in g
    ensures DistinctCustomers(g)
  {
    Groups(AscendingKeys(customers.Keys), customers, rows)
  }

  function Spent(g: CustomerOrderSummary): int
  {
    g.totalSpent
  }

  /** `OrderByDescending(x => x.TotalSpent)` over the groups. */
  function RankedGroups(customers: map<int, Customer>, rows: seq<OrderRecord>): (sorted: seq<CustomerOrderSummary>)
    ensures multiset(sorted) == multiset(CustomerGroups(customers, rows))
    ensures SortedDesc(sorted, Spent)
    ensures forall i :: 0 <= i < |sorted| ==> IsGroup(customers, rows, sorted[i])
    ensures DistinctCustomers(sorted)
  {
    var all := CustomerGroups(customers, rows);
    var sorted := SortDesc(all, Spent);
    RankingKeepsDistinct(customers, rows, all, sorted);
    assert forall i :: 0 <= i < |sorted| ==> IsGroup(customers, rows, sorted[i]) by {
      forall i | 0 <= i < |sorted|
        ensures IsGroup(customers, rows, sorted[i])
      {
        assert sorted[i] in multiset(all);
        var j :| 0 <= j < |all| && all[j] == sorted[i];
      }
    }
    sorted
  }

  /** Reordering groups of distinct customers keeps them distinct: two
      groups of one customer would be the same group twice, which the
      original holds once. */
  lemma RankingKeepsDistinct(customers: map<int, Customer>, rows: seq<OrderRecord>,
                             all: seq<CustomerOrderSummary>, sorted: seq<CustomerOrderSummary>)
    requires multiset(sorted) == multiset(all)
    requires forall i :: 0 <= i < |all| ==> IsGroup(customers, rows, all[i])
    requires DistinctCustomers(all)
    ensures DistinctCustomers(sorted)
  {
    forall i, j | 0 <= i < j < |sorted|
      ensures sorted[i].customerId != sorted[j].customerId
    {
      if sorted[i].customerId == sorted[j].customerId {
        assert sorted[i] in multiset(all) && sorted[j] in multiset(all);
        var a :| 0 <= a < |all| && all[a] == sorted[i];
        var b :| 0 <= b < |all| && all[b] == sorted[j];
        assert sorted[i] == sorted[j];
        TwiceCounted(sorted, i, j);
        OnceCounted(all, sorted[i]);
        assert false;
      }
    }
  }

  /** `.Take(5)` of the ranked groups. */
  function TopCustomers(customers: map<int, Customer>, rows: seq<OrderRecord>): (top: seq<CustomerOrderSummary>)
    ensures |top| <= 5
    ensures SortedDesc(top, Spent)
    ensures DistinctCustomers(top)
  {
    var ranked := RankedGroups(customers, rows);
    TakeOfSortedIsSorted(ranked, Spent, 5);
    Take(ranked, 5)
  }

  /** Each of the top customers is the group of a customer with orders: its
      count and spend are that customer's. */
  lemma TopCustomersAreGroups(customers: map<int, Customer>, rows: seq<OrderRecord>)
    ensures forall i :: 0 <= i < |TopCustomers(customers, rows)| ==> IsGroup(customers, rows, TopCustomers(customers, rows)[i])
  {
    var ranked := RankedGroups(customers, rows);
    var top := TopCustomers(customers, rows);
    forall i | 0 <= i < |top|
      ensures IsGroup(customers, rows, top[i])
    {
      assert top[i] == ranked[i];
    }
  }

  /** The report: the number of orders and their revenue (both 0 when
      there are none), the number of orders of each status that occurs, and
      the five customers who spent the most. */
  function Report(customers: map<int, Customer>, orders: map<int, OrderRecord>): (r: OrderReportResponse)
    ensures r.totalOrders == |orders|
    ensures r.totalRevenue == Revenue(RowsOf(orders))
    ensures TotalCount(r.ordersByStatus) == r.totalOrders
    ensures forall s :: s in r.ordersByStatus <==> CountStatus(RowsOf(orders), s) > 0
    ensures forall s :: s in r.ordersByStatus ==> r.ordersByStatus[s] == CountStatus(RowsOf(orders), s)
    ensures |r.topCustomers| <= 5 && SortedDesc(r.topCustomers, Spent) && DistinctCustomers(r.topCustomers)
    ensures r.topCustomers == TopCustomers(customers, RowsOf(orders))
  {
    var rows := RowsOf(orders);
    StatusCountsAddUp(rows);
    var top := TopCustomers(customers, rows);
    if rows == [] then
      OrderReportResponse(0, 0, StatusCounts(rows), top)
    else
      OrderReportResponse(|rows|, Revenue(rows), StatusCounts(rows), top)
  }

  /** Without orders the report is all zeros and empty. */
  lemma EmptyReport(customers: map<int, Customer>)
    ensures Report(customers, map[]) == OrderReportResponse(0, 0, map[], [])
  {
    var r := Report(customers, map[]);
    assert RowsOf(map[]) == [];
    assert r.ordersByStatus.Keys == {};
    TopCustomersAreGroups(customers, []);
  }

  /** A customer with orders who is not among the top five spent no more
      than the fifth: the list is full and ends at or above them. */
  lemma TopCustomersAreTop(customers: map<int, Customer>, rows: seq<OrderRecord>, c: int)
    requires c in customers && CountBy(rows, c) > 0
    ensures Summary(customers, rows, c) in TopCustomers(customers, rows)
            || (|TopCustomers(customers, rows)| == 5 && SpentBy(rows, c) <= TopCustomers(customers, rows)[4].totalSpent)
  {
    var g := Summary(customers, rows, c);
    var sorted := RankedGroups(customers, rows);
    assert g in sorted by {
      assert g in CustomerGroups(customers, rows);
      assert g in multiset(CustomerGroups(customers, rows));
    }
    TakeOfSorted(sorted, Spent, 5, g);
  }
}
