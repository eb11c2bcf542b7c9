/** The flat variant's controller over its database context: paginated
    listing newest first, lookup by id, creation with a GUID-based order
    number, status update, deletion with cascade, and the report. */
module Controllers {
  import opened Wrappers
  import opened Entities
  import opened Dtos
  import opened Queries
  import opened OrderNumbers
  import opened Data
  import Reports

  /** The HTTP results other than success. `ServerError` is an exception the
      database raises and the action does not catch (status 500). */
  datatype ActionError = BadRequest(message: string) | NotFound | Conflict(message: string) | ServerError

  /** A row of the listing. */
  datatype OrderSummaryResponse = OrderSummaryResponse(
    id: int,
    orderNumber: string,
    customerName: string,
    status: OrderStatus,
    totalAmount: int,
    itemCount: nat,
    createdAt: int)

  function CreatedAt(o: OrderRecord): int
  {
    o.createdAt
  }

  function ListedAt(s: OrderSummaryResponse): int
  {
    s.createdAt
  }

  /** `OrderByDescending(o => o.CreatedAt)` over the Orders table: the
      stored orders, each exactly once, newest first. */
  function Newest(orders: map<int, OrderRecord>): (rows: seq<OrderRecord>)
    ensures |rows| == |orders|
    ensures multiset(rows) == multiset(Reports.RowsOf(orders))
    ensures SortedDesc(rows, CreatedAt)
  {
    SortDesc(Reports.RowsOf(orders), CreatedAt)
  }

  /** The newest-first list holds stored orders only. */
  lemma NewestAreStored(orders: map<int, OrderRecord>)
    requires forall k :: k in orders ==> orders[k].id == k
    ensures forall i :: 0 <= i < |Newest(orders)| ==>
              Newest(orders)[i].id in orders && orders[Newest(orders)[i].id] == Newest(orders)[i]
  {
    var all, rows := Reports.RowsOf(orders), Newest(orders);
    forall i | 0 <= i < |rows|
      ensures rows[i].id in orders && orders[rows[i].id] == rows[i]
    {
      assert rows[i] in multiset(all);
      var j :| 0 <= j < |all| && all[j] == rows[i];
      assert AscendingKeys(orders.Keys)[j] in orders;
    }
  }

  /** Every stored order is on the newest-first list. */
  lemma NewestHasAll(orders: map<int, OrderRecord>)
    ensures forall k :: k in orders ==> orders[k] in Newest(orders)
  {
    var all := Reports.RowsOf(orders);
    forall k | k in orders
      ensures orders[k] in Newest(orders)
    {
      var keys := AscendingKeys(orders.Keys);
      assert k in keys;
      var i :| 0 <= i < |keys| && keys[i] == k;
      assert all[i] == orders[k];
      assert orders[k] in multiset(all);
    }
  }

  /** The summary of order `o`: its name comes from its customer, its item
      count from its lines. */
  function SummaryOf(customers: map<int, Customer>, o: OrderRecord): OrderSummaryResponse
    requires o.customerId in customers
  {
    OrderSummaryResponse(o.id, o.orderNumber, customers[o.customerId].name, o.status, o.totalAmount,
                         |o.items|, o.createdAt)
  }

  function Summaries(customers: map<int, Customer>, rows: seq<OrderRecord>): (r: seq<OrderSummaryResponse>)
    requires forall i :: 0 <= i < |rows| ==> rows[i].customerId in customers
    ensures |r| == |rows|
    ensures forall i :: 0 <= i < |r| ==> r[i] == SummaryOf(customers, rows[i])
    ensures SortedDesc(rows, CreatedAt) ==> SortedDesc(r, ListedAt)
  {
    seq(|rows|, i requires 0 <= i < |rows| => SummaryOf(customers, rows[i]))
  }

  /** Every order sits under its own key and refers to a stored customer. */
  ghost predicate Listable(customers: map<int, Customer>, orders: map<int, OrderRecord>)
  {
    forall k :: k in orders ==> orders[k].id == k && orders[k].customerId in customers
  }

  /** `OrderByDescending(o => o.CreatedAt).Skip((page - 1) * pageSize).Take(pageSize)`. */
  function NewestPage(orders: map<int, OrderRecord>, page: int, pageSize: int): seq<OrderRecord>
    requires IsInt32(page) && IsInt32(pageSize)
  {
    Page(Newest(orders), page, pageSize)
  }

  /** The orders on a page are stored orders. */
  lemma NewestPageStored(customers: map<int, Customer>, orders: map<int, OrderRecord>, page: int, pageSize: int)
    requires IsInt32(page) && IsInt32(pageSize) && Listable(customers, orders)
    ensures forall i :: 0 <= i < |NewestPage(orders, page, pageSize)| ==>
              && NewestPage(orders, page, pageSize)[i].id in orders
              && orders[NewestPage(orders, page, pageSize)[i].id] == NewestPage(orders, page, pageSize)[i]
              && NewestPage(orders, page, pageSize)[i].customerId in customers
  {
    NewestAreStored(orders);
  }

  /** `Select(o => new OrderSummaryResponse(...))` over a page. */
  function Listing(customers: map<int, Customer>, orders: map<int, OrderRecord>, page: int, pageSize: int)
    : seq<OrderSummaryResponse>
    requires IsInt32(page) && IsInt32(pageSize) && Listable(customers, orders)
  {
    NewestPageStored(customers, orders, page, pageSize);
    Summaries(customers, NewestPage(orders, page, pageSize))
  }

  /** Page `page` of `pageSize` orders, newest first: as many orders as fit
      on the page (never more than `pageSize`), from position
      `Offset(page, pageSize)` of the newest-first list on, where the
      position is the wrapped `int` product. */
  lemma ListingIsNewestPage(customers: map<int, Customer>, orders: map<int, OrderRecord>, page: int, pageSize: int)
    requires IsInt32(page) && IsInt32(pageSize) && Listable(customers, orders)
    ensures var r := Listing(customers, orders, page, pageSize);
            && |r| == PageLength(|orders|, page, pageSize)
            && forall i :: 0 <= i < |r| ==>
                 Offset(page, pageSize) + i < |orders| && r[i].id == Newest(orders)[Offset(page, pageSize) + i].id
  {
  }

  /** The listing is newest first. */
  lemma ListingIsSorted(customers: map<int, Customer>, orders: map<int, OrderRecord>, page: int, pageSize: int)
    requires IsInt32(page) && IsInt32(pageSize) && Listable(customers, orders)
    ensures SortedDesc(Listing(customers, orders, page, pageSize), ListedAt)
  {
    PageOfSorted(Newest(orders), CreatedAt, page, pageSize);
  }

  /** Each listed order is a stored order, shown with its customer's name
      and its number of lines. */
  lemma ListingShowsStored(customers: map<int, Customer>, orders: map<int, OrderRecord>, page: int, pageSize: int)
    requires IsInt32(page) && IsInt32(pageSize) && Listable(customers, orders)
    ensures var r := Listing(customers, orders, page, pageSize);
            forall i :: 0 <= i < |r| ==>
              && r[i].id in orders && orders[r[i].id].customerId in customers
              && r[i] == SummaryOf(customers, orders[r[i].id])
  {
    var rows := NewestPage(orders, page, pageSize);
    NewestPageStored(customers, orders, page, pageSize);
    var r := Listing(customers, orders, page, pageSize);
    forall i | 0 <= i < |r|
      ensures r[i].id in orders && orders[r[i].id].customerId in customers
      ensures r[i] == SummaryOf(customers, orders[r[i].id])
    {
      assert r[i] == SummaryOf(customers, rows[i]);
      assert r[i].id == rows[i].id;
    }
  }

  /** A page the database accepts, a non-negative skip count and at least
      one row to fetch, lists the orders from that count on, at most
      `pageSize` of them, newest first, each as stored. */
  lemma AcceptedPage(customers: map<int, Customer>, orders: map<int, OrderRecord>, page: int, pageSize: int)
    requires IsInt32(page) && IsInt32(pageSize) && Listable(customers, orders)
    requires SkipCount(page, pageSize) >= 0 && pageSize >= 1
    ensures Offset(page, pageSize) == SkipCount(page, pageSize)
    ensures var r := Listing(customers, orders, page, pageSize);
            && |r| == PageLength(|orders|, page, pageSize) <= pageSize
            && (forall i :: 0 <= i < |r| ==>
                  Offset(page, pageSize) + i < |orders| && r[i].id == Newest(orders)[Offset(page, pageSize) + i].id)
            && SortedDesc(r, ListedAt)
            && (forall i :: 0 <= i < |r| ==>
                  && r[i].id in orders && orders[r[i].id].customerId in customers
                  && r[i] == SummaryOf(customers, orders[r[i].id]))
  {
    ListingIsNewestPage(customers, orders, page, pageSize);
    ListingIsSorted(customers, orders, page, pageSize);
    ListingShowsStored(customers, orders, page, pageSize);
  }

  class OrderController {
    const db: OrderContext

    /** Besides the database's own rules: every stored total is the sum of
        its lines. */
    ghost predicate Valid()
      reads this, db
    {
      db.Valid() && TotalsAreLineSums(db.orders)
    }

    constructor (db: OrderContext)
      requires db.Valid() && TotalsAreLineSums(db.orders)
      ensures Valid() && this.db == db
    {
      this.db := db;
    }

    /** `GetOrders(page, pageSize)`: page `page` of the stored orders,
        newest first, `pageSize` to a page, each shown with its customer's
        name and its number of lines. The skip count is `(page - 1) *
        pageSize` on `int`, which wraps; SQL Server refuses an OFFSET below
        0 and a FETCH NEXT count below 1, which the action lets through as
        an exception. */
    function GetOrders(page: int, pageSize: int): (r: Result<seq<OrderSummaryResponse>, ActionError>)
      reads this, db
      requires Valid() && IsInt32(page) && IsInt32(pageSize)
      ensures r.Failure? <==> SkipCount(page, pageSize) < 0 || pageSize < 1
      ensures r.Failure? ==> r.error == ServerError
      ensures page >= 1 && pageSize >= 1 && (page - 1) * pageSize < 0x8000_0000 ==> r.Success?
      ensures r.Success? ==> Offset(page, pageSize) == SkipCount(page, pageSize)
      ensures r.Success? ==> |r.value| == PageLength(|db.orders|, page, pageSize) <= pageSize
      ensures r.Success? ==> forall i :: 0 <= i < |r.value| ==>
                Offset(page, pageSize) + i < |db.orders|
                && r.value[i].id == Newest(db.orders)[Offset(page, pageSize) + i].id
      ensures r.Success? ==> SortedDesc(r.value, ListedAt)
      ensures r.Success? ==> forall i :: 0 <= i < |r.value| ==>
                && r.value[i].id in db.orders && db.orders[r.value[i].id].customerId in db.customers
                && r.value[i] == SummaryOf(db.customers, db.orders[r.value[i].id])
    {
      SkipCountOfPage(page, pageSize);
      if SkipCount(page, pageSize) < 0 || pageSize < 1 then
        Failure(ServerError)
      else
        AcceptedPage(db.customers, db.orders, page, pageSize);
        Success(Listing(db.customers, db.orders, page, pageSize))
    }

    /** The order with its lines and its customer's name, or NotFound. */
    function GetOrder(id: int): (r: Result<OrderResponse, ActionError>)
      reads this, db
      requires Valid()
      ensures r.Failure? <==> id !in db.orders
      ensures r.Failure? ==> r.error == NotFound
      ensures r.Success? ==> id in db.orders && db.orders[id].customerId in db.customers
      ensures r.Success? ==> r.value == RecordResponse(db.orders[id], db.customers[db.orders[id].customerId].name)
      ensures r.Success? ==> r.value.id == id && r.value.totalAmount == ResponseLinesTotal(r.value.items)
    {
      if id !in db.orders then Failure(NotFound)
      else
        var order := db.orders[id];
        ResponseTotalIsLineSum(order, db.customers[order.customerId].name);
        Success(RecordResponse(order, db.customers[order.customerId].name))
    }

    /** Builds the order a request describes, line by line, accumulating
        quantity times price into the total. */
    static method BuildOrder(request: CreateOrderRequest, number: string, now: int) returns (order: OrderRecord)
      ensures order == RequestOrder(request, number, now)
    {
      order := OrderRecord(0, number, request.customerId, Pending, 0, now, None, []);
      var total := 0;
      var i := 0;
      while i < |request.items|
        invariant 0 <= i <= |request.items|
        invariant order == OrderRecord(0, number, request.customerId, Pending, 0, now, None, order.items)
        invariant |order.items| == i
        invariant forall j :: 0 <= j < i ==> order.items[j] == NewItem(request.items[j])
        invariant total == RequestTotal(request.items[..i])
      {
        var item := request.items[i];
        order := order.(items := order.items + [NewItem(item)]);
        assert request.items[..i + 1][..i] == request.items[..i];
        total := total + item.quantity * item.unitPrice;
        i := i + 1;
      }
      assert request.items[..i] == request.items;
      assert order.items == NewItems(request.items);
      order := order.(totalAmount := total);
    }

    /** Creates an order. An unknown customer is rejected first, then an
        empty list of lines; neither writes anything. The number is
        "ORD-yyyy-" and the first eight characters of `guid`; a number
        already in use is a Conflict and writes nothing. Otherwise the order
        (status Pending, the request's lines in order, the request's total)
        becomes the one new row, under the next identity values. */
    method CreateOrder(request: CreateOrderRequest, year: nat, guid: string, now: int)
      returns (r: Result<OrderResponse, ActionError>)
      requires Valid() && 1 <= year <= 9999 && |guid| == 32
      modifies db
      ensures Valid()
      ensures request.customerId !in old(db.customers) ==>
                r == Failure(BadRequest("Customer not found")) && unchanged(db)
      ensures request.customerId in old(db.customers) && request.items == [] ==>
                r == Failure(BadRequest("Order must have at least one item")) && unchanged(db)
      ensures request.customerId in old(db.customers) && request.items != []
              && TokenNumber(year, guid) in Numbers(old(db.orders)) ==>
                r == Failure(Conflict("Order number already exists")) && unchanged(db)
      ensures r.Success? <==> request.customerId in old(db.customers) && request.items != []
                              && TokenNumber(year, guid) !in Numbers(old(db.orders))
      ensures r.Success? ==>
        var row := SavedRequest(request, TokenNumber(year, guid), now, old(db.nextOrderId), old(db.nextItemId));
        && row.id !in old(db.orders)
        && db.orders == old(db.orders)[row.id := row]
        && db.customers == old(db.customers)
        && r.value == RecordResponse(row, db.customers[request.customerId].name)
    {
      if request.customerId !in db.customers {
        return Failure(BadRequest("Customer not found"));
      }
      var customer := db.customers[request.customerId];
      if |request.items| == 0 {
        return Failure(BadRequest("Order must have at least one item"));
      }
      var number := TokenNumber(year, guid);
      var order := BuildOrder(request, number, now);
      ghost var before, id, firstId := db.orders, db.nextOrderId, db.nextItemId;
      SavedRequestIsSaved(request, number, now, id, firstId);
      var saved := db.SaveNewOrder(order);
      if saved.Failure? {
        return Failure(Conflict("Order number already exists"));
      }
      SavedRequestAnswers(request, number, now, id, firstId, customer.name);
      InsertKeepsTotals(before, id, saved.value);
      r := Success(RecordResponse(saved.value, customer.name));
    }

    /** Sets the status of a stored order and stamps its update time;
        nothing else changes. An unknown id is NotFound. */
    method UpdateOrderStatus(id: int, status: OrderStatus, now: int) returns (r: Result<(), ActionError>)
      requires Valid()
      modifies db`orders
      ensures Valid()
      ensures r.Failure? <==> id !in old(db.orders)
      ensures r.Failure? ==> r.error == NotFound && db.orders == old(db.orders)
      ensures r.Success? ==> db.orders == old(db.orders)[id := WithStatus(old(db.orders)[id], status, now)]
    {
      if id !in db.orders {
        return Failure(NotFound);
      }
      ChangeStatusKeeps(db.customers, db.orders, id, status, now, db.nextOrderId, db.nextItemId);
      db.orders := db.orders[id := WithStatus(db.orders[id], status, now)];
      r := Success(());
    }

    /** Deletes a stored order and, by cascade, its lines. An unknown id is
        NotFound. */
    method DeleteOrder(id: int) returns (r: Result<(), ActionError>)
      requires Valid()
      modifies db`orders
      ensures Valid()
      ensures r.Failure? <==> id !in old(db.orders)
      ensures r.Failure? ==> r.error == NotFound && db.orders == old(db.orders)
      ensures r.Success? ==> db.orders == old(db.orders) - {id}
      ensures r.Success? ==>
                ItemRows(db.orders) == ItemRows(old(db.orders)) - set i | 0 <= i < |old(db.orders)[id].items| :: old(db.orders)[id].items[i]
      ensures forall item :: item in ItemRows(db.orders) ==> item.orderId != id
    {
      if id !in db.orders {
        return Failure(NotFound);
      }
      db.RemoveOrder(id);
      r := Success(());
    }

    /** `GetReports()`: the number of stored orders and their revenue, the
        per-status counts, which add up to the number of orders, and at
        most five distinct customers with orders, biggest spender first. */
    function GetReports(): (r: Reports.OrderReportResponse)
      reads this, db
      requires Valid()
      ensures r.totalOrders == |db.orders| && r.totalRevenue == Reports.Revenue(Reports.RowsOf(db.orders))
      ensures Reports.TotalCount(r.ordersByStatus) == |db.orders|
      ensures forall s :: s in r.ordersByStatus ==> r.ordersByStatus[s] == Reports.CountStatus(Reports.RowsOf(db.orders), s) > 0
      ensures |r.topCustomers| <= 5 && SortedDesc(r.topCustomers, Reports.Spent)
      ensures forall i, j :: 0 <= i < j < |r.topCustomers| ==> r.topCustomers[i].customerId != r.topCustomers[j].customerId
      ensures forall i :: 0 <= i < |r.topCustomers| ==>
                Reports.IsGroup(db.customers, Reports.RowsOf(db.orders), r.topCustomers[i])
      ensures r.topCustomers == Reports.TopCustomers(db.customers, Reports.RowsOf(db.orders))
      ensures forall c :: c in db.customers && Reports.CountBy(Reports.RowsOf(db.orders), c) > 0 ==>
                Reports.Summary(db.customers, Reports.RowsOf(db.orders), c) in r.topCustomers
                || (|r.topCustomers| == 5 && Reports.SpentBy(Reports.RowsOf(db.orders), c) <= r.topCustomers[4].totalSpent)
    {
      var rows := Reports.RowsOf(db.orders);
      Reports.TopCustomersAreGroups(db.customers, rows);
      assert forall c :: c in db.customers && Reports.CountBy(rows, c) > 0 ==>
               Reports.Summary(db.customers, rows, c) in Reports.TopCustomers(db.customers, rows)
               || (|Reports.TopCustomers(db.customers, rows)| == 5
                   && Reports.SpentBy(rows, c) <= Reports.TopCustomers(db.customers, rows)[4].totalSpent) by {
        forall c | c in db.customers && Reports.CountBy(rows, c) > 0
          ensures Reports.Summary(db.customers, rows, c) in Reports.TopCustomers(db.customers, rows)
                  || (|Reports.TopCustomers(db.customers, rows)| == 5
                      && Reports.SpentBy(rows, c) <= Reports.TopCustomers(db.customers, rows)[4].totalSpent)
        {
          Reports.TopCustomersAreTop(db.customers, rows, c);
        }
      }
      Reports.Report(db.customers, db.orders)
    }
  }
}
