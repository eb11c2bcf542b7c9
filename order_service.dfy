/** The layered variant's application service and the repositories it
    talks to. The store is an in-memory table of `Order` entities keyed by
    id; saving assigns identity keys the way the database does (the next
    value of a counter that is never reused). */
module Services {
  import opened Wrappers
  import opened Entities
  import opened Dtos
  import opened Queries
  import opened OrderNumbers
  import Domain
  import Mappers

  datatype ServiceError = CustomerNotFound

  /** The orders table: `AddAsync` followed by `SaveChangesAsync`, lookup by
      id with lines, and the order with the largest id. The layered variant
      never deletes an order, so the ids in use are exactly 1 up to the last
      identity value handed out. */
  class OrderRepository {
    var orders: map<int, OrderRecord>
    var nextOrderId: int
    var nextItemId: int

    ghost predicate Valid()
      reads this
    {
      && 1 <= nextOrderId && 1 <= nextItemId
      && (forall k :: k in orders <==> 1 <= k < nextOrderId)
      && KeysMatch(orders, nextOrderId, nextItemId)
    }

    constructor ()
      ensures Valid() && orders == map[]
    {
      orders := map[];
      nextOrderId := 1;
      nextItemId := 1;
    }

    /** `OrderByDescending(o => o.Id).FirstOrDefault()`. */
    function GetLast(): (last: Option<OrderRecord>)
      reads this
      requires Valid()
      ensures last.None? <==> orders == map[]
      ensures last.Some? ==> last.value.id in orders && orders[last.value.id] == last.value
      ensures last.Some? ==> forall k :: k in orders ==> k <= last.value.id
    {
      if orders == map[] then None else Some(orders[LargestKey(orders.Keys)])
    }

    function GetById(id: int): (r: Option<OrderRecord>)
      reads this
      ensures r.Some? <==> id in orders
      ensures r.Some? ==> r.value == orders[id]
    {
      if id in orders then Some(orders[id]) else None
    }

    /** With no deletions the largest id is the last identity value handed
        out, so the sequence value the service computes is the id the next
        save assigns. */
    lemma LargestIsLastIssued()
      requires Valid()
      ensures LargestKey(orders.Keys) == nextOrderId - 1
    {
      if nextOrderId > 1 {
        assert nextOrderId - 1 in orders;
      } else {
        assert forall k :: k !in orders;
        assert orders.Keys == {};
      }
    }

    /** Adds a new entity and saves it: the entity gets the next identity
        value as its id, its lines get the next line identity values and
        point back at it, every other field stays as it was, and its state
        becomes the one new row. */
    method Add(order: Domain.Order)
      requires Valid()
      modifies this, order`id, order`items
      ensures Valid()
      ensures order.id == old(nextOrderId)
      ensures order.items == WithKeys(old(order.items), order.id, old(nextItemId))
      ensures order.Record() == old(order.Record()).(id := old(nextOrderId), items := WithKeys(old(order.Record()).items, old(nextOrderId), old(nextItemId)))
      ensures orders == old(orders)[order.id := order.Record()]
      ensures nextOrderId == old(nextOrderId) + 1 && nextItemId == old(nextItemId) + |order.items|
    {
      order.id := nextOrderId;
      order.items := WithKeys(order.items, nextOrderId, nextItemId);
      orders := orders[nextOrderId := order.Record()];
      nextOrderId := nextOrderId + 1;
      nextItemId := nextItemId + |order.items|;
    }
  }

  /** The customers table, read-only here. */
  class CustomerRepository {
    var customers: map<int, Customer>

    ghost predicate Valid()
      reads this
    {
      forall k :: k in customers ==> customers[k].id == k
    }

    constructor (customers: map<int, Customer>)
      requires forall k :: k in customers ==> customers[k].id == k
      ensures Valid() && this.customers == customers
    {
      this.customers := customers;
    }

    function GetById(id: int): (r: Option<Customer>)
      reads this
      ensures r.Some? <==> id in customers
      ensures r.Some? ==> r.value == customers[id]
    {
      if id in customers then Some(customers[id]) else None
    }
  }

  /** The entity `CreateAsync` builds before saving it: the given number,
      the request's customer, status Pending, the creation time, one line
      per request line in request order (keys still 0), and the total
      recalculated from those lines. */
  method NewOrder(request: CreateOrderRequest, number: string, now: int) returns (order: Domain.Order)
    ensures fresh(order)
    ensures order.Record() == RequestOrder(request, number, now)
  {
    order := new Domain.Order(number, request.customerId, now);
    var i := 0;
    while i < |request.items|
      invariant 0 <= i <= |request.items|
      invariant |order.items| == i
      invariant forall j :: 0 <= j < i ==> order.items[j] == NewItem(request.items[j])
      modifies order`items
    {
      order.items := order.items + [NewItem(request.items[i])];
      i := i + 1;
    }
    assert order.items == NewItems(request.items);
    order.CalculateTotal();
  }

  /** The row `CreateAsync` stores for `request` in the orders table
      `before`, whose next line key is `firstId`: its id is the largest id
      in `before` plus one (1 on an empty table), its number that id in
      format "D5", then the entity `NewOrder` builds, with the keys the
      store gives it. */
  function CreatedRow(before: map<int, OrderRecord>, firstId: int, request: CreateOrderRequest,
                      year: nat, now: int): (row: OrderRecord)
    requires year <= 9999 && LargestKey(before.Keys) >= 0
    ensures row.id >= 1 && row.id !in before && forall k :: k in before ==> k < row.id
  {
    var next := LargestKey(before.Keys) + 1;
    SavedRequest(request, SequentialNumber(year, next), now, next, firstId)
  }

  /** The entity `NewOrder` builds, saved under the next id with the next
      line keys, is the created row. */
  lemma SavedIsCreatedRow(before: map<int, OrderRecord>, firstId: int, request: CreateOrderRequest,
                          year: nat, now: int, next: nat, built: OrderRecord)
    requires year <= 9999 && 1 <= next == LargestKey(before.Keys) + 1
    requires built == RequestOrder(request, SequentialNumber(year, next), now)
    ensures CreatedRow(before, firstId, request, year, now) == built.(id := next, items := WithKeys(built.items, next, firstId))
  {
  }

  /** The created row answers the request under the sequential number of
      its id, and it keeps the rule on totals, since its total was
      calculated from its lines before the keys were assigned, which keeps
      quantities and prices. */
  lemma CreatedRowAnswers(before: map<int, OrderRecord>, firstId: int, request: CreateOrderRequest,
                          customerName: string, year: nat, now: int)
    requires year <= 9999 && LargestKey(before.Keys) >= 0
    ensures var row := CreatedRow(before, firstId, request, year, now);
            && Answers(RecordResponse(row, customerName), request, customerName, SequentialNumber(year, row.id), now)
            && TotalIsLineSum(row)
            && (TotalsAreLineSums(before) ==> TotalsAreLineSums(before[row.id := row]))
  {
    var row := CreatedRow(before, firstId, request, year, now);
    SavedRequestAnswers(request, row.orderNumber, now, row.id, firstId, customerName);
    if TotalsAreLineSums(before) {
      InsertKeepsTotals(before, row.id, row);
    }
  }

  class OrderService {
    const orders: OrderRepository
    const customers: CustomerRepository

    /** Besides the tables' own rules: every stored total is the sum of its
        lines. */
    ghost predicate Valid()
      reads this, orders, customers
    {
      orders.Valid() && customers.Valid() && TotalsAreLineSums(orders.orders)
    }

    constructor (orders: OrderRepository, customers: CustomerRepository)
      requires orders.Valid() && orders.orders == map[] && customers.Valid()
      ensures Valid() && this.orders == orders && this.customers == customers
    {
      this.orders := orders;
      this.customers := customers;
    }

    /** `(last?.Id ?? 0) + 1` for the order with the largest id: the id the
        next save assigns. */
    method NextSequence() returns (next: nat)
      requires Valid()
      ensures next == LargestKey(orders.orders.Keys) + 1 == orders.nextOrderId
    {
      var last := orders.GetLast();
      next := (if last.Some? then last.value.id else 0) + 1;
      orders.LargestIsLastIssued();
    }

    /** `AddAsync` and `SaveChangesAsync` for a new entity whose total is
        the sum of its lines, then the response of the saved entity: the
        entity becomes the one new row, under the next identity value and
        with the next line keys. */
    method Save(order: Domain.Order, customerName: string) returns (response: OrderResponse)
      requires Valid() && TotalIsLineSum(order.Record())
      modifies orders, order
      ensures Valid()
      ensures orders.orders == old(orders.orders)[old(orders.nextOrderId) :=
                old(order.Record()).(id := old(orders.nextOrderId),
                                     items := WithKeys(old(order.Record()).items, old(orders.nextOrderId), old(orders.nextItemId)))]
      ensures old(orders.nextOrderId) in orders.orders
      ensures response == RecordResponse(orders.orders[old(orders.nextOrderId)], customerName)
    {
      ghost var before := order.Record();
      orders.Add(order);
      SameLinesSameTotal(before.items, order.items);
      InsertKeepsTotals(old(orders.orders), order.id, order.Record());
      response := Mappers.ToResponse(order, customerName);
    }

    /** Numbers, builds and saves the order of `request` for a customer
        named `customerName`: the number is the largest stored id plus one
        (1 on an empty table) in format "D5", the request lines are copied
        in order (an empty list gives an order with no lines and total 0),
        the total is recalculated, and the order is saved as the one new
        row. */
    method Place(request: CreateOrderRequest, customerName: string, year: nat, now: int) returns (response: OrderResponse)
      requires Valid() && 1 <= year <= 9999
      modifies orders
      ensures Valid()
      ensures var row := CreatedRow(old(orders.orders), old(orders.nextItemId), request, year, now);
              && orders.orders == old(orders.orders)[row.id := row]
              && response == RecordResponse(row, customerName)
    {
      var next := NextSequence();
      ghost var before, firstId := orders.orders, orders.nextItemId;
      var order := NewOrder(request, SequentialNumber(year, next), now);
      SavedIsCreatedRow(before, firstId, request, year, now, next, order.Record());
      response := Save(order, customerName);
    }

    /** Creates an order for an existing customer. An unknown customer is
        rejected before anything is read or written; otherwise the order is
        placed. */
    method CreateAsync(request: CreateOrderRequest, year: nat, now: int) returns (r: Result<OrderResponse, ServiceError>)
      requires Valid() && 1 <= year <= 9999
      modifies orders
      ensures Valid()
      ensures r.Failure? <==> request.customerId !in customers.customers
      ensures r.Failure? ==> r.error == CustomerNotFound && unchanged(orders)
      ensures r.Success? ==>
        var row := CreatedRow(old(orders.orders), old(orders.nextItemId), request, year, now);
        && orders.orders == old(orders.orders)[row.id := row]
        && r.value == RecordResponse(row, customers.customers[request.customerId].name)
    {
      var found := customers.GetById(request.customerId);
      if found.None? {
        return Failure(CustomerNotFound);
      }
      var response := Place(request, found.value.name, year, now);
      r := Success(response);
    }

    /** The order with its lines and its customer's name, or nothing for an
        unknown id; an order whose customer is missing gets an empty name. */
    method GetByIdAsync(id: int) returns (r: Option<OrderResponse>)
      requires Valid()
      ensures r.None? <==> id !in orders.orders
      ensures r.Some? ==> r.value.id == id
      ensures r.Some? ==>
        var cid := orders.orders[id].customerId;
        r.value == RecordResponse(orders.orders[id], if cid in customers.customers then customers.customers[cid].name else "")
    {
      var row := orders.GetById(id);
      if row.None? {
        return None;
      }
      var order := new Domain.Order.FromRecord(row.value);
      var customer := customers.GetById(order.customerId);
      r := Some(Mappers.ToResponse(order, if customer.Some? then customer.value.name else ""));
    }
  }
}
