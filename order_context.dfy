/** The flat variant's database context: the Customers and Orders tables
    (an order row holds its OrderItems rows) and the rules the model
    configuration puts on them: identity keys, the unique index on
    `OrderNumber`, the foreign key from an order to its customer with
    delete behaviour Restrict, and the foreign key from a line to its order
    with delete behaviour Cascade. */
module Data {
  import opened Wrappers
  import opened Entities

  /** Why `SaveChanges` throws a `DbUpdateException`. */
  datatype StoreError = UniqueViolation | ForeignKeyViolation | Restricted | Missing

  /** Every order refers to a stored customer. */
  ghost predicate ForeignKeys(customers: map<int, Customer>, orders: map<int, OrderRecord>)
  {
    forall k :: k in orders ==> orders[k].customerId in customers
  }

  /** The unique index on `OrderNumber`. */
  ghost predicate UniqueNumbers(orders: map<int, OrderRecord>)
  {
    forall a, b :: a in orders && b in orders && a != b ==> orders[a].orderNumber != orders[b].orderNumber
  }

  /** The order numbers in use. */
  function Numbers(orders: map<int, OrderRecord>): (s: set<string>)
    ensures forall k :: k in orders ==> orders[k].orderNumber in s
    ensures forall n :: n in s ==> exists k :: k in orders && orders[k].orderNumber == n
  {
    set k | k in orders :: orders[k].orderNumber
  }

  /** The orders that refer to customer `c`. */
  function OrdersOf(orders: map<int, OrderRecord>, c: int): (s: set<int>)
    ensures forall k :: k in s <==> k in orders && orders[k].customerId == c
  {
    set k | k in orders && orders[k].customerId == c
  }

  /** Every line stored in the Orders table, with its keys. */
  ghost function ItemRows(orders: map<int, OrderRecord>): set<OrderItem>
  {
    set k, i | k in orders && 0 <= i < |orders[k].items| :: orders[k].items[i]
  }

  /** Saving a new row whose number is not yet in use keeps the unique
      index. */
  lemma InsertKeepsUnique(orders: map<int, OrderRecord>, k: int, row: OrderRecord)
    requires UniqueNumbers(orders) && k !in orders && row.orderNumber !in Numbers(orders)
    ensures UniqueNumbers(orders[k := row])
  {
  }

  /** Removing a row keeps every rule. */
  lemma RemoveKeeps(customers: map<int, Customer>, orders: map<int, OrderRecord>, k: int, nextOrderId: int, nextItemId: int)
    requires KeysMatch(orders, nextOrderId, nextItemId) && ForeignKeys(customers, orders) && UniqueNumbers(orders)
    ensures KeysMatch(orders - {k}, nextOrderId, nextItemId)
    ensures ForeignKeys(customers, orders - {k}) && UniqueNumbers(orders - {k})
  {
  }

  /** The row of order `k` with a new status and update time: key,
      number, customer, total and lines stay. */
  function WithStatus(row: OrderRecord, status: OrderStatus, now: int): (r: OrderRecord)
    ensures r.status == status && r.updatedAt == Some(now)
    ensures r.(status := row.status, updatedAt := row.updatedAt) == row
  {
    row.(status := status, updatedAt := Some(now))
  }

  /** Changing the status and update time of a stored order keeps every
      rule, the rule on totals included. */
  lemma ChangeStatusKeeps(customers: map<int, Customer>, orders: map<int, OrderRecord>, k: int,
                          status: OrderStatus, now: int, nextOrderId: int, nextItemId: int)
    requires k in orders
    requires KeysMatch(orders, nextOrderId, nextItemId) && ForeignKeys(customers, orders)
    requires UniqueNumbers(orders) && TotalsAreLineSums(orders)
    ensures var changed := orders[k := WithStatus(orders[k], status, now)];
            && KeysMatch(changed, nextOrderId, nextItemId) && ForeignKeys(customers, changed)
            && UniqueNumbers(changed) && TotalsAreLineSums(changed)
  {
    var changed := orders[k := WithStatus(orders[k], status, now)];
    assert forall j :: j in changed ==> changed[j].orderNumber == orders[j].orderNumber;
    assert forall j :: j in changed ==> changed[j].items == orders[j].items && changed[j].id == orders[j].id;
  }

  /** Cascade: removing order `k` removes exactly its lines, and no line
      pointing at `k` is left. */
  lemma {:induction false} CascadeDelete(orders: map<int, OrderRecord>, k: int, nextOrderId: int, nextItemId: int)
    requires KeysMatch(orders, nextOrderId, nextItemId) && k in orders
    ensures ItemRows(orders - {k}) == ItemRows(orders) - set i | 0 <= i < |orders[k].items| :: orders[k].items[i]
    ensures forall item :: item in ItemRows(orders - {k}) ==> item.orderId != k
  {
    var rest := orders - {k};
    var own := set i | 0 <= i < |orders[k].items| :: orders[k].items[i];
    forall item | item in ItemRows(rest)
      ensures item in ItemRows(orders) - own && item.orderId != k
    {
      var j, i :| j in rest && 0 <= i < |rest[j].items| && rest[j].items[i] == item;
      assert RowKeys(j, orders[j], nextItemId);
      assert item.orderId == j;
    }
    forall item | item in ItemRows(orders) - own
      ensures item in ItemRows(rest)
    {
      var j, i :| j in orders && 0 <= i < |orders[j].items| && orders[j].items[i] == item;
      assert j != k;
      assert j in rest && rest[j].items[i] == item;
    }
  }

  class OrderContext {
    var customers: map<int, Customer>
    var orders: map<int, OrderRecord>
    /** The identity values the next saved order and line receive. */
    var nextOrderId: int
    var nextItemId: int

    ghost predicate Valid()
      reads this
    {
      && 1 <= nextOrderId && 1 <= nextItemId
      && (forall c :: c in customers ==> customers[c].id == c)
      && KeysMatch(orders, nextOrderId, nextItemId)
      && ForeignKeys(customers, orders)
      && UniqueNumbers(orders)
    }

    /** A database holding the given customers and no orders. */
    constructor (customers: map<int, Customer>)
      requires forall c :: c in customers ==> customers[c].id == c
      ensures Valid() && this.customers == customers && orders == map[]
    {
      this.customers := customers;
      orders := map[];
      nextOrderId := 1;
      nextItemId := 1;
    }

    /** `Orders.Add(order)` then `SaveChanges()`. A number already in use
        violates the unique index and an unknown customer the foreign key;
        either way nothing is written. Otherwise the order gets the next
        identity value, its lines the next line identity values and its id,
        and it becomes the one new row. */
    method SaveNewOrder(order: OrderRecord) returns (r: Result<OrderRecord, StoreError>)
      requires Valid()
      modifies this
      ensures Valid()
      ensures order.customerId !in old(customers) ==> r == Failure(ForeignKeyViolation)
      ensures order.customerId in old(customers) && order.orderNumber in Numbers(old(orders)) ==>
                r == Failure(UniqueViolation)
      ensures r.Failure? ==> unchanged(this)
      ensures r.Success? <==> order.customerId in old(customers) && order.orderNumber !in Numbers(old(orders))
      ensures r.Success? ==>
        && r.value == order.(id := old(nextOrderId), items := WithKeys(order.items, old(nextOrderId), old(nextItemId)))
        && r.value.id !in old(orders)
        && orders == old(orders)[r.value.id := r.value] && customers == old(customers)
        && nextOrderId == old(nextOrderId) + 1 && nextItemId == old(nextItemId) + |order.items|
    {
      if order.customerId !in customers {
        return Failure(ForeignKeyViolation);
      }
      if order.orderNumber in Numbers(orders) {
        return Failure(UniqueViolation);
      }
      var row := order.(id := nextOrderId, items := WithKeys(order.items, nextOrderId, nextItemId));
      assert RowKeys(nextOrderId, row, nextItemId + |order.items|);
      InsertKeepsUnique(orders, nextOrderId, row);
      orders := orders[nextOrderId := row];
      nextOrderId := nextOrderId + 1;
      nextItemId := nextItemId + |order.items|;
      r := Success(row);
    }

    /** `Orders.Remove(order)` then `SaveChanges()` for a stored order: the
        row goes, and its lines with it (Cascade). */
    method RemoveOrder(id: int)
      requires Valid() && id in orders
      modifies this`orders
      ensures Valid()
      ensures orders == old(orders) - {id}
      ensures ItemRows(orders) == ItemRows(old(orders)) - set i | 0 <= i < |old(orders)[id].items| :: old(orders)[id].items[i]
      ensures forall item :: item in ItemRows(orders) ==> item.orderId != id
    {
      RemoveKeeps(customers, orders, id, nextOrderId, nextItemId);
      CascadeDelete(orders, id, nextOrderId, nextItemId);
      orders := orders - {id};
    }

    /** `Customers.Remove(customer)` then `SaveChanges()`: an unknown
        customer is not there to remove, and a customer that orders still
        refer to cannot be removed (Restrict); otherwise only the customer
        goes. */
    method RemoveCustomer(id: int) returns (r: Result<(), StoreError>)
      requires Valid()
      modifies this`customers
      ensures Valid()
      ensures r == Failure(Missing) <==> id !in old(customers)
      ensures r == Failure(Restricted) <==> id in old(customers) && OrdersOf(orders, id) != {}
      ensures r.Failure? ==> customers == old(customers)
      ensures r.Success? ==> customers == old(customers) - {id}
    {
      if id !in customers {
        return Failure(Missing);
      }
      if OrdersOf(orders, id) != {} {
        return Failure(Restricted);
      }
      customers := customers - {id};
      r := Success(());
    }
  }
}
