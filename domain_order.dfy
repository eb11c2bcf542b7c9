/** The layered variant's `Order` entity, whose properties are set in place
    and whose total is recalculated by the entity itself. */
module Domain {
  import opened Wrappers
  import opened Entities

  class Order {
    var id: int
    var orderNumber: string
    var customerId: int
    var status: OrderStatus
    /** Only `CalculateTotal` sets it (a private setter in the entity). */
    var totalAmount: int
    var createdAt: int
    var updatedAt: Option<int>
    var items: seq<OrderItem>

    /** `new Order { OrderNumber = .., CustomerId = .. }`: every other
        property keeps its initialiser (status Pending, total 0, created at
        the current time `now`, never updated, no lines); the key is 0 until
        the store assigns one. */
    constructor (orderNumber: string, customerId: int, now: int)
      ensures this.orderNumber == orderNumber && this.customerId == customerId
      ensures id == 0 && status == Pending && totalAmount == 0
      ensures createdAt == now && updatedAt == None && items == []
    {
      id := 0;
      this.orderNumber := orderNumber;
      this.customerId := customerId;
      status := Pending;
      totalAmount := 0;
      createdAt := now;
      updatedAt := None;
      items := [];
    }

    /** An entity loaded from its stored row. */
    constructor FromRecord(row: OrderRecord)
      ensures Record() == row
    {
      id := row.id;
      orderNumber := row.orderNumber;
      customerId := row.customerId;
      status := row.status;
      totalAmount := row.totalAmount;
      createdAt := row.createdAt;
      updatedAt := row.updatedAt;
      items := row.items;
    }

    /** The state the store persists for this entity. */
    function Record(): OrderRecord
      reads this
    {
      OrderRecord(id, orderNumber, customerId, status, totalAmount, createdAt, updatedAt, items)
    }

    /** Sets the total to the sum of the line totals. Nothing else changes
        (the frame is the total alone), so the new total depends on the
        lines only and a second call leaves it as it is. */
    method CalculateTotal()
      modifies this`totalAmount
      ensures totalAmount == SumLineTotals(items)
    {
      totalAmount := SumLineTotals(items);
    }
  }
}
