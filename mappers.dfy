/** The layered variant's projection of an `Order` entity to its response
    records. */
module Mappers {
  import opened Entities
  import opened Dtos
  import Domain

  /** The summary record of the layered variant (it has no customer name). */
  datatype OrderSummaryResponse = OrderSummaryResponse(
    id: int,
    orderNumber: string,
    status: OrderStatus,
    totalAmount: int,
    itemsCount: nat,
    createdAt: int)

  /** The order's fields unchanged, the given customer name, and one
      response line per order line in the same order. */
  function ToResponse(order: Domain.Order, customerName: string): (r: OrderResponse)
    reads order
    ensures r.id == order.id && r.orderNumber == order.orderNumber && r.customerId == order.customerId
    ensures r.status == order.status && r.totalAmount == order.totalAmount && r.createdAt == order.createdAt
    ensures r.customerName == customerName
    ensures |r.items| == |order.items|
    ensures forall i :: 0 <= i < |r.items| ==> r.items[i] == ItemResponse(order.items[i])
  {
    RecordResponse(order.Record(), customerName)
  }

  /** The order's fields unchanged and its number of lines. */
  function ToSummaryResponse(order: Domain.Order): (r: OrderSummaryResponse)
    reads order
    ensures r.id == order.id && r.orderNumber == order.orderNumber && r.status == order.status
    ensures r.totalAmount == order.totalAmount && r.createdAt == order.createdAt
    ensures r.itemsCount == |order.items|
  {
    OrderSummaryResponse(order.id, order.orderNumber, order.status, order.totalAmount, |order.items|, order.createdAt)
  }
}
