/** Request and response records that both variants declare with the same
    fields, and the two derivations built on them: the order line a request
    line becomes, and the response line an order line is shown as. */
module Dtos {
  import opened Wrappers
  import opened Entities

  datatype CreateOrderItemRequest = CreateOrderItemRequest(
    productName: string,
    productSku: string,
    quantity: int,
    unitPrice: int)

  /** The request body of order creation. A missing `Items` list is read as
      an empty one. */
  datatype CreateOrderRequest = CreateOrderRequest(customerId: int, items: seq<CreateOrderItemRequest>)

  datatype OrderItemResponse = OrderItemResponse(
    id: int,
    productName: string,
    productSku: string,
    quantity: int,
    unitPrice: int,
    totalPrice: int)

  datatype OrderResponse = OrderResponse(
    id: int,
    orderNumber: string,
    customerId: int,
    customerName: string,
    status: OrderStatus,
    totalAmount: int,
    createdAt: int,
    items: seq<OrderItemResponse>)

  /** The sum a client expects for a request: quantity times unit price,
      summed over the request lines. */
  function RequestTotal(lines: seq<CreateOrderItemRequest>): int
  {
    if lines == [] then 0 else RequestTotal(lines[..|lines| - 1]) + lines[|lines| - 1].quantity * lines[|lines| - 1].unitPrice
  }

  /** The order line built from a request line: name, SKU, quantity and
      price copied; the keys stay 0 until the store assigns them. */
  function NewItem(line: CreateOrderItemRequest): (item: OrderItem)
    ensures item.TotalPrice() == line.quantity * line.unitPrice
  {
    OrderItem(0, 0, line.productName, line.productSku, line.quantity, line.unitPrice)
  }

  /** The order lines built from request lines, one per line, in request
      order; they add up to the request's total. */
  function NewItems(lines: seq<CreateOrderItemRequest>): (items: seq<OrderItem>)
    ensures |items| == |lines|
    ensures forall i :: 0 <= i < |items| ==> items[i] == NewItem(lines[i])
    ensures CopiesAll(items, lines)
    ensures SumLineTotals(items) == RequestTotal(lines)
  {
    var items := seq(|lines|, i requires 0 <= i < |lines| => NewItem(lines[i]));
    CopiedLinesTotal(items, lines);
    items
  }

  /** `item` carries the request line's name, SKU, quantity and price. */
  predicate Copies(item: OrderItem, line: CreateOrderItemRequest)
  {
    item.productName == line.productName && item.productSku == line.productSku
    && item.quantity == line.quantity && item.unitPrice == line.unitPrice
  }

  predicate CopiesAll(items: seq<OrderItem>, lines: seq<CreateOrderItemRequest>)
  {
    |items| == |lines| && forall i :: 0 <= i < |items| ==> Copies(items[i], lines[i])
  }

  /** Lines copied from a request, in request order, add up to the
      request's total. */
  lemma {:induction false} CopiedLinesTotal(items: seq<OrderItem>, lines: seq<CreateOrderItemRequest>)
    requires CopiesAll(items, lines)
    ensures SumLineTotals(items) == RequestTotal(lines)
  {
    if lines != [] {
      CopiedLinesTotal(items[..|items| - 1], lines[..|lines| - 1]);
    }
  }

  /** The lines built from request lines still add up to the request's
      total once the store has given them their keys. */
  lemma KeyedLinesTotal(lines: seq<CreateOrderItemRequest>, orderId: int, firstId: int)
    ensures SumLineTotals(WithKeys(NewItems(lines), orderId, firstId)) == RequestTotal(lines)
  {
    SameLinesSameTotal(NewItems(lines), WithKeys(NewItems(lines), orderId, firstId));
  }

  /** Giving the lines their keys keeps what they copied from the request. */
  lemma KeyedLinesCopy(lines: seq<CreateOrderItemRequest>, orderId: int, firstId: int)
    ensures CopiesAll(WithKeys(NewItems(lines), orderId, firstId), lines)
  {
    var keyed := WithKeys(NewItems(lines), orderId, firstId);
    forall i | 0 <= i < |keyed|
      ensures Copies(keyed[i], lines[i])
    {
      assert keyed[i] == NewItem(lines[i]).(id := firstId + i, orderId := orderId);
    }
  }

  /** The response line of an order line. */
  function ItemResponse(item: OrderItem): (r: OrderItemResponse)
    ensures r.totalPrice == r.quantity * r.unitPrice
    ensures r.id == item.id && r.productName == item.productName && r.productSku == item.productSku
    ensures r.quantity == item.quantity && r.unitPrice == item.unitPrice
  {
    OrderItemResponse(item.id, item.productName, item.productSku, item.quantity, item.unitPrice, item.TotalPrice())
  }

  /** `Items.Select(ItemResponse).ToList()`. */
  function ItemResponses(items: seq<OrderItem>): (r: seq<OrderItemResponse>)
    ensures |r| == |items|
    ensures forall i :: 0 <= i < |r| ==> r[i] == ItemResponse(items[i])
  {
    seq(|items|, i requires 0 <= i < |items| => ItemResponse(items[i]))
  }

  /** The response of a stored order: its fields unchanged, the given
      customer name, and one response line per order line in the same
      order. */
  function RecordResponse(order: OrderRecord, customerName: string): (r: OrderResponse)
    ensures r.id == order.id && r.orderNumber == order.orderNumber && r.customerId == order.customerId
    ensures r.status == order.status && r.totalAmount == order.totalAmount && r.createdAt == order.createdAt
    ensures r.customerName == customerName
    ensures |r.items| == |order.items|
    ensures forall i :: 0 <= i < |r.items| ==> r.items[i] == ItemResponse(order.items[i])
  {
    OrderResponse(order.id, order.orderNumber, order.customerId, customerName, order.status,
                  order.totalAmount, order.createdAt, ItemResponses(order.items))
  }

  function ResponseLinesTotal(lines: seq<OrderItemResponse>): int
  {
    if lines == [] then 0 else ResponseLinesTotal(lines[..|lines| - 1]) + lines[|lines| - 1].totalPrice
  }

  /** The response lines of an order add up to the order lines' total, so a
      response whose total was calculated from its lines is self-consistent. */
  lemma {:induction false} ResponseLinesTotalMatches(items: seq<OrderItem>)
    ensures ResponseLinesTotal(ItemResponses(items)) == SumLineTotals(items)
  {
    if items != [] {
      var init := items[..|items| - 1];
      assert ItemResponses(items)[..|items| - 1] == ItemResponses(init);
      ResponseLinesTotalMatches(init);
    }
  }

  /** The response of an order whose total is the sum of its lines is
      self-consistent: its total is the sum of its response lines. */
  lemma ResponseTotalIsLineSum(order: OrderRecord, customerName: string)
    requires TotalIsLineSum(order)
    ensures RecordResponse(order, customerName).totalAmount == ResponseLinesTotal(RecordResponse(order, customerName).items)
  {
    ResponseLinesTotalMatches(order.items);
  }

  /** What a successful creation answers: the given number, the request's
      customer and that customer's name, status Pending, the creation time,
      the request's total, and one line per request line, in request order,
      with its name, SKU, quantity and price and their product. */
  ghost predicate Answers(r: OrderResponse, request: CreateOrderRequest, customerName: string, number: string, now: int)
  {
    && r.orderNumber == number
    && r.customerId == request.customerId && r.customerName == customerName
    && r.status == Pending && r.createdAt == now
    && r.totalAmount == RequestTotal(request.items)
    && |r.items| == |request.items|
    && forall i :: 0 <= i < |r.items| ==>
         var line, req := r.items[i], request.items[i];
         line.productName == req.productName && line.productSku == req.productSku
         && line.quantity == req.quantity && line.unitPrice == req.unitPrice
         && line.totalPrice == req.quantity * req.unitPrice
  }

  /** The response of a row saved from a request answers that request. */
  lemma RowAnswers(row: OrderRecord, request: CreateOrderRequest, customerName: string, number: string, now: int)
    requires row.orderNumber == number && row.customerId == request.customerId
    requires row.status == Pending && row.createdAt == now && row.totalAmount == RequestTotal(request.items)
    requires CopiesAll(row.items, request.items)
    ensures Answers(RecordResponse(row, customerName), request, customerName, number, now)
  {
    var r := RecordResponse(row, customerName);
    forall i | 0 <= i < |r.items|
      ensures r.items[i].productName == request.items[i].productName
      ensures r.items[i].productSku == request.items[i].productSku
      ensures r.items[i].quantity == request.items[i].quantity
      ensures r.items[i].unitPrice == request.items[i].unitPrice
    {
      assert r.items[i] == ItemResponse(row.items[i]);
      assert Copies(row.items[i], request.items[i]);
    }
  }

  /** The order a creation request describes before it is saved: number
      `number`, the request's customer, status Pending, created at `now`,
      never updated, one line per request line in request order (keys still
      0), and the request's total. */
  function RequestOrder(request: CreateOrderRequest, number: string, now: int): OrderRecord
  {
    OrderRecord(0, number, request.customerId, Pending, RequestTotal(request.items), now, None, NewItems(request.items))
  }

  /** That order as the store saves it: key `id`, and its lines keyed from
      `firstId` and pointing at `id`. */
  function SavedRequest(request: CreateOrderRequest, number: string, now: int, id: int, firstId: int): OrderRecord
  {
    OrderRecord(id, number, request.customerId, Pending, RequestTotal(request.items), now, None,
                WithKeys(NewItems(request.items), id, firstId))
  }

  /** Saving the order a request describes, under key `id` with line keys
      from `firstId`, gives the saved row of the request. */
  lemma SavedRequestIsSaved(request: CreateOrderRequest, number: string, now: int, id: int, firstId: int)
    ensures var order := RequestOrder(request, number, now);
            order.(id := id, items := WithKeys(order.items, id, firstId)) == SavedRequest(request, number, now, id, firstId)
  {
  }

  /** The saved row of a request keeps the rule on totals, since its total
      was calculated from its lines before the keys were assigned, which
      keeps quantities and prices; and its response answers the request. */
  lemma SavedRequestAnswers(request: CreateOrderRequest, number: string, now: int, id: int, firstId: int,
                            customerName: string)
    ensures TotalIsLineSum(SavedRequest(request, number, now, id, firstId))
    ensures Answers(RecordResponse(SavedRequest(request, number, now, id, firstId), customerName),
                    request, customerName, number, now)
  {
    var row := SavedRequest(request, number, now, id, firstId);
    KeyedLinesTotal(request.items, id, firstId);
    KeyedLinesCopy(request.items, id, firstId);
    RowAnswers(row, request, customerName, number, now);
  }
}
