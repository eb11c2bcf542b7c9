/** The values shared by both variants of the order API: order statuses,
    customers, order lines and the line/order total arithmetic.

    Money is integer cents: prices are `decimal(18,2)` in the store, and
    `Quantity * UnitPrice` of an integer and a two-decimal amount is exact,
    so cents lose nothing. Timestamps are integer .NET ticks. */
module Entities {
  import opened Wrappers

  /** `OrderStatus` with its numeric values Pending = 0 .. Cancelled = 5. */
  datatype OrderStatus = Pending | Confirmed | Processing | Shipped | Delivered | Cancelled
  {
    function Ordinal(): (n: nat)
      ensures n < 6
    {
      match this
      case Pending => 0
      case Confirmed => 1
      case Processing => 2
      case Shipped => 3
      case Delivered => 4
      case Cancelled => 5
    }
  }

  const AllStatuses: seq<OrderStatus> := [Pending, Confirmed, Processing, Shipped, Delivered, Cancelled]

  /** Every status is one of the six declared members, exactly once. */
  lemma AllStatusesComplete(s: OrderStatus)
    ensures AllStatuses[s.Ordinal()] == s
    ensures forall i :: 0 <= i < |AllStatuses| && AllStatuses[i] == s ==> i == s.Ordinal()
  {
  }

  datatype Customer = Customer(id: int, name: string, email: string, createdAt: int)

  /** An order line. It is built once from a request line (or by the seed)
      and never updated afterwards, so it is a value; `id` and `orderId` are
      the keys the store assigns when the order is saved. */
  datatype OrderItem = OrderItem(
    id: int,
    orderId: int,
    productName: string,
    productSku: string,
    quantity: int,
    unitPrice: int)
  {
    /** The derived line total, recomputed from the current quantity and
        unit price on every read and never stored. */
    function TotalPrice(): (r: int)
      ensures quantity == 0 ==> r == 0
      ensures quantity >= 0 && unitPrice >= 0 ==> r >= 0
      ensures quantity >= 1 && unitPrice >= 0 ==> r >= unitPrice
    {
      quantity * unitPrice
    }
  }

  /** A stored order with its lines: the columns of an Orders row and the
      OrderItems rows that point at it. */
  datatype OrderRecord = OrderRecord(
    id: int,
    orderNumber: string,
    customerId: int,
    status: OrderStatus,
    totalAmount: int,
    createdAt: int,
    updatedAt: Option<int>,
    items: seq<OrderItem>)

  /** Sum of the line totals, accumulated first line to last. */
  function SumLineTotals(items: seq<OrderItem>): int
  {
    if items == [] then 0 else SumLineTotals(items[..|items| - 1]) + items[|items| - 1].TotalPrice()
  }

  /** Lines with non-negative quantities and prices give a non-negative
      order total. */
  lemma {:induction false} SumLineTotalsNonNegative(items: seq<OrderItem>)
    requires forall i :: 0 <= i < |items| ==> items[i].quantity >= 0 && items[i].unitPrice >= 0
    ensures SumLineTotals(items) >= 0
  {
    if items != [] {
      SumLineTotalsNonNegative(items[..|items| - 1]);
    }
  }

  /** Two lists of lines with the same quantities and prices, position by
      position, have the same total, whatever their names, SKUs and keys. */
  predicate SameLines(a: seq<OrderItem>, b: seq<OrderItem>)
  {
    |a| == |b| && forall i :: 0 <= i < |a| ==> a[i].quantity == b[i].quantity && a[i].unitPrice == b[i].unitPrice
  }

  lemma {:induction false} SameLinesSameTotal(a: seq<OrderItem>, b: seq<OrderItem>)
    requires SameLines(a, b)
    ensures SumLineTotals(a) == SumLineTotals(b)
  {
    if a != [] {
      SameLinesSameTotal(a[..|a| - 1], b[..|b| - 1]);
    }
  }

  /** The keys the store gives an order's lines when the order is saved:
      consecutive line ids from `firstId`, and the order's own id as their
      `orderId`; names, SKUs, quantities and prices are kept. */
  function WithKeys(items: seq<OrderItem>, orderId: int, firstId: int): (r: seq<OrderItem>)
    ensures |r| == |items|
    ensures forall i :: 0 <= i < |r| ==> r[i] == items[i].(id := firstId + i, orderId := orderId)
    ensures SameLines(items, r)
  {
    seq(|items|, i requires 0 <= i < |items| => items[i].(id := firstId + i, orderId := orderId))
  }

  /** The rule both variants keep for a stored order: its total is the sum
      of its lines. */
  ghost predicate TotalIsLineSum(row: OrderRecord)
  {
    row.totalAmount == SumLineTotals(row.items)
  }

  ghost predicate TotalsAreLineSums(rows: map<int, OrderRecord>)
  {
    forall k :: k in rows ==> TotalIsLineSum(rows[k])
  }

  /** Storing a row that keeps the rule keeps it for the whole table. */
  lemma InsertKeepsTotals(rows: map<int, OrderRecord>, k: int, row: OrderRecord)
    requires TotalsAreLineSums(rows) && TotalIsLineSum(row)
    ensures TotalsAreLineSums(rows[k := row])
  {
  }

  /** Every row sits under its own key, and its lines point back at it
      with line keys below `nextItemId`. */
  ghost predicate KeysMatch(orders: map<int, OrderRecord>, nextOrderId: int, nextItemId: int)
  {
    forall k :: k in orders ==> k < nextOrderId && RowKeys(k, orders[k], nextItemId)
  }

  ghost predicate RowKeys(k: int, row: OrderRecord, nextItemId: int)
  {
    row.id == k
    && forall i :: 0 <= i < |row.items| ==> row.items[i].orderId == k && 1 <= row.items[i].id < nextItemId
  }

}
