/** The flat variant's seed data: ten customers and a hundred orders with
    one to four lines each. The values the seed draws from its random
    generator (line count, price, quantity, product and SKU numbers) and the
    current time are inputs. */
module Seed {
  import opened Wrappers
  import opened Entities
  import opened Format
  import opened OrderNumbers
  import opened Data

  /** `now.AddDays(days)`, in .NET ticks (864,000,000,000 to a day). */
  function AddDays(now: int, days: int): (t: int)
    ensures days < 0 ==> t < now
  {
    now + days * 864_000_000_000
  }

  /** The values drawn for one line: the price in cents (a two-decimal
      rounding of 10 + 100 * `NextDouble()`), `Next(1, 5)` for the quantity,
      `Next(1, 50)` for the product and `Next(1000, 9999)` for the SKU. */
  datatype ItemDraw = ItemDraw(unitPrice: int, quantity: int, product: nat, sku: nat)

  predicate ValidDraw(d: ItemDraw)
  {
    1000 <= d.unitPrice <= 11000 && 1 <= d.quantity <= 4 && 1 <= d.product <= 49 && 1000 <= d.sku <= 9998
  }

  /** A hundred orders, each with `Next(1, 5)` lines of valid draws. */
  predicate Drawn(draws: seq<seq<ItemDraw>>)
  {
    && |draws| == 100
    && (forall i :: 0 <= i < 100 ==> 1 <= |draws[i]| <= 4)
    && (forall i, j :: 0 <= i < 100 && 0 <= j < |draws[i]| ==> ValidDraw(draws[i][j]))
  }

  /** Customer `i`: "Customer i", "customer<i>@example.com", created
      100 - i days before `now`. */
  function SeedCustomer(i: nat, now: int): Customer
  {
    Customer(i, "Customer " + Digits(i), "customer" + Digits(i) + "@example.com", AddDays(now, -100 + i))
  }

  function SeedCustomers(now: int): (r: seq<Customer>)
    ensures |r| == 10 && forall c :: 0 <= c < 10 ==> r[c] == SeedCustomer(c + 1, now)
  {
    seq(10, c requires 0 <= c < 10 => SeedCustomer(c + 1, now))
  }

  /** The customers table the seed fills: customer `c` under key `c`. */
  function CustomerTable(now: int): (m: map<int, Customer>)
    ensures forall c :: c in m <==> 1 <= c <= 10
    ensures forall c :: c in m ==> m[c] == SeedCustomer(c, now) && m[c].id == c
  {
    map c | 1 <= c <= 10 :: SeedCustomer(c, now)
  }

  /** The number of lines of the orders before the `k`-th. */
  function ItemsBefore(draws: seq<seq<ItemDraw>>, k: nat): nat
    requires k <= |draws|
  {
    if k == 0 then 0 else ItemsBefore(draws, k - 1) + |draws[k - 1]|
  }

  lemma {:induction false} ItemsBeforeGrows(draws: seq<seq<ItemDraw>>, j: nat, k: nat)
    requires j <= k <= |draws|
    ensures ItemsBefore(draws, j) <= ItemsBefore(draws, k)
    decreases k
  {
    if j < k {
      ItemsBeforeGrows(draws, j, k - 1);
    }
  }

  /** The line drawn as `d`, with line key `id`, in order `orderId`. */
  function SeedItem(d: ItemDraw, id: int, orderId: int): OrderItem
  {
    OrderItem(id, orderId, "Product " + Digits(d.product), "SKU-" + Digits(d.sku), d.quantity, d.unitPrice)
  }

  /** The lines of order `orderId`, keyed consecutively from `firstId`. */
  function SeedLines(ds: seq<ItemDraw>, orderId: int, firstId: int): (r: seq<OrderItem>)
    ensures |r| == |ds|
    ensures forall j :: 0 <= j < |r| ==> r[j] == SeedItem(ds[j], firstId + j, orderId)
  {
    seq(|ds|, j requires 0 <= j < |ds| => SeedItem(ds[j], firstId + j, orderId))
  }

  /** Order `i` with lines `lines`: number "ORD-2024-" and `i` in format
      "D5", customer `i % 10 + 1`, status `i % 6`, created 100 - i days
      before `now`, and the sum of its lines as its total. */
  function SeedOrder(i: nat, now: int, lines: seq<OrderItem>): OrderRecord
  {
    OrderRecord(i, SequentialNumber(2024, i), i % 10 + 1, AllStatuses[i % 6], SumLineTotals(lines),
                AddDays(now, -100 + i), None, lines)
  }

  /** The order the seed stores under key `id`: the `id`-th order, whose
      lines are keyed from the number of lines before it plus one. */
  function SeedRow(now: int, draws: seq<seq<ItemDraw>>, id: int): OrderRecord
    requires 1 <= id <= |draws|
  {
    SeedOrder(id, now, SeedRowLines(draws, id))
  }

  /** The lines of the `id`-th order, keyed from the number of lines before
      it plus one. */
  function SeedRowLines(draws: seq<seq<ItemDraw>>, id: int): seq<OrderItem>
    requires 1 <= id <= |draws|
  {
    SeedLines(draws[id - 1], id, ItemsBefore(draws, id - 1) + 1)
  }

  /** The OrderItems list after the first `n` orders: their lines, order by
      order. */
  function SeedItems(draws: seq<seq<ItemDraw>>, n: nat): (r: seq<OrderItem>)
    requires n <= |draws|
    ensures |r| == ItemsBefore(draws, n)
  {
    if n == 0 then [] else SeedItems(draws, n - 1) + SeedRowLines(draws, n)
  }

  /** The first `n` seeded orders, in the order the seed adds them. */
  function SeedOrders(now: int, draws: seq<seq<ItemDraw>>, n: nat): (r: seq<OrderRecord>)
    requires n <= |draws|
    ensures |r| == n
  {
    if n == 0 then [] else SeedOrders(now, draws, n - 1) + [SeedRow(now, draws, n)]
  }

  /** The `k`-th of the seeded orders is the order stored under key `k + 1`. */
  lemma {:induction false} SeedOrdersAt(now: int, draws: seq<seq<ItemDraw>>, n: nat, k: nat)
    requires n <= |draws| && k < n
    ensures SeedOrders(now, draws, n)[k] == SeedRow(now, draws, k + 1)
  {
    var prev := SeedOrders(now, draws, n - 1);
    if k < n - 1 {
      SeedOrdersAt(now, draws, n - 1, k);
      assert (prev + [SeedRow(now, draws, n)])[k] == prev[k];
    }
  }

  /** The lines of `orders`, order by order: the OrderItems list. */
  function AllLines(orders: seq<OrderRecord>): seq<OrderItem>
  {
    if orders == [] then [] else AllLines(orders[..|orders| - 1]) + orders[|orders| - 1].items
  }

  /** Builds the lines of order `i` from its draws, appending each to the
      OrderItems list and adding its price times quantity to the total. */
  method AddLines(orderItems: seq<OrderItem>, i: nat, ds: seq<ItemDraw>, firstId: int)
    returns (items: seq<OrderItem>, lines: seq<OrderItem>, total: int, nextId: int)
    ensures lines == SeedLines(ds, i, firstId)
    ensures items == orderItems + lines
    ensures total == SumLineTotals(lines)
    ensures nextId == firstId + |ds|
  {
    items, lines, total, nextId := orderItems, [], 0, firstId;
    var j := 1;
    while j <= |ds|
      invariant 1 <= j <= |ds| + 1
      invariant nextId == firstId + j - 1
      invariant |lines| == j - 1
      invariant forall m :: 0 <= m < j - 1 ==> lines[m] == SeedItem(ds[m], firstId + m, i)
      invariant items == orderItems + lines
      invariant total == SumLineTotals(lines)
    {
      var d := ds[j - 1];
      var item := OrderItem(nextId, i, "Product " + Digits(d.product), "SKU-" + Digits(d.sku), d.quantity, d.unitPrice);
      assert item == SeedItem(ds[j - 1], firstId + (j - 1), i);
      items := items + [item];
      assert (lines + [item])[..|lines|] == lines;
      lines := lines + [item];
      nextId := nextId + 1;
      total := total + d.unitPrice * d.quantity;
      j := j + 1;
    }
  }

  /** The customers loop: customer `i` for `i` from 1 to 10. */
  method AddCustomers(now: int) returns (customers: seq<Customer>)
    ensures customers == SeedCustomers(now)
  {
    customers := [];
    var i := 1;
    while i <= 10
      invariant 1 <= i <= 11
      invariant |customers| == i - 1
      invariant forall c :: 0 <= c < i - 1 ==> customers[c] == SeedCustomer(c + 1, now)
    {
      customers := customers + [Customer(i, "Customer " + Digits(i), "customer" + Digits(i) + "@example.com",
                                         AddDays(now, -100 + i))];
      i := i + 1;
    }
  }

  /** One pass of the orders loop: order `i` with its lines, whose keys
      start at `orderItemId`, and the OrderItems list with those lines
      appended. */
  method AddOrder(now: int, draws: seq<seq<ItemDraw>>, i: nat, orderItems: seq<OrderItem>, orderItemId: int)
    returns (order: OrderRecord, items: seq<OrderItem>, nextId: int)
    requires 1 <= i <= |draws| && orderItemId == ItemsBefore(draws, i - 1) + 1
    ensures order == SeedRow(now, draws, i)
    ensures order.items == SeedRowLines(draws, i)
    ensures items == orderItems + order.items
    ensures nextId == ItemsBefore(draws, i) + 1
  {
    var customerId := i % 10 + 1;
    order := OrderRecord(i, SequentialNumber(2024, i), customerId, AllStatuses[i % 6], 0,
                         AddDays(now, -100 + i), None, []);
    var lines: seq<OrderItem>, total: int;
    items, lines, total, nextId := AddLines(orderItems, i, draws[i - 1], orderItemId);
    order := order.(totalAmount := total, items := lines);
    assert lines == SeedLines(draws[i - 1], i, ItemsBefore(draws, i - 1) + 1);
    assert order == SeedOrder(i, now, lines);
  }

  /** `SeedData`: the ten customers, the hundred orders and the OrderItems
      list, as the loops build them. */
  method SeedData(now: int, draws: seq<seq<ItemDraw>>)
    returns (customers: seq<Customer>, orders: seq<OrderRecord>, orderItems: seq<OrderItem>)
    requires |draws| == 100
    ensures customers == SeedCustomers(now)
    ensures orders == SeedOrders(now, draws, 100)
    ensures orderItems == AllLines(orders) == SeedItems(draws, 100)
  {
    customers := AddCustomers(now);
    orders, orderItems := [], [];
    var orderItemId := 1;
    var i := 1;
    while i <= 100
      invariant 1 <= i <= 101
      invariant |orders| == i - 1
      invariant orders == SeedOrders(now, draws, i - 1)
      invariant orderItemId == ItemsBefore(draws, i - 1) + 1
      invariant orderItems == AllLines(orders) == SeedItems(draws, i - 1)
    {
      var order;
      order, orderItems, orderItemId := AddOrder(now, draws, i, orderItems, orderItemId);
      assert (orders + [order])[..|orders|] == orders;
      orders := orders + [order];
      i := i + 1;
    }
  }

  /** The Orders table the seed fills: the `k`-th order under key `k + 1`. */
  function SeedTable(now: int, draws: seq<seq<ItemDraw>>): (m: map<int, OrderRecord>)
    requires |draws| == 100
    ensures forall k :: k in m <==> 1 <= k <= 100
    ensures forall k :: k in m ==> m[k] == SeedRow(now, draws, k)
  {
    map k | 1 <= k <= 100 :: SeedRow(now, draws, k)
  }

  /** Every seeded order refers to a seeded customer. */
  lemma SeedForeignKeys(now: int, draws: seq<seq<ItemDraw>>)
    requires Drawn(draws)
    ensures ForeignKeys(CustomerTable(now), SeedTable(now, draws))
  {
  }

  /** The seeded order numbers are pairwise distinct. */
  lemma SeedNumbersUnique(now: int, draws: seq<seq<ItemDraw>>)
    requires Drawn(draws)
    ensures UniqueNumbers(SeedTable(now, draws))
  {
    var m := SeedTable(now, draws);
    forall a, b | a in m && b in m && a != b
      ensures m[a].orderNumber != m[b].orderNumber
    {
      SequentialNumberInjective(2024, a, 2024, b);
    }
  }

  /** The `id`-th seeded order sits under key `id`, its lines point at it
      and have line keys between 1 and the number of drawn lines, and its
      total is the sum of its lines. */
  lemma SeedRowKeys(now: int, draws: seq<seq<ItemDraw>>, id: int)
    requires 1 <= id <= |draws|
    ensures RowKeys(id, SeedRow(now, draws, id), ItemsBefore(draws, |draws|) + 1)
    ensures TotalIsLineSum(SeedRow(now, draws, id))
  {
    ItemsBeforeGrows(draws, id, |draws|);
  }

  /** The seeded Orders table keeps the key and total rules. */
  lemma SeedKeysAndTotals(now: int, draws: seq<seq<ItemDraw>>)
    requires |draws| == 100
    ensures KeysMatch(SeedTable(now, draws), 101, ItemsBefore(draws, 100) + 1)
    ensures TotalsAreLineSums(SeedTable(now, draws))
  {
    var m := SeedTable(now, draws);
    forall k | k in m
      ensures k < 101 && RowKeys(k, m[k], ItemsBefore(draws, 100) + 1) && TotalIsLineSum(m[k])
    {
      SeedRowKeys(now, draws, k);
    }
  }

  /** The OrderItems list holds the line keys 1, 2, 3, ... in order, one
      per drawn line, and each line points at an order among the first `n`. */
  lemma {:induction false} SeedItemKeys(draws: seq<seq<ItemDraw>>, n: nat)
    requires n <= |draws|
    ensures forall m :: 0 <= m < |SeedItems(draws, n)| ==>
              SeedItems(draws, n)[m].id == m + 1 && 1 <= SeedItems(draws, n)[m].orderId <= n
  {
    if n > 0 {
      SeedItemKeys(draws, n - 1);
      var before := SeedItems(draws, n - 1);
      var lines := SeedRowLines(draws, n);
      assert SeedItems(draws, n) == before + lines;
      forall m | 0 <= m < |SeedItems(draws, n)|
        ensures SeedItems(draws, n)[m].id == m + 1 && 1 <= SeedItems(draws, n)[m].orderId <= n
      {
        if m >= |before| {
          assert SeedItems(draws, n)[m] == lines[m - |before|];
        } else {
          assert SeedItems(draws, n)[m] == before[m];
        }
      }
    }
  }

  /** Lines drawn from at least one valid draw cost at least 10.00 in
      all: every line has a quantity of at least 1 and a price of at least
      10.00. */
  lemma SeedLinesTotal(ds: seq<ItemDraw>, orderId: int, firstId: int)
    requires |ds| >= 1 && forall j :: 0 <= j < |ds| ==> ValidDraw(ds[j])
    ensures SumLineTotals(SeedLines(ds, orderId, firstId)) >= 1000
  {
    var lines := SeedLines(ds, orderId, firstId);
    var init := lines[..|lines| - 1];
    forall j | 0 <= j < |init|
      ensures init[j].quantity >= 0 && init[j].unitPrice >= 0
    {
      assert init[j] == lines[j] && ValidDraw(ds[j]);
    }
    SumLineTotalsNonNegative(init);
    assert ValidDraw(ds[|ds| - 1]);
  }

  /** Each seeded order costs at least 10.00. */
  lemma SeedTotalsPositive(now: int, draws: seq<seq<ItemDraw>>, id: int)
    requires Drawn(draws) && 1 <= id <= 100
    ensures SeedRow(now, draws, id).totalAmount >= 1000
  {
    SeedLinesTotal(draws[id - 1], id, ItemsBefore(draws, id - 1) + 1);
    assert SeedRow(now, draws, id).items == SeedRowLines(draws, id);
  }
}
