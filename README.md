# Order API — a Dafny model

This project models the order-handling core of an ASP.NET order API that
exists in two variants.

- **Flat variant.** One controller works directly on a database context with
  Customers, Orders and OrderItems tables. It offers:
  - a paginated listing, newest first;
  - lookup by id;
  - creation with a GUID-based order number, guarded by a unique index;
  - a status update;
  - deletion, which cascades to the order's lines;
  - a report: order count, revenue, counts per status, and the five biggest
    spenders.

  The context's model configuration adds the delete rules: Restrict from an
  order to its customer, Cascade from a line to its order. Its seed fills 10
  customers and 100 orders.
- **Layered variant.** An application service creates orders, numbering them
  sequentially (the largest stored id plus one, in format "D5"). It looks
  orders up through two repositories, and a domain `Order` entity
  recalculates its own total. A static mapper projects entities to response
  records.

How the model is built:

- Money is integer cents. The `UnitPrice` and `TotalAmount` columns are
  `decimal(18,2)`, but a request's `UnitPrice` is an unrestricted `decimal`;
  the model takes request prices as whole cents (see "Left out"). With
  whole cents `Quantity * UnitPrice` is exact. Timestamps are integer .NET
  ticks.
- One piece of C# `int` arithmetic that can wrap is written out: the
  listing's skip count `(page - 1) * pageSize` is reduced into the `int`
  range (`Queries.SkipCount`). Identity values and `(last?.Id ?? 0) + 1`
  are unbounded integers (see "Left out").
- The database is an in-memory store:
  - Flat variant: class `Data.OrderContext`, with customer and order maps
    and the identity counters that `SaveChanges` draws keys from. An order
    row holds its line rows.
  - Layered variant: class `Services.OrderRepository`.
- Objects the source updates in place are classes: the context, the
  repositories, the service, the controller and the domain `Order`. Rows,
  lines, requests and responses are datatypes.
- Operations that loop or change state are methods proved against
  specification functions:
  - `BuildOrder`, `NewOrder` and the seed loops build their results line by
    line;
  - `CreateOrder`, `UpdateOrderStatus`, `DeleteOrder`, `CreateAsync` and
    `Add` change the store.
- LINQ queries are functions with lemmas about them: the listing, the
  report, and the lookups.
- The current time, the year, the GUID and the seed's random draws are
  parameters.

Modules, one per file: `Wrappers` (Option, Result), `Format` (.NET "D<n>"
digit formatting), `Entities`, `OrderNumbers`, `Queries` (OrderByDescending,
Skip, Take, pages, largest key), `Dtos`, `Domain`, `Mappers`, `Services`,
`Data`, `Reports`, `Controllers`, `Seed`.

## Model

| member | source | states |
|---|---|---|
| Entities.AllStatusesComplete | src/OrderApi/Models/Order.cs:35-43 | every status sits in the status list exactly once, at its own numeric value |
| Entities.OrderItem.TotalPrice | src/OrderApi_CleanArquitecture/OrderApi.Domain/Entities/OrderItem.cs:18 | quantity 0 gives 0; non-negative quantity and price give a non-negative total; a quantity of at least 1 gives at least the unit price |
| Entities.SumLineTotalsNonNegative | src/OrderApi_CleanArquitecture/OrderApi.Domain/Entities/Order.cs:22-25 | lines with non-negative quantities and prices add up to a non-negative total |
| Entities.SameLinesSameTotal | src/OrderApi_CleanArquitecture/OrderApi.Domain/Entities/Order.cs:22-25 | the total depends only on quantities and prices, position by position, not on names, SKUs or keys |
| Entities.WithKeys | src/OrderApi/Data/OrderContext.cs:50-53 | saving gives the lines consecutive keys from the next line identity value and the order's id as their foreign key, and keeps every other field |
| Entities.InsertKeepsTotals | src/OrderApi/Controllers/OrderController.cs:106-123 | storing a row whose total is the sum of its lines keeps that rule for the whole table |
| Format.PadDigits | src/OrderApi_CleanArquitecture/OrderApi.Application/Services/OrderService.cs:44 | format "D<width>": all digits, zero-padded to `width`, never truncated |
| Format.PadDigitsRoundTrip | src/OrderApi_CleanArquitecture/OrderApi.Application/Services/OrderService.cs:44 | the padded digits parse back to the number |
| Format.PadDigitsLength | src/OrderApi_CleanArquitecture/OrderApi.Application/Services/OrderService.cs:44 | below 10^width the result is exactly `width` long; from 10^width on it is the plain digits, longer than `width` |
| Format.ParseDigits | src/OrderApi/Data/OrderContext.cs:88 | the decimal digits of a number parse back to it |
| OrderNumbers.OrderNumber | src/OrderApi/Controllers/OrderController.cs:95 | "ORD-", four year digits that parse to the year, "-", then the suffix |
| OrderNumbers.SequentialNumber | src/OrderApi_CleanArquitecture/OrderApi.Application/Services/OrderService.cs:44 | "ORD-yyyy-" plus `next` in format "D5": exactly five suffix digits below 100000, the full digits from 100000 on |
| OrderNumbers.TokenNumber | src/OrderApi/Controllers/OrderController.cs:95 | "ORD-yyyy-" plus the first eight characters of the 32-character GUID |
| OrderNumbers.SequenceOfSequentialNumber | src/OrderApi_CleanArquitecture/OrderApi.Application/Services/OrderService.cs:44 | a sequential number reads back as its sequence value, whatever its width |
| OrderNumbers.SequentialNumberInjective | src/OrderApi/Data/OrderContext.cs:88 | sequential numbers are equal exactly when year and sequence value are |
| Queries.InsertDescSorted | src/OrderApi/Controllers/OrderController.cs:30 | inserting into a list sorted by descending key keeps it sorted |
| Queries.SortDesc | src/OrderApi/Controllers/OrderController.cs:30 | `OrderByDescending`: a permutation of the input, largest key first |
| Queries.Skip | src/OrderApi/Controllers/OrderController.cs:31 | `Skip(n)`: the last elements, all of them for n <= 0, none past the end |
| Queries.Take | src/OrderApi/Controllers/OrderController.cs:32 | `Take(n)`: the first min(n, length) elements, none for n <= 0 |
| Queries.Wrap32 | src/OrderApi/Controllers/OrderController.cs:31 | unchecked `int` arithmetic: the result is in the `int` range, equals the exact value when that fits, and differs from it by a multiple of 2^32 |
| Queries.SkipCount | src/OrderApi/Controllers/OrderController.cs:31 | `(page - 1) * pageSize` on `int`: in the `int` range, and the exact product whenever that fits |
| Queries.SkipCountOfPage | src/OrderApi/Controllers/OrderController.cs:31 | for page 1 on with a product that fits in an `int`, the skip count is that product and not negative |
| Queries.SkipCountWraps | src/OrderApi/Controllers/OrderController.cs:31 | page 65537 of 65536 skips nothing, since 65536 * 65536 wraps to 0 |
| Queries.Offset | src/OrderApi/Controllers/OrderController.cs:31 | the number of skipped elements: the wrapped skip count when it is not negative, else 0; (page - 1) * pageSize for an ordinary page |
| Queries.PageLength | src/OrderApi/Controllers/OrderController.cs:31-32 | at most pageSize elements land on a page, within the list; a page that fits is full; a page that starts inside the list is not empty |
| Queries.Page | src/OrderApi/Controllers/OrderController.cs:31-32 | a page holds the elements from position Offset on, PageLength of them |
| Queries.PageOfSorted | src/OrderApi/Controllers/OrderController.cs:30-32 | a page of a sorted list is sorted |
| Queries.TakeOfSortedIsSorted | src/OrderApi/Controllers/OrderController.cs:229-230 | the first elements of a sorted list are sorted |
| Queries.TakeOfSorted | src/OrderApi/Controllers/OrderController.cs:229-230 | an element the first `n` leave out has a key no larger than the n-th element's, and the prefix is full |
| Queries.AscendingKeys | src/OrderApi/Controllers/OrderController.cs:28 | the keys of a table, each exactly once, strictly ascending |
| Queries.LargestKey | src/OrderApi_CleanArquitecture/OrderApi.Infrastructure/Repositories/OrderRepository.cs:22-23 | the largest key of a non-empty table, at least every key, and 0 for an empty one |
| Dtos.NewItem | src/OrderApi/Controllers/OrderController.cs:109-115 | the line built from a request line totals quantity times price |
| Dtos.NewItems | src/OrderApi_CleanArquitecture/OrderApi.Application/Services/OrderService.cs:48-57 | one line per request line, in request order, copying name, SKU, quantity and price, adding up to the request's total |
| Dtos.CopiedLinesTotal | src/OrderApi/Controllers/OrderController.cs:106-121 | lines copied from a request add up to quantity times price summed over the request |
| Dtos.KeyedLinesTotal | src/OrderApi_CleanArquitecture/OrderApi.Application/Services/OrderService.cs:59-62 | a total calculated before saving still matches the lines once they have keys |
| Dtos.KeyedLinesCopy | src/OrderApi_CleanArquitecture/OrderApi.Application/Services/OrderService.cs:48-62 | giving the lines keys keeps what they copied from the request |
| Dtos.ItemResponse | src/OrderApi_CleanArquitecture/OrderApi.Application/Mappers/OrderMapper.cs:26-33 | the response line copies key, name, SKU, quantity and price; its total is quantity times price |
| Dtos.ItemResponses | src/OrderApi_CleanArquitecture/OrderApi.Application/Mappers/OrderMapper.cs:26-33 | one response line per order line, in the same order |
| Dtos.RecordResponse | src/OrderApi/Controllers/OrderController.cs:61-77 | the response copies the order's fields unchanged, carries the given customer name and one response line per order line |
| Dtos.ResponseLinesTotalMatches | src/OrderApi_CleanArquitecture/OrderApi.Application/Mappers/OrderMapper.cs:26-33 | the response lines' totals add up to the order lines' total |
| Dtos.ResponseTotalIsLineSum | src/OrderApi/Controllers/OrderController.cs:61-77 | the response of an order whose total is its line sum has a total equal to the sum of its response lines |
| Dtos.RowAnswers | src/OrderApi/Controllers/OrderController.cs:135-151 | the response of a row built from a request answers that request: number, customer, name, Pending, time, total and lines |
| Dtos.SavedRequestIsSaved | src/OrderApi/Controllers/OrderController.cs:97-127 | the order a request describes, saved under the next keys, is the saved row of the request |
| Dtos.SavedRequestAnswers | src/OrderApi/Controllers/OrderController.cs:97-151 | the saved row keeps the total rule and its response answers the request |
| Domain.Order.constructor | src/OrderApi_CleanArquitecture/OrderApi.Domain/Entities/Order.cs:12-20 | a new entity has the given number and customer, status Pending, total 0, the current time, no update time and no lines |
| Domain.Order.FromRecord | src/OrderApi_CleanArquitecture/OrderApi.Infrastructure/Repositories/OrderRepository.cs:25-28 | an entity loaded from a row has exactly that row's state |
| Domain.Order.CalculateTotal | src/OrderApi_CleanArquitecture/OrderApi.Domain/Entities/Order.cs:22-25 | the total becomes the sum of the line totals and nothing else changes, so a second call leaves it as it is |
| Mappers.ToResponse | src/OrderApi_CleanArquitecture/OrderApi.Application/Mappers/OrderMapper.cs:16-35 | id, number, customer, status, total and creation time unchanged; the given customer name; response lines in order |
| Mappers.ToSummaryResponse | src/OrderApi_CleanArquitecture/OrderApi.Application/Mappers/OrderMapper.cs:41-52 | fields copied unchanged and the number of lines as the item count |
| Services.OrderRepository.GetLast | src/OrderApi_CleanArquitecture/OrderApi.Infrastructure/Repositories/OrderRepository.cs:22-23 | nothing on an empty table, otherwise a stored order whose id is at least every stored id |
| Services.OrderRepository.GetById | src/OrderApi_CleanArquitecture/OrderApi.Infrastructure/Repositories/OrderRepository.cs:25-28 | the stored order with its lines, or nothing exactly when the id is not stored |
| Services.OrderRepository.LargestIsLastIssued | src/OrderApi_CleanArquitecture/OrderApi.Application/Services/OrderService.cs:39-40 | with no deletions the largest stored id is the last identity value handed out |
| Services.OrderRepository.Add | src/OrderApi_CleanArquitecture/OrderApi.Infrastructure/Repositories/OrderRepository.cs:30-34 | the entity gets the next id, its lines the next line keys, and it becomes the one new row |
| Services.CustomerRepository.GetById | src/OrderApi_CleanArquitecture/OrderApi.Infrastructure/Repositories/CustomerRepository.cs:21-22 | the stored customer, or nothing exactly when the id is not stored |
| Services.NewOrder | src/OrderApi_CleanArquitecture/OrderApi.Application/Services/OrderService.cs:42-59 | the built entity is the request's order: given number, the request's customer, Pending, one line per request line in order, total recalculated |
| Services.CreatedRow | src/OrderApi_CleanArquitecture/OrderApi.Application/Services/OrderService.cs:39-62 | the new row's id is at least 1, not in use, and larger than every stored id |
| Services.SavedIsCreatedRow | src/OrderApi_CleanArquitecture/OrderApi.Application/Services/OrderService.cs:42-62 | the built entity saved under the next keys is the created row |
| Services.CreatedRowAnswers | src/OrderApi_CleanArquitecture/OrderApi.Application/Services/OrderService.cs:42-64 | the created row answers the request under the sequential number of its id and keeps the total rule for the table |
| Services.OrderService.NextSequence | src/OrderApi_CleanArquitecture/OrderApi.Application/Services/OrderService.cs:39-40 | `(last?.Id ?? 0) + 1` is the largest stored id plus one, which under gap-free identity values is the id the next save assigns |
| Services.OrderService.Save | src/OrderApi_CleanArquitecture/OrderApi.Application/Services/OrderService.cs:61-64 | the entity becomes the one new row under the next keys, and the response is that row's |
| Services.OrderService.Place | src/OrderApi_CleanArquitecture/OrderApi.Application/Services/OrderService.cs:39-64 | exactly one row is added, the created row, with no check on an empty list of lines, and the response is that row's |
| Services.OrderService.CreateAsync | src/OrderApi_CleanArquitecture/OrderApi.Application/Services/OrderService.cs:32-65 | fails exactly for an unknown customer, writing nothing; otherwise adds the created row and answers with the customer's name |
| Services.OrderService.GetByIdAsync | src/OrderApi_CleanArquitecture/OrderApi.Application/Services/OrderService.cs:67-81 | nothing exactly for a missing id; otherwise the stored order's response, with an empty name when its customer is missing |
| Data.Numbers | src/OrderApi/Models/Order.cs:9 | the set of order numbers in use: a number is in it exactly when some stored order has it |
| Data.OrdersOf | src/OrderApi/Data/OrderContext.cs:35-38 | the orders that refer to a customer, exactly |
| Data.InsertKeepsUnique | src/OrderApi/Models/Order.cs:9 | saving a row whose number is not in use keeps the unique index |
| Data.RemoveKeeps | src/OrderApi/Data/OrderContext.cs:50-53 | removing an order keeps the key, foreign-key and uniqueness rules |
| Data.WithStatus | src/OrderApi/Controllers/OrderController.cs:167-168 | the new status and update time are set and every other field is unchanged |
| Data.ChangeStatusKeeps | src/OrderApi/Controllers/OrderController.cs:163-170 | a status change keeps the key, foreign-key, uniqueness and total rules |
| Data.CascadeDelete | src/OrderApi/Data/OrderContext.cs:50-53 | removing an order removes exactly its lines, and no line points at it afterwards |
| Data.OrderContext.SaveNewOrder | src/OrderApi/Controllers/OrderController.cs:123-133 | unknown customer: foreign-key failure; number in use: unique-index failure; either writes nothing; otherwise the one new row under the next keys |
| Data.OrderContext.RemoveOrder | src/OrderApi/Data/OrderContext.cs:50-53 | the row goes, and its lines with it |
| Data.OrderContext.RemoveCustomer | src/OrderApi/Data/OrderContext.cs:35-38 | a missing customer or one that orders still refer to (Restrict) is refused and nothing changes; otherwise only that customer goes |
| Reports.RowsAt | src/OrderApi/Controllers/OrderController.cs:196 | the rows stored under the given keys, in key order |
| Reports.RowsOf | src/OrderApi/Controllers/OrderController.cs:196 | every stored row exactly once, in ascending key order |
| Reports.StatusCounts | src/OrderApi/Controllers/OrderController.cs:205-212 | a key for exactly the statuses that occur, mapped to their number of orders |
| Reports.StatusCountsAddUp | src/OrderApi/Controllers/OrderController.cs:205-212 | the per-status counts add up to the number of orders |
| Reports.EachOrderCountedOnce | src/OrderApi/Controllers/OrderController.cs:205-212 | each order is counted under exactly one status |
| Reports.Groups | src/OrderApi/Controllers/OrderController.cs:214-228 | each group is a listed customer's count and spend; every listed customer with orders has its group; no customer has two |
| Reports.CustomerGroups | src/OrderApi/Controllers/OrderController.cs:214-228 | exactly one group for each customer with at least one order, with its order count and the sum of its order totals |
| Reports.RankingKeepsDistinct | src/OrderApi/Controllers/OrderController.cs:229 | reordering the groups cannot give a customer a second group |
| Reports.RankedGroups | src/OrderApi/Controllers/OrderController.cs:229 | the groups, each once, biggest spender first, one per customer |
| Reports.TopCustomers | src/OrderApi/Controllers/OrderController.cs:229-237 | at most five groups of distinct customers, biggest spender first |
| Reports.TopCustomersAreGroups | src/OrderApi/Controllers/OrderController.cs:214-237 | each top customer's count and spend are that customer's, and it has orders |
| Reports.TopCustomersAreTop | src/OrderApi/Controllers/OrderController.cs:229-230 | a customer with orders who is not among the top five spent no more than the fifth |
| Reports.Report | src/OrderApi/Controllers/OrderController.cs:196-244 | order count, revenue, status counts adding up to the count, top five distinct customers sorted by spend |
| Reports.EmptyReport | src/OrderApi/Controllers/OrderController.cs:239-241 | without orders: 0 orders, revenue 0, no status keys, no top customers |
| Controllers.Newest | src/OrderApi/Controllers/OrderController.cs:28-30 | the stored orders, each exactly once, newest first |
| Controllers.NewestAreStored | src/OrderApi/Controllers/OrderController.cs:28-30 | every order on the newest-first list is the stored order under its id |
| Controllers.NewestHasAll | src/OrderApi/Controllers/OrderController.cs:28-30 | every stored order is on the newest-first list |
| Controllers.Summaries | src/OrderApi/Controllers/OrderController.cs:33-41 | one summary per order, in order, each with the customer's name and the number of lines; sorted input gives sorted output |
| Controllers.NewestPageStored | src/OrderApi/Controllers/OrderController.cs:28-32 | every order on a page is a stored order whose customer is stored |
| Controllers.ListingIsNewestPage | src/OrderApi/Controllers/OrderController.cs:28-42 | the listing has PageLength entries, the orders from position (page - 1) * pageSize of the newest-first list |
| Controllers.ListingIsSorted | src/OrderApi/Controllers/OrderController.cs:28-42 | the listing is newest first |
| Controllers.ListingShowsStored | src/OrderApi/Controllers/OrderController.cs:33-41 | each entry is the summary of the stored order under its id |
| Controllers.AcceptedPage | src/OrderApi/Controllers/OrderController.cs:28-42 | a page with a non-negative skip count and a positive size lists at most pageSize orders from the wrapped skip count on, newest first, each as stored |
| Controllers.OrderController.GetOrders | src/OrderApi/Controllers/OrderController.cs:24-45 | a server error exactly when the wrapped skip count is negative or pageSize is below 1, never for an ordinary page; otherwise at most pageSize entries, the slice of the newest-first list from the wrapped skip count, newest first, each with its customer's name and number of lines |
| Controllers.OrderController.GetOrder | src/OrderApi/Controllers/OrderController.cs:51-80 | NotFound exactly for a missing id; otherwise the stored order's response with its customer's name, whose total is the sum of its response lines |
| Controllers.OrderController.BuildOrder | src/OrderApi/Controllers/OrderController.cs:97-121 | the loop builds the request's order: Pending, the request's customer, one copied line per request line in order, total accumulated from quantity times price |
| Controllers.OrderController.CreateOrder | src/OrderApi/Controllers/OrderController.cs:86-155 | unknown customer, then empty lines: BadRequest; number in use: Conflict; each writes nothing; otherwise exactly one new row, the request's order, and its response |
| Controllers.OrderController.UpdateOrderStatus | src/OrderApi/Controllers/OrderController.cs:161-172 | NotFound and no change for a missing id; otherwise only that order's status and update time change |
| Controllers.OrderController.DeleteOrder | src/OrderApi/Controllers/OrderController.cs:178-188 | NotFound and no change for a missing id; otherwise exactly that order and its lines go |
| Controllers.OrderController.GetReports | src/OrderApi/Controllers/OrderController.cs:194-245 | order count, revenue, status counts adding up to the count, at most five distinct customers sorted by spend, each with its own count and spend, equal to `Reports.TopCustomers`; a customer with orders left out of a full list spent no more than the fifth |
| Seed.AddDays | src/OrderApi/Data/OrderContext.cs:69 | moving back by a positive number of days gives an earlier time |
| Seed.SeedCustomers | src/OrderApi/Data/OrderContext.cs:61-71 | ten customers, the c-th with id c + 1 |
| Seed.CustomerTable | src/OrderApi/Data/OrderContext.cs:62-72 | the customers table holds keys 1..10, each customer under its own id |
| Seed.SeedLines | src/OrderApi/Data/OrderContext.cs:95-108 | one line per draw, keyed consecutively, pointing at the order |
| Seed.SeedItems | src/OrderApi/Data/OrderContext.cs:100-108 | the OrderItems list after `n` orders has one entry per drawn line |
| Seed.SeedOrders | src/OrderApi/Data/OrderContext.cs:79-115 | the orders list after `n` orders has `n` entries |
| Seed.SeedOrdersAt | src/OrderApi/Data/OrderContext.cs:79-115 | the k-th order added is the one stored under key k + 1 |
| Seed.AddLines | src/OrderApi/Data/OrderContext.cs:95-111 | the inner loop builds the order's lines, appends them to the OrderItems list, and its total is their line sum |
| Seed.AddCustomers | src/OrderApi/Data/OrderContext.cs:61-71 | the customer loop builds the ten seed customers |
| Seed.AddOrder | src/OrderApi/Data/OrderContext.cs:81-114 | one pass of the outer loop builds the seed order for `i` and advances the line key past its lines |
| Seed.SeedData | src/OrderApi/Data/OrderContext.cs:59-119 | the loops build the ten customers, the hundred orders and the OrderItems list, which holds the orders' lines in order |
| Seed.SeedTable | src/OrderApi/Data/OrderContext.cs:117 | the Orders table holds keys 1..100, each order under its own id |
| Seed.SeedForeignKeys | src/OrderApi/Data/OrderContext.cs:81 | every seed order refers to a seed customer |
| Seed.SeedNumbersUnique | src/OrderApi/Data/OrderContext.cs:88 | the seed order numbers are pairwise distinct |
| Seed.SeedRowKeys | src/OrderApi/Data/OrderContext.cs:95-113 | a seed order sits under its id, its lines point at it with keys in range, and its total is its line sum |
| Seed.SeedKeysAndTotals | src/OrderApi/Data/OrderContext.cs:77-115 | the seeded table keeps the key rule and the total rule |
| Seed.SeedItemKeys | src/OrderApi/Data/OrderContext.cs:100-103 | the OrderItems list has keys 1, 2, 3, ... in order, each pointing at a seeded order |
| Seed.SeedLinesTotal | src/OrderApi/Data/OrderContext.cs:95-110 | lines from at least one valid draw add up to at least 10.00 |
| Seed.SeedTotalsPositive | src/OrderApi/Data/OrderContext.cs:95-113 | every seed order's total is at least 10.00 |

## Left out

- EF Core and async plumbing: `Include`, `FindAsync`, `SaveChangesAsync` and `Task`. The store is an in-memory map with identity counters.
- Connection to the database, and concurrency. The racy read-last-then-increment numbering of the layered variant is not modelled, nor parallel creation. The flat Conflict is modelled as the unique-index failure of a sequential save.
- `DateTime.UtcNow`, `Guid.NewGuid()` and `Random` are parameters.
- Controllers.OrderController.CreateOrder: the year in the order number and the creation time come from two `UtcNow` reads; they are two independent parameters, and the model does not tie the year to the calendar year of the creation time.
- Services.OrderService.CreateAsync: likewise, the year in the order number is a parameter not tied to the entity's creation time.
- Controllers.OrderController.CreateOrder: request prices are taken as whole cents. A sub-cent `UnitPrice` (0.005, say) is accepted by the source. Its total is added up unrounded, while the `decimal(18,2)` line column stores a rounded price, so the stored total no longer equals the sum of the stored lines. The total rule (`Entities.TotalsAreLineSums`) and `GetOrder`'s "total is the sum of its response lines" hold in the source only for whole-cent requests.
- Services.OrderService.CreateAsync: request prices are taken as whole cents; a sub-cent `UnitPrice` breaks the total rule in the same way once the decimal(18,2) columns round the stored lines.
- `Math.Round((decimal)(random.NextDouble() * 100 + 10), 2)` is floating point. Seed prices are drawn integer cents in 10.00..110.00.
- Decimal overflow and the 28-digit limit: cents are unbounded integers.
- String length limits of the model configuration (`HasMaxLength`).
- HTTP: routing, status codes other than the error kinds, the `CreatedAtAction` Location header, the layered controller's pass-through, Program.cs, logging.
- Controllers.OrderController.UpdateOrderStatus: the request's `OrderStatus` can carry any `int`, and a C# enum keeps values without a name; the model's status type has only the six declared members, so such values are not modelled.
- Controllers.OrderController.CreateOrder: a null `Items` list is the empty list, which gives the same BadRequest.
- Services.OrderService.CreateAsync: a null `Items` list, which throws in the source, is not modelled; the request's lines are always a list.
- Reports.Report: the per-status dictionary is keyed by the status rather than by its name, which carries the same information since the names are distinct.
- Reports.RankedGroups: among equal spends the model fixes an order (the stable sort keeps ascending customer ids), and `Reports.Report` and `GetReports` pin it through `TopCustomers`; the database leaves that order undefined, and with ties at the fifth place it may pick other customers.
- Controllers.Newest: among orders with equal `CreatedAt` the model fixes ascending id (a stable sort over ascending keys), and `GetOrders` lists them in that order; SQL Server's `ORDER BY CreatedAt DESC` leaves their order undefined, so a page boundary inside such a tie may differ.
- Queries.Skip: negative counts are clamped to 0 as LINQ to Objects does. The listing never relies on that: `GetOrders` answers a negative skip count with the SQL Server error.
- Controllers.OrderController.GetOrders: the SQL Server error for a negative OFFSET or a FETCH NEXT below 1 is modelled as a single `ServerError`; its message and the status-500 page are not.
- Services.OrderRepository.Valid: identity values are modelled as gap-free and unbounded: no failed or rolled-back insert uses one up, the identity cache never jumps after a restart, no other writer inserts rows, and ids never reach the `int` limit. The layered variant never deletes, so under these assumptions the stored ids are exactly 1 up to the last identity value. SQL Server gives none of these guarantees. After a gap, `(last?.Id ?? 0) + 1` is smaller than the id the row actually gets, and the order number's sequence and the row id differ, which `Services.CreatedRowAnswers` and `Services.OrderService.NextSequence` do not cover. Distinct sequential numbers follow from `OrderNumbers.SequentialNumberInjective` and are not kept as a store invariant.
- Data.OrderContext.SaveNewOrder: a refused save (unknown customer, or an order number already in use) leaves the identity counters untouched, while SQL Server spends an identity value on the failed insert. Ids are unbounded here, while the source's are C# and SQL `int`.
- Seed.SeedData: the seed's rows are returned as lists (orders, OrderItems list); `HasData` is the `SeedTable` map with each order's lines inside it.
- Domain.Order.CalculateTotal: idempotence is stated by the frame (only the total changes) and the postcondition (the total is a function of the lines), not by a separate lemma.
