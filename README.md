# Save2Serve order management and collector: a Dafny model

Save2Serve coordinates food donations. Providers list surplus food. Collectors request and collect it. An order-management class records each transaction in a relational database. This project models the two parts of the application with logic in them:

- **OrderManagementSystem** has a read path and a write path.
  - Read path (`getOrdersForCollector`, `getPendingOrdersForProvider`, `getPendingRequestsForProvider`): rebuild orders from the flat rows of `orders LEFT JOIN order_items`. The rows are grouped by `order_id` through a hash map, and each item is routed by its `item_type` tag to the order's `orderedItems` or `requestedItems` list.
  - Write path: `addOrder` (with `insertOrderItem`) flattens an order into tagged item rows inside one transaction, and `sendRequest` builds a one-item pending order and passes it to `addOrder`. `addRequest` is a single item insert on an auto-commit connection, with no transaction.
- **Collector** is a user whose list of collected items is loaded from the database when it is constructed and appended to afterwards. It can also list wasted items.

Files:

- `domain.dfy` (module `Domain`): the value types `FoodItem`, `Order` and `User`, plus the tags `"ordered"`, `"requested"` and the status `"Pending"`. A field or column that the code reads and may be null becomes an `Option`; a null argument that the code dereferences is left out (see below). A `double` quantity, a `LocalDate` and a timestamp stay opaque, because the code only copies them.
- `order_grouping.dfy` (module `OrderGrouping`): the read path.
  - `Group` is the fold that specifies it. `GroupRows` is the `while (rs.next())` loop that fills the map in place, and is proved equal to `Group`.
  - Lemmas describe `Group` independently: which ids get an order, which row supplies an order's own fields, and which rows' items fill each list (`Tagged`, a separate recursive definition).
- `order_writing.dfy` (module `OrderWriting`): the write path and the round trip back through the read path.
  - The database appears only as two inputs: the key it generates, and the first statement that throws.
  - A write yields the rows it would leave behind, with its outcome: committed, rolled back, no generated key, or a null dereference.
- `collector.dfy` (module `CollectorState`): class `Collector`, whose `collectedItems` field is a `seq<FoodItem>` changed by its methods. Database rows and today's date are parameters.

Failures while reading: the handler (`Food_gui/OrderManagementSystem.java:31`, `:69-73`) catches the `SQLException` and returns the orders grouped before it. Where the exception comes from matters:
- From `rs.next()`, the id or an order's own columns (`:38-45`): row k adds nothing, so the result is the grouping of the rows before it.
- From the item columns (`:55-59`): the order for row k is already in the map if this was the id's first row (`:51`), but its item is lost. The result is the grouping of the rows before it, followed by row k with its item name taken as null.

A query takes the rows and a `Stop` value that says which of these happened, if any.

## Model

| member | source | states |
|---|---|---|
| `OrderGrouping.GroupRows` | Food_gui/OrderManagementSystem.java:38-68 | the in-place loop leaves the map equal to the fold `Group` over all rows, in row order |
| `OrderGrouping.GroupKeys` | Food_gui/OrderManagementSystem.java:38-52 | the map has an order for every `order_id` in the rows and for no other id, and each order carries its own key |
| `OrderGrouping.GroupSize` | Food_gui/OrderManagementSystem.java:31-73 | N distinct ids among the rows give exactly N orders |
| `OrderGrouping.FirstRowWins` | Food_gui/OrderManagementSystem.java:40-52 | the first row of an id creates the order from its own status, notes and date; later rows of the id never change those fields |
| `OrderGrouping.GroupedItems` | Food_gui/OrderManagementSystem.java:55-66 | an order's `orderedItems` are exactly the items of its rows tagged "ordered", in row order, and `requestedItems` those tagged "requested" |
| `OrderGrouping.ItemlessRowAddsNothing` | Food_gui/OrderManagementSystem.java:41-66 | a row with a null item name, or with a tag other than the two (null included), adds no item; it only creates its order, with empty lists, when it is the id's first row |
| `OrderGrouping.RoutedByTag` | Food_gui/OrderManagementSystem.java:62-66 | an item row for a known id is appended to the end of the list its tag names; the other list, the order's own fields and all other orders stay as they were |
| `OrderGrouping.GroupBelongsTo` | Food_gui/OrderManagementSystem.java:48-60 | every order has the querying party and a null other party, and all its items have a null date |
| `OrderGrouping.FailureInItemColumns` | Food_gui/OrderManagementSystem.java:51-59 | an exception in row k's item columns keeps every order grouped from the earlier rows unchanged; it adds row k's order, with empty lists, when k is the id's first row; and it loses row k's item |
| `OrderGrouping.OrdersFromRows` | Food_gui/OrderManagementSystem.java:31-73 | the result is the grouping of the rows whose effect survived the stop. There is one order per id among them, each belonging to the querying party |
| `OrderGrouping.GetOrdersForCollector` | Food_gui/OrderManagementSystem.java:30-74 | the collector's orders, keyed by the ids of the rows whose effect survived the stop, each with the collector set and no provider |
| `OrderGrouping.GetPendingOrdersForProvider` | Food_gui/OrderManagementSystem.java:77-121 | the provider's orders, keyed by the ids of the rows whose effect survived the stop, each with the provider set and no collector |
| `OrderGrouping.GetPendingRequestsForProvider` | Food_gui/OrderManagementSystem.java:196-199 | the same result as `getPendingOrdersForProvider` on the same rows |
| `OrderWriting.InsertOrder` | Food_gui/OrderManagementSystem.java:126-157 | commits only if a key comes back and the order insert, every item insert and the commit all succeed. It then holds the ordered items tagged "ordered" in list order, then the requested items tagged "requested", all under the generated id. Any failing statement rolls back |
| `OrderWriting.AddOrder` | Food_gui/OrderManagementSystem.java:124-162 | an order without a provider or a collector ends in a null dereference before any write; otherwise it behaves as `InsertOrder` with the four bound columns |
| `OrderWriting.AddOrderNullSafe` | Food_gui/OrderManagementSystem.java:128-133 | as `InsertOrder`, with a missing party bound as SQL NULL |
| `OrderWriting.AddRequest` | Food_gui/OrderManagementSystem.java:176-183 | writes one item row tagged "requested" under the order's id with the item's name, quantity and unit, or nothing when the insert fails |
| `OrderWriting.SendRequest` | Food_gui/OrderManagementSystem.java:186-193 | as written, once a connection and the order statement are obtained, it always ends in a null dereference, because its order has no provider |
| `OrderWriting.SendRequestCorrected` | Food_gui/OrderManagementSystem.java:186-191 | the transaction of `addOrder` for the request order: it commits iff a key comes back and the three statements succeed; a failing statement rolls back, and without a key nothing further runs. A committed request is stored under the generated key with no provider, the collector, status "Pending" and no notes, plus exactly one item row: the item tagged "requested" |
| `OrderWriting.JoinRowsTagged` | Food_gui/OrderManagementSystem.java:143-150 | the join rows of the records `addOrder` writes carry the ordered items under "ordered" and the requested items under "requested", in order |
| `OrderWriting.AddOrderRoundTrip` | Food_gui/OrderManagementSystem.java:139-156 | reading back a committed order gives one order under the generated id, with its stored status, notes and date, and both lists as written (with dates cleared) |
| `OrderWriting.SendRequestRoundTrip` | Food_gui/OrderManagementSystem.java:188-190 | a stored request reads back as a "Pending" order with no ordered items and exactly the one requested item |
| `OrderWriting.AddRequestReadBack` | Food_gui/OrderManagementSystem.java:176-178 | after `addRequest`, the item is read back at the end of its order's requested items, and the ordered items are unchanged |
| `CollectorState.Collector.constructor` | Food_gui/Collector.java:13-17 | a new collector has the "Collector" role and its list is exactly the loaded rows, starting from empty |
| `CollectorState.Collector.AddCollectedItem` | Food_gui/Collector.java:20-27 | a non-null item is appended at the end, keeping all earlier items; null leaves the list unchanged |
| `CollectorState.Collector.GetCollectedItems` | Food_gui/Collector.java:30-32 | returns a value equal to the current list; being a value, changing it cannot touch the field |
| `CollectorState.Collector.LoadCollectedItems` | Food_gui/Collector.java:57-79 | keeps the earlier items and appends one item per row, in row order, each dated with the row's collection date or, when that is null, today |
| `CollectorState.Collector.GetWastedItems` | Food_gui/Collector.java:82-104 | returns one item per row, in row order, dated with the waste date or today, without changing the collector |

## Findings

| source | as written | input that shows it | evidently intended | confidence | as-written member | corrected member |
|---|---|---|---|---|---|---|
| Food_gui/OrderManagementSystem.java:130 | `addOrder` binds `order.getProvider().getUsername()`, but `sendRequest` (line 188) builds its order with a null provider. The `NullPointerException` is not an `SQLException`, so it escapes both handlers, nothing is stored, and the caller of `sendRequest` gets the exception | any `sendRequest(collector, item)`, once a connection and the order statement are obtained | the request is stored as a pending order with no provider and its one requested item | likely (the `Order` class is not part of this model, so its getter is assumed to return the null it was given); not executed | `OrderWriting.SendRequest` | `OrderWriting.SendRequestCorrected` |

## Left out

- JDBC plumbing is not modelled: connections, prepared statements, the SQL text, and `ResultSet` cursors. A query becomes the sequence of rows it delivered. The `WHERE` filters on collector, provider and `status = 'Pending'` belong to the database, so the rows are taken as already filtered.
- The copy of the hash map's values into an `ArrayList` is not modelled. The queries return the map itself, because the list's order is the hash map's and is unspecified. Aliasing between the mutable Java `Order` objects and their lists is not captured: orders are values.
- `saveCollectedItemToDatabase`, the insert that `addCollectedItem` issues, is left out, and so is its console report.
- Console output and `printStackTrace` are left out.
- `addOrder` when the driver returns no generated key: there is neither commit nor rollback, and the model stops at the outcome `NoGeneratedKey`. What the driver then does with the open transaction is driver-specific. A failing `rollback` or `close` is not modelled either.
- `OrderWriting.AddOrderRoundTrip`: assumes that the join returns an order's item rows in insertion order, because the query has no `ORDER BY`. It also assumes every item has a name, because a row with a null item name is skipped on reading.
- `OrderWriting.AddRequestReadBack`: assumes, for the same reason, that the new item's join row comes after the order's earlier rows. Only then is the item read back at the end of the requested items.
- `OrderWriting.AddOrder`, `OrderWriting.SendRequest`: an `SQLException` from `getConnection`, `setAutoCommit` or `prepareStatement` (`:125-128`) is not modelled. These calls run before the columns are bound. Such an exception is caught at `:158`, nothing is stored, and `sendRequest` returns normally and reports success (`:192`). The outcomes of both members therefore hold only once a connection and the order statement are obtained.
- Null arguments whose Java code dereferences them are not modelled: they are plain values here, not `Option`s. This covers the `collector` and `provider` of the queries (`:35`, `:82`), the `item` of `addRequest` (`:167`) and the elements of an order's item lists in `addOrder` (`:143-150`). In the source each throws an uncaught `NullPointerException`.
- `order_id` is an unbounded `int`, not a 32-bit Java `int`. The code never computes with it, so wrap-around cannot arise.
- Quantities (`double`), dates and timestamps are opaque values. `LocalDate.now()` and `new Date()` are parameters, not modelled time.
- `User` and `Provider` are plain values holding username, password, role and name. Their classes are not part of this model, and neither is `Order`'s or `FoodItem`'s.
- `Food_gui/MapViewer.java` (a Swing window that opens a fixed map URL in a browser) and `Food_gui/TestConnection.java` (a console connectivity check) hold no logic to model.
