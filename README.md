# MiniERP order core in Dafny

This project models the order write path and the history read path of MiniERP, a small Java/JDBC application over PostgreSQL:

- **The order aggregate** (`Order`, with the value types `OrderLine` and `Product`). An in-memory order for one customer. `addLine` appends a line and recomputes the totals from scratch: net = Σ price × quantity, tax = net × 0.20, total = net + tax. Amounts are Dafny `real`s, so 0.20 is exact.
- **The transactional order writer** (`OrderDAO.createOrder`). It inserts the header and takes its generated id. It inserts one orderline row per line, each with the line's product price, then runs one stock update per line and commits. Any `SQLException` rolls back and is rethrown wrapped. The database is the class `Database`, which holds:
  - the `orders` and `orderlines` tables as sequences of rows;
  - the inventory as a map from product id to stock;
  - the id generator;
  - a ghost record of the call's connection: whether it is open, and its auto-commit flag.

  The step that throws is an input (`Fault`), and so is whether resetting auto-commit throws on the way out. `CURRENT_TIMESTAMP` is the parameter `now`.
- **The history reader** (`OrderDAO.getOrderDetailsByCustomer` and its string-row twin `OrderHistoryDAO.getOrderHistoryByCustomerId`). The SQL query is modelled as a pure function over the tables and a products map: the inner join of orders, orderlines and products, filtered on the customer and sorted by date descending, then order id, then product name. The string twin turns each row into five cells in a loop.

Modules follow the source files:

| module | file | models |
|---|---|---|
| `Products` | product.dfy | src/Product.java |
| `OrderLines` | order_line.dfy | src/OrderLine.java |
| `OrderDetails` | order_detail.dfy | src/OrderDetail.java |
| `Orders` | order.dfy | src/Order.java |
| `Tables` | tables.dfy | the `orders` and `orderlines` rows and their keys |
| `OrderDAO` | order_dao.dfy | `createOrder` in src/OrderDAO.java |
| `OrderDetailsQuery` | order_details_query.dfy | `getOrderDetailsByCustomer` in src/OrderDAO.java |
| `CommitThenHistory` | commit_then_history.dfy | what the history reader returns after a commit |
| `OrderHistoryDAO` | order_history_dao.dfy | src/OrderHistoryDAO.java |
| `Wrappers` | wrappers.dfy | `Option`, for nullable columns |

`Product`, `OrderLine` and `OrderDetail` are immutable Java classes with only getters. They are modelled as datatypes: each getter is the destructor of the same name and returns the constructor argument. A datatype value cannot change, and no constructor validates its arguments.

Where the specification of the order engine and the code disagree, the model follows the code:

- **Zero-rows stock updates.** The specification asks for a "strict" default: a stock update that affects zero rows should fail the order. The code only logs a warning and commits (src/OrderDAO.java:102-116). The model commits, and the inventory is left alone for such a product.
- **No stock floor.** The specification has the stock update subtract only when the stock stays non-negative. The code's `UPDATE` subtracts unconditionally, so stock can go negative. A rejection by a database constraint is just one more `StockUpdateFails` fault.
- **No input validation.** The specification asks for positive quantities. Neither `OrderLine` nor `Order` checks them. Only the Swing form does, and it is not part of this model.
- **When the price is read.** The specification says a line's unit price is captured when the line is added. The code reads `line.getProduct().getPrice()` again when it persists the line (src/OrderDAO.java:82). `Product` is immutable, so that is the same price: `PersistedLinesReproduceNet` proves that the persisted lines add up to the order's net amount.

## Model

| member | source | states |
|---|---|---|
| `Orders.Order.constructor` | src/Order.java:26-30 | a new order keeps its customer id, has no lines, and its net, tax and total are all zero |
| `Orders.Order.AddLine` | src/Order.java:35-38 | accepts any line and appends it after the earlier lines, which are untouched. Afterwards net = Σ price × quantity over all lines, tax = net × 0.20 and total = net + tax; net grows by exactly the new line's amount; the customer id cannot change |
| `Orders.Order.RecalculateTotals` | src/Order.java:46-57 | recomputing from zero over all lines makes net the sum of the line amounts, tax net × 0.20 and total net + tax |
| `Orders.NetAmountOfAppend` | src/Order.java:50-53 | the net amount of two lists of lines put together is the sum of their net amounts |
| `Orders.NetAmountOfPermutation` | src/Order.java:47-53 | any two lists of lines with the same multiset have the same net amount: the order in which lines were added does not matter |
| `Orders.NetAmountOfNonNegative` | src/Order.java:50-53 | with no negative price or quantity, the net amount is not negative |
| `OrderDAO.LineRows` | src/OrderDAO.java:77-88 | one orderline row per line, in line order. Each row carries the generated order id, the line's product id, its quantity and its product's price |
| `OrderDAO.PersistedLinesReproduceNet` | src/OrderDAO.java:78-85 | Σ unit price × quantity over the persisted rows equals the order's net amount, so the persisted prices are the ones the totals used |
| `OrderDAO.LineRowsRecordQuantities` | src/OrderDAO.java:77-101 | for every product, the persisted rows record the same total quantity that the stock updates subtract |
| `OrderDAO.StockDropsByQuantityOrdered` | src/OrderDAO.java:91-101 | every product in the inventory loses exactly the sum of the quantities of the lines naming it. No inventory entry is added or removed |
| `OrderDAO.AbsentProductsLeaveStockAlone` | src/OrderDAO.java:101-116 | updates for products absent from the inventory (zero rows affected) change nothing |
| `OrderDAO.ReleaseAsWritten` | src/OrderDAO.java:136-148 | the `finally` block as written: the connection stays open exactly when it was open and resetting auto-commit throws |
| `OrderDAO.ReleaseAsWrittenLeaks` | src/OrderDAO.java:138-146 | an open connection whose auto-commit reset throws is never closed |
| `OrderDAO.Release` | src/OrderDAO.java:136-148 | the corrected `finally`: the connection always ends closed, with auto-commit back on when the reset succeeds, and a connection that never opened is not touched |
| `OrderDAO.BatchLines` | src/OrderDAO.java:77-86 | the batch built by the loop over the lines is exactly `LineRows`: one row per line, in line order |
| `OrderDAO.Database.UpdateStock` | src/OrderDAO.java:93-117 | fails exactly when the injected stock fault names an existing line. Then the updates of the lines before it have been applied; otherwise every line's update has. Only the inventory changes |
| `OrderDAO.Database.WriteOrder` | src/OrderDAO.java:56-120 | the three write steps stop at the injected fault and leave exactly what the earlier steps wrote: the header under the drawn id, then the `LineRows` batch, then the stock updates up to the failing line. Keys stay unique and below the generator |
| `OrderDAO.Database.CreateOrder` | src/OrderDAO.java:36-149 | commits exactly when no injected fault is reached; a failing stock update must name an existing line. On commit: exactly one header row with the order's customer, the timestamp and the three amounts unchanged, under the id the generator gave; `LineRows` appended to orderlines; the inventory is `ApplyStockUpdates` of the old inventory. On failure: orders, orderlines and inventory equal their values before the call, and the fault is returned. The connection is closed on every path; keys stay unique and below the generator |
| `OrderDetailsQuery.RowsOfOrderMembership` | src/OrderDAO.java:170-171 | a row belongs to an order's rows exactly when it joins that order with one of its orderline rows whose product exists |
| `OrderDetailsQuery.JoinMembership` | src/OrderDAO.java:166-172 | the filtered join holds exactly the rows that pair an order of the customer with one of its orderline rows whose product exists (both directions) |
| `OrderDetailsQuery.RowAtMostTotal` | src/OrderDAO.java:173 | the ORDER BY keys compare any two rows one way or the other |
| `OrderDetailsQuery.RowAtMostTransitive` | src/OrderDAO.java:173 | the ORDER BY keys are transitive |
| `OrderDetailsQuery.Insert` | src/OrderDAO.java:173 | inserting a row into sorted rows keeps them sorted and adds exactly that row |
| `OrderDetailsQuery.SortRows` | src/OrderDAO.java:173 | the result is sorted by date descending (NULL first), then order id, then product name, and is a permutation of the input |
| `OrderDetailsQuery.OrderDetailsByCustomer` | src/OrderDAO.java:162-199 | the history is sorted by the query's ORDER BY and has the same multiset of rows as the filtered inner join |
| `OrderDetailsQuery.HistoryMembership` | src/OrderDAO.java:166-172 | a row is in the history exactly when it joins an order of the customer with one of that order's lines whose product exists, the order's totals repeated on it |
| `OrderDetailsQuery.HistoryOnlyOfCustomer` | src/OrderDAO.java:172 | every history row belongs to an order whose customer id is the argument |
| `OrderDetailsQuery.JoinEmptyWithoutOrders` | src/OrderDAO.java:163-199 | a customer with no orders gets an empty list |
| `OrderDetailsQuery.OrderWithoutLinesHasNoRows` | src/OrderDAO.java:170 | an order without orderline rows contributes no row |
| `OrderDetailsQuery.HistoryTotalsPerOrder` | src/OrderDAO.java:184-190 | all history rows of one order carry the same date, net amount, tax and total |
| `CommitThenHistory.LineDetails` | src/OrderDAO.java:184-194 | a new order gives at most one row per line, each with the order's id, date and totals. When every product exists it gives exactly one row per line, in line order, with the product's name, the line's quantity and the line's price |
| `CommitThenHistory.JoinAfterCommit` | src/OrderDAO.java:166-173 | after a commit the join is the old join followed by the new order's `LineDetails`, when the order is the customer's |
| `CommitThenHistory.HistoryAfterCommit` | src/OrderDAO.java:162-199 | after a commit the history holds the old rows plus one row per line of the new order whose product exists; other customers' histories are unchanged |
| `OrderHistoryDAO.IntTextRoundTrip` | src/OrderHistoryDAO.java:56-65 | the decimal text written for an order id or quantity parses back to that number |
| `OrderHistoryDAO.GetOrderHistoryByCustomerId` | src/OrderHistoryDAO.java:26-72 | one row per row of the join, filter and order above; an empty list when nothing matches. Each row has exactly 5 cells, in order: the order id's `String.valueOf` text (which parses back to the id), the formatted date or "N/A" for a NULL date, the product name, the quantity's `String.valueOf` text (which parses back to the quantity) and the formatted unit price |

## Left out

- Concurrency and row locking: the source takes no lock, and the "no oversell" property of concurrent orders has no counterpart in it.
- Floating point: amounts are exact `real`s, so `double` rounding in the sums and in `net * 0.20` is not modelled.
- Date and price formatting (`SimpleDateFormat`, `String.format("%.2f")`): these are the caller's `dateText` and `priceText` functions.
- Collation: product names are compared character by character, by code point. PostgreSQL may use a locale collation instead.
- Ties: rows tied on all three sort keys come in an order the SQL leaves open, for example two lines of one order for the same product. The model fixes one admissible order.
- Unchecked exceptions in `createOrder`: the source catches only `SQLException` (src/OrderDAO.java:125). A line whose product is null (neither `OrderLine` nor `Order.addLine` checks for it) throws a `NullPointerException` at src/OrderDAO.java:80, after the header insert. That skips the rollback, and the `finally` block's `setAutoCommit(true)` then commits the header without its lines. A model `Product` cannot be null, so this path is not modelled.
- Integer width: stock and quantities are unbounded integers. In the source, a stock update that leaves `quantity_in_stock` outside PostgreSQL's 32-bit `integer` range raises an error and rolls back. The model commits it.
- Read failures of the history queries: the model's reads always succeed.
- Logging to standard output and error: this covers the zero-rows warning and the message for a rollback that itself fails. A rollback is modelled as always succeeding.
- Connection plumbing: `DatabaseManager` is not part of this model. The connection is a ghost record of whether it is open and whether auto-commit is on.
- JDBC batching and `RETURNING` are single steps, each of which may fail.
- `OrderDAO.Database.CreateOrder`: the Java method returns nothing. The model returns the generated id on success, which in the source is only printed.
- `OrderDAO.Database.CreateOrder`: the id generator is a database sequence, which a rollback does not rewind. A header insert that throws is assumed to draw no id. An insert that returns no id is assumed to have drawn one.
- `OrderDAO.Database.CreateOrder`: it uses the corrected `Release` (see Findings), so the model does not leak the connection as the source can.
- `OrderDAO.Database.CreateOrder`: the inventory is a map, so `product_id` is taken to be unique in it and one update touches at most one row.
- `OrderDetailsQuery.OrderDetailsByCustomer`: the `order_date` column, which the source reads as a string, is modelled as an optional integer timestamp.
- `OrderHistoryDAO.GetOrderHistoryByCustomerId`: each row is returned as a sequence of five strings. The source returns mutable `String[5]` arrays, which the caller could change.
- The input checks of the Swing order form (positive quantity, non-empty order) are not modelled. `Order` and `CreateOrder` accept any lines, including none.

## Findings

| source | as written | input that shows it | evidently intended | confidence | as-written member | corrected member |
|---|---|---|---|---|---|---|
| src/OrderDAO.java:136-148 | `setAutoCommit(true)` and `close()` share one `try`, so a reset that throws skips `close()`. The connection comes from `DriverManager`, not a pool, so it leaks | an open connection on which `setAutoCommit(true)` throws | the connection is closed on every exit path, whether or not the reset succeeds | medium, not executed | `OrderDAO.ReleaseAsWritten` | `OrderDAO.Release` |
