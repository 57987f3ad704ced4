/**
 * The transactional order writer: one order becomes a header row, one
 * orderline row per line and one stock update per line, committed together
 * or rolled back together.
 */
module OrderDAO {
  import opened Wrappers
  import opened Products
  import opened OrderLines
  import opened Orders
  import opened Tables

  /**
   * The point at which the storage layer throws during `createOrder`, if any.
   * A stock-floor constraint rejecting an update is a `StockUpdateFails`.
   */
  datatype Fault =
    | NoFault
    | ConnectFails              // opening the connection
    | BeginFails                // turning auto-commit off
    | HeaderInsertFails         // the INSERT INTO orders statement
    | NoIdReturned              // the insert returns no generated id
    | LineBatchFails            // executing the batch of orderline inserts
    | StockUpdateFails(lineIndex: nat)  // the stock UPDATE for that line
    | CommitFails               // the commit itself

  /** What the caller observes: the committed order's id, or the wrapped error. */
  datatype CreateResult = Committed(orderId: int) | Failed(cause: Fault)

  /** The connection of one call, as far as the model tracks it. */
  datatype Conn = Conn(open: bool, autoCommit: bool)

  /** Whether the fault is actually reached by an order with these lines. */
  predicate Fires(fault: Fault, lines: seq<OrderLine>)
  {
    match fault
    case NoFault => false
    case StockUpdateFails(k) => k < |lines|
    case _ => true
  }

  /**
   * Whether the header row was inserted, drawing an id, before the fault.
   * The id generator is a database sequence, which a rollback does not rewind.
   */
  predicate DrawsId(fault: Fault)
  {
    !(fault == ConnectFails || fault == BeginFails || fault == HeaderInsertFails)
  }

  /** The orderline row written for one line: the snapshot price goes with it. */
  function RowOf(orderId: int, line: OrderLine): LineRow
  {
    LineRow(orderId, line.product.productId, line.quantity, line.product.price)
  }

  /** The orderline rows written for an order's lines, in line order. */
  function LineRows(orderId: int, lines: seq<OrderLine>): (rows: seq<LineRow>)
    ensures |rows| == |lines|
    ensures forall i :: 0 <= i < |lines| ==>
      && rows[i].orderId == orderId
      && rows[i].productId == lines[i].product.productId
      && rows[i].quantity == lines[i].quantity
      && rows[i].unitPrice == lines[i].product.price
  {
    if lines == [] then []
    else LineRows(orderId, lines[..|lines| - 1]) + [RowOf(orderId, lines[|lines| - 1])]
  }

  /** Sum of unit price times quantity over orderline rows. */
  function RowsNetAmount(rows: seq<LineRow>): real
  {
    if rows == [] then 0.0
    else RowsNetAmount(rows[..|rows| - 1]) + rows[|rows| - 1].unitPrice * rows[|rows| - 1].quantity as real
  }

  /**
   * The persisted lines reproduce the order's net amount: the price written
   * with each line is the price the totals were computed from.
   */
  lemma {:induction false} PersistedLinesReproduceNet(orderId: int, lines: seq<OrderLine>)
    ensures RowsNetAmount(LineRows(orderId, lines)) == NetAmountOf(lines)
    decreases |lines|
  {
    if lines != [] {
      var rows := LineRows(orderId, lines);
      assert rows[..|rows| - 1] == LineRows(orderId, lines[..|lines| - 1]);
      PersistedLinesReproduceNet(orderId, lines[..|lines| - 1]);
    }
  }

  /** Total quantity ordered of one product over some lines. */
  function QuantityOrdered(lines: seq<OrderLine>, productId: int): int
  {
    if lines == [] then 0
    else
      var last := lines[|lines| - 1];
      QuantityOrdered(lines[..|lines| - 1], productId) + (if last.product.productId == productId then last.quantity else 0)
  }

  /** Total quantity of one product recorded in orderline rows. */
  function QuantityRecorded(rows: seq<LineRow>, productId: int): int
  {
    if rows == [] then 0
    else
      var last := rows[|rows| - 1];
      QuantityRecorded(rows[..|rows| - 1], productId) + (if last.productId == productId then last.quantity else 0)
  }

  /** The orderline rows record, product by product, the quantities the lines order. */
  lemma {:induction false} LineRowsRecordQuantities(orderId: int, lines: seq<OrderLine>, productId: int)
    ensures QuantityRecorded(LineRows(orderId, lines), productId) == QuantityOrdered(lines, productId)
    decreases |lines|
  {
    if lines != [] {
      var rows := LineRows(orderId, lines);
      assert rows[..|rows| - 1] == LineRows(orderId, lines[..|lines| - 1]);
      LineRowsRecordQuantities(orderId, lines[..|lines| - 1], productId);
    }
  }

  /**
   * The inventory after `UPDATE inventory SET quantity_in_stock =
   * quantity_in_stock - q WHERE product_id = p` has run once per line, in
   * line order. A product absent from the inventory matches zero rows and is
   * left alone; nothing keeps stock from going negative.
   */
  function ApplyStockUpdates(inventory: map<int, int>, lines: seq<OrderLine>): map<int, int>
  {
    if lines == [] then inventory
    else
      var before := ApplyStockUpdates(inventory, lines[..|lines| - 1]);
      var line := lines[|lines| - 1];
      if line.product.productId in before
      then before[line.product.productId := before[line.product.productId] - line.quantity]
      else before
  }

  /**
   * Every product in the inventory loses exactly the total quantity the lines
   * order of it; no product is added to or removed from the inventory.
   */
  lemma {:induction false} StockDropsByQuantityOrdered(inventory: map<int, int>, lines: seq<OrderLine>)
    ensures ApplyStockUpdates(inventory, lines).Keys == inventory.Keys
    ensures forall p :: p in inventory ==>
      ApplyStockUpdates(inventory, lines)[p] == inventory[p] - QuantityOrdered(lines, p)
    decreases |lines|
  {
    if lines != [] {
      StockDropsByQuantityOrdered(inventory, lines[..|lines| - 1]);
    }
  }

  /** Lines naming only products absent from the inventory leave it unchanged. */
  lemma {:induction false} AbsentProductsLeaveStockAlone(inventory: map<int, int>, lines: seq<OrderLine>)
    requires forall i :: 0 <= i < |lines| ==> lines[i].product.productId !in inventory
    ensures ApplyStockUpdates(inventory, lines) == inventory
    decreases |lines|
  {
    if lines != [] {
      AbsentProductsLeaveStockAlone(inventory, lines[..|lines| - 1]);
    }
  }

  /**
   * The `finally` block as written: resetting auto-commit and closing share
   * one `try`, so when the reset throws, `close()` is skipped.
   */
  function ReleaseAsWritten(c: Conn, resetFails: bool): (r: Conn)
    ensures r.open <==> c.open && resetFails
  {
    if !c.open || resetFails then c else Conn(false, true)
  }

  /** A reset that throws leaves the connection open. */
  lemma ReleaseAsWrittenLeaks()
    ensures ReleaseAsWritten(Conn(true, false), true).open
  {
  }

  /**
   * The `finally` block with the close independent of the reset: the
   * connection ends closed whatever happens, with auto-commit back on when
   * the reset succeeds.
   */
  function Release(c: Conn, resetFails: bool): (r: Conn)
    ensures !r.open
    ensures c.open && !resetFails ==> r.autoCommit
    ensures !c.open ==> r == c
  {
    if !c.open then c
    else Conn(false, if resetFails then c.autoCommit else true)
  }

  /** The batch of orderline inserts for an order's lines, one per line, in line order. */
  method BatchLines(orderId: int, lines: seq<OrderLine>) returns (batch: seq<LineRow>)
    ensures batch == LineRows(orderId, lines)
  {
    batch := [];
    for i := 0 to |lines|
      invariant batch == LineRows(orderId, lines[..i])
    {
      assert lines[..i + 1][..i] == lines[..i];
      batch := batch + [LineRow(orderId, lines[i].product.productId, lines[i].quantity, lines[i].product.price)];
    }
    assert lines[..|lines|] == lines;
  }

  /** The tables `createOrder` writes, the id generator and the connection. */
  class Database {
    var orders: seq<Header>
    var orderLines: seq<LineRow>
    var inventory: map<int, int>
    var nextOrderId: int
    ghost var conn: Conn

    /** Primary key and foreign key of the schema; no connection is left open between calls. */
    ghost predicate Valid()
      reads this
    {
      && UniqueOrderIds(orders)
      && OrderIdsBelow(orders, nextOrderId)
      && LineOrderIdsBelow(orderLines, nextOrderId)
      && !conn.open
    }

    /** Empty order tables over a given inventory. */
    constructor (inventory: map<int, int>)
      ensures Valid()
      ensures orders == [] && orderLines == [] && this.inventory == inventory
    {
      orders := [];
      orderLines := [];
      this.inventory := inventory;
      nextOrderId := 1;
      conn := Conn(false, true);
    }

    /**
     * Runs the stock update of each line in turn, until one throws. A
     * product absent from the inventory matches zero rows: only a warning
     * is logged and the loop goes on.
     */
    method UpdateStock(lines: seq<OrderLine>, fault: Fault) returns (failed: bool)
      modifies this`inventory
      ensures failed <==> fault.StockUpdateFails? && fault.lineIndex < |lines|
      ensures failed ==> inventory == ApplyStockUpdates(old(inventory), lines[..fault.lineIndex])
      ensures !failed ==> inventory == ApplyStockUpdates(old(inventory), lines)
    {
      failed := false;
      var i := 0;
      while i < |lines| && !failed
        invariant 0 <= i <= |lines|
        invariant failed <==> fault.StockUpdateFails? && fault.lineIndex < i
        invariant failed ==> inventory == ApplyStockUpdates(old(inventory), lines[..fault.lineIndex])
        invariant !failed ==> inventory == ApplyStockUpdates(old(inventory), lines[..i])
      {
        if fault == StockUpdateFails(i) {
          failed := true;
        } else {
          assert lines[..i + 1][..i] == lines[..i];
          var productId := lines[i].product.productId;
          if productId in inventory {
            inventory := inventory[productId := inventory[productId] - lines[i].quantity];
          }
        }
        i := i + 1;
      }
      assert lines[..|lines|] == lines;
    }

    /**
     * Steps 1 to 3 inside the open transaction: the header, the orderline
     * batch and the stock updates, stopping at the step named by `fault`.
     * Each step leaves behind exactly what it wrote before the fault.
     */
    method WriteOrder(order: Order, now: int, fault: Fault) returns (failed: bool, orderId: int)
      requires fault != ConnectFails && fault != BeginFails
      requires UniqueOrderIds(orders) && OrderIdsBelow(orders, nextOrderId) && LineOrderIdsBelow(orderLines, nextOrderId)
      modifies this`orders, this`orderLines, this`inventory, this`nextOrderId
      ensures UniqueOrderIds(orders) && OrderIdsBelow(orders, nextOrderId) && LineOrderIdsBelow(orderLines, nextOrderId)
      ensures failed <==> Fires(fault, order.lines) && fault != CommitFails
      ensures orderId == old(nextOrderId)
      ensures nextOrderId == if fault == HeaderInsertFails then old(nextOrderId) else old(nextOrderId) + 1
      ensures orders == if fault == HeaderInsertFails then old(orders)
        else old(orders) + [Header(orderId, order.customerId, Some(now), order.netAmount, order.tax, order.totalAmount)]
      ensures orderLines == if fault in {HeaderInsertFails, NoIdReturned, LineBatchFails} then old(orderLines)
        else old(orderLines) + LineRows(orderId, order.lines)
      ensures inventory == if fault in {HeaderInsertFails, NoIdReturned, LineBatchFails} then old(inventory)
        else if fault.StockUpdateFails? && fault.lineIndex < |order.lines| then ApplyStockUpdates(old(inventory), order.lines[..fault.lineIndex])
        else ApplyStockUpdates(old(inventory), order.lines)
    {
      orderId := nextOrderId;
      failed := false;

      // 1. Insert the header and take its generated id.
      if fault == HeaderInsertFails {
        return true, orderId;
      }
      var header := Header(orderId, order.customerId, Some(now), order.netAmount, order.tax, order.totalAmount);
      AppendHeaderKeepsKeys(orders, header);
      nextOrderId := nextOrderId + 1;
      orders := orders + [header];
      if fault == NoIdReturned {
        return true, orderId;
      }

      // 2. Batch one orderline insert per line, then execute the batch.
      var batch := BatchLines(orderId, order.lines);
      if fault == LineBatchFails {
        return true, orderId;
      }
      AppendLinesKeepsKeys(orderLines, batch, orderId);
      orderLines := orderLines + batch;

      // 3. One stock update per line.
      failed := UpdateStock(order.lines, fault);
    }

    /**
     * Persists `order`: the header with the order's customer and amounts and
     * the timestamp `now`, one orderline row per line, and one stock update
     * per line, then commits. When the step named by `fault` throws, every
     * table is rolled back and the error is returned. `resetFails` says
     * whether restoring auto-commit throws on the way out.
     */
    method CreateOrder(order: Order, now: int, fault: Fault, resetFails: bool) returns (result: CreateResult)
      requires Valid()
      modifies this
      ensures Valid()
      ensures !conn.open
      ensures result.Committed? <==> !Fires(fault, order.lines)
      ensures result.Committed? ==>
        && result.orderId == old(nextOrderId)
        && orders == old(orders) + [Header(result.orderId, order.customerId, Some(now), order.netAmount, order.tax, order.totalAmount)]
        && orderLines == old(orderLines) + LineRows(result.orderId, order.lines)
        && inventory == ApplyStockUpdates(old(inventory), order.lines)
      ensures result.Failed? ==>
        && result.cause == fault
        && orders == old(orders)
        && orderLines == old(orderLines)
        && inventory == old(inventory)
      ensures nextOrderId == if DrawsId(fault) then old(nextOrderId) + 1 else old(nextOrderId)
    {
      if fault == ConnectFails {
        // No connection: nothing to roll back or close.
        return Failed(fault);
      }
      conn := Conn(true, true);
      var savedOrders, savedLines, savedInventory := orders, orderLines, inventory;

      // setAutoCommit(false) opens the transaction; then steps 1 to 3.
      var failed := true;
      var orderId := 0;
      if fault != BeginFails {
        conn := conn.(autoCommit := false);
        failed, orderId := WriteOrder(order, now, fault);
      }

      // 4. Commit, or roll back.
      if !failed && fault == CommitFails {
        failed := true;
      }
      if failed {
        orders, orderLines, inventory := savedOrders, savedLines, savedInventory;
        result := Failed(fault);
      } else {
        result := Committed(orderId);
      }
      conn := Release(conn, resetFails);
    }
  }
}
