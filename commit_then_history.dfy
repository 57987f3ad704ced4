/**
 * What the history query returns once `createOrder` has committed: the
 * customer's earlier rows plus one row per line of the new order whose
 * product exists, each carrying the new order's totals.
 */
module CommitThenHistory {
  import opened Products
  import opened OrderLines
  import opened OrderDetails
  import opened Tables
  import opened OrderDAO
  import opened OrderDetailsQuery

  /**
   * The history rows the lines of a freshly written order give: one per
   * line whose product exists, in line order, with the header's values and
   * the line's quantity and snapshot price.
   */
  function LineDetails(h: Header, lines: seq<OrderLine>, products: map<int, Product>): (r: seq<OrderDetail>)
    ensures |r| <= |lines|
    ensures forall d :: d in r ==>
      && d.orderId == h.orderId && d.orderDate == h.orderDate
      && d.netAmount == h.netAmount && d.tax == h.tax && d.totalAmount == h.totalAmount
    ensures (forall i :: 0 <= i < |lines| ==> lines[i].product.productId in products) ==>
      && |r| == |lines|
      && forall i :: 0 <= i < |lines| ==>
        && r[i].productName == products[lines[i].product.productId].productName
        && r[i].quantity == lines[i].quantity
        && r[i].unitPrice == lines[i].product.price
  {
    if lines == [] then []
    else
      var rest := LineDetails(h, lines[..|lines| - 1], products);
      var l := lines[|lines| - 1];
      if l.product.productId in products
      then rest + [DetailOf(h, RowOf(h.orderId, l), products[l.product.productId])]
      else rest
  }

  /** The rows of one order over two batches of orderline rows. */
  lemma {:induction false} RowsOfOrderAppend(h: Header, a: seq<LineRow>, b: seq<LineRow>, products: map<int, Product>)
    ensures RowsOfOrder(h, a + b, products) == RowsOfOrder(h, a, products) + RowsOfOrder(h, b, products)
    decreases |b|
  {
    if b == [] {
      assert a + b == a;
    } else {
      assert (a + b)[..|a + b| - 1] == a + b[..|b| - 1];
      RowsOfOrderAppend(h, a, b[..|b| - 1], products);
    }
  }

  /** Orderline rows of other orders add nothing to an order's rows. */
  lemma {:induction false} RowsOfOrderForeign(h: Header, b: seq<LineRow>, products: map<int, Product>)
    requires forall j :: 0 <= j < |b| ==> b[j].orderId != h.orderId
    ensures RowsOfOrder(h, b, products) == []
    decreases |b|
  {
    if b != [] {
      RowsOfOrderForeign(h, b[..|b| - 1], products);
    }
  }

  /** The lines of a new order, once written, give exactly its `LineDetails`. */
  lemma {:induction false} RowsOfNewOrder(h: Header, lines: seq<OrderLine>, products: map<int, Product>)
    ensures RowsOfOrder(h, LineRows(h.orderId, lines), products) == LineDetails(h, lines, products)
    decreases |lines|
  {
    if lines != [] {
      var rows := LineRows(h.orderId, lines);
      assert rows[..|rows| - 1] == LineRows(h.orderId, lines[..|lines| - 1]);
      RowsOfNewOrder(h, lines[..|lines| - 1], products);
    }
  }

  /** Orderline rows for an id no existing order has leave the existing join alone. */
  lemma {:induction false} JoinIgnoresNewLines(orders: seq<Header>, a: seq<LineRow>, b: seq<LineRow>, products: map<int, Product>, customerId: int, id: int)
    requires OrderIdsBelow(orders, id)
    requires forall j :: 0 <= j < |b| ==> b[j].orderId == id
    ensures Join(orders, a + b, products, customerId) == Join(orders, a, products, customerId)
    decreases |orders|
  {
    if orders != [] {
      var h := orders[|orders| - 1];
      JoinIgnoresNewLines(orders[..|orders| - 1], a, b, products, customerId, id);
      RowsOfOrderAppend(h, a, b, products);
      RowsOfOrderForeign(h, b, products);
    }
  }

  /**
   * After a commit, the join is the join before it followed by the new
   * order's rows when the order belongs to the customer asked about.
   */
  lemma JoinAfterCommit(orders: seq<Header>, orderLines: seq<LineRow>, products: map<int, Product>, customerId: int, h: Header, lines: seq<OrderLine>)
    requires OrderIdsBelow(orders, h.orderId) && LineOrderIdsBelow(orderLines, h.orderId)
    ensures Join(orders + [h], orderLines + LineRows(h.orderId, lines), products, customerId)
      == Join(orders, orderLines, products, customerId) + (if h.customerId == customerId then LineDetails(h, lines, products) else [])
  {
    var added := LineRows(h.orderId, lines);
    assert (orders + [h])[..|orders|] == orders;
    JoinIgnoresNewLines(orders, orderLines, added, products, customerId, h.orderId);
    RowsOfOrderAppend(h, orderLines, added, products);
    RowsOfOrderForeign(h, orderLines, products);
    RowsOfNewOrder(h, lines, products);
  }

  /**
   * The history after a commit holds the rows it held before and one row
   * per line of the new order whose product exists; for any other customer
   * it is unchanged.
   */
  lemma HistoryAfterCommit(orders: seq<Header>, orderLines: seq<LineRow>, products: map<int, Product>, customerId: int, h: Header, lines: seq<OrderLine>)
    requires OrderIdsBelow(orders, h.orderId) && LineOrderIdsBelow(orderLines, h.orderId)
    ensures multiset(OrderDetailsByCustomer(orders + [h], orderLines + LineRows(h.orderId, lines), products, customerId))
      == multiset(OrderDetailsByCustomer(orders, orderLines, products, customerId))
        + multiset(if h.customerId == customerId then LineDetails(h, lines, products) else [])
    ensures h.customerId != customerId ==>
      OrderDetailsByCustomer(orders + [h], orderLines + LineRows(h.orderId, lines), products, customerId)
        == OrderDetailsByCustomer(orders, orderLines, products, customerId)
  {
    JoinAfterCommit(orders, orderLines, products, customerId, h, lines);
    var before := Join(orders, orderLines, products, customerId);
    if h.customerId != customerId {
      assert before + [] == before;
    }
  }
}
