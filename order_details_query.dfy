/**
 * A customer's order history as the query
 *   SELECT ... FROM orders o
 *   JOIN orderlines ol ON o.order_id = ol.order_id
 *   JOIN products p ON ol.product_id = p.product_id
 *   WHERE o.customer_id = ?
 *   ORDER BY o.order_date DESC, o.order_id, p.product_name
 * returns it: the filtered inner join, sorted.
 */
module OrderDetailsQuery {
  import opened Wrappers
  import opened Products
  import opened OrderDetails
  import opened Tables

  /** The joined row of header `h` and its orderline row `l`, whose product is `p`. */
  function DetailOf(h: Header, l: LineRow, p: Product): OrderDetail
  {
    OrderDetail(h.orderId, h.orderDate, h.netAmount, h.tax, h.totalAmount, p.productName, l.quantity, l.unitPrice)
  }

  /** The rows one order contributes: its orderline rows whose product exists, in table order. */
  function RowsOfOrder(h: Header, lines: seq<LineRow>, products: map<int, Product>): seq<OrderDetail>
  {
    if lines == [] then []
    else
      var rest := RowsOfOrder(h, lines[..|lines| - 1], products);
      var l := lines[|lines| - 1];
      if l.orderId == h.orderId && l.productId in products
      then rest + [DetailOf(h, l, products[l.productId])]
      else rest
  }

  /** The filtered join, in table order. */
  function Join(orders: seq<Header>, lines: seq<LineRow>, products: map<int, Product>, customerId: int): seq<OrderDetail>
  {
    if orders == [] then []
    else
      var rest := Join(orders[..|orders| - 1], lines, products, customerId);
      var h := orders[|orders| - 1];
      if h.customerId == customerId then rest + RowsOfOrder(h, lines, products) else rest
  }

  /**
   * `d` is the join of an order of the customer with one of its orderline
   * rows whose product exists.
   */
  ghost predicate InJoin(d: OrderDetail, orders: seq<Header>, lines: seq<LineRow>, products: map<int, Product>, customerId: int)
  {
    exists i, j :: 0 <= i < |orders| && 0 <= j < |lines| && JoinedAt(d, orders, lines, products, customerId, i, j)
  }

  /** `d` joins the order at index `i` with the orderline row at index `j`. */
  ghost predicate JoinedAt(d: OrderDetail, orders: seq<Header>, lines: seq<LineRow>, products: map<int, Product>, customerId: int, i: int, j: int)
    requires 0 <= i < |orders| && 0 <= j < |lines|
  {
    && orders[i].customerId == customerId
    && lines[j].orderId == orders[i].orderId
    && lines[j].productId in products
    && d == DetailOf(orders[i], lines[j], products[lines[j].productId])
  }

  /** A row of one order is exactly the join of the order with one of its lines whose product exists. */
  lemma {:induction false} RowsOfOrderMembership(d: OrderDetail, h: Header, lines: seq<LineRow>, products: map<int, Product>)
    ensures d in RowsOfOrder(h, lines, products) <==>
      exists j :: 0 <= j < |lines| && lines[j].orderId == h.orderId && lines[j].productId in products
        && d == DetailOf(h, lines[j], products[lines[j].productId])
    decreases |lines|
  {
    if lines != [] {
      var init := lines[..|lines| - 1];
      RowsOfOrderMembership(d, h, init, products);
      assert forall j :: 0 <= j < |init| ==> init[j] == lines[j];
    }
  }

  /** The join holds exactly the rows `InJoin` describes. */
  lemma {:induction false} JoinMembership(d: OrderDetail, orders: seq<Header>, lines: seq<LineRow>, products: map<int, Product>, customerId: int)
    ensures d in Join(orders, lines, products, customerId) <==> InJoin(d, orders, lines, products, customerId)
    decreases |orders|
  {
    if orders != [] {
      var init := orders[..|orders| - 1];
      var h := orders[|orders| - 1];
      JoinMembership(d, init, lines, products, customerId);
      RowsOfOrderMembership(d, h, lines, products);
      if InJoin(d, orders, lines, products, customerId) {
        var i, j :| 0 <= i < |orders| && 0 <= j < |lines| && JoinedAt(d, orders, lines, products, customerId, i, j);
        if i < |init| {
          assert JoinedAt(d, init, lines, products, customerId, i, j);
        }
      }
      if InJoin(d, init, lines, products, customerId) {
        var i, j :| 0 <= i < |init| && 0 <= j < |lines| && JoinedAt(d, init, lines, products, customerId, i, j);
        assert JoinedAt(d, orders, lines, products, customerId, i, j);
      }
      if h.customerId == customerId && d in RowsOfOrder(h, lines, products) {
        var j :| 0 <= j < |lines| && lines[j].orderId == h.orderId && lines[j].productId in products
          && d == DetailOf(h, lines[j], products[lines[j].productId]);
        assert JoinedAt(d, orders, lines, products, customerId, |orders| - 1, j);
      }
    }
  }

  /**
   * Sort order of the order date, descending. PostgreSQL sorts NULL above
   * every value, so a descending sort puts NULL dates first.
   */
  predicate DateFirst(a: Option<int>, b: Option<int>)
  {
    match (a, b)
    case (None, Some(_)) => true
    case (Some(x), Some(y)) => x > y
    case _ => false
  }

  /** Lexicographic order of product names, character by character. */
  predicate NameAtMost(s: string, t: string)
  {
    s == [] || (t != [] && (s[0] < t[0] || (s[0] == t[0] && NameAtMost(s[1..], t[1..]))))
  }

  /** `a` may come before `b`: date descending, then order id, then product name. */
  predicate RowAtMost(a: OrderDetail, b: OrderDetail)
  {
    || DateFirst(a.orderDate, b.orderDate)
    || (a.orderDate == b.orderDate
        && (a.orderId < b.orderId || (a.orderId == b.orderId && NameAtMost(a.productName, b.productName))))
  }

  /** Rows in the query's order. */
  predicate Sorted(rows: seq<OrderDetail>)
  {
    forall i, j :: 0 <= i < j < |rows| ==> RowAtMost(rows[i], rows[j])
  }

  lemma {:induction false} NameAtMostTotal(s: string, t: string)
    ensures NameAtMost(s, t) || NameAtMost(t, s)
    decreases |s|
  {
    if s != [] && t != [] && s[0] == t[0] {
      NameAtMostTotal(s[1..], t[1..]);
    }
  }

  lemma {:induction false} NameAtMostTransitive(s: string, t: string, u: string)
    requires NameAtMost(s, t) && NameAtMost(t, u)
    ensures NameAtMost(s, u)
    decreases |s|
  {
    if s != [] && s[0] == t[0] && t[0] == u[0] {
      NameAtMostTransitive(s[1..], t[1..], u[1..]);
    }
  }

  /** Any two rows are ordered one way or the other. */
  lemma RowAtMostTotal(a: OrderDetail, b: OrderDetail)
    ensures RowAtMost(a, b) || RowAtMost(b, a)
  {
    NameAtMostTotal(a.productName, b.productName);
  }

  lemma RowAtMostTransitive(a: OrderDetail, b: OrderDetail, c: OrderDetail)
    requires RowAtMost(a, b) && RowAtMost(b, c)
    ensures RowAtMost(a, c)
  {
    if a.orderDate == b.orderDate == c.orderDate && a.orderId == b.orderId == c.orderId {
      NameAtMostTransitive(a.productName, b.productName, c.productName);
    }
  }

  /** Inserts `d` into sorted rows, before the first row it may precede. */
  function Insert(d: OrderDetail, rows: seq<OrderDetail>): (r: seq<OrderDetail>)
    requires Sorted(rows)
    ensures multiset(r) == multiset(rows) + multiset{d}
    ensures Sorted(r)
  {
    if rows == [] then [d]
    else if RowAtMost(d, rows[0]) then
      InsertFirst(d, rows);
      [d] + rows
    else
      var rest := Insert(d, rows[1..]);
      RowAtMostTotal(d, rows[0]);
      assert rows == [rows[0]] + rows[1..];
      PrependSorted(rows[0], rest, rows[1..], d);
      [rows[0]] + rest
  }

  /** A row that may precede the first of some sorted rows may precede them all. */
  lemma InsertFirst(d: OrderDetail, rows: seq<OrderDetail>)
    requires Sorted(rows) && rows != [] && RowAtMost(d, rows[0])
    ensures Sorted([d] + rows)
  {
    forall j | 0 < j < |rows|
      ensures RowAtMost(d, rows[j])
    {
      RowAtMostTransitive(d, rows[0], rows[j]);
    }
  }

  /** Prepending `x` to sorted `rest` keeps it sorted when `x` may precede every row of it. */
  lemma PrependSorted(x: OrderDetail, rest: seq<OrderDetail>, tail: seq<OrderDetail>, d: OrderDetail)
    requires Sorted(rest) && Sorted([x] + tail)
    requires RowAtMost(x, d)
    requires multiset(rest) == multiset(tail) + multiset{d}
    ensures Sorted([x] + rest)
  {
    forall j | 0 <= j < |rest|
      ensures RowAtMost(x, rest[j])
    {
      assert rest[j] in multiset(rest);
      if rest[j] != d {
        assert rest[j] in multiset(tail);
        var k :| 0 <= k < |tail| && tail[k] == rest[j];
        assert ([x] + tail)[0] == x && ([x] + tail)[k + 1] == tail[k];
        assert RowAtMost(([x] + tail)[0], ([x] + tail)[k + 1]);
      }
    }
  }

  /** Insertion sort by the query's ORDER BY. */
  function SortRows(rows: seq<OrderDetail>): (r: seq<OrderDetail>)
    ensures multiset(r) == multiset(rows)
    ensures Sorted(r)
  {
    if rows == [] then []
    else
      var init := rows[..|rows| - 1];
      assert rows == init + [rows[|rows| - 1]];
      Insert(rows[|rows| - 1], SortRows(init))
  }

  /**
   * The rows `getOrderDetailsByCustomer` returns: sorted by the query's
   * ORDER BY, and a permutation of the filtered join. Rows tied on all three
   * sort keys come in an order the query leaves open; this is one of them.
   */
  function OrderDetailsByCustomer(orders: seq<Header>, lines: seq<LineRow>, products: map<int, Product>, customerId: int): (rows: seq<OrderDetail>)
    ensures Sorted(rows)
    ensures multiset(rows) == multiset(Join(orders, lines, products, customerId))
  {
    SortRows(Join(orders, lines, products, customerId))
  }

  /**
   * A row is in the history exactly when it joins an order of the customer
   * with one of that order's lines whose product exists.
   */
  lemma HistoryMembership(d: OrderDetail, orders: seq<Header>, lines: seq<LineRow>, products: map<int, Product>, customerId: int)
    ensures d in OrderDetailsByCustomer(orders, lines, products, customerId) <==> InJoin(d, orders, lines, products, customerId)
  {
    var rows := OrderDetailsByCustomer(orders, lines, products, customerId);
    assert d in rows <==> d in multiset(rows);
    JoinMembership(d, orders, lines, products, customerId);
  }

  /** Every history row belongs to an order of the requested customer. */
  lemma HistoryOnlyOfCustomer(orders: seq<Header>, lines: seq<LineRow>, products: map<int, Product>, customerId: int)
    ensures forall d :: d in OrderDetailsByCustomer(orders, lines, products, customerId) ==>
      exists i :: 0 <= i < |orders| && orders[i].customerId == customerId && orders[i].orderId == d.orderId
  {
    forall d | d in OrderDetailsByCustomer(orders, lines, products, customerId)
      ensures exists i :: 0 <= i < |orders| && orders[i].customerId == customerId && orders[i].orderId == d.orderId
    {
      HistoryMembership(d, orders, lines, products, customerId);
      var i, j :| 0 <= i < |orders| && 0 <= j < |lines| && JoinedAt(d, orders, lines, products, customerId, i, j);
    }
  }

  /** A customer without orders has an empty history. */
  lemma {:induction false} JoinEmptyWithoutOrders(orders: seq<Header>, lines: seq<LineRow>, products: map<int, Product>, customerId: int)
    requires forall i :: 0 <= i < |orders| ==> orders[i].customerId != customerId
    ensures Join(orders, lines, products, customerId) == []
    ensures OrderDetailsByCustomer(orders, lines, products, customerId) == []
    decreases |orders|
  {
    if orders != [] {
      JoinEmptyWithoutOrders(orders[..|orders| - 1], lines, products, customerId);
    }
    var rows := OrderDetailsByCustomer(orders, lines, products, customerId);
    assert |rows| == |multiset(rows)| == 0;
  }

  /** An order without orderline rows contributes no history row. */
  lemma OrderWithoutLinesHasNoRows(orders: seq<Header>, lines: seq<LineRow>, products: map<int, Product>, customerId: int, orderId: int)
    requires forall j :: 0 <= j < |lines| ==> lines[j].orderId != orderId
    ensures forall d :: d in OrderDetailsByCustomer(orders, lines, products, customerId) ==> d.orderId != orderId
  {
    forall d | d in OrderDetailsByCustomer(orders, lines, products, customerId)
      ensures d.orderId != orderId
    {
      HistoryMembership(d, orders, lines, products, customerId);
      var i, j :| 0 <= i < |orders| && 0 <= j < |lines| && JoinedAt(d, orders, lines, products, customerId, i, j);
    }
  }

  /**
   * All rows of one order carry that order's date and totals: they are
   * order-level values repeated on each line's row.
   */
  lemma HistoryTotalsPerOrder(orders: seq<Header>, lines: seq<LineRow>, products: map<int, Product>, customerId: int, d: OrderDetail, e: OrderDetail)
    requires UniqueOrderIds(orders)
    requires d in OrderDetailsByCustomer(orders, lines, products, customerId)
    requires e in OrderDetailsByCustomer(orders, lines, products, customerId)
    requires d.orderId == e.orderId
    ensures d.orderDate == e.orderDate
    ensures d.netAmount == e.netAmount && d.tax == e.tax && d.totalAmount == e.totalAmount
  {
    HistoryMembership(d, orders, lines, products, customerId);
    HistoryMembership(e, orders, lines, products, customerId);
    var i, j :| 0 <= i < |orders| && 0 <= j < |lines| && JoinedAt(d, orders, lines, products, customerId, i, j);
    var i', j' :| 0 <= i' < |orders| && 0 <= j' < |lines| && JoinedAt(e, orders, lines, products, customerId, i', j');
    assert i == i';
  }
}
