/** Rows of the `orders` and `orderlines` tables and the invariants the schema keeps. */
module Tables {
  import opened Wrappers

  /**
   * A row of `orders`. The date is the timestamp taken when the row was
   * inserted, or None for a NULL column.
   */
  datatype Header = Header(
    orderId: int,
    customerId: int,
    orderDate: Option<int>,
    netAmount: real,
    tax: real,
    totalAmount: real)

  /** A row of `orderlines`. */
  datatype LineRow = LineRow(orderId: int, productId: int, quantity: int, unitPrice: real)

  /** `order_id` is the primary key of `orders`. */
  predicate UniqueOrderIds(orders: seq<Header>)
  {
    forall i, j :: 0 <= i < |orders| && 0 <= j < |orders| && i != j ==> orders[i].orderId != orders[j].orderId
  }

  /** Every order id in use was drawn from the id generator before `next`. */
  predicate OrderIdsBelow(orders: seq<Header>, next: int)
  {
    forall i :: 0 <= i < |orders| ==> orders[i].orderId < next
  }

  /** Every orderline row refers to an order id drawn before `next`. */
  predicate LineOrderIdsBelow(rows: seq<LineRow>, next: int)
  {
    forall i :: 0 <= i < |rows| ==> rows[i].orderId < next
  }

  /** Appending a header under a fresh id keeps the key unique and below the next id. */
  lemma AppendHeaderKeepsKeys(orders: seq<Header>, h: Header)
    requires UniqueOrderIds(orders) && OrderIdsBelow(orders, h.orderId)
    ensures UniqueOrderIds(orders + [h]) && OrderIdsBelow(orders + [h], h.orderId + 1)
  {
  }

  /** Appending orderline rows for the id `id` keeps every row's id below `id + 1`. */
  lemma AppendLinesKeepsKeys(rows: seq<LineRow>, added: seq<LineRow>, id: int)
    requires LineOrderIdsBelow(rows, id)
    requires forall j :: 0 <= j < |added| ==> added[j].orderId == id
    ensures LineOrderIdsBelow(rows + added, id + 1)
  {
  }
}
