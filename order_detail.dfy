/** One row of a customer's detailed order history. */
module OrderDetails {
  import opened Wrappers

  /**
   * The order-level values (id, date, net amount, tax, total) repeated on
   * every row of the order, followed by one line's product name, quantity
   * and unit price. Values are stored as given, without validation. The date
   * is the stored timestamp, or None for a NULL column.
   */
  datatype OrderDetail = OrderDetail(
    orderId: int,
    orderDate: Option<int>,
    netAmount: real,
    tax: real,
    totalAmount: real,
    productName: string,
    quantity: int,
    unitPrice: real)
}
