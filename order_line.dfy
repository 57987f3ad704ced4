/** One line of an in-memory order. */
module OrderLines {
  import opened Products

  /**
   * An immutable (product, quantity) pair. Nothing checks that the quantity
   * is positive: that check lives in the order form, outside this model.
   */
  datatype OrderLine = OrderLine(product: Product, quantity: int)
}
