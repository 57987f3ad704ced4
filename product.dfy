/** A catalog product. */
module Products {
  /**
   * An immutable product record. Its fields are the getters of the Java
   * class, and a datatype value cannot change, so the `price` read when a
   * line is added to an order is the `price` persisted with that line.
   */
  datatype Product = Product(productId: int, productName: string, price: real, category: string)
}
