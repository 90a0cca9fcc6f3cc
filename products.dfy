/** The product records the storefront reads from its static catalogue (src/data/products.js). */
module Products {

  /**
   * A catalogue product. `brand` is "" when the record has no brand field
   * (a falsy brand); the sample data carries none.
   */
  datatype Product = Product(
    id: int,
    name: string,
    price: real,
    category: string,
    stock: int,
    rating: real,
    sales: int,
    description: string,
    brand: string)

  /** A product's id; the key of cart lines and saved items. */
  function ProductId(p: Product): int
  {
    p.id
  }

  /**
   * The text of one end of a price range. The filter sidebar only ever writes the
   * empty string or the decimal rendering of a whole number there, so the text is
   * either Blank or the rendering of `n`.
   */
  datatype PriceText = Blank | Amount(n: int)
}
