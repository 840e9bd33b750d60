/** The records the storefront passes around: catalog products and cart
    lines, and the host's string services that the catalog pipeline calls. */
module Catalog {

  /** A product of the catalog document. Only the fields the core reads are
      kept; the image, list price and discount are not. */
  datatype Product = Product(
    id: int,
    name: string,
    description: string,
    category: string,
    brand: string,
    tags: seq<string>,
    finalPrice: real,
    rating: real,
    reviews: int)

  /** A cart line: the product spread into the line, plus its quantity. */
  datatype CartItem = CartItem(product: Product, quantity: int)

  /** The host's `String.prototype.toLowerCase` and the collation behind
      `localeCompare`, whose Unicode tables are not modelled:
      `collate(a, b)` stands for `a.localeCompare(b) <= 0`. */
  datatype Locale = Locale(lower: string -> string, collate: (string, string) -> bool)
}
