/** Optional values, standing for the source's `undefined`/`null`. */
module Wrappers {
  datatype Option<+T> = None | Some(value: T) {
    function GetOr(default: T): T {
      match this
      case Some(v) => v
      case None => default
    }
  }

  /** A value, or the message of the error that stands in its place. */
  datatype Result<+T, +E> = Success(value: T) | Failure(error: E)
}

/**
 * The storefront entities of lib/shopify/types.ts, reduced to the fields the
 * filter, sort, variant and cart logic reads.  Amounts are already-parsed
 * integers of one currency unit; `createdAt` is the timestamp that
 * `new Date(createdAt).getTime()` yields.
 */
module Types {
  /** One (name, value) pair of a variant's `selectedOptions`. */
  datatype SelectedOption = SelectedOption(name: string, value: string)

  datatype Variant = Variant(
    id: string,
    title: string,
    availableForSale: bool,
    selectedOptions: seq<SelectedOption>,
    price: int)

  /** A product option: its name and the values the storefront offers. */
  datatype ProductOption = ProductOption(id: string, name: string, values: seq<string>)

  datatype Product = Product(
    id: string,
    handle: string,
    title: string,
    availableForSale: bool,
    options: seq<ProductOption>,
    price: int,          // parsed priceRange.minVariantPrice.amount
    variants: seq<Variant>,
    tags: seq<string>,
    vendor: string,
    productType: string,
    createdAt: int)

  datatype CartLine = CartLine(id: string, quantity: int, merchandiseId: string)

  datatype Cart = Cart(id: string, checkoutUrl: string, totalQuantity: int, lines: seq<CartLine>)
}
