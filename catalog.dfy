/** The product record as the pages receive it from the product API, and the
    cart/wishlist entry the pages build from it. Absent or falsy string fields
    are the empty string; absent numbers, flags and arrays are `None`. */
module Catalog {
  import opened Common

  datatype Product = Product(
    mongoId: string,              // `_id`
    productId: string,            // `productId`
    id: string,                   // `id`
    name: string,
    price: Option<real>,          // `None`: missing, so every comparison with it is false
    category: Option<string>,
    inStock: Option<bool>,
    createdAt: Option<int>,       // `createdAt` when present and parsable, in milliseconds
    image: string,
    images: Option<seq<string>>,  // `None`: not an array
    sizes: seq<string>)           // `[]`: absent or empty

  /** `{...product, id, image, selectedSize?, quantity?}`: a product snapshot
      keyed by the id the calling page chose. */
  datatype Item = Item(
    product: Product,
    id: string,
    image: string,
    selectedSize: Option<string>,
    quantity: Option<int>)

  /** `product.image || product.images[0] || ''`. */
  function ItemImage(p: Product): (r: string)
    ensures p.image != "" ==> r == p.image
    ensures p.image == "" && p.images.Some? && |p.images.value| > 0 ==> r == p.images.value[0]
    ensures r != "" ==> r == p.image || (p.images.Some? && |p.images.value| > 0 && r == p.images.value[0])
  {
    Or(p.image, if p.images.Some? && |p.images.value| > 0 then p.images.value[0] else "")
  }

  /** `item.quantity || 1`: a missing or zero quantity counts as one. */
  function QuantityOrOne(q: Option<int>): (r: int)
    ensures r != 0
    ensures q.Some? && q.value != 0 ==> r == q.value
  {
    if q.Some? && q.value != 0 then q.value else 1
  }
}
