/** The product details page: which id the page files a product under, the
    cart and wishlist entries it builds, the related-products strip, the
    quantity stepper and the four handlers that act on the cart and the
    wishlist behind an authentication gate and a size guard. */
module ProductDetails {
  import opened Common
  import opened Catalog
  import opened Session

  const MAX_QUANTITY: int := 10
  const RELATED_COUNT: nat := 4
  const SELECT_SIZE: string := "Please select a size"
  const ADDED_TO_CART: string := "Product added to cart!"

  /** `product.productId || product.id || product._id`. */
  function Identifier(p: Product): (r: string)
    ensures p.productId != "" ==> r == p.productId
    ensures p.productId == "" && p.id != "" ==> r == p.id
    ensures p.productId == "" && p.id == "" ==> r == p.mongoId
  {
    Or(p.productId, Or(p.id, p.mongoId))
  }

  /** `{...product, id, image, selectedSize, quantity}`. */
  function CartItem(p: Product, selectedSize: string, quantity: int): (r: Item)
    ensures r.product == p && r.id == Identifier(p) && r.image == ItemImage(p)
    ensures r.selectedSize == Some(selectedSize) && r.quantity == Some(quantity)
  {
    Item(p, Identifier(p), ItemImage(p), Some(selectedSize), Some(quantity))
  }

  /** `{...product, id, image}`. */
  function WishlistItem(p: Product): (r: Item)
    ensures r.product == p && r.id == Identifier(p) && r.image == ItemImage(p)
    ensures r.selectedSize.None? && r.quantity.None?
  {
    Item(p, Identifier(p), ItemImage(p), None, None)
  }

  /** The size guard: the product has sizes and none is selected. */
  predicate SizeMissing(p: Product, selectedSize: string)
  {
    |p.sizes| > 0 && selectedSize == ""
  }

  // ===========================================================================
  // Related products

  /** `products.filter(p => p.productId !== routeId)`. */
  function Exclude(products: seq<Product>, routeId: string): (r: seq<Product>)
    ensures |r| <= |products|
    ensures forall i :: 0 <= i < |r| ==> r[i] in products && r[i].productId != routeId
    ensures forall p :: p in products && p.productId != routeId ==> p in r
  {
    if products == [] then []
    else if products[0].productId != routeId then [products[0]] + Exclude(products[1..], routeId)
    else Exclude(products[1..], routeId)
  }

  /** Filtering a concatenation filters each part in place: the filter keeps
      the source order. */
  lemma {:induction false} ExcludeAppend(a: seq<Product>, b: seq<Product>, routeId: string)
    ensures Exclude(a + b, routeId) == Exclude(a, routeId) + Exclude(b, routeId)
  {
    if a == [] {
      assert a + b == b;
    } else {
      assert (a + b)[1..] == a[1..] + b;
      ExcludeAppend(a[1..], b, routeId);
    }
  }

  /** A product that is not the one on the page is kept; the one on the page
      is dropped. */
  lemma ExcludeOne(p: Product, routeId: string)
    ensures Exclude([p], routeId) == if p.productId != routeId then [p] else []
  {
    assert [p][1..] == [];
  }

  /** `.filter(...).slice(0, 4)`. */
  function Related(products: seq<Product>, routeId: string): (r: seq<Product>)
    ensures |r| == MinInt(RELATED_COUNT, |Exclude(products, routeId)|)
    ensures r == Exclude(products, routeId)[..|r|]
    ensures forall i :: 0 <= i < |r| ==> r[i] in products && r[i].productId != routeId
  {
    var kept := Exclude(products, routeId);
    if |kept| <= RELATED_COUNT then kept else kept[..RELATED_COUNT]
  }

  /** When fewer than five other products come back, all of them are shown. */
  lemma RelatedKeepsShortLists(products: seq<Product>, routeId: string)
    requires |products| <= RELATED_COUNT
    ensures Related(products, routeId) == Exclude(products, routeId)
  {
  }

  // ===========================================================================
  // The quantity stepper

  /** The `+` button: `quantity + 1`, disabled at ten. */
  function Incremented(q: int): (r: int)
    ensures 1 <= q <= MAX_QUANTITY ==> 1 <= r <= MAX_QUANTITY
    ensures q < MAX_QUANTITY ==> r == q + 1
    ensures q >= MAX_QUANTITY ==> r == q
  {
    if q >= MAX_QUANTITY then q else q + 1
  }

  /** The `-` button: `Math.max(1, quantity - 1)`, disabled at one. */
  function Decremented(q: int): (r: int)
    ensures 1 <= q <= MAX_QUANTITY ==> 1 <= r <= MAX_QUANTITY
    ensures q > 1 ==> r == q - 1
    ensures q <= 1 ==> r == q || r == 1
  {
    if q <= 1 then q else MaxInt(1, q - 1)
  }

  /** Below the cap, `-` undoes `+`; above one, `+` undoes `-`. */
  lemma StepperInverse(q: int)
    requires 1 <= q <= MAX_QUANTITY
    ensures q < MAX_QUANTITY ==> Decremented(Incremented(q)) == q
    ensures q > 1 ==> Incremented(Decremented(q)) == q
  {
  }

  /** `k` presses of `+`. */
  function PressIncrement(q: int, k: nat): (r: int)
    decreases k
  {
    if k == 0 then q else PressIncrement(Incremented(q), k - 1)
  }

  /** Pressing `+` climbs one step at a time and stops at the cap: from `q`,
      `k` presses give `min(q + k, 10)`. */
  lemma {:induction false} PressIncrementCaps(q: int, k: nat)
    requires 1 <= q <= MAX_QUANTITY
    ensures PressIncrement(q, k) == MinInt(q + k, MAX_QUANTITY)
    decreases k
  {
    if k > 0 {
      PressIncrementCaps(Incremented(q), k - 1);
    }
  }

  // ===========================================================================
  // The page

  /** What `GET /products/:id` gave: a product, a body without one, or an error. */
  datatype Fetch = Found(p: Product) | NotFound | Failed

  const PRODUCT_NOT_FOUND: string := "Product not found"
  const LOAD_FAILED: string := "Failed to load product details"

  class ProductPage {
    const routeId: string             // `useParams().productId`
    var product: Option<Product>
    var loading: bool
    var error: string
    var selectedSize: string
    var quantity: int
    var related: seq<Product>
    var alerts: seq<string>           // `alert(...)` messages shown
    const client: Client

    ghost predicate Valid()
      reads this
    {
      1 <= quantity <= MAX_QUANTITY
    }

    constructor (routeId: string, client: Client)
      ensures Valid()
      ensures this.routeId == routeId && this.client == client
      ensures product.None? && loading && error == "" && selectedSize == "" && quantity == 1
      ensures related == [] && alerts == []
    {
      this.routeId := routeId;
      this.client := client;
      product := None;
      loading := true;
      error := "";
      selectedSize := "";
      quantity := 1;
      related := [];
      alerts := [];
    }

    /** `fetchProductDetails`: a product with sizes preselects the first one. */
    method Load(result: Fetch)
      modifies this
      ensures !loading && quantity == old(quantity) && related == old(related) && alerts == old(alerts)
      ensures result.Found? ==> product == Some(result.p) && error == old(error)
      ensures result.Found? && |result.p.sizes| > 0 ==> selectedSize == result.p.sizes[0]
      ensures result.Found? && |result.p.sizes| == 0 ==> selectedSize == old(selectedSize)
      ensures result.NotFound? ==> product == old(product) && error == PRODUCT_NOT_FOUND && selectedSize == old(selectedSize)
      ensures result.Failed? ==> product == old(product) && error == LOAD_FAILED && selectedSize == old(selectedSize)
    {
      loading := true;
      match result {
        case Found(p) =>
          product := Some(p);
          if |p.sizes| > 0 {
            selectedSize := p.sizes[0];
          }
        case NotFound =>
          error := PRODUCT_NOT_FOUND;
        case Failed =>
          error := LOAD_FAILED;
      }
      loading := false;
    }

    /** `fetchRelatedProducts`: `products` is the list the category request
        returned, `None` when it failed or had none. */
    method LoadRelated(products: Option<seq<Product>>)
      modifies this`related
      ensures products.Some? ==> related == Related(products.value, routeId)
      ensures products.None? ==> related == old(related)
    {
      if products.Some? {
        related := Related(products.value, routeId);
      }
    }

    method SelectSize(size: string)
      requires product.Some? && size in product.value.sizes
      modifies this`selectedSize
      ensures selectedSize == size
    {
      selectedSize := size;
    }

    method Increment()
      requires Valid()
      modifies this`quantity
      ensures Valid() && quantity == Incremented(old(quantity))
    {
      if quantity < MAX_QUANTITY {
        quantity := quantity + 1;
      }
    }

    method Decrement()
      requires Valid()
      modifies this`quantity
      ensures Valid() && quantity == Decremented(old(quantity))
    {
      if quantity > 1 {
        quantity := MaxInt(1, quantity - 1);
      }
    }

    /** `handleAddToCart`. */
    method AddToCart()
      requires product.Some?
      modifies this`alerts, client
      ensures !old(client.authenticated) ==>
        client.State() == old(client.State()).(navigations := old(client.navigations) + ["/login"])
        && alerts == old(alerts)
      ensures old(client.authenticated) && SizeMissing(product.value, selectedSize) ==>
        client.State() == old(client.State()) && alerts == old(alerts) + [SELECT_SIZE]
      ensures old(client.authenticated) && !SizeMissing(product.value, selectedSize) ==>
        var item := CartItem(product.value, selectedSize, quantity);
        && client.State() == old(client.State()).(cart := old(client.cart) + {item.id},
             requests := old(client.requests) + [Request.AddToCart(item, None)])
        && alerts == old(alerts) + [ADDED_TO_CART]
    {
      if !client.authenticated {
        client.Navigate("/login");
        return;
      }
      if SizeMissing(product.value, selectedSize) {
        alerts := alerts + [SELECT_SIZE];
        return;
      }
      var item := CartItem(product.value, selectedSize, quantity);
      client.AddToCart(item, None);
      alerts := alerts + [ADDED_TO_CART];
    }

    /** `handleBuyNow`: adds with the quantity passed as well, then goes to
        the checkout. */
    method BuyNow()
      requires product.Some?
      modifies this`alerts, client
      ensures !old(client.authenticated) ==>
        client.State() == old(client.State()).(navigations := old(client.navigations) + ["/login"])
        && alerts == old(alerts)
      ensures old(client.authenticated) && SizeMissing(product.value, selectedSize) ==>
        client.State() == old(client.State()) && alerts == old(alerts) + [SELECT_SIZE]
      ensures old(client.authenticated) && !SizeMissing(product.value, selectedSize) ==>
        var item := CartItem(product.value, selectedSize, quantity);
        && client.State() == old(client.State()).(cart := old(client.cart) + {item.id},
             requests := old(client.requests) + [Request.AddToCart(item, Some(quantity))],
             navigations := old(client.navigations) + ["/checkout"])
        && alerts == old(alerts)
    {
      if !client.authenticated {
        client.Navigate("/login");
        return;
      }
      if SizeMissing(product.value, selectedSize) {
        alerts := alerts + [SELECT_SIZE];
        return;
      }
      var item := CartItem(product.value, selectedSize, quantity);
      client.AddToCart(item, Some(quantity));
      client.Navigate("/checkout");
    }

    /** `handleWishlistToggle`: no size is needed for the wishlist. */
    method WishlistToggle()
      requires product.Some?
      modifies client
      ensures !old(client.authenticated) ==>
        client.State() == old(client.State()).(navigations := old(client.navigations) + ["/login"])
      ensures old(client.authenticated) ==>
        var id := Identifier(product.value);
        && (id in client.wishlist <==> id !in old(client.wishlist))
        && client.wishlist - {id} == old(client.wishlist) - {id}
        && client.cart == old(client.cart) && client.navigations == old(client.navigations)
        && client.loginPrompts == old(client.loginPrompts) && client.authenticated
        && client.requests == old(client.requests) +
             [if id in old(client.wishlist) then RemoveFromWishlist(id) else AddToWishlist(WishlistItem(product.value))]
    {
      if !client.authenticated {
        client.Navigate("/login");
        return;
      }
      var id := Identifier(product.value);
      if id in client.wishlist {
        client.RemoveFromWishlist(id);
      } else {
        client.AddToWishlist(WishlistItem(product.value));
      }
    }

    /** `handleCartButton`: removes a product already in the cart, otherwise
        adds it once a size is chosen. */
    method CartButton()
      requires product.Some?
      modifies this`alerts, client
      ensures !old(client.authenticated) ==>
        client.State() == old(client.State()).(navigations := old(client.navigations) + ["/login"])
        && alerts == old(alerts)
      ensures old(client.authenticated) ==>
        var id := Identifier(product.value);
        && client.wishlist == old(client.wishlist) && client.navigations == old(client.navigations)
        && client.loginPrompts == old(client.loginPrompts) && client.authenticated
        && (id in old(client.cart) ==>
              client.cart == old(client.cart) - {id}
              && client.requests == old(client.requests) + [RemoveFromCart(id)] && alerts == old(alerts))
        && (id !in old(client.cart) && SizeMissing(product.value, selectedSize) ==>
              client.cart == old(client.cart) && client.requests == old(client.requests)
              && alerts == old(alerts) + [SELECT_SIZE])
        && (id !in old(client.cart) && !SizeMissing(product.value, selectedSize) ==>
              client.cart == old(client.cart) + {id}
              && client.requests == old(client.requests) + [Request.AddToCart(CartItem(product.value, selectedSize, quantity), None)]
              && alerts == old(alerts))
    {
      if !client.authenticated {
        client.Navigate("/login");
        return;
      }
      var id := Identifier(product.value);
      if id in client.cart {
        client.RemoveFromCart(id);
      } else {
        if SizeMissing(product.value, selectedSize) {
          alerts := alerts + [SELECT_SIZE];
          return;
        }
        client.AddToCart(CartItem(product.value, selectedSize, quantity), None);
      }
    }
  }
}
