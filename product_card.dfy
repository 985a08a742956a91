/** The product card of the listings: the normalised product it hands to the
    cart and the wishlist (filed under `_id` first, unlike the details page),
    the image carousel, and the click handlers of the card and of its
    quick-view dialog, which raise the login modal instead of acting when
    nobody is logged in. */
module ProductCard {
  import opened Common
  import opened Catalog
  import opened Session
  import ImageUrl
  import ProductDetails

  const LOGIN_FOR_WISHLIST: string := "Please login to add items to your wishlist."
  const LOGIN_FOR_CART: string := "Please login to add items to your cart."
  const LOGIN_TO_BUY: string := "Please login to buy now."
  const ADD_FAILED: string := "Failed to add to cart. Please try again."

  /** `product._id || product.productId || product.id`. */
  function CardId(p: Product): (r: string)
    ensures p.mongoId != "" ==> r == p.mongoId
    ensures p.mongoId == "" && p.productId != "" ==> r == p.productId
    ensures p.mongoId == "" && p.productId == "" ==> r == p.id
  {
    Or(p.mongoId, Or(p.productId, p.id))
  }

  /** `getNormalizedProduct()`. */
  function Normalize(p: Product): (r: Item)
    ensures r.product == p && r.id == CardId(p) && r.image == ItemImage(p)
    ensures r.selectedSize.None? && r.quantity.None?
  {
    Item(p, CardId(p), ItemImage(p), None, None)
  }

  /** `prod._id || prod.productId || prod.id` for the object the quick-view
      dialog hands back: the spread product's own ids come before the `id`
      the card gave it. */
  function SpreadId(item: Item): string
  {
    Or(item.product.mongoId, Or(item.product.productId, item.id))
  }

  /** The quick-view handlers find the card's own product under the id the
      card filed it under. */
  lemma SpreadIdOfNormalized(p: Product)
    ensures SpreadId(Normalize(p)) == Normalize(p).id
  {
  }

  /** The card and the details page file a product under the same id exactly
      when it has no `_id`, or its `_id` is the id the details page picks
      (`productId`, or else a non-empty `id`). */
  lemma IdPrecedenceDiffers(p: Product)
    ensures CardId(p) == ProductDetails.Identifier(p) <==>
      || p.mongoId == ""
      || (p.productId != "" && p.mongoId == p.productId)
      || (p.productId == "" && (p.id == "" || p.id == p.mongoId))
  {
  }

  /** `imagesRaw`: the `images` array when it is non-empty, else the single
      `image`, else nothing. */
  function RawImages(p: Product): (r: seq<string>)
    ensures p.images.Some? && |p.images.value| > 0 ==> r == p.images.value
    ensures !(p.images.Some? && |p.images.value| > 0) ==> r == if p.image != "" then [p.image] else []
    ensures |r| == 0 <==> (p.images.None? || |p.images.value| == 0) && p.image == ""
  {
    if p.images.Some? && |p.images.value| > 0 then p.images.value
    else if p.image != "" then [p.image]
    else []
  }

  /** `imagesRaw.map(resolveImageUrl)`. */
  function Images(base: string, p: Product): (r: seq<string>)
    ensures |r| == |RawImages(p)|
    ensures forall i :: 0 <= i < |r| ==> r[i] == ImageUrl.Resolve(base, ImageUrl.Text(RawImages(p)[i])) && r[i] != ""
  {
    var raw := RawImages(p);
    seq(|raw|, i requires 0 <= i < |raw| => ImageUrl.Resolve(base, ImageUrl.Text(raw[i])))
  }

  /** The carousel starts with the image the cart entry carries exactly when
      the product has no non-empty `images` array, has no `image`, or its
      `image` is the first of `images`: a product with `image` "a.jpg" and
      `images` ["b.jpg"] shows "b.jpg" first but stores "a.jpg". */
  lemma FirstImageIsItemImage(p: Product)
    requires RawImages(p) != []
    ensures RawImages(p)[0] == ItemImage(p) <==>
      !(p.images.Some? && |p.images.value| > 0) || p.image == "" || p.image == p.images.value[0]
  {
  }

  class Card {
    const product: Product
    const images: seq<string>
    var current: int                  // `currentImage`
    var hovered: bool
    var dialogOpen: bool
    var dialogMessage: string
    const client: Client

    /** The shown picture is one of the images. */
    ghost predicate Valid()
      reads this
    {
      0 <= current && (current == 0 || current < |images|)
    }

    constructor (product: Product, base: string, client: Client)
      ensures Valid()
      ensures this.product == product && images == Images(base, product) && this.client == client
      ensures current == 0 && !hovered && !dialogOpen && dialogMessage == ""
    {
      this.product := product;
      images := Images(base, product);
      this.client := client;
      current := 0;
      hovered := false;
      dialogOpen := false;
      dialogMessage := "";
    }

    /** `goToNext`; the arrows are shown only for two images or more. */
    method GoToNext()
      requires Valid() && |images| > 1
      modifies this`current
      ensures Valid() && current == NextIndex(old(current), |images|)
    {
      current := (current + 1) % |images|;
    }

    /** `goToPrev`. */
    method GoToPrev()
      requires Valid() && |images| > 1
      modifies this`current
      ensures Valid() && current == PrevIndex(old(current), |images|)
    {
      current := (current - 1 + |images|) % |images|;
    }

    method MouseEnter()
      modifies this`hovered
      ensures hovered
    {
      hovered := true;
    }

    method MouseLeave()
      modifies this`hovered
      ensures !hovered
    {
      hovered := false;
    }

    /** The hover timer firing after five seconds: it only runs while the card
        is hovered and has two images or more. */
    method HoverElapsed()
      requires Valid()
      modifies this`current
      ensures Valid()
      ensures current == if hovered && |images| > 1 then NextIndex(old(current), |images|) else old(current)
    {
      if hovered && |images| > 1 {
        current := (current + 1) % |images|;
      }
    }

    /** The warning shown, with the login modal, to a visitor who is not
        logged in. */
    method AskToLogIn(message: string)
      modifies this`dialogOpen, this`dialogMessage, client
      ensures dialogOpen && dialogMessage == message
      ensures client.State() == old(client.State()).(loginPrompts := old(client.loginPrompts) + 1)
    {
      dialogMessage := message;
      dialogOpen := true;
      client.PromptLogin();
    }

    /** `handleWishlistClick`. */
    method WishlistClick()
      modifies this`dialogOpen, this`dialogMessage, client
      ensures !old(client.authenticated) ==>
        && dialogOpen && dialogMessage == LOGIN_FOR_WISHLIST
        && client.State() == old(client.State()).(loginPrompts := old(client.loginPrompts) + 1)
      ensures old(client.authenticated) ==>
        var item := Normalize(product);
        && dialogOpen == old(dialogOpen) && dialogMessage == old(dialogMessage)
        && (item.id in client.wishlist <==> item.id !in old(client.wishlist))
        && client.State() == old(client.State()).(
             wishlist := if item.id in old(client.wishlist) then old(client.wishlist) - {item.id} else old(client.wishlist) + {item.id},
             requests := old(client.requests) +
               [if item.id in old(client.wishlist) then RemoveFromWishlist(item.id) else AddToWishlist(item)])
    {
      if !client.authenticated {
        AskToLogIn(LOGIN_FOR_WISHLIST);
        return;
      }
      var item := Normalize(product);
      if item.id in client.wishlist {
        client.RemoveFromWishlist(item.id);
      } else {
        client.AddToWishlist(item);
      }
    }

    /** `handleCartClick`: adds without a quantity. */
    method CartClick()
      modifies this`dialogOpen, this`dialogMessage, client
      ensures !old(client.authenticated) ==>
        && dialogOpen && dialogMessage == LOGIN_FOR_CART
        && client.State() == old(client.State()).(loginPrompts := old(client.loginPrompts) + 1)
      ensures old(client.authenticated) ==>
        var item := Normalize(product);
        && dialogOpen == old(dialogOpen) && dialogMessage == old(dialogMessage)
        && (item.id in client.cart <==> item.id !in old(client.cart))
        && client.State() == old(client.State()).(
             cart := if item.id in old(client.cart) then old(client.cart) - {item.id} else old(client.cart) + {item.id},
             requests := old(client.requests) +
               [if item.id in old(client.cart) then RemoveFromCart(item.id) else Request.AddToCart(item, None)])
    {
      if !client.authenticated {
        AskToLogIn(LOGIN_FOR_CART);
        return;
      }
      var item := Normalize(product);
      if item.id in client.cart {
        client.RemoveFromCart(item.id);
      } else {
        client.AddToCart(item, None);
      }
    }

    /** The dialog's `onBuyNow(prod, quantity)`. `succeeded` is what the
        awaited store call resolved to. */
    method QuickBuyNow(prod: Item, quantity: int, succeeded: bool)
      modifies this`dialogOpen, this`dialogMessage, client
      ensures !old(client.authenticated) ==>
        && dialogOpen && dialogMessage == LOGIN_TO_BUY
        && client.State() == old(client.State()).(loginPrompts := old(client.loginPrompts) + 1)
      ensures old(client.authenticated) ==>
        var id := SpreadId(prod);
        && client.authenticated && client.wishlist == old(client.wishlist)
        && client.loginPrompts == old(client.loginPrompts)
        && client.requests == old(client.requests) +
             [if id in old(client.cart) then UpdateQuantity(id, quantity) else Request.AddToCart(prod, Some(quantity))]
        && client.cart == (if id in old(client.cart) then old(client.cart) else old(client.cart) + {prod.id})
        && (succeeded ==>
              client.navigations == old(client.navigations) + ["/checkout"]
              && dialogOpen == old(dialogOpen) && dialogMessage == old(dialogMessage))
        && (!succeeded ==>
              client.navigations == old(client.navigations) && dialogOpen && dialogMessage == ADD_FAILED)
    {
      if !client.authenticated {
        AskToLogIn(LOGIN_TO_BUY);
        return;
      }
      var id := SpreadId(prod);
      if id in client.cart {
        client.UpdateQuantity(id, quantity);
      } else {
        client.AddToCart(prod, Some(quantity));
      }
      if succeeded {
        client.Navigate("/checkout");
      } else {
        dialogMessage := ADD_FAILED;
        dialogOpen := true;
      }
    }

    /** The dialog's `onAddToCart(prod, quantity)`. */
    method QuickAddToCart(prod: Item, quantity: int)
      modifies this`dialogOpen, this`dialogMessage, client
      ensures !old(client.authenticated) ==>
        && dialogOpen && dialogMessage == LOGIN_FOR_CART
        && client.State() == old(client.State()).(loginPrompts := old(client.loginPrompts) + 1)
      ensures old(client.authenticated) ==>
        var id := SpreadId(prod);
        && dialogOpen == old(dialogOpen) && dialogMessage == old(dialogMessage)
        && (prod.id == id ==> (id in client.cart <==> id !in old(client.cart)))
        && client.State() == old(client.State()).(
             cart := if id in old(client.cart) then old(client.cart) - {id} else old(client.cart) + {prod.id},
             requests := old(client.requests) +
               [if id in old(client.cart) then RemoveFromCart(id) else Request.AddToCart(prod, Some(quantity))])
    {
      if !client.authenticated {
        AskToLogIn(LOGIN_FOR_CART);
        return;
      }
      var id := SpreadId(prod);
      if id in client.cart {
        client.RemoveFromCart(id);
      } else {
        client.AddToCart(prod, Some(quantity));
      }
    }

    /** The dialog's `onWishlistToggle(prod)`. */
    method QuickWishlistToggle(prod: Item)
      modifies this`dialogOpen, this`dialogMessage, client
      ensures !old(client.authenticated) ==>
        && dialogOpen && dialogMessage == LOGIN_FOR_WISHLIST
        && client.State() == old(client.State()).(loginPrompts := old(client.loginPrompts) + 1)
      ensures old(client.authenticated) ==>
        var id := SpreadId(prod);
        && dialogOpen == old(dialogOpen) && dialogMessage == old(dialogMessage)
        && (prod.id == id ==> (id in client.wishlist <==> id !in old(client.wishlist)))
        && client.State() == old(client.State()).(
             wishlist := if id in old(client.wishlist) then old(client.wishlist) - {id} else old(client.wishlist) + {prod.id},
             requests := old(client.requests) +
               [if id in old(client.wishlist) then RemoveFromWishlist(id) else AddToWishlist(prod)])
    {
      if !client.authenticated {
        AskToLogIn(LOGIN_FOR_WISHLIST);
        return;
      }
      var id := SpreadId(prod);
      if id in client.wishlist {
        client.RemoveFromWishlist(id);
      } else {
        client.AddToWishlist(prod);
      }
    }
  }
}
