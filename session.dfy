/** The client-held state the pages act on: authentication, the cart and the
    wishlist (whose implementations are not part of this model), the router's
    navigation history and the shared "open the login modal" signal.

    The cart and the wishlist are kept as sets of ids, which is all the pages
    rely on (`isInCart`, `isInWishlist`); every call a page makes on them is
    appended to `requests`, so a handler's effect on the stores is visible
    exactly, including the quantities it passes. */
module Session {
  import opened Common
  import opened Catalog

  datatype Request =
    | AddToCart(item: Item, addQuantity: Option<int>)   // `addToCart(item)`, `addToCart(item, q)`
    | RemoveFromCart(id: string)
    | UpdateQuantity(id: string, quantity: int)
    | ClearCart
    | AddToWishlist(item: Item)
    | RemoveFromWishlist(id: string)

  /** Everything a `Client` holds, as one value. */
  datatype Snapshot = Snapshot(
    authenticated: bool, cart: set<string>, wishlist: set<string>,
    requests: seq<Request>, navigations: seq<string>, loginPrompts: nat)

  class Client {
    var authenticated: bool
    var cart: set<string>
    var wishlist: set<string>
    var requests: seq<Request>
    var navigations: seq<string>
    var loginPrompts: nat          // `open-login-modal` events dispatched

    function State(): Snapshot
      reads this
    {
      Snapshot(authenticated, cart, wishlist, requests, navigations, loginPrompts)
    }

    constructor (authenticated: bool, cart: set<string>, wishlist: set<string>)
      ensures this.authenticated == authenticated && this.cart == cart && this.wishlist == wishlist
      ensures requests == [] && navigations == [] && loginPrompts == 0
    {
      this.authenticated := authenticated;
      this.cart := cart;
      this.wishlist := wishlist;
      requests := [];
      navigations := [];
      loginPrompts := 0;
    }

    method AddToCart(item: Item, quantity: Option<int>)
      modifies this
      ensures cart == old(cart) + {item.id}
      ensures requests == old(requests) + [Request.AddToCart(item, quantity)]
      ensures wishlist == old(wishlist) && authenticated == old(authenticated)
      ensures navigations == old(navigations) && loginPrompts == old(loginPrompts)
    {
      cart := cart + {item.id};
      requests := requests + [Request.AddToCart(item, quantity)];
    }

    method RemoveFromCart(id: string)
      modifies this
      ensures cart == old(cart) - {id}
      ensures requests == old(requests) + [Request.RemoveFromCart(id)]
      ensures wishlist == old(wishlist) && authenticated == old(authenticated)
      ensures navigations == old(navigations) && loginPrompts == old(loginPrompts)
    {
      cart := cart - {id};
      requests := requests + [Request.RemoveFromCart(id)];
    }

    method UpdateQuantity(id: string, quantity: int)
      modifies this
      ensures cart == old(cart)
      ensures requests == old(requests) + [Request.UpdateQuantity(id, quantity)]
      ensures wishlist == old(wishlist) && authenticated == old(authenticated)
      ensures navigations == old(navigations) && loginPrompts == old(loginPrompts)
    {
      requests := requests + [Request.UpdateQuantity(id, quantity)];
    }

    method ClearCart()
      modifies this
      ensures cart == {}
      ensures requests == old(requests) + [Request.ClearCart]
      ensures wishlist == old(wishlist) && authenticated == old(authenticated)
      ensures navigations == old(navigations) && loginPrompts == old(loginPrompts)
    {
      cart := {};
      requests := requests + [Request.ClearCart];
    }

    method AddToWishlist(item: Item)
      modifies this
      ensures wishlist == old(wishlist) + {item.id}
      ensures requests == old(requests) + [Request.AddToWishlist(item)]
      ensures cart == old(cart) && authenticated == old(authenticated)
      ensures navigations == old(navigations) && loginPrompts == old(loginPrompts)
    {
      wishlist := wishlist + {item.id};
      requests := requests + [Request.AddToWishlist(item)];
    }

    method RemoveFromWishlist(id: string)
      modifies this
      ensures wishlist == old(wishlist) - {id}
      ensures requests == old(requests) + [Request.RemoveFromWishlist(id)]
      ensures cart == old(cart) && authenticated == old(authenticated)
      ensures navigations == old(navigations) && loginPrompts == old(loginPrompts)
    {
      wishlist := wishlist - {id};
      requests := requests + [Request.RemoveFromWishlist(id)];
    }

    method Navigate(path: string)
      modifies this
      ensures navigations == old(navigations) + [path]
      ensures cart == old(cart) && wishlist == old(wishlist) && authenticated == old(authenticated)
      ensures requests == old(requests) && loginPrompts == old(loginPrompts)
    {
      navigations := navigations + [path];
    }

    /** `window.dispatchEvent(new CustomEvent('open-login-modal'))`. */
    method PromptLogin()
      modifies this
      ensures loginPrompts == old(loginPrompts) + 1
      ensures cart == old(cart) && wishlist == old(wishlist) && authenticated == old(authenticated)
      ensures requests == old(requests) && navigations == old(navigations)
    {
      loginPrompts := loginPrompts + 1;
    }

    /** `login(user)` from the authentication context. */
    method LogIn()
      modifies this
      ensures authenticated
      ensures cart == old(cart) && wishlist == old(wishlist) && requests == old(requests)
      ensures navigations == old(navigations) && loginPrompts == old(loginPrompts)
    {
      authenticated := true;
    }

    /** `logout()` from the authentication context. */
    method LogOut()
      modifies this
      ensures !authenticated
      ensures cart == old(cart) && wishlist == old(wishlist) && requests == old(requests)
      ensures navigations == old(navigations) && loginPrompts == old(loginPrompts)
    {
      authenticated := false;
    }
  }
}
