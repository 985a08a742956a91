/** The navigation bar: the main (hamburger) menu, the two mobile dropdowns
    of which at most one is open, the login modal with the redirect path it
    leaves for the login page, and logging out. */
module Navbar {
  import opened Common
  import opened Session
  import Login

  datatype Menu = Clothing | Accessories

  /** `mobileDropdown`: which of the two dropdowns is expanded. */
  datatype Dropdowns = Dropdowns(clothing: bool, accessories: bool)
  {
    predicate IsOpen(m: Menu)
    {
      if m == Clothing then clothing else accessories
    }
  }

  const COLLAPSED: Dropdowns := Dropdowns(false, false)

  function Other(m: Menu): Menu
  {
    if m == Clothing then Accessories else Clothing
  }

  /** The state updater of `toggleDropdown(name)`: both closed, then `name`
      flipped from its previous value. */
  function Flip(prev: Dropdowns, m: Menu): (r: Dropdowns)
    ensures r.IsOpen(m) == !prev.IsOpen(m)
    ensures !r.IsOpen(Other(m))
    ensures !(r.clothing && r.accessories)
  {
    if m == Clothing then Dropdowns(!prev.clothing, false) else Dropdowns(false, !prev.accessories)
  }

  /** Flipping the same dropdown twice gives back any state in which the
      other one is closed, which is every state `Flip` leaves. */
  lemma FlipTwice(d: Dropdowns, m: Menu)
    requires !d.IsOpen(Other(m))
    ensures Flip(Flip(d, m), m) == d
  {
  }

  class Header {
    var isMenuOpen: bool
    var showUserMenu: bool
    var isSearchOpen: bool
    var isLoginOpen: bool
    var dropdowns: Dropdowns
    var storage: map<string, string>     // `localStorage`
    var adminLogouts: nat                // `adminLogout()` calls; the admin context is not part of this model
    const client: Client

    /** At most one dropdown is expanded. */
    ghost predicate Valid()
      reads this
    {
      !(dropdowns.clothing && dropdowns.accessories)
    }

    constructor (storage: map<string, string>, client: Client)
      ensures Valid()
      ensures !isMenuOpen && !showUserMenu && !isSearchOpen && !isLoginOpen && dropdowns == COLLAPSED
      ensures this.storage == storage && adminLogouts == 0 && this.client == client
    {
      isMenuOpen := false;
      showUserMenu := false;
      isSearchOpen := false;
      isLoginOpen := false;
      dropdowns := COLLAPSED;
      this.storage := storage;
      adminLogouts := 0;
      this.client := client;
    }

    /** `toggleMenu`: flips the menu, and collapses both dropdowns when the
        menu was open. */
    method ToggleMenu()
      requires Valid()
      modifies this`isMenuOpen, this`dropdowns
      ensures Valid()
      ensures isMenuOpen == !old(isMenuOpen)
      ensures dropdowns == if old(isMenuOpen) then COLLAPSED else old(dropdowns)
    {
      var wasOpen := isMenuOpen;
      isMenuOpen := !isMenuOpen;
      if wasOpen {
        dropdowns := COLLAPSED;
      }
    }

    /** `toggleDropdown(name)`: on a mobile screen the named dropdown flips
        and the other closes; otherwise nothing changes. */
    method ToggleDropdown(m: Menu, mobile: bool)
      requires Valid()
      modifies this`dropdowns
      ensures Valid()
      ensures mobile ==> dropdowns.IsOpen(m) == !old(dropdowns.IsOpen(m)) && !dropdowns.IsOpen(Other(m))
      ensures !mobile ==> dropdowns == old(dropdowns)
    {
      if mobile {
        dropdowns := Flip(dropdowns, m);
      }
    }

    /** `closeMenuAndCollapse`, run by every menu link. */
    method CloseMenuAndCollapse()
      modifies this`isMenuOpen, this`dropdowns
      ensures Valid()
      ensures !isMenuOpen && dropdowns == COLLAPSED
    {
      isMenuOpen := false;
      dropdowns := COLLAPSED;
    }

    /** The logo, wishlist, cart and user-menu links: the menu closes, the
        dropdowns stay as they are. */
    method CloseMenu()
      modifies this`isMenuOpen
      ensures !isMenuOpen
    {
      isMenuOpen := false;
    }

    method OpenSearch()
      modifies this`isSearchOpen
      ensures isSearchOpen
    {
      isSearchOpen := true;
    }

    method CloseSearch()
      modifies this`isSearchOpen
      ensures !isSearchOpen
    {
      isSearchOpen := false;
    }

    /** The `open-login-modal` event listener. */
    method LoginPrompted()
      modifies this`isLoginOpen
      ensures isLoginOpen
    {
      isLoginOpen := true;
    }

    method CloseLogin()
      modifies this`isLoginOpen
      ensures !isLoginOpen
    {
      isLoginOpen := false;
    }

    /** `handleLoginClick` on the page at `pathname` with query `search`:
        remembers the page for the login page to return to (unless it is the
        login page itself), closes the menu and opens the login modal. */
    method LoginClick(pathname: string, search: string)
      modifies this`storage, this`isMenuOpen, this`isLoginOpen
      ensures !isMenuOpen && isLoginOpen
      ensures pathname != "/login" ==> storage == old(storage)[Login.REDIRECT_SLOT := pathname + search]
      ensures pathname != "/login" ==> Login.RedirectTarget(storage) == Or(pathname + search, "/")
      ensures pathname == "/login" ==> storage == old(storage)
    {
      if pathname != "/login" {
        storage := storage[Login.REDIRECT_SLOT := pathname + search];
      }
      isMenuOpen := false;
      isLoginOpen := true;
    }

    /** `handleLogout`: an administrator is logged out of the admin context
        only; anyone else is logged out and sent home. The user menu and the
        main menu close either way. */
    method Logout(isAdmin: bool)
      modifies this`adminLogouts, this`showUserMenu, this`isMenuOpen, client
      ensures !showUserMenu && !isMenuOpen
      ensures isAdmin ==> adminLogouts == old(adminLogouts) + 1 && client.State() == old(client.State())
      ensures !isAdmin ==>
        && adminLogouts == old(adminLogouts)
        && client.State() == old(client.State()).(authenticated := false, navigations := old(client.navigations) + ["/"])
    {
      if isAdmin {
        adminLogouts := adminLogouts + 1;
      } else {
        client.LogOut();
        client.Navigate("/");
      }
      showUserMenu := false;
      isMenuOpen := false;
    }
  }
}
