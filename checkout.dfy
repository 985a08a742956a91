/** The checkout page: the delivery address it starts from, the edit handler
    that keeps the joined address line in step with the two line fields, the
    two required-field checks, and the order placement that follows them.
    Network requests and the payment gateway are outcomes passed in. */
module Checkout {
  import opened Common
  import opened Session

  datatype Field =
    | Name | Email | Phone | AddressLine1 | AddressLine2 | AddressLine
    | DoorNo | Landmark | Pincode | City | State | Country

  datatype Address = Address(
    name: string, email: string, phone: string,
    addressLine1: string, addressLine2: string, addressLine: string,
    doorNo: string, landmark: string, pincode: string,
    city: string, state: string, country: string)

  function Get(a: Address, f: Field): string
  {
    match f
    case Name => a.name
    case Email => a.email
    case Phone => a.phone
    case AddressLine1 => a.addressLine1
    case AddressLine2 => a.addressLine2
    case AddressLine => a.addressLine
    case DoorNo => a.doorNo
    case Landmark => a.landmark
    case Pincode => a.pincode
    case City => a.city
    case State => a.state
    case Country => a.country
  }

  /** `{...a, [f]: v}`. */
  function Put(a: Address, f: Field, v: string): (r: Address)
    ensures Get(r, f) == v
    ensures forall g :: g != f ==> Get(r, g) == Get(a, g)
  {
    match f
    case Name => a.(name := v)
    case Email => a.(email := v)
    case Phone => a.(phone := v)
    case AddressLine1 => a.(addressLine1 := v)
    case AddressLine2 => a.(addressLine2 := v)
    case AddressLine => a.(addressLine := v)
    case DoorNo => a.(doorNo := v)
    case Landmark => a.(landmark := v)
    case Pincode => a.(pincode := v)
    case City => a.(city := v)
    case State => a.(state := v)
    case Country => a.(country := v)
  }

  /** `[l1, l2].filter(Boolean).join(', ')`. */
  function JoinLines(l1: string, l2: string): (r: string)
    ensures r == "" <==> l1 == "" && l2 == ""
  {
    if l1 != "" && l2 != "" then l1 + ", " + l2 else l1 + l2
  }

  /** The joined line starts with the first line and ends with the second;
      when both are present a two-character separator lies between them. */
  lemma JoinLinesShape(l1: string, l2: string)
    ensures var r := JoinLines(l1, l2);
      && StartsWith(r, l1)
      && |l2| <= |r| && r[|r| - |l2|..] == l2
      && |r| == |l1| + |l2| + (if l1 != "" && l2 != "" then 2 else 0)
      && (l1 != "" && l2 != "" ==> r[|l1|..|l1| + 2] == ", ")
  {
    var r := JoinLines(l1, l2);
    if l1 != "" && l2 != "" {
      assert r[..|l1|] == l1;
      assert r[|r| - |l2|..] == l2;
    } else {
      assert r[..|l1|] == l1;
      assert r[|r| - |l2|..] == l2;
    }
  }

  /** The joined line agrees with the two line fields. */
  ghost predicate LinesJoined(a: Address)
  {
    a.addressLine == JoinLines(a.addressLine1, a.addressLine2)
  }

  // ===========================================================================
  // The starting address

  /** The address stored on the user's profile. `pincode` is `None` when it is
      `undefined` or `null`. */
  datatype StoredAddress = StoredAddress(
    addressLine1: string, addressLine2: string, addressLine: string,
    doorNo: string, landmark: string, pincode: Option<string>, postalCode: string,
    city: string, state: string, country: string)

  datatype User = User(name: string, email: string, mobile: string, address: Option<StoredAddress>)

  /** The first value of the `address` state. */
  function InitialAddress(user: Option<User>): (a: Address)
    ensures user.None? ==> forall f :: Get(a, f) == ""
    ensures user.Some? ==> a.name == user.value.name && a.email == user.value.email && a.phone == user.value.mobile
    ensures user.Some? && user.value.address.None? ==>
      forall f :: f != Name && f != Email && f != Phone ==> Get(a, f) == ""
    ensures user.Some? && user.value.address.Some? ==>
      var s := user.value.address.value;
      && a.addressLine1 == s.addressLine1 && a.addressLine2 == s.addressLine2 && a.addressLine == s.addressLine
      && a.doorNo == s.doorNo && a.landmark == s.landmark
      && a.city == s.city && a.state == s.state && a.country == s.country
      && a.pincode == if s.pincode.Some? then s.pincode.value else s.postalCode
  {
    var name := if user.Some? then user.value.name else "";
    var email := if user.Some? then user.value.email else "";
    var phone := if user.Some? then user.value.mobile else "";
    if user.Some? && user.value.address.Some? then
      var s := user.value.address.value;
      Address(name, email, phone, s.addressLine1, s.addressLine2, s.addressLine, s.doorNo, s.landmark,
              if s.pincode.Some? then s.pincode.value else s.postalCode, s.city, s.state, s.country)
    else
      Address(name, email, phone, "", "", "", "", "", "", "", "", "")
  }

  /** A stored empty pincode is kept: only a missing one falls back to the
      postal code. */
  lemma EmptyPincodeKept(user: User, s: StoredAddress)
    requires user.address == Some(s) && s.pincode == Some("") && s.postalCode != ""
    ensures InitialAddress(Some(user)).pincode == ""
  {
  }

  /** The address after the effect that runs right after the first render
      and again whenever `user` changes: with a stored address it becomes
      `{name, email, phone, ...user.address}`, which has no pincode fallback,
      so a missing pincode stays missing; without one it is left as it is. */
  function ProfileAddress(user: Option<User>, current: Address): (a: Address)
    ensures user.None? || user.value.address.None? ==> a == current
    ensures user.Some? && user.value.address.Some? ==>
      var s := user.value.address.value;
      && a.name == user.value.name && a.email == user.value.email && a.phone == user.value.mobile
      && a.addressLine1 == s.addressLine1 && a.addressLine2 == s.addressLine2 && a.addressLine == s.addressLine
      && a.doorNo == s.doorNo && a.landmark == s.landmark
      && a.city == s.city && a.state == s.state && a.country == s.country
      && a.pincode == if s.pincode.Some? then s.pincode.value else ""
  {
    if user.Some? && user.value.address.Some? then
      var s := user.value.address.value;
      Address(user.value.name, user.value.email, user.value.mobile, s.addressLine1, s.addressLine2, s.addressLine,
              s.doorNo, s.landmark, if s.pincode.Some? then s.pincode.value else "", s.city, s.state, s.country)
    else current
  }

  /** When the stored pincode is present, the effect reproduces the first
      address exactly; the two differ only in the pincode fallback. */
  lemma ProfileAddressAgrees(user: User, current: Address)
    ensures user.address.None? ==> ProfileAddress(Some(user), current) == current
    ensures user.address.Some? && user.address.value.pincode.Some? ==>
      ProfileAddress(Some(user), current) == InitialAddress(Some(user))
    ensures user.address.Some? ==>
      (ProfileAddress(Some(user), current).pincode != InitialAddress(Some(user)).pincode <==>
       user.address.value.pincode.None? && user.address.value.postalCode != "")
  {
  }

  /** A stored address with only a postal code starts with that code as its
      pincode, but once the effect has run the form reports the pincode as
      missing. */
  lemma PostalCodeLostAfterEffect(user: User, s: StoredAddress)
    requires user.address == Some(s) && s.pincode.None? && s.postalCode != ""
    ensures InitialAddress(Some(user)).pincode == s.postalCode
    ensures !Complete(ProfileAddress(Some(user), InitialAddress(Some(user))), FormCheck)
  {
    assert Required(FormCheck, Pincode);
  }

  // ===========================================================================
  // Editing

  /** The inputs the form renders: every field but the joined line. */
  predicate Editable(f: Field)
  {
    f != AddressLine
  }

  /** `handleAddressChange` for the input named `f`. */
  function ChangeField(a: Address, f: Field, value: string): (r: Address)
    requires Editable(f)
    ensures Get(r, f) == value
    ensures forall g :: g != f && g != AddressLine ==> Get(r, g) == Get(a, g)
    ensures LinesJoined(r)
  {
    var b := Put(a, f, value);
    b.(addressLine := JoinLines(b.addressLine1, b.addressLine2))
  }

  /** Once edited, an address keeps its joined line in step for good, and an
      edit that changes neither line leaves that line as it was. */
  lemma ChangeFieldKeepsJoin(a: Address, f: Field, value: string)
    requires Editable(f) && LinesJoined(a) && f != AddressLine1 && f != AddressLine2
    ensures ChangeField(a, f, value).addressLine == a.addressLine
  {
  }

  // ===========================================================================
  // Required-field checks

  /** The two required-field checks: `validate`, and the one in `handlePlaceOrder`. */
  datatype Check = FormCheck | OrderCheck

  /** The fields a check tests, in the order it tests them: ten for
      `validate`, and those ten with the first address line for the order. */
  function Fields(c: Check): seq<Field>
  {
    match c
    case FormCheck => [Name, Email, Phone, DoorNo, Landmark, Pincode, AddressLine, City, State, Country]
    case OrderCheck => [Name, Email, Phone, DoorNo, Landmark, Pincode, AddressLine1, AddressLine, City, State, Country]
  }

  /** Neither check tests the second line; only the order check tests the first. */
  predicate Required(c: Check, f: Field)
  {
    f != AddressLine2 && (f != AddressLine1 || c == OrderCheck)
  }

  lemma FieldsRequired(c: Check)
    ensures forall f :: f in Fields(c) <==> Required(c, f)
  {
  }

  /** Every field the check requires is filled. */
  ghost predicate Complete(a: Address, c: Check)
  {
    forall f :: Required(c, f) ==> Get(a, f) != ""
  }

  function Message(f: Field): string
  {
    match f
    case Name => "Name required"
    case Email => "Email required"
    case Phone => "Phone required"
    case AddressLine1 => "Address Line 1 required"
    case AddressLine2 => "Address Line 2 required"
    case AddressLine => "Address required"
    case DoorNo => "Door No required"
    case Landmark => "Landmark required"
    case Pincode => "Pincode required"
    case City => "City required"
    case State => "State required"
    case Country => "Country required"
  }

  /** `errs` has exactly the empty fields the check requires, each with its message. */
  ghost predicate ErrorsFor(a: Address, c: Check, errs: map<Field, string>)
  {
    && (forall f :: f in errs ==> Required(c, f) && Get(a, f) == "" && errs[f] == Message(f))
    && (forall f :: Required(c, f) && Get(a, f) == "" ==> f in errs)
  }

  /** The `errs` map a check builds, one `if (!a.f) errs.f = message` per
      field it tests. */
  method RequiredErrors(a: Address, c: Check) returns (errs: map<Field, string>)
    ensures ErrorsFor(a, c, errs)
    ensures |errs| == 0 <==> Complete(a, c)
  {
    var fields := Fields(c);
    errs := map[];
    for i := 0 to |fields|
      invariant forall f :: f in errs ==> f in fields[..i] && Get(a, f) == "" && errs[f] == Message(f)
      invariant forall f :: f in fields[..i] && Get(a, f) == "" ==> f in errs
    {
      assert fields[..i + 1] == fields[..i] + [fields[i]];
      if Get(a, fields[i]) == "" {
        errs := errs[fields[i] := Message(fields[i])];
      }
    }
    assert fields[..|fields|] == fields;
    FieldsRequired(c);
    EmptyMapHasNoKeys(errs);
  }

  lemma EmptyMapHasNoKeys(m: map<Field, string>)
    ensures |m| == 0 <==> forall f :: f !in m
  {
    if |m| != 0 {
      var f :| f in m.Keys;
    }
  }

  /** `backendAddress`: the form's fields, with the joined line recomputed
      from the two line fields. */
  function BackendAddress(a: Address): (b: Address)
    ensures LinesJoined(b)
    ensures forall f :: f != AddressLine ==> Get(b, f) == Get(a, f)
  {
    a.(addressLine := JoinLines(a.addressLine1, a.addressLine2))
  }

  /** For an address whose joined line is in step, the backend address is the
      address itself. */
  lemma BackendOfJoined(a: Address)
    requires LinesJoined(a)
    ensures BackendAddress(a) == a
  {
  }

  /** The order check passes exactly when the ten form fields are filled and
      the first line is too; its joined-line test is then always met. */
  lemma OrderCheckAddsFirstLine(a: Address)
    ensures Complete(BackendAddress(a), OrderCheck) <==> Complete(BackendAddress(a), FormCheck) && a.addressLine1 != ""
    ensures a.addressLine1 != "" ==> BackendAddress(a).addressLine != ""
  {
    var b := BackendAddress(a);
    if Complete(b, OrderCheck) {
      assert Required(OrderCheck, AddressLine1);
    }
  }

  // ===========================================================================
  // Placing the order

  /** What the payment gateway did: the script failed to load, the payment
      window was dismissed, or the payment succeeded with this id. */
  datatype Gateway = ScriptFailed | Dismissed | Paid(paymentId: string)

  /** What the order request did: stored, answered with a failure status, or
      threw an error with this message (`""` when it has none). */
  datatype OrderOutcome = Saved | NotOk | Threw(message: string)

  datatype OrderRequest = OrderRequest(address: Address, status: string, paymentId: Option<string>, paymentMethod: string)

  const INCOMPLETE_ADDRESS: string := "Please fill all required address fields."
  const SDK_FAILED: string := "Razorpay SDK failed to load."
  const PAYMENT_CANCELLED: string := "Payment failed or was cancelled. Please try again."
  const ORDER_NOT_SAVED: string := "Order not saved"
  const ORDER_FAILED: string := "Order placement failed. Please contact support."

  /** Whether an order request is made, and with which status and payment id. */
  function OrderStatus(paymentMethod: string, gateway: Gateway): Option<(string, Option<string>)>
  {
    if paymentMethod == "card" then
      match gateway
      case Paid(id) => Some(("paid", Some(id)))
      case _ => None
    else Some(("pending", None))
  }

  /** `'paid'` comes only from a card payment the gateway confirmed; every
      other method orders as `'pending'` without asking the gateway. */
  lemma PaidOnlyThroughGateway(paymentMethod: string, gateway: Gateway)
    ensures OrderStatus(paymentMethod, gateway).Some? && OrderStatus(paymentMethod, gateway).value.0 == "paid"
      <==> paymentMethod == "card" && gateway.Paid?
    ensures paymentMethod != "card" ==> OrderStatus(paymentMethod, gateway) == Some(("pending", None))
  {
  }

  /** The error banner after a failed order request. */
  function OrderFailure(outcome: OrderOutcome): string
    requires !outcome.Saved?
  {
    match outcome
    case NotOk => ORDER_NOT_SAVED
    case Threw(message) => Or(message, ORDER_FAILED)
  }

  class CheckoutPage {
    var address: Address
    var errors: map<Field, string>
    var loading: bool
    var orderError: string
    var paymentMethod: string
    var saveAddress: bool
    var savedAddresses: seq<Address>   // `PUT /profile/address` requests
    var orders: seq<OrderRequest>      // `POST /orders` requests
    const client: Client

    /** The page once mounted: the first address, then the profile effect. */
    constructor (user: Option<User>, client: Client)
      ensures address == ProfileAddress(user, InitialAddress(user)) && errors == map[] && !loading && orderError == ""
      ensures paymentMethod == "card" && saveAddress && savedAddresses == [] && orders == []
      ensures this.client == client
    {
      var first := InitialAddress(user);
      address := ProfileAddress(user, first);
      errors := map[];
      loading := false;
      orderError := "";
      paymentMethod := "card";
      saveAddress := true;
      savedAddresses := [];
      orders := [];
      this.client := client;
    }

    method AddressChange(f: Field, value: string)
      requires Editable(f)
      modifies this
      ensures address == ChangeField(old(address), f, value)
      ensures errors == old(errors) && loading == old(loading) && orderError == old(orderError)
      ensures paymentMethod == old(paymentMethod) && saveAddress == old(saveAddress)
      ensures savedAddresses == old(savedAddresses) && orders == old(orders)
    {
      address := ChangeField(address, f, value);
    }

    /** The profile effect, run again when `user` changes. */
    method UserChanged(user: Option<User>)
      modifies this`address
      ensures address == ProfileAddress(user, old(address))
    {
      address := ProfileAddress(user, address);
    }

    /** The two payment radio buttons, `'card'` and `'cod'`. */
    method ChoosePayment(m: string)
      modifies this`paymentMethod
      ensures paymentMethod == m
    {
      paymentMethod := m;
    }

    /** The "save this address" check box. */
    method SetSaveAddress(b: bool)
      modifies this`saveAddress
      ensures saveAddress == b
    {
      saveAddress := b;
    }

    /** `validate`: records the errors and reports whether there are none. */
    method Validate() returns (ok: bool)
      modifies this
      ensures ErrorsFor(address, FormCheck, errors)
      ensures ok <==> Complete(address, FormCheck)
      ensures address == old(address) && loading == old(loading) && orderError == old(orderError)
      ensures paymentMethod == old(paymentMethod) && saveAddress == old(saveAddress)
      ensures savedAddresses == old(savedAddresses) && orders == old(orders)
    {
      var errs := RequiredErrors(address, FormCheck);
      errors := errs;
      ok := |errs| == 0;
    }

    /** `handlePlaceOrder`, followed by whatever the gateway and the order
        request did. The submit button is disabled while `loading`. */
    method PlaceOrder(gateway: Gateway, outcome: OrderOutcome)
      requires !loading
      modifies this, client
      ensures var b := BackendAddress(old(address));
        ErrorsFor(b, OrderCheck, errors)
      ensures address == old(address) && paymentMethod == old(paymentMethod) && saveAddress == old(saveAddress)
      ensures !loading
      ensures client.authenticated == old(client.authenticated) && client.wishlist == old(client.wishlist)
      ensures client.loginPrompts == old(client.loginPrompts)
      // an incomplete address stops everything
      ensures |errors| != 0 ==>
        && orderError == INCOMPLETE_ADDRESS
        && savedAddresses == old(savedAddresses) && orders == old(orders)
        && client.cart == old(client.cart) && client.requests == old(client.requests)
        && client.navigations == old(client.navigations)
      // otherwise the address is saved when asked, and an order is requested
      // exactly when `OrderStatus` says so
      ensures |errors| == 0 ==>
        var b := BackendAddress(old(address));
        var status := OrderStatus(paymentMethod, gateway);
        && savedAddresses == old(savedAddresses) + (if saveAddress then [b] else [])
        && orders == old(orders) + (if status.Some? then [OrderRequest(b, status.value.0, status.value.1, paymentMethod)] else [])
        && (status.Some? && outcome.Saved? ==>
              && orderError == "" && client.cart == {}
              && client.requests == old(client.requests) + [Request.ClearCart]
              && client.navigations == old(client.navigations) + ["/order-confirmation"])
        && (status.None? || !outcome.Saved? ==>
              && client.cart == old(client.cart) && client.requests == old(client.requests)
              && client.navigations == old(client.navigations))
        && (status.Some? && !outcome.Saved? ==> orderError == OrderFailure(outcome))
        && (status.None? ==> orderError == if gateway.ScriptFailed? then SDK_FAILED else PAYMENT_CANCELLED)
    {
      orderError := "";
      var b := BackendAddress(address);
      var errs := RequiredErrors(b, OrderCheck);
      errors := errs;
      if |errs| > 0 {
        orderError := INCOMPLETE_ADDRESS;
        return;
      }
      loading := true;
      if saveAddress {
        savedAddresses := savedAddresses + [b];
      }
      Pay(b, gateway, outcome);
    }

    /** The payment branch of `handlePlaceOrder`: a card payment goes through
        the gateway first, any other method orders at once. */
    method Pay(b: Address, gateway: Gateway, outcome: OrderOutcome)
      modifies this`loading, this`orderError, this`orders, client
      ensures var status := OrderStatus(paymentMethod, gateway);
        && orders == old(orders) + (if status.Some? then [OrderRequest(b, status.value.0, status.value.1, paymentMethod)] else [])
        && (status.Some? && outcome.Saved? ==>
              && orderError == old(orderError) && client.cart == {}
              && client.requests == old(client.requests) + [Request.ClearCart]
              && client.navigations == old(client.navigations) + ["/order-confirmation"])
        && (status.None? || !outcome.Saved? ==>
              && client.cart == old(client.cart) && client.requests == old(client.requests)
              && client.navigations == old(client.navigations))
        && (status.Some? && !outcome.Saved? ==> orderError == OrderFailure(outcome))
        && (status.None? ==> orderError == if gateway.ScriptFailed? then SDK_FAILED else PAYMENT_CANCELLED)
      ensures !loading
      ensures client.authenticated == old(client.authenticated) && client.wishlist == old(client.wishlist)
      ensures client.loginPrompts == old(client.loginPrompts)
    {
      if paymentMethod == "card" {
        match gateway
        case ScriptFailed =>
          loading := false;
          orderError := SDK_FAILED;
        case Dismissed =>
          loading := false;
          orderError := PAYMENT_CANCELLED;
        case Paid(id) =>
          SubmitOrder(b, "paid", Some(id), outcome);
      } else {
        SubmitOrder(b, "pending", None, outcome);
      }
    }

    /** The inner `placeOrder(paymentStatus, razorpayPaymentId)`. The cart is
        cleared only once the order is stored. */
    method SubmitOrder(b: Address, status: string, paymentId: Option<string>, outcome: OrderOutcome)
      modifies this`loading, this`orderError, this`orders, client
      ensures orders == old(orders) + [OrderRequest(b, status, paymentId, paymentMethod)]
      ensures !loading
      ensures outcome.Saved? ==>
        && client.cart == {} && client.requests == old(client.requests) + [Request.ClearCart]
        && client.navigations == old(client.navigations) + ["/order-confirmation"]
        && orderError == old(orderError)
      ensures !outcome.Saved? ==>
        && client.cart == old(client.cart) && client.requests == old(client.requests)
        && client.navigations == old(client.navigations)
        && orderError == OrderFailure(outcome)
      ensures client.authenticated == old(client.authenticated) && client.wishlist == old(client.wishlist)
      ensures client.loginPrompts == old(client.loginPrompts)
    {
      orders := orders + [OrderRequest(b, status, paymentId, paymentMethod)];
      if outcome.Saved? {
        client.ClearCart();
        loading := false;
        client.Navigate("/order-confirmation");
      } else {
        loading := false;
        orderError := OrderFailure(outcome);
      }
    }
  }
}
