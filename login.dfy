/** The one-time-password login page: the email form, the code form and the
    logged-in state; the resend cooldown counted down once a second; the
    replay of the wishlist and cart items a visitor left pending before
    logging in; and the redirect back to the page they came from. Server
    replies are given as `Reply` values, browser storage as a map, and the
    JSON parser as a function that may fail. */
module Login {
  import opened Common
  import opened Catalog
  import opened Session

  datatype Step = EmailStep | OtpStep | Done

  /** What `post(path, body)` did: resolved (with the user's email for a
      verification), or threw an error with this message. */
  datatype Reply = Ok(userEmail: string) | Err(message: string)

  const DEMO_CODE: string := "123456"
  const RESEND_COOLDOWN: nat := 30

  const OTP_SENT: string := "OTP sent to your email."
  const INVALID_EMAIL: string := "Please enter a valid email address."
  const DEMO_MODE: string := "Demo mode: Use code \"123456\" to login."
  const MISSING_FIELDS: string := "Please enter both email and OTP code."
  const INVALID_OTP: string := "Invalid OTP. Use \"123456\" for demo or check your email."
  const OTP_RESENT: string := "OTP resent."

  const WISHLIST_SLOT: string := "pendingWishlistItem"
  const CART_SLOT: string := "pendingCartItem"
  const REDIRECT_SLOT: string := "redirectPath"

  // ===========================================================================
  // Step transitions

  /** The step `requestOtp` leaves behind, from the email step. */
  function StepAfterRequest(reply: Reply): Step
  {
    match reply
    case Ok(_) => OtpStep
    case Err(m) => if Contains(m, "Valid email") then EmailStep else OtpStep
  }

  /** Only a rejected address keeps the email form; every other failure moves
      on to the code form as if the code had been sent. */
  lemma OnlyInvalidEmailStays(reply: Reply)
    ensures StepAfterRequest(reply) != Done
    ensures StepAfterRequest(reply) == EmailStep <==> reply.Err? && Contains(reply.message, "Valid email")
  {
  }

  /** The step `verifyOtp` leaves behind, from the code step, for the code
      typed. */
  function StepAfterVerify(reply: Reply, code: string): Step
  {
    match reply
    case Ok(_) => Done
    case Err(m) =>
      if Contains(m, "Email and code") || Contains(m, "Valid email") then OtpStep
      else if code == DEMO_CODE then Done
      else OtpStep
  }

  /** The page logs in exactly when the server verified the code, or when the
      server failed for another reason than the two input checks and the
      demonstration code was typed. */
  lemma LoggedInOnlyByServerOrDemoCode(reply: Reply, code: string)
    ensures StepAfterVerify(reply, code) != EmailStep
    ensures StepAfterVerify(reply, code) == Done <==>
      reply.Ok? || (code == DEMO_CODE && !Contains(reply.message, "Email and code") && !Contains(reply.message, "Valid email"))
  {
  }

  /** A wrong code never logs in, whatever the server said, unless the server
      itself accepted it. */
  lemma WrongCodeNeedsServer(reply: Reply, code: string)
    requires code != DEMO_CODE && reply.Err?
    ensures StepAfterVerify(reply, code) == OtpStep
  {
  }

  // ===========================================================================
  // The resend cooldown

  /** The counter after `k` ticks of the one-second timer. */
  function AfterTicks(c: nat, k: nat): nat
  {
    if k == 0 || c == 0 then c else AfterTicks(c - 1, k - 1)
  }

  /** The timer counts down to zero and stays there: thirty ticks after a
      resend the button is enabled again, and not one tick earlier. */
  lemma {:induction false} CooldownExpires(c: nat, k: nat)
    ensures AfterTicks(c, k) == MaxInt(0, c - k)
  {
    if k != 0 && c != 0 {
      CooldownExpires(c - 1, k - 1);
    }
  }

  // ===========================================================================
  // Browser storage

  /** `localStorage.getItem(key)`, the empty string standing for `null` where
      only its truth matters. */
  function Stored(storage: map<string, string>, key: string): string
  {
    if key in storage then storage[key] else ""
  }

  /** The item a pending slot gives back: present, non-empty and parsed. */
  function Pending(storage: map<string, string>, key: string, parse: string -> Option<Item>): (r: Option<Item>)
    ensures r.Some? ==> key in storage && storage[key] != ""
  {
    if Stored(storage, key) != "" then parse(storage[key]) else None
  }

  /** The storage once the pending slots that parse are cleared; a slot that
      does not parse is kept. */
  function ClearReplayed(storage: map<string, string>, parse: string -> Option<Item>): map<string, string>
  {
    storage
      - (if Pending(storage, WISHLIST_SLOT, parse).Some? then {WISHLIST_SLOT} else {})
      - (if Pending(storage, CART_SLOT, parse).Some? then {CART_SLOT} else {})
  }

  /** The stores once the pending items are added: the wishlist item first,
      then the cart item, each with its request. */
  function Replayed(s: Snapshot, storage: map<string, string>, parse: string -> Option<Item>): Snapshot
  {
    var wish := Pending(storage, WISHLIST_SLOT, parse);
    var cartItem := Pending(storage, CART_SLOT, parse);
    s.(wishlist := s.wishlist + (if wish.Some? then {wish.value.id} else {}),
       cart := s.cart + (if cartItem.Some? then {cartItem.value.id} else {}),
       requests := s.requests
         + (if wish.Some? then [AddToWishlist(wish.value)] else [])
         + (if cartItem.Some? then [Request.AddToCart(cartItem.value, None)] else []))
  }

  /** After a replay neither slot holds anything to replay, so a second login
      adds nothing; a slot that did not parse keeps its text. */
  lemma ReplayClearsPending(storage: map<string, string>, parse: string -> Option<Item>)
    ensures Pending(ClearReplayed(storage, parse), WISHLIST_SLOT, parse).None?
    ensures Pending(ClearReplayed(storage, parse), CART_SLOT, parse).None?
    ensures forall k :: k in storage && Pending(storage, k, parse).None? ==>
      k in ClearReplayed(storage, parse) && ClearReplayed(storage, parse)[k] == storage[k]
  {
  }

  /** `localStorage.getItem('redirectPath') || '/'`. */
  function RedirectTarget(storage: map<string, string>): (r: string)
    ensures r != ""
    ensures REDIRECT_SLOT in storage && storage[REDIRECT_SLOT] != "" ==> r == storage[REDIRECT_SLOT]
  {
    Or(Stored(storage, REDIRECT_SLOT), "/")
  }

  class LoginPage {
    var step: Step
    var email: string
    var code: string
    var loading: bool
    var message: string
    var cooldown: nat                     // `resendCooldown`
    var redirectScheduled: bool           // the 1.5 s redirect timer is set
    var storage: map<string, string>      // `localStorage`
    const client: Client

    constructor (storage: map<string, string>, client: Client)
      ensures step == EmailStep && email == "" && code == "" && !loading && message == ""
      ensures cooldown == 0 && !redirectScheduled && this.storage == storage && this.client == client
    {
      step := EmailStep;
      email := "";
      code := "";
      loading := false;
      message := "";
      cooldown := 0;
      redirectScheduled := false;
      this.storage := storage;
      this.client := client;
    }

    method TypeEmail(value: string)
      modifies this`email
      ensures email == value
    {
      email := value;
    }

    method TypeCode(value: string)
      modifies this`code
      ensures code == value
    {
      code := value;
    }

    /** `requestOtp`, submitted from the email form. */
    method RequestOtp(reply: Reply)
      requires step == EmailStep
      modifies this`loading, this`message, this`step
      ensures !loading && step == StepAfterRequest(reply)
      ensures message == match reply
        case Ok(_) => OTP_SENT
        case Err(m) => if Contains(m, "Valid email") then INVALID_EMAIL else DEMO_MODE
    {
      loading := true;
      message := "";
      match reply {
        case Ok(_) =>
          step := OtpStep;
          message := OTP_SENT;
        case Err(m) =>
          if Contains(m, "Valid email") {
            message := INVALID_EMAIL;
          } else {
            step := OtpStep;
            message := DEMO_MODE;
          }
      }
      loading := false;
    }

    /** `handlePostLoginActions`: each pending slot is replayed into its store
        and cleared, or kept when it does not parse. */
    method ReplayPending(parse: string -> Option<Item>)
      modifies this`storage, client
      ensures storage == ClearReplayed(old(storage), parse)
      ensures client.State() == Replayed(old(client.State()), old(storage), parse)
    {
      var wish := Pending(storage, WISHLIST_SLOT, parse);
      if wish.Some? {
        client.AddToWishlist(wish.value);
        storage := storage - {WISHLIST_SLOT};
      }
      var cartItem := Pending(storage, CART_SLOT, parse);
      if cartItem.Some? {
        client.AddToCart(cartItem.value, None);
        storage := storage - {CART_SLOT};
      }
    }

    /** The logged-in branch shared by a verified code and the demonstration
        code: log in, replay the pending items, greet, and set the redirect
        timer. */
    method CompleteLogin(greeted: string, parse: string -> Option<Item>)
      modifies this`storage, this`message, this`step, this`redirectScheduled, client
      ensures step == Done && redirectScheduled && message == "Welcome, " + greeted
      ensures storage == ClearReplayed(old(storage), parse)
      ensures client.State() == Replayed(old(client.State()).(authenticated := true), old(storage), parse)
    {
      client.LogIn();
      ReplayPending(parse);
      message := "Welcome, " + greeted;
      step := Done;
      redirectScheduled := true;
    }

    /** `verifyOtp`, submitted from the code form. */
    method VerifyOtp(reply: Reply, parse: string -> Option<Item>)
      requires step == OtpStep
      modifies this`loading, this`storage, this`message, this`step, this`redirectScheduled, client
      ensures !loading && step == StepAfterVerify(reply, code)
      ensures step == Done ==>
        && message == "Welcome, " + (if reply.Ok? then reply.userEmail else email)
        && redirectScheduled
        && storage == ClearReplayed(old(storage), parse)
        && client.State() == Replayed(old(client.State()).(authenticated := true), old(storage), parse)
      ensures step != Done ==>
        && storage == old(storage) && client.State() == old(client.State())
        && redirectScheduled == old(redirectScheduled)
        && message == (if Contains(reply.message, "Email and code") then MISSING_FIELDS
                       else if Contains(reply.message, "Valid email") then INVALID_EMAIL
                       else INVALID_OTP)
    {
      loading := true;
      message := "";
      match reply {
        case Ok(userEmail) =>
          CompleteLogin(userEmail, parse);
        case Err(m) =>
          if Contains(m, "Email and code") {
            message := MISSING_FIELDS;
          } else if Contains(m, "Valid email") {
            message := INVALID_EMAIL;
          } else if code == DEMO_CODE {
            CompleteLogin(email, parse);
          } else {
            message := INVALID_OTP;
          }
      }
      loading := false;
    }

    /** `resend`; the button is disabled while loading or cooling down. */
    method Resend(reply: Reply)
      requires step == OtpStep && !loading && cooldown == 0
      modifies this`loading, this`message, this`cooldown
      ensures !loading
      ensures reply.Ok? ==> message == OTP_RESENT && cooldown == RESEND_COOLDOWN
      ensures reply.Err? ==> message == reply.message && cooldown == 0
    {
      loading := true;
      message := "";
      match reply {
        case Ok(_) =>
          message := OTP_RESENT;
          cooldown := RESEND_COOLDOWN;
        case Err(m) =>
          message := m;
      }
      loading := false;
    }

    /** One second of the cooldown timer, which only runs while it is positive. */
    method Tick()
      modifies this`cooldown
      ensures cooldown == AfterTicks(old(cooldown), 1)
      ensures old(cooldown) > 0 ==> cooldown == old(cooldown) - 1
    {
      if cooldown > 0 {
        cooldown := cooldown - 1;
      }
    }

    /** Go to the stored path, or home, and forget the stored path. */
    method Redirect()
      modifies this`storage, client
      ensures storage == old(storage) - {REDIRECT_SLOT}
      ensures client.State() == old(client.State()).(navigations := old(client.navigations) + [RedirectTarget(old(storage))])
    {
      var target := RedirectTarget(storage);
      storage := storage - {REDIRECT_SLOT};
      client.Navigate(target);
    }

    /** The 1.5 s timer set after logging in. */
    method RedirectTimerFired()
      requires redirectScheduled
      modifies this`storage, this`redirectScheduled, client
      ensures !redirectScheduled && storage == old(storage) - {REDIRECT_SLOT}
      ensures client.State() == old(client.State()).(navigations := old(client.navigations) + [RedirectTarget(old(storage))])
    {
      redirectScheduled := false;
      Redirect();
    }

    /** The effect that sends an authenticated visitor away from the page. */
    method AuthenticatedEffect()
      modifies this`storage, client
      ensures !old(client.authenticated) ==> storage == old(storage) && client.State() == old(client.State())
      ensures old(client.authenticated) ==>
        && storage == old(storage) - {REDIRECT_SLOT}
        && client.State() == old(client.State()).(navigations := old(client.navigations) + [RedirectTarget(old(storage))])
    {
      if client.authenticated {
        Redirect();
      }
    }
  }
}
