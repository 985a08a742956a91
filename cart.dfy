/** The cart page's quantity buttons and remove button. An update in flight
    holds the `updatingId` lock: it is taken when a button starts an update
    and released when that update settles, and while it is held both buttons
    do nothing. */
module Cart {
  import opened Common
  import opened Catalog
  import opened Session

  /** The quantity `inc` asks for: `(item.quantity || 1) + 1`. */
  function IncTarget(q: Option<int>): (r: int)
    ensures q.Some? && q.value != 0 ==> r == q.value + 1
    ensures q.None? || q.value == 0 ==> r == 2
  {
    QuantityOrOne(q) + 1
  }

  /** The quantity `dec` asks for, `item.quantity - 1`, or `None` when it
      returns early because `(item.quantity || 1) <= 1`. */
  function DecTarget(q: Option<int>): (r: Option<int>)
    ensures r.Some? <==> QuantityOrOne(q) > 1
    ensures r.Some? ==> q.Some? && r.value == q.value - 1 && r.value >= 1
  {
    if QuantityOrOne(q) <= 1 then None else Some(q.value - 1)
  }

  /** `dec` never asks for less than one, and undoes `inc` on any quantity
      the stepper shows (a missing or zero quantity shows as one). */
  lemma DecUndoesInc(q: Option<int>)
    requires QuantityOrOne(q) >= 1
    ensures DecTarget(Some(IncTarget(q))) == Some(QuantityOrOne(q))
  {
  }

  class CartPage {
    var updatingId: string          // `""` stands for `null`; both are falsy
    const client: Client

    /** `if (updatingId) return;` */
    predicate Locked()
      reads this
    {
      updatingId != ""
    }

    constructor (client: Client)
      ensures !Locked() && this.client == client
    {
      updatingId := "";
      this.client := client;
    }

    /** `inc(item)` up to its `await`: takes the lock and asks for one more. */
    method Inc(item: Item)
      modifies this`updatingId, client
      ensures old(Locked()) ==> updatingId == old(updatingId) && client.State() == old(client.State())
      ensures !old(Locked()) ==>
        && updatingId == item.id
        && client.State() == old(client.State()).(requests := old(client.requests) + [UpdateQuantity(item.id, IncTarget(item.quantity))])
    {
      if updatingId != "" {
        return;
      }
      updatingId := item.id;
      client.UpdateQuantity(item.id, IncTarget(item.quantity));
    }

    /** `dec(item)` up to its `await`: nothing at quantity one, otherwise takes
        the lock and asks for one less. */
    method Dec(item: Item)
      modifies this`updatingId, client
      ensures old(Locked()) || DecTarget(item.quantity).None? ==>
        updatingId == old(updatingId) && client.State() == old(client.State())
      ensures !old(Locked()) && DecTarget(item.quantity).Some? ==>
        && updatingId == item.id
        && client.State() == old(client.State()).(requests := old(client.requests) + [UpdateQuantity(item.id, DecTarget(item.quantity).value)])
    {
      if updatingId != "" {
        return;
      }
      if QuantityOrOne(item.quantity) <= 1 {
        return;
      }
      updatingId := item.id;
      client.UpdateQuantity(item.id, item.quantity.value - 1);
    }

    /** The `finally` of `inc` and `dec`: the update resolved or threw, and
        the lock is released either way. */
    method Settle()
      modifies this`updatingId
      ensures !Locked()
    {
      updatingId := "";
    }

    /** The remove button: `removeFromCart(item.id)`, lock or no lock. */
    method Remove(item: Item)
      modifies client
      ensures client.State() == old(client.State()).(
        cart := old(client.cart) - {item.id},
        requests := old(client.requests) + [RemoveFromCart(item.id)])
    {
      client.RemoveFromCart(item.id);
    }
  }

  /** One update at a time: after a first press starts an update, a second
      press of either button before it settles asks for nothing more, and
      once it settles the page is free again. */
  method SingleFlight(page: CartPage, first: Item, second: Item, secondIsInc: bool)
    requires !page.Locked() && first.id != ""
    modifies page, page.client
    ensures !page.Locked()
    ensures page.client.requests == old(page.client.requests) + [UpdateQuantity(first.id, IncTarget(first.quantity))]
  {
    page.Inc(first);
    if secondIsInc {
      page.Inc(second);
    } else {
      page.Dec(second);
    }
    page.Settle();
  }
}
