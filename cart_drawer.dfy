/** The cart drawer: its checkout gate, the per-line minus, plus and remove
    buttons, and the per-line subtotal. */
module CartDrawer {
  import opened Wrappers
  import opened CartContext

  /** What the drawer shows or calls, in order. */
  datatype Effect =
    | EmptyCartToast
    | OrderPlacedToast(cartId: int)
    | NoActiveCartToast
    | CallOnCheckout
    | CallOnClose

  /** The "finish order" button: refuses an empty cart, and navigates only
      when the cart also has a truthy remote id. */
  method HandleCheckout(cart: CartState) returns (effects: seq<Effect>)
    ensures cart.items == [] ==> effects == [EmptyCartToast]
    ensures cart.items != [] && Truthy(cart.cartId) ==>
      effects == [OrderPlacedToast(cart.cartId.value), CallOnCheckout, CallOnClose]
    ensures cart.items != [] && !Truthy(cart.cartId) ==> effects == [NoActiveCartToast]
    ensures CallOnCheckout in effects <==> cart.items != [] && Truthy(cart.cartId)
    ensures CallOnClose in effects <==> CallOnCheckout in effects
  {
    if |cart.items| == 0 {
      effects := [EmptyCartToast];
      return;
    }
    if Truthy(cart.cartId) {
      effects := [OrderPlacedToast(cart.cartId.value)];
      effects := effects + [CallOnCheckout];
      effects := effects + [CallOnClose];
    } else {
      effects := [NoActiveCartToast];
    }
  }

  /** The minus button: `updateQuantity(id, quantity - 1)`, so a line at
      quantity 1 goes away locally and any other goes through the upsert. */
  method PressMinus(cart: CartState, item: CartItem, reply: Reply)
    returns (sent: Option<Request>, notice: Notice)
    modifies cart
    ensures item.quantity <= 1 ==>
      && sent == None
      && cart.LineRemoved(item.product.id, notice)
      && (forall k :: 0 <= k < |cart.items| ==> cart.items[k].product.id != item.product.id)
    ensures item.quantity > 1 && old(cart.cartId).None? ==>
      sent == None && notice == CartIdMissing && unchanged(cart)
    ensures item.quantity > 1 && old(cart.cartId).Some? ==>
      && sent == Some(UpsertItem(item.quantity - 1, item.product.id, old(cart.cartId).value))
      && cart.QuantitySet(item.product.id, item.quantity - 1, reply)
      && notice == (if reply.Success? then QuantityUpdated else QuantityFailed)
    ensures old(WellFormed(cart.items)) ==> WellFormed(cart.items)
    ensures old(cart.Mirrored()) ==> cart.Mirrored()
  {
    sent, notice := cart.UpdateQuantity(item.product.id, item.quantity - 1, reply);
  }

  /** The plus button: `updateQuantity(id, quantity + 1)`, through the same
      remote upsert. */
  method PressPlus(cart: CartState, item: CartItem, reply: Reply)
    returns (sent: Option<Request>, notice: Notice)
    modifies cart
    ensures item.quantity >= 0 && old(cart.cartId).Some? ==>
      && sent == Some(UpsertItem(item.quantity + 1, item.product.id, old(cart.cartId).value))
      && cart.QuantitySet(item.product.id, item.quantity + 1, reply)
      && notice == (if reply.Success? then QuantityUpdated else QuantityFailed)
    ensures item.quantity >= 0 && old(cart.cartId).None? ==>
      sent == None && notice == CartIdMissing && unchanged(cart)
    ensures item.quantity < 0 ==> sent == None && cart.LineRemoved(item.product.id, notice)
    ensures old(WellFormed(cart.items)) ==> WellFormed(cart.items)
    ensures old(cart.Mirrored()) ==> cart.Mirrored()
  {
    sent, notice := cart.UpdateQuantity(item.product.id, item.quantity + 1, reply);
  }

  /** The X button: `removeFromCart(id)`, with no remote call. */
  method PressRemove(cart: CartState, item: CartItem) returns (notice: Notice)
    modifies cart
    ensures cart.LineRemoved(item.product.id, notice)
    ensures forall k :: 0 <= k < |cart.items| ==> cart.items[k].product.id != item.product.id
    ensures old(WellFormed(cart.items)) ==> WellFormed(cart.items)
    ensures old(cart.Mirrored()) ==> cart.Mirrored()
  {
    notice := cart.RemoveFromCart(item.product.id);
  }

  /** The subtotal shown beside a line: one unit costs the unit price, and
      a non-negative price over a non-negative quantity never shows below 0. */
  function LineSubtotal(item: CartItem): (r: int)
    ensures item.quantity == 1 ==> r == item.product.price
    ensures item.product.price >= 0 && item.quantity >= 0 ==> r >= 0
  {
    item.product.price * item.quantity
  }

  /** The total price shown under the lines is the lines before `k`, plus
      the subtotal shown beside line `k`, plus the lines after it. */
  lemma TotalSplitsAtLine(items: seq<CartItem>, k: nat)
    requires k < |items|
    ensures PriceSum(items) == PriceSum(items[..k]) + LineSubtotal(items[k]) + PriceSum(items[k + 1..])
  {
    var tail := [items[k]] + items[k + 1..];
    assert items == items[..k] + tail;
    TotalsOfConcat(items[..k], tail);
    assert tail[0] == items[k] && tail[1..] == items[k + 1..];
  }
}
