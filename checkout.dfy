/** The checkout page: a three-step machine (address, payment, confirmed),
    the total with delivery fee, and which screen the page shows. */
module Checkout {
  import opened Wrappers
  import opened CartContext
  import opened Storage

  /** The delivery fee, in cents. */
  const DeliveryFee: int := 599

  datatype DeliveryInfo = DeliveryInfo(address: string, number: string, complement: string,
                                       neighborhood: string, city: string, zipCode: string)

  const EmptyDelivery := DeliveryInfo("", "", "", "", "", "")

  /** Every field but the complement is filled. */
  predicate RequiredFilled(d: DeliveryInfo)
  {
    d.address != "" && d.number != "" && d.neighborhood != "" && d.city != "" && d.zipCode != ""
  }

  /** The order total shown on the page: an empty cart costs exactly the
      fee, and a cart with positive quantities and non-negative prices never
      costs less than the fee. */
  function TotalWithDelivery(items: seq<CartItem>): (r: int)
    ensures items == [] ==> r == DeliveryFee
    ensures PositiveQuantities(items) && NonNegativePrices(items) ==> r >= DeliveryFee
  {
    assert PositiveQuantities(items) && NonNegativePrices(items) ==> PriceSum(items) >= 0 by {
      if PositiveQuantities(items) {
        TotalsBounds(items);
      }
    }
    PriceSum(items) + DeliveryFee
  }

  /** The fee is charged once per order: more lines add only their own
      prices to the total. */
  lemma FeeChargedOnce(a: seq<CartItem>, b: seq<CartItem>)
    ensures TotalWithDelivery(a + b) == TotalWithDelivery(a) + PriceSum(b)
  {
    TotalsOfConcat(a, b);
  }

  datatype Screen = LoginRequired | EmptyCart | Confirmed | Wizard(step: int)

  /** Which screen renders: the login guard first, then the empty-cart guard
      (which the confirmation step bypasses), then the confirmation, and the
      step forms otherwise. */
  function ScreenFor(authenticated: bool, items: seq<CartItem>, step: int): (r: Screen)
    ensures r == LoginRequired <==> !authenticated
    ensures r == EmptyCart <==> authenticated && items == [] && step != 3
    ensures r == Confirmed <==> authenticated && step == 3
    ensures r.Wizard? ==> authenticated && items != [] && step != 3 && r.step == step
  {
    if !authenticated then LoginRequired
    else if |items| == 0 && step != 3 then EmptyCart
    else if step == 3 then Confirmed
    else Wizard(step)
  }

  /** Once payment has cleared the cart and moved to step 3, a signed-in
      user sees the confirmation, not the empty-cart screen. */
  lemma ConfirmationAfterPayment(items: seq<CartItem>)
    ensures ScreenFor(true, [], 3) == Confirmed
    ensures ScreenFor(false, items, 3) == LoginRequired
  {
  }

  class CheckoutPage {
    var step: int
    var delivery: DeliveryInfo
    var paymentMethod: string
    var isProcessing: bool

    constructor ()
      ensures step == 1 && delivery == EmptyDelivery
      ensures paymentMethod == "credit" && !isProcessing
    {
      step := 1;
      delivery := EmptyDelivery;
      paymentMethod := "credit";
      isProcessing := false;
    }

    /** A change in one of the address inputs. Each input rewrites one
        field of the record; the model takes the whole record after the
        change. */
    method EditDelivery(d: DeliveryInfo)
      modifies this
      ensures delivery == d
      ensures step == old(step) && paymentMethod == old(paymentMethod)
      ensures isProcessing == old(isProcessing)
    {
      delivery := d;
    }

    /** The address form: on to payment only with every required field
        filled; otherwise an error shows and the step stays. */
    method SubmitAddress() returns (missingFields: bool)
      modifies this
      ensures missingFields <==> !RequiredFilled(delivery)
      ensures step == if missingFields then old(step) else 2
      ensures delivery == old(delivery) && paymentMethod == old(paymentMethod)
      ensures isProcessing == old(isProcessing)
    {
      if !RequiredFilled(delivery) {
        missingFields := true;
        return;
      }
      missingFields := false;
      step := 2;
    }

    /** The back button of the payment form. */
    method Back()
      modifies this
      ensures step == 1
      ensures delivery == old(delivery) && paymentMethod == old(paymentMethod)
      ensures isProcessing == old(isProcessing)
    {
      step := 1;
    }

    /** The payment form's submit, up to its simulated wait. */
    method BeginPayment()
      modifies this
      ensures isProcessing
      ensures step == old(step) && delivery == old(delivery)
      ensures paymentMethod == old(paymentMethod)
    {
      isProcessing := true;
    }

    /** The rest of the submit, after the wait: the cart is cleared and the
        confirmation step is reached. */
    method FinishPayment(cart: CartState)
      modifies this, cart
      ensures cart.items == [] && cart.cartId == None
      ensures cart.savedItems == Some(Parsed([]))
      ensures cart.savedCartId == if old(cart.cartId) != None then Some(Parsed(None))
                                  else old(cart.savedCartId)
      ensures old(cart.Mirrored()) ==> cart.Mirrored()
      ensures step == 3 && !isProcessing
      ensures delivery == old(delivery) && paymentMethod == old(paymentMethod)
      ensures forall authenticated: bool :: ScreenFor(authenticated, cart.items, step)
                == if authenticated then Confirmed else LoginRequired
    {
      var _ := cart.ClearCart();
      ConfirmationAfterPayment(cart.items);
      step := 3;
      isProcessing := false;
    }
  }

  /** A full checkout: the address, the payment, and the confirmation. */
  method ExampleCheckout(cart: CartState)
    requires cart.items != []
    modifies cart
  {
    var page := new CheckoutPage();
    assert ScreenFor(true, cart.items, page.step) == Wizard(1);
    var missing := page.SubmitAddress();
    assert missing && page.step == 1;
    page.EditDelivery(DeliveryInfo("Rua A", "10", "", "Centro", "Cidade", "00000-000"));
    missing := page.SubmitAddress();
    assert !missing && page.step == 2;
    page.Back();
    assert page.step == 1;
    missing := page.SubmitAddress();
    page.BeginPayment();
    assert page.isProcessing;
    page.FinishPayment(cart);
    assert ScreenFor(true, cart.items, page.step) == Confirmed;
  }
}
