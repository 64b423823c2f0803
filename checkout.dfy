/** The checkout screen: an order summary read off the cart, a payment form
    whose submit is gated on four required fields, and the (simulated) order
    placement that empties the cart. */
module Checkout {
  import opened Common
  import opened Cart

  /** The form's fields. */
  datatype Form = Form(name: string, email: string, address: string, cardName: string,
                       cardNumber: string, expiry: string, cvv: string)

  /** `!name || !email || !address || !cardNumber` fails the submit: only
      these four must be non-empty, untrimmed. */
  predicate RequiredFilled(f: Form) {
    f.name != [] && f.email != [] && f.address != [] && f.cardNumber != []
  }

  /** Cardholder name, expiry and CVV play no part in the gate. */
  lemma OptionalFieldsIgnored(f: Form, cardName: string, expiry: string, cvv: string)
    ensures RequiredFilled(f) <==> RequiredFilled(f.(cardName := cardName, expiry := expiry, cvv := cvv))
    ensures RequiredFilled(Form("a", "b", "c", "", "d", "", ""))
  {
  }

  /** What the screen renders for a cart. */
  datatype View =
    | EmptyState
    | Summary(itemCount: nat, subtotal: real, total: real, payAmount: real)

  /** An empty cart shows "Your cart is empty."; otherwise the summary shows
      the number of lines, the cart total as subtotal and as total (shipping
      is free, no tax is added), and the pay button the same amount. */
  function Render(items: seq<CartItem>): View {
    if |items| == 0 then EmptyState
    else Summary(|items|, TotalPrice(items), TotalPrice(items), TotalPrice(items))
  }

  /** The form is shown exactly for a non-empty cart, and every amount on it
      is the cart's total price. */
  lemma RenderedAmounts(items: seq<CartItem>)
    ensures Render(items).EmptyState? <==> items == []
    ensures Render(items).Summary? ==>
      var v := Render(items);
      v.subtotal == v.total == v.payAmount == TotalPrice(items) && v.itemCount == |items|
  {
  }

  /** The count shown is the number of lines, not of units: a single line of
      two units shows "1 items" while the cart holds two. */
  lemma CountIsLines()
    ensures var items := [CartItem("1", "Mouse", 10.0, 2, None)];
      Render(items).itemCount == 1 && TotalItems(items) == 2 && Render(items).total == 20.0
  {
  }

  /** The screen's state cells, over the shared cart. */
  class CheckoutScreen {
    const cart: CartStore
    var form: Form
    var loading: bool

    constructor (cart: CartStore)
      ensures this.cart == cart && form == Form("", "", "", "", "", "", "") && !loading
    {
      this.cart := cart;
      form := Form("", "", "", "", "", "", "");
      loading := false;
    }

    /** `handleCheckout()` with its timer callback run to completion: an
        incomplete form only raises an alert; otherwise the order is "placed"
        and the cart emptied. */
    method HandleCheckout() returns (placed: bool)
      modifies this`loading, cart
      ensures placed == RequiredFilled(form)
      ensures !placed ==> loading == old(loading) && unchanged(cart)
      ensures placed ==> !loading && cart.items == [] && cart.Valid()
      ensures placed ==> Render(cart.items) == EmptyState
    {
      if form.name == [] || form.email == [] || form.address == [] || form.cardNumber == [] {
        return false;
      }
      loading := true;
      loading := false;
      cart.ClearCart();
      placed := true;
    }
  }
}
