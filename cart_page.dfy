/** The cart page: the empty state, the order summary with its own inline price
    formulas, the free-shipping hint, and the per-line quantity buttons that call
    the cart store. */
module CartPage {
  import opened Common
  import opened CartContext
  import Checkout

  /** The order summary box. `hint` is the amount still needed for free shipping, if any. */
  datatype Summary = Summary(
    totalItems: int,
    subtotal: int,
    shippingLabel: string,
    tax: int,
    total: int,
    hint: Option<int>)

  datatype CartView = EmptyCart | Filled(summary: Summary)

  /** The shipping cell, written on this page as a literal. */
  function ShippingLabel(totalPrice: int): string
  {
    if totalPrice >= 500 then "FREE" else "₹50"
  }

  /** "Add ₹… more for free shipping!" below the threshold, nothing from it upward. */
  function FreeShippingHint(totalPrice: int): (r: Option<int>)
    ensures r.Some? <==> totalPrice < Checkout.FreeShippingThreshold
    ensures r.Some? ==> r.value > 0 && totalPrice + r.value == Checkout.FreeShippingThreshold
  {
    if totalPrice < 500 then Some(500 - totalPrice) else None
  }

  function View(items: seq<CartItem>): (v: CartView)
    ensures v.EmptyCart? <==> items == []
  {
    if |items| == 0 then EmptyCart
    else
      var t := TotalPrice(items);
      Filled(Summary(
        TotalItems(items),
        t,
        ShippingLabel(t),
        Checkout.Tax(t),
        t + (if t >= 500 then 0 else 50) + Checkout.Tax(t),
        FreeShippingHint(t)))
  }

  /** The checkout page's shipping cell: "FREE", or the fee in rupees. */
  function CheckoutShippingLabel(totalPrice: int): string
  {
    var s := Checkout.Shipping(totalPrice);
    if s == 0 then "FREE" else "₹" + NatToString(s)
  }

  /** The cart page and the checkout page price a cart identically: same shipping
      cell, same tax and the same total, and the hint appears exactly when the
      checkout charges shipping. */
  lemma CartAgreesWithCheckout(items: seq<CartItem>)
    requires items != []
    ensures View(items).summary.total == Checkout.GrandTotal(TotalPrice(items))
    ensures View(items).summary.shippingLabel == CheckoutShippingLabel(TotalPrice(items))
    ensures View(items).summary.hint.Some? <==> Checkout.Shipping(TotalPrice(items)) == Checkout.FlatShipping
  {
    assert NatToString(50) == NatToString(5) + [DigitChar(0)];
  }

  /** One click on "−" takes exactly one unit off the item count, whether the line
      goes down by one or, at quantity 1, disappears. */
  lemma MinusTakesOneUnit(items: seq<CartItem>, k: nat)
    requires LinesValid(items) && k < |items|
    ensures var line := items[k];
      var after := if line.quantity - 1 <= 0 then RemoveLines(items, line.id)
                   else SetQuantity(items, line.id, line.quantity - 1);
      TotalItems(after) == TotalItems(items) - 1 &&
      (line.quantity == 1 <==> !HasLine(after, line.id))
  {
    var line := items[k];
    if line.quantity - 1 <= 0 {
      RemoveTotals(items, k);
      FilterMembers(items, IdIsNot(line.id), line);
      forall x | x in RemoveLines(items, line.id)
        ensures x.id != line.id
      {
        FilterMembers(items, IdIsNot(line.id), x);
      }
    } else {
      SetQuantityTotals(items, k, line.quantity - 1);
      assert SetQuantity(items, line.id, line.quantity - 1)[k].id == line.id;
    }
  }

  /** One click on "+" adds exactly one unit and keeps every line. */
  lemma PlusAddsOneUnit(items: seq<CartItem>, k: nat)
    requires LinesValid(items) && k < |items|
    ensures TotalItems(SetQuantity(items, items[k].id, items[k].quantity + 1)) == TotalItems(items) + 1
    ensures |SetQuantity(items, items[k].id, items[k].quantity + 1)| == |items|
  {
    SetQuantityTotals(items, k, items[k].quantity + 1);
  }

  /** The "−" button of a line: `updateQuantity(id, quantity - 1)`, which removes the
      line at quantity 1. */
  method Decrement(cart: CartStore, line: CartItem)
    modifies cart
    ensures line.quantity <= 1 ==>
      cart.items == RemoveLines(old(cart.items), line.id) &&
      cart.issued == old(cart.issued) + RemoveWrites(cart.user, old(cart.items), line.id)
    ensures line.quantity > 1 ==>
      cart.items == SetQuantity(old(cart.items), line.id, line.quantity - 1) &&
      cart.issued == old(cart.issued) + SetQuantityWrites(cart.user, old(cart.items), line.id, line.quantity - 1)
    ensures cart.user == old(cart.user) && cart.isLoading == old(cart.isLoading)
    ensures cart.localSlot == if cart.user.None? then Some(cart.items) else old(cart.localSlot)
    ensures old(cart.Valid()) ==> cart.Valid()
  {
    cart.UpdateQuantity(line.id, line.quantity - 1);
  }

  /** The "+" button of a line: `updateQuantity(id, quantity + 1)`. */
  method Increment(cart: CartStore, line: CartItem)
    modifies cart
    ensures line.quantity >= 0 ==>
      cart.items == SetQuantity(old(cart.items), line.id, line.quantity + 1) &&
      cart.issued == old(cart.issued) + SetQuantityWrites(cart.user, old(cart.items), line.id, line.quantity + 1)
    ensures line.quantity < 0 ==>
      cart.items == RemoveLines(old(cart.items), line.id) &&
      cart.issued == old(cart.issued) + RemoveWrites(cart.user, old(cart.items), line.id)
    ensures cart.user == old(cart.user) && cart.isLoading == old(cart.isLoading)
    ensures cart.localSlot == if cart.user.None? then Some(cart.items) else old(cart.localSlot)
    ensures old(cart.Valid()) ==> cart.Valid()
  {
    cart.UpdateQuantity(line.id, line.quantity + 1);
  }
}
