/** The checkout page: the price breakdown of the cart (subtotal, flat shipping
    under the free-shipping threshold, 5% GST rounded to the rupee), shipping
    form validation, the postal address text stored with the order, and the
    payment step that writes the order, its items and a notification and then
    empties the cart. */
module Checkout {
  import opened Common
  import opened Domain
  import opened CartContext

  const FreeShippingThreshold: int := 500
  const FlatShipping: int := 50

  /** Shipping is free from ₹500 of subtotal upward, ₹50 below. */
  function Shipping(totalPrice: int): (r: int)
    ensures r == 0 <==> totalPrice >= FreeShippingThreshold
    ensures r == 0 || r == FlatShipping
  {
    if totalPrice >= FreeShippingThreshold then 0 else FlatShipping
  }

  /** GST of 5%, `Math.round(totalPrice * 0.05)`: the nearest rupee, halves up. */
  function Tax(totalPrice: int): (r: int)
    ensures 20 * r - 10 <= totalPrice < 20 * r + 10
  {
    RoundDiv(totalPrice, 20)
  }

  /** Tax is the unique nearest rupee to 5% of the subtotal. */
  lemma TaxIsNearestRupee(totalPrice: int, t: int)
    requires 20 * t - 10 <= totalPrice < 20 * t + 10
    ensures t == Tax(totalPrice)
  {
    RoundDivUnique(totalPrice, 20, t);
  }

  lemma TaxNonNegative(totalPrice: int)
    requires totalPrice >= 0
    ensures Tax(totalPrice) >= 0
  {
  }

  function GrandTotal(totalPrice: int): int
  {
    totalPrice + Shipping(totalPrice) + Tax(totalPrice)
  }

  /** The grand total is never below the subtotal, and the surcharge on top of it
      is the shipping fee plus the rounded 5% tax. */
  lemma GrandTotalBounds(totalPrice: int)
    requires totalPrice >= 0
    ensures totalPrice <= GrandTotal(totalPrice)
    ensures totalPrice >= FreeShippingThreshold ==> 20 * (GrandTotal(totalPrice) - totalPrice) - 10 <= totalPrice
    ensures totalPrice < FreeShippingThreshold ==> GrandTotal(totalPrice) >= totalPrice + FlatShipping
  {
    TaxNonNegative(totalPrice);
  }

  /** Crossing the free-shipping threshold lowers what the buyer pays. */
  lemma ThresholdLowersTotal()
    ensures GrandTotal(FreeShippingThreshold) < GrandTotal(FreeShippingThreshold - 1)
  {
  }

  // ---------------------------------------------------------------------------
  // Shipping form

  datatype ShippingInfo = ShippingInfo(
    fullName: string,
    phone: string,
    address: string,
    city: string,
    state: string,
    pincode: string,
    notes: string)

  const EmptyShippingInfo: ShippingInfo := ShippingInfo("", "", "", "", "", "", "")

  /** Every field except the delivery notes is required (non-empty). */
  predicate RequiredFilled(info: ShippingInfo)
  {
    info.fullName != "" && info.phone != "" && info.address != "" &&
    info.city != "" && info.state != "" && info.pincode != ""
  }

  function CityLine(info: ShippingInfo): string
  {
    info.city + ", " + info.state + " " + info.pincode
  }

  function PhoneLine(info: ShippingInfo): string
  {
    "Phone: " + info.phone
  }

  /** The address text stored with the order: name, street, city line, phone, one per line. */
  function ShippingAddress(info: ShippingInfo): string
  {
    info.fullName + "\n" + info.address + "\n" + CityLine(info) + "\n" + PhoneLine(info)
  }

  /** Splitting a text at its line breaks. */
  function SplitLines(s: string): (r: seq<string>)
    ensures |r| >= 1
    decreases |s|
  {
    if s == [] then [""]
    else
      var rest := SplitLines(s[1..]);
      if s[0] == '\n' then [""] + rest else [[s[0]] + rest[0]] + rest[1..]
  }

  lemma {:induction false} SplitSingleLine(a: string)
    requires '\n' !in a
    ensures SplitLines(a) == [a]
    decreases |a|
  {
    if a != [] {
      SplitSingleLine(a[1..]);
      assert [a[0]] + a[1..] == a;
    }
  }

  lemma {:induction false} SplitAfterLine(a: string, b: string)
    requires '\n' !in a
    ensures SplitLines(a + "\n" + b) == [a] + SplitLines(b)
    decreases |a|
  {
    var s := a + "\n" + b;
    if a == [] {
      assert s[1..] == b;
    } else {
      assert s[1..] == a[1..] + "\n" + b;
      SplitAfterLine(a[1..], b);
      assert [a[0]] + a[1..] == a;
    }
  }

  /** Four lines joined by line breaks split back into the same four lines. */
  lemma FourLines(a: string, b: string, c: string, d: string)
    requires '\n' !in a && '\n' !in b && '\n' !in c && '\n' !in d
    ensures SplitLines(a + "\n" + b + "\n" + c + "\n" + d) == [a, b, c, d]
  {
    var cd := c + "\n" + d;
    var bcd := b + "\n" + cd;
    assert a + "\n" + b + "\n" + c + "\n" + d == a + "\n" + bcd;
    SplitSingleLine(d);
    SplitAfterLine(c, d);
    assert SplitLines(cd) == [c, d];
    SplitAfterLine(b, cd);
    assert SplitLines(bcd) == [b, c, d];
    SplitAfterLine(a, bcd);
  }

  /** The address text is readable back line by line: as long as no field holds a
      line break (the street is a multi-line text box, so it may), the four lines
      are exactly the name, the street, the city line and the phone line. */
  lemma AddressLines(info: ShippingInfo)
    requires '\n' !in info.fullName && '\n' !in info.address
    requires '\n' !in CityLine(info) && '\n' !in PhoneLine(info)
    ensures SplitLines(ShippingAddress(info)) == [info.fullName, info.address, CityLine(info), PhoneLine(info)]
  {
    FourLines(info.fullName, info.address, CityLine(info), PhoneLine(info));
  }

  // ---------------------------------------------------------------------------
  // Rows written by the payment step

  datatype OrderRequest = OrderRequest(
    buyerId: string,
    totalAmount: int,
    shippingAddress: string,
    notes: Option<string>,
    status: string)

  datatype OrderItemRow = OrderItemRow(orderId: string, productId: Option<string>, quantity: int, priceAtTime: int)

  function OrderRequestFor(buyerId: string, info: ShippingInfo, items: seq<CartItem>): OrderRequest
  {
    OrderRequest(buyerId, GrandTotal(TotalPrice(items)), ShippingAddress(info), EmptyToNull(info.notes), Pending)
  }

  /** One order item per cart line; the product reference is always left null. */
  function OrderItemsFor(items: seq<CartItem>, orderId: string): seq<OrderItemRow>
  {
    seq(|items|, i requires 0 <= i < |items| => OrderItemRow(orderId, None, items[i].quantity, items[i].price))
  }

  function RowAmount(row: OrderItemRow): int { row.priceAtTime * row.quantity }

  /** The order items reproduce the cart: one row per line, in order, all attached
      to the order, and their amounts add up to the cart's subtotal. */
  lemma {:induction false} OrderItemsMatchCart(items: seq<CartItem>, orderId: string)
    ensures |OrderItemsFor(items, orderId)| == |items|
    ensures forall i :: 0 <= i < |items| ==>
      OrderItemsFor(items, orderId)[i].orderId == orderId &&
      OrderItemsFor(items, orderId)[i].productId == None &&
      RowAmount(OrderItemsFor(items, orderId)[i]) == LineSubtotal(items[i])
    ensures SumOf(OrderItemsFor(items, orderId), RowAmount) == TotalPrice(items)
    decreases |items|
  {
    if items != [] {
      OrderItemsMatchCart(items[1..], orderId);
      assert OrderItemsFor(items, orderId)[1..] == OrderItemsFor(items[1..], orderId);
    }
  }

  /** The first eight characters of an id, `id.slice(0, 8)`. */
  function ShortId(id: string): (r: string)
    ensures IsPrefix(r, id) && |r| == if |id| < 8 then |id| else 8
  {
    if |id| < 8 then id else id[..8]
  }

  function OrderPlacedNotification(userId: string, orderId: string): NotificationInsert
  {
    NotificationInsert(
      userId,
      "order_update",
      "Order Placed Successfully!",
      "Your order #" + ShortId(orderId) + " has been placed and is being processed.",
      OrderRef(orderId))
  }

  /** The buyer's notification names the order by its short id and links to it. */
  lemma OrderPlacedNamesOrder(userId: string, orderId: string)
    ensures Contains(OrderPlacedNotification(userId, orderId).message, ShortId(orderId))
    ensures OrderPlacedNotification(userId, orderId).data == OrderRef(orderId)
  {
    var rest := ShortId(orderId) + " has been placed and is being processed.";
    assert IsPrefix(ShortId(orderId), rest);
    assert Contains(rest, ShortId(orderId));
    ContainsExtendLeft("Your order #", rest, ShortId(orderId));
    assert "Your order #" + rest == OrderPlacedNotification(userId, orderId).message;
  }

  /** What the backend answers to the payment step's inserts: the order insert fails,
      the order is created but its items insert fails, or both succeed. The result
      of the notification insert is not inspected by the page. */
  datatype PaymentOutcome = OrderRejected | ItemsRejected(orderId: string) | Placed(orderId: string)

  datatype CheckoutWrite =
    | InsertOrder(order: OrderRequest)
    | InsertOrderItems(rows: seq<OrderItemRow>)
    | InsertNotification(notification: NotificationInsert)

  /** The inserts the payment step issues, stopping at the first failure. */
  function PaymentWrites(buyerId: string, info: ShippingInfo, items: seq<CartItem>, outcome: PaymentOutcome): (w: seq<CheckoutWrite>)
    ensures |w| >= 1 && w[0] == InsertOrder(OrderRequestFor(buyerId, info, items))
    ensures outcome.Placed? <==> |w| == 3
  {
    [InsertOrder(OrderRequestFor(buyerId, info, items))] +
    match outcome
    case OrderRejected => []
    case ItemsRejected(id) => [InsertOrderItems(OrderItemsFor(items, id))]
    case Placed(id) => [InsertOrderItems(OrderItemsFor(items, id)), InsertNotification(OrderPlacedNotification(buyerId, id))]
  }

  /** The page sends the visitor back to the cart when there is nothing to check out,
      except on the confirmation step. */
  predicate RedirectsToCart(items: seq<CartItem>, step: int)
  {
    |items| == 0 && step != 3
  }

  /** The confirmation step's "Total Paid" as written: the grand total recomputed
      from the cart, which by then has been emptied. */
  function ConfirmationTotalAsWritten(itemsNow: seq<CartItem>): int
  {
    GrandTotal(TotalPrice(itemsNow))
  }

  /** After any order with a positive subtotal the cart is empty, so the confirmation
      shows the bare ₹50 shipping fee instead of the amount charged. */
  lemma ConfirmationShowsShippingOnly(items: seq<CartItem>)
    requires TotalPrice(items) > 0
    ensures ConfirmationTotalAsWritten([]) == FlatShipping
    ensures ConfirmationTotalAsWritten([]) != OrderRequestFor("", EmptyShippingInfo, items).totalAmount
  {
    EmptyTotals();
    GrandTotalBounds(TotalPrice(items));
    TaxNonNegative(TotalPrice(items));
  }

  class CheckoutPage {
    /** 1 shipping, 2 payment, 3 confirmation. */
    var currentStep: int
    var isProcessing: bool
    var orderId: Option<string>
    var info: ShippingInfo
    /** The amount charged for the placed order, shown on the confirmation step. */
    var paidTotal: int

    /** The step is one of the three; an order id exists exactly on the confirmation
        step; and payment and confirmation are reached only with a filled form. */
    ghost predicate Valid()
      reads this
    {
      1 <= currentStep <= 3 && (currentStep == 3 <==> orderId.Some?) &&
      (currentStep >= 2 ==> RequiredFilled(info))
    }

    constructor ()
      ensures currentStep == 1 && !isProcessing && orderId == None && info == EmptyShippingInfo && paidTotal == 0
      ensures Valid()
    {
      currentStep := 1;
      isProcessing := false;
      orderId := None;
      info := EmptyShippingInfo;
      paidTotal := 0;
    }

    /** Typing into the shipping form, which is shown on step 1 only. */
    method EditShipping(newInfo: ShippingInfo)
      requires Valid() && currentStep == 1
      modifies this
      ensures Valid()
      ensures info == newInfo
      ensures currentStep == old(currentStep) && orderId == old(orderId) && isProcessing == old(isProcessing) && paidTotal == old(paidTotal)
    {
      info := newInfo;
    }

    /** "Continue to Payment": only with every required field filled in. */
    method HandleShippingSubmit()
      requires Valid() && currentStep == 1
      modifies this
      ensures Valid()
      ensures currentStep == 2 <==> RequiredFilled(info)
      ensures currentStep == if RequiredFilled(info) then 2 else old(currentStep)
      ensures info == old(info) && orderId == old(orderId) && isProcessing == old(isProcessing) && paidTotal == old(paidTotal)
    {
      if !RequiredFilled(info) {
        return;
      }
      currentStep := 2;
    }

    /** "Back" on the payment step. */
    method BackToShipping()
      requires Valid() && currentStep == 2
      modifies this
      ensures Valid()
      ensures currentStep == 1
      ensures info == old(info) && orderId == old(orderId) && isProcessing == old(isProcessing) && paidTotal == old(paidTotal)
    {
      currentStep := 1;
    }

    /** "Pay": with nobody signed in nothing is written. Otherwise the order is
        inserted for the cart's grand total, then its items, then the buyer's
        notification; only when both inserts succeed does the page move to the
        confirmation step and empty the cart. */
    method HandlePayment(cart: CartStore, outcome: PaymentOutcome) returns (writes: seq<CheckoutWrite>)
      requires Valid() && currentStep == 2
      modifies this, cart
      ensures Valid()
      ensures cart.user.None? ==>
        writes == [] && currentStep == old(currentStep) && orderId == old(orderId) &&
        cart.items == old(cart.items) && cart.issued == old(cart.issued)
      ensures cart.user.Some? ==> writes == PaymentWrites(cart.user.value, info, old(cart.items), outcome)
      ensures cart.user.Some? && outcome.Placed? ==>
        currentStep == 3 && orderId == Some(outcome.orderId) && paidTotal == writes[0].order.totalAmount &&
        cart.items == [] && cart.issued == old(cart.issued) + [DeleteAllLines(cart.user.value)] &&
        cart.localSlot == None && !RedirectsToCart(cart.items, currentStep)
      ensures !(cart.user.Some? && outcome.Placed?) ==>
        currentStep == old(currentStep) && orderId == old(orderId) && paidTotal == old(paidTotal) &&
        cart.items == old(cart.items) && cart.issued == old(cart.issued) && cart.localSlot == old(cart.localSlot)
      ensures cart.user == old(cart.user) && cart.isLoading == old(cart.isLoading)
      ensures info == old(info) && !isProcessing
    {
      if cart.user.None? {
        writes := [];
        isProcessing := false;
        return;
      }
      var buyer := cart.user.value;
      isProcessing := true;
      var order := OrderRequestFor(buyer, info, cart.items);
      writes := [InsertOrder(order)];
      match outcome {
        case OrderRejected =>
        case ItemsRejected(id) =>
          writes := writes + [InsertOrderItems(OrderItemsFor(cart.items, id))];
        case Placed(id) =>
          writes := writes + [InsertOrderItems(OrderItemsFor(cart.items, id))];
          writes := writes + [InsertNotification(OrderPlacedNotification(buyer, id))];
          orderId := Some(id);
          currentStep := 3;
          paidTotal := order.totalAmount;
          cart.ClearCart();
      }
      isProcessing := false;
    }
  }
}
