/** The realtime notification hook: which table events a signed-in user listens
    to, and, for each event, whether a notification row is written for that user
    and with what text. The lookups an event triggers are given as the rows and
    errors they answer. */
module RealtimeNotifications {
  import opened Common
  import opened Domain
  import opened SupabaseHelpers

  // ---------------------------------------------------------------------------
  // Subscriptions

  datatype Channel = NewOrders | NewReviews | OrderUpdates

  /** The channels opened for a session: none for a guest; new orders and new
      reviews for farmers; status updates of their own orders for buyers. */
  function Channels(user: Option<string>, roles: seq<string>): (r: seq<Channel>)
    ensures user.None? ==> r == []
    ensures NewOrders in r <==> user.Some? && "farmer" in roles
    ensures NewReviews in r <==> user.Some? && "farmer" in roles
    ensures OrderUpdates in r <==> user.Some? && "buyer" in roles
    ensures NoDuplicates(r)
  {
    if user.None? then []
    else
      (if "farmer" in roles then [NewOrders, NewReviews] else []) +
      (if "buyer" in roles then [OrderUpdates] else [])
  }

  /** What an event leads to: a notification row for the user and a toast. */
  datatype Emission = Emission(insert: NotificationInsert, toastTitle: string, toastDescription: string)

  // ---------------------------------------------------------------------------
  // Order status updates (buyers)

  const ConfirmedMessage: string := "Your order has been confirmed! \U{1F389}"
  const ShippedMessage: string := "Your order is on the way! \U{1F69A}"
  const DeliveredMessage: string := "Your order has been delivered! \U{1F4E6}"
  const CancelledMessage: string := "Your order has been cancelled."
  const OtherStatusPrefix: string := "Order status updated to "

  /** The message for a new status: a fixed sentence for the four statuses after
      pending, otherwise one naming the status. */
  function StatusMessage(status: string): (r: string)
    ensures status == Confirmed ==> r == ConfirmedMessage
    ensures status == Shipped ==> r == ShippedMessage
    ensures status == Delivered ==> r == DeliveredMessage
    ensures status == Cancelled ==> r == CancelledMessage
    ensures status !in {Confirmed, Shipped, Delivered, Cancelled} ==> r == OtherStatusPrefix + status
  {
    if status == Confirmed then ConfirmedMessage
    else if status == Shipped then ShippedMessage
    else if status == Delivered then DeliveredMessage
    else if status == Cancelled then CancelledMessage
    else OtherStatusPrefix + status
  }

  /** Different statuses give different messages, and a status without a sentence
      of its own is named in its message. */
  lemma StatusMessagesDistinct(s: string, t: string)
    ensures StatusMessage(s) == StatusMessage(t) ==> s == t
    ensures s !in {Confirmed, Shipped, Delivered, Cancelled} ==> Contains(StatusMessage(s), s)
  {
    var p := |OtherStatusPrefix|;
    var known := {Confirmed, Shipped, Delivered, Cancelled};
    if s !in known {
      assert IsPrefix(s, s);
      ContainsExtendLeft(OtherStatusPrefix, s, s);
    }
    if s !in known && t !in known {
      assert StatusMessage(s)[p..] == s;
      assert StatusMessage(t)[p..] == t;
    } else if s !in known || t !in known {
      assert StatusMessage(s)[0] != StatusMessage(t)[0];
    }
  }

  /** An update of one of the buyer's orders: a notification exactly when the
      status changed. An update event that does not carry the previous status
      counts as a change. */
  function OrderUpdateEmission(userId: string, orderId: string, oldStatus: Option<string>, newStatus: string): (r: Option<Emission>)
    ensures r.Some? <==> oldStatus != Some(newStatus)
    ensures r.Some? ==> r.value.insert.userId == userId && r.value.insert.kind == "order_update" &&
                        r.value.insert.message == StatusMessage(newStatus) &&
                        r.value.insert.data == OrderStatusRef(orderId, newStatus) &&
                        r.value.toastDescription == r.value.insert.message
  {
    if oldStatus == Some(newStatus) then None
    else
      var message := StatusMessage(newStatus);
      Some(Emission(NotificationInsert(userId, "order_update", "Order Update", message, OrderStatusRef(orderId, newStatus)),
                    "Order Update", message))
  }

  /** Delivering the same status twice notifies once: the repeated event carries
      the status it already had. */
  lemma RepeatedUpdateIsSilent(userId: string, orderId: string, before: Option<string>, status: string)
    requires before != Some(status)
    ensures OrderUpdateEmission(userId, orderId, before, status).Some?
    ensures OrderUpdateEmission(userId, orderId, Some(status), status).None?
  {
  }

  // ---------------------------------------------------------------------------
  // New orders (farmers)

  /** `orderItems.map(item => item.product_id).filter(Boolean)`: the ids of the
      order's lines, without the missing and empty ones. */
  function ProductIdsForLookup(items: seq<Option<string>>): (r: seq<string>)
    ensures |r| <= |items|
    ensures forall x :: x in r ==> x != "" && Some(x) in items
    decreases |items|
  {
    if items == [] then []
    else (if items[0].Some? && items[0].value != "" then [items[0].value] else []) + ProductIdsForLookup(items[1..])
  }

  /** Every present, non-empty id of the order takes part in the lookup. */
  lemma {:induction false} ProductIdsComplete(items: seq<Option<string>>, x: string)
    requires x != "" && Some(x) in items
    ensures x in ProductIdsForLookup(items)
    decreases |items|
  {
    if items[0] != Some(x) {
      assert Some(x) in items[1..];
      ProductIdsComplete(items[1..], x);
    }
  }

  /** The farmer's products among the order's: the rows of the products query. */
  function OwnedIn(userId: string, ids: seq<string>): Product -> bool
  {
    (p: Product) => p.sellerId == userId && p.id in ids
  }

  lemma FilterNonEmpty(products: seq<Product>, keep: Product -> bool)
    ensures Filter(products, keep) != [] <==> exists i :: 0 <= i < |products| && keep(products[i])
  {
    if exists i :: 0 <= i < |products| && keep(products[i]) {
      var i :| 0 <= i < |products| && keep(products[i]);
      FilterMembers(products, keep, products[i]);
    }
    if Filter(products, keep) != [] {
      var x := Filter(products, keep)[0];
      FilterMembers(products, keep, x);
    }
  }

  const NewOrderTitle: string := "New Order Received! \U{1F6D2}"
  const NewOrderPrefix: string := "You have a new order for "
  const NewOrderSuffix: string := " of your products."

  function NewOrderMessage(count: nat): string
  {
    NewOrderPrefix + NatToString(count) + NewOrderSuffix
  }

  /** The message carries the count: different counts read differently. */
  lemma NewOrderMessageCarriesCount(m: nat, n: nat)
    requires NewOrderMessage(m) == NewOrderMessage(n)
    ensures m == n
  {
    var a := NewOrderMessage(m);
    var p := |NewOrderPrefix|;
    assert a[p..|a| - |NewOrderSuffix|] == NatToString(m);
    assert NewOrderMessage(n)[p..|NewOrderMessage(n)| - |NewOrderSuffix|] == NatToString(n);
    NatToStringInjective(m, n);
  }

  /** A new order: the order's lines are read (`items`, `itemsError`); when there
      are any, the farmer's products among them are looked up in `products`
      (`productsError`). Either error, no lines, or none of the farmer's products
      in the order write nothing; otherwise one notification, counting them. */
  function NewOrderEmission(userId: string, orderId: string, items: Option<seq<Option<string>>>, itemsError: Option<PgError>,
                            products: seq<Product>, productsError: Option<PgError>): (r: Option<Emission>)
    ensures r.Some? <==> itemsError.None? && productsError.None? && items.Some? &&
                         exists i :: 0 <= i < |products| && OwnedIn(userId, ProductIdsForLookup(items.value))(products[i])
    ensures r.Some? ==>
      var count := CountWhere(products, OwnedIn(userId, ProductIdsForLookup(items.value)));
      1 <= count && r.value.insert == NotificationInsert(userId, "new_order", NewOrderTitle, NewOrderMessage(count), OrderRef(orderId))
  {
    if itemsError.Some? || items.None? || items.value == [] then None
    else
      var keep := OwnedIn(userId, ProductIdsForLookup(items.value));
      var mine := Filter(products, keep);
      FilterNonEmpty(products, keep);
      if productsError.Some? || mine == [] then None
      else Some(Emission(NotificationInsert(userId, "new_order", NewOrderTitle, NewOrderMessage(|mine|), OrderRef(orderId)),
                         "New order received!", "Check your dashboard for details."))
  }

  /** An order holding one of the farmer's products is announced when both lookups
      succeed, whatever else the order holds. */
  lemma OwnProductAnnounced(userId: string, orderId: string, items: seq<Option<string>>, products: seq<Product>, k: nat)
    requires k < |products| && products[k].sellerId == userId && products[k].id != "" && Some(products[k].id) in items
    ensures NewOrderEmission(userId, orderId, Some(items), None, products, None).Some?
  {
    ProductIdsComplete(items, products[k].id);
    assert OwnedIn(userId, ProductIdsForLookup(items))(products[k]);
  }

  // ---------------------------------------------------------------------------
  // New reviews (farmers)

  const NewReviewTitle: string := "New Review! ⭐"

  function ReviewMessage(rating: int, productName: string): string
  {
    "Someone left a " + IntToString(rating) + "-star review on your product \"" + productName + "\"."
  }

  function IsOwnProduct(userId: string, productId: string): Product -> bool
  {
    (p: Product) => p.id == productId && p.sellerId == userId
  }

  /** A new review: the reviewed product is looked up among the farmer's own
      (`maybeSingle`, which answers an error for more than one row). An error or no
      such product writes nothing; otherwise one notification naming the product
      and the rating. */
  function NewReviewEmission(userId: string, reviewId: string, productId: string, rating: int,
                             products: seq<Product>, productError: Option<PgError>): (r: Option<Emission>)
    ensures r.Some? <==> productError.None? && |Filter(products, IsOwnProduct(userId, productId))| == 1
    ensures r.Some? ==>
      var p := Filter(products, IsOwnProduct(userId, productId))[0];
      p.id == productId && p.sellerId == userId &&
      r.value.insert == NotificationInsert(userId, "new_review", NewReviewTitle, ReviewMessage(rating, p.name), ReviewRef(p.id, reviewId))
  {
    var found := Filter(products, IsOwnProduct(userId, productId));
    if productError.Some? || |found| != 1 then None
    else
      var p := found[0];
      Some(Emission(NotificationInsert(userId, "new_review", NewReviewTitle, ReviewMessage(rating, p.name), ReviewRef(p.id, reviewId)),
                    "New review on your product!", IntToString(rating) + " star review received."))
  }

  /** The review message names the product. */
  lemma ReviewMessageNamesProduct(rating: int, name: string)
    ensures Contains(ReviewMessage(rating, name), name)
  {
    var head := "Someone left a " + IntToString(rating) + "-star review on your product \"";
    var tail := name + "\".";
    assert IsPrefix(name, tail);
    ContainsExtendLeft(head, tail, name);
    assert head + tail == ReviewMessage(rating, name);
  }

  /** A review of another seller's product is never announced to this farmer. */
  lemma OthersReviewsSilent(userId: string, reviewId: string, productId: string, rating: int, products: seq<Product>)
    requires forall i :: 0 <= i < |products| && products[i].id == productId ==> products[i].sellerId != userId
    ensures NewReviewEmission(userId, reviewId, productId, rating, products, None).None?
  {
    FilterNonEmpty(products, IsOwnProduct(userId, productId));
  }

  /** Every notification the hook writes is addressed to the signed-in user. */
  lemma EmissionsAddressUser(userId: string, orderId: string, reviewId: string, productId: string, rating: int,
                             oldStatus: Option<string>, newStatus: string,
                             items: Option<seq<Option<string>>>, itemsError: Option<PgError>,
                             products: seq<Product>, lookupError: Option<PgError>)
    ensures var e := OrderUpdateEmission(userId, orderId, oldStatus, newStatus); e.Some? ==> e.value.insert.userId == userId
    ensures var e := NewOrderEmission(userId, orderId, items, itemsError, products, lookupError); e.Some? ==> e.value.insert.userId == userId
    ensures var e := NewReviewEmission(userId, reviewId, productId, rating, products, lookupError); e.Some? ==> e.value.insert.userId == userId
  {
  }
}
