/** The admin dashboard: the role gate, the platform figures (revenue, order
    counts, average order value, the per-status breakdown), the order actions an
    administrator is offered for each status, and product deletion. */
module AdminDashboard {
  import opened Common
  import opened Domain
  import opened SupabaseHelpers

  // ---------------------------------------------------------------------------
  // Figures

  /** `Math.round(totalRevenue / Math.max(orders.length, 1))`. */
  function AvgOrderValue(orders: seq<Order>): int
  {
    RoundDiv(TotalRevenue(orders), if |orders| > 1 then |orders| else 1)
  }

  /** Without orders the average is 0; with orders it is the revenue per order
      rounded to the rupee, so it lies between the smallest and the largest order. */
  lemma AvgOrderValueWithinOrders(orders: seq<Order>, lo: int, hi: int)
    requires forall i :: 0 <= i < |orders| ==> lo <= orders[i].totalAmount <= hi
    ensures orders == [] ==> AvgOrderValue(orders) == 0
    ensures orders != [] ==> lo <= AvgOrderValue(orders) <= hi
  {
    if orders != [] {
      SumOfBounds(orders, AmountOf, lo, hi);
      RoundDivWithin(TotalRevenue(orders), |orders|, lo, hi);
    }
  }

  /** The share of orders in a status, `Math.round(count / orders.length * 100)`, 0 without orders. */
  function StatusPercentage(orders: seq<Order>, status: string): int
  {
    if |orders| > 0 then RoundDiv(100 * CountStatus(orders, status), |orders|) else 0
  }

  /** Every share is a whole percentage between 0 and 100; a status nobody has is
      0% and a status everybody has is 100%. */
  lemma StatusPercentageBounds(orders: seq<Order>, status: string)
    ensures 0 <= StatusPercentage(orders, status) <= 100
    ensures CountStatus(orders, status) == 0 ==> StatusPercentage(orders, status) == 0
    ensures orders != [] && CountStatus(orders, status) == |orders| ==> StatusPercentage(orders, status) == 100
  {
    if orders != [] {
      var c := CountStatus(orders, status);
      RoundDivWithin(100 * c, |orders|, 0, 100);
      if c == 0 {
        RoundDivWithin(0, |orders|, 0, 0);
      }
      if c == |orders| {
        RoundDivWithin(100 * c, |orders|, 100, 100);
      }
    }
  }

  /** The five statuses of the breakdown, in display order. */
  const BreakdownStatuses: seq<string> := [Pending, Confirmed, Shipped, Delivered, Cancelled]

  /** Pending and delivered ("completed") orders never outnumber all orders. */
  lemma PendingAndCompletedWithinOrders(orders: seq<Order>)
    ensures CountStatus(orders, Pending) + CountStatus(orders, Delivered) <= |orders|
  {
    CountTwoStatuses(orders, Pending, Delivered);
  }

  /** The colours the dashboard uses for statuses. */
  datatype Tone = Amber | Blue | Purple | Green | Red

  /** `getOrderStatusBadge`: the style of the status, or the pending style for an unknown one. */
  function BadgeTone(status: string): Tone
  {
    if status == Pending then Amber
    else if status == Confirmed then Blue
    else if status == Shipped then Purple
    else if status == Delivered then Green
    else if status == Cancelled then Red
    else Amber
  }

  /** The bar colour of the breakdown: anything not named is drawn red. */
  function BarTone(status: string): Tone
  {
    if status == Pending then Amber
    else if status == Confirmed then Blue
    else if status == Shipped then Purple
    else if status == Delivered then Green
    else Red
  }

  /** Badge and bar agree on every status of the breakdown, and differ on unknown
      statuses, which the badge shows as pending. */
  lemma BadgeAndBarAgree(status: string)
    ensures status in BreakdownStatuses ==> BadgeTone(status) == BarTone(status)
    ensures status !in BreakdownStatuses ==> BadgeTone(status) == Amber && BarTone(status) == Red
  {
  }

  // ---------------------------------------------------------------------------
  // Order actions

  datatype OrderAction = Confirm | Ship | CancelOrder

  /** The status an action writes. */
  function Target(a: OrderAction): string
  {
    match a
    case Confirm => Confirmed
    case Ship => Shipped
    case CancelOrder => Cancelled
  }

  /** The buttons on an order row, in display order. */
  function OfferedActions(status: string): (r: seq<OrderAction>)
    ensures Confirm in r <==> status == Pending
    ensures Ship in r <==> status == Confirmed
    ensures CancelOrder in r <==> status != Cancelled && status != Delivered
    ensures NoDuplicates(r)
  {
    (if status == Pending then [Confirm] else []) +
    (if status == Confirmed then [Ship] else []) +
    (if status != Cancelled && status != Delivered then [CancelOrder] else [])
  }

  /** One click on an offered button moves an order from `s` to `t`. */
  predicate Step(s: string, t: string)
  {
    exists a :: a in OfferedActions(s) && Target(a) == t
  }

  /** Every button changes the status, none writes "delivered", and cancelled and
      delivered orders offer nothing. */
  lemma ActionsNeverDeliver(s: string, t: string)
    ensures Step(s, t) ==> t != s && t != Delivered
    ensures s == Cancelled || s == Delivered ==> OfferedActions(s) == []
  {
  }

  /** A history of statuses an order goes through by the dashboard's buttons. */
  predicate IsHistory(h: seq<string>)
  {
    forall i :: 0 <= i < |h| - 1 ==> Step(h[i], h[i + 1])
  }

  /** No sequence of clicks delivers an order: "delivered" appears in a history
      only if the order started there. */
  lemma {:induction false} NoHistoryDelivers(h: seq<string>)
    requires IsHistory(h) && h != [] && h[0] != Delivered
    ensures Delivered !in h
    decreases |h|
  {
    if |h| > 1 {
      ActionsNeverDeliver(h[0], h[1]);
      assert IsHistory(h[1..]) by {
        forall i | 0 <= i < |h[1..]| - 1
          ensures Step(h[1..][i], h[1..][i + 1])
        {
          assert Step(h[i + 1], h[i + 2]);
        }
      }
      NoHistoryDelivers(h[1..]);
      assert h == [h[0]] + h[1..];
    }
  }

  /** A pending order is confirmed, then shipped, in two clicks. */
  lemma PendingReachesShipped()
    ensures IsHistory([Pending, Confirmed, Shipped])
  {
    assert Confirm in OfferedActions(Pending) && Target(Confirm) == Confirmed;
    assert Ship in OfferedActions(Confirmed) && Target(Ship) == Shipped;
  }

  // ---------------------------------------------------------------------------
  // Data and mutations

  /** A row update or delete the dashboard issues. */
  datatype AdminWrite = SetOrderStatus(orderId: string, status: string) | DeleteProduct(productId: string)

  /** What a mutation ends in: a success toast and a refetch, or the error's message. */
  datatype MutationResult = Done(toast: string) | Failed(message: string)

  function MutationOutcome(error: Option<PgError>, success: string, fallback: string): (r: MutationResult)
    ensures r.Done? <==> error.None?
    ensures r.Failed? && fallback != "" ==> r.message != ""
  {
    if error.None? then Done(success) else Failed(OrElse(Some(error.value.message), fallback))
  }

  class AdminDashboard {
    var profileCount: nat
    var products: seq<Product>
    var orders: seq<Order>
    var categoryCount: nat
    var isLoading: bool
    var issued: seq<AdminWrite>

    constructor ()
      ensures profileCount == 0 && products == [] && orders == [] && categoryCount == 0
      ensures isLoading && issued == []
    {
      profileCount := 0;
      products := [];
      orders := [];
      categoryCount := 0;
      isLoading := true;
      issued := [];
    }

    /** `fetchData`: each of the four lists is replaced only when its query answers
        data; the rest stay as they were. */
    method FetchData(profileRows: Option<nat>, productRows: Option<seq<Product>>, orderRows: Option<seq<Order>>, categoryRows: Option<nat>)
      modifies this
      ensures profileCount == if profileRows.Some? then profileRows.value else old(profileCount)
      ensures products == if productRows.Some? then productRows.value else old(products)
      ensures orders == if orderRows.Some? then orderRows.value else old(orders)
      ensures categoryCount == if categoryRows.Some? then categoryRows.value else old(categoryCount)
      ensures !isLoading && issued == old(issued)
    {
      isLoading := true;
      if profileRows.Some? { profileCount := profileRows.value; }
      if productRows.Some? { products := productRows.value; }
      if orderRows.Some? { orders := orderRows.value; }
      if categoryRows.Some? { categoryCount := categoryRows.value; }
      isLoading := false;
    }

    /** A status button on an order row: writes the action's status; a success
        asks for a refetch. */
    method UpdateOrderStatus(order: Order, a: OrderAction, error: Option<PgError>) returns (result: MutationResult, refetch: bool)
      requires a in OfferedActions(order.status)
      modifies this
      ensures issued == old(issued) + [SetOrderStatus(order.id, Target(a))]
      ensures Target(a) != Delivered && Target(a) != order.status
      ensures result == MutationOutcome(error, "Order status updated", "Failed to update order")
      ensures refetch <==> error.None?
      ensures orders == old(orders) && products == old(products) && isLoading == old(isLoading)
    {
      issued := issued + [SetOrderStatus(order.id, Target(a))];
      result := MutationOutcome(error, "Order status updated", "Failed to update order");
      refetch := error.None?;
    }

    /** The bin on a product row: nothing unless the administrator confirms. */
    method HandleDeleteProduct(id: string, confirmed: bool, error: Option<PgError>) returns (result: Option<MutationResult>, refetch: bool)
      modifies this
      ensures !confirmed ==> result.None? && !refetch && issued == old(issued)
      ensures confirmed ==> (issued == old(issued) + [DeleteProduct(id)] &&
        result == Some(MutationOutcome(error, "Product deleted", "Failed to delete product")) &&
        (refetch <==> error.None?))
      ensures orders == old(orders) && products == old(products) && isLoading == old(isLoading)
    {
      if !confirmed {
        return None, false;
      }
      issued := issued + [DeleteProduct(id)];
      result := Some(MutationOutcome(error, "Product deleted", "Failed to delete product"));
      refetch := error.None?;
    }
  }
}
