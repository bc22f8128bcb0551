/** The account page: the signed-in buyer's orders with their three counters, the
    role shown under the name, the seller badge, and the per-status icon and badge. */
module Account {
  import opened Common
  import opened Domain
  import opened SupabaseHelpers

  // ---------------------------------------------------------------------------
  // Order counters

  datatype OrderStats = OrderStats(total: nat, delivered: nat, pending: nat)

  /** The counters computed from a fetched list. */
  function StatsOf(orders: seq<Order>): (r: OrderStats)
    ensures r.total == |orders|
    ensures r.delivered + r.pending <= r.total
    ensures orders == [] ==> r == OrderStats(0, 0, 0)
  {
    CountTwoStatuses(orders, Delivered, Pending);
    OrderStats(|orders|, CountStatus(orders, Delivered), CountStatus(orders, Pending))
  }

  /** The orders part of the page's state. */
  datatype OrdersView = OrdersView(orders: seq<Order>, stats: OrderStats, isLoading: bool, toast: Option<string>)

  const InitialOrdersView: OrdersView := OrdersView([], OrderStats(0, 0, 0), true, None)

  /** The counters describe the list shown. */
  predicate StatsMatch(v: OrdersView)
  {
    v.stats == StatsOf(v.orders)
  }

  /** `fetchOrders` for the signed-in user: the rows on success, with fresh
      counters; an empty list on a policy denial (code 42501 or a message naming a
      policy), which leaves the counters as they were; a toast for any other error;
      and nothing at all without a user. */
  function FetchOrders(v: OrdersView, user: Option<string>, outcome: QueryOutcome<seq<Order>>): (r: OrdersView)
    ensures user.None? ==> r == v
    ensures user.Some? ==> !r.isLoading
    ensures user.Some? && outcome.Returned? && outcome.error.None? ==>
      r.orders == (if outcome.data.Some? then outcome.data.value else []) && StatsMatch(r) && r.toast == v.toast
    ensures user.Some? && outcome.Returned? && outcome.error.Some? && IsPolicyDenial(outcome.error.value) ==>
      r.orders == [] && r.stats == v.stats && r.toast == v.toast
    ensures user.Some? && outcome.Returned? && outcome.error.Some? && !IsPolicyDenial(outcome.error.value) ==>
      r.orders == v.orders && r.stats == v.stats && r.toast == Some("Unable to load orders")
    ensures user.Some? && outcome.Threw? ==> r.orders == v.orders && r.stats == v.stats && r.toast == v.toast
  {
    if user.None? then v
    else match outcome
      case Threw(_) => v.(isLoading := false)
      case Returned(data, error) =>
        if error.Some? then
          if IsPolicyDenial(error.value) then v.(orders := [], isLoading := false)
          else v.(toast := Some("Unable to load orders"), isLoading := false)
        else
          var rows := if data.Some? then data.value else [];
          OrdersView(rows, StatsOf(rows), false, v.toast)
  }

  /** A fetch keeps the counters describing the list, unless a denial hides a list
      that was shown: a denial empties the list but keeps the counters. */
  lemma FetchKeepsStatsMatch(v: OrdersView, user: Option<string>, outcome: QueryOutcome<seq<Order>>)
    requires StatsMatch(v)
    requires outcome.Returned? && outcome.error.Some? && IsPolicyDenial(outcome.error.value) ==> v.orders == []
    ensures StatsMatch(FetchOrders(v, user, outcome))
  {
  }

  /** The only way the counters and the list part: a denial after rows were shown
      keeps counting the rows it hid. */
  lemma DenialHidesCountedOrders(v: OrdersView, user: string, e: PgError)
    requires StatsMatch(v) && v.orders != [] && IsPolicyDenial(e)
    ensures FetchOrders(v, Some(user), Returned(None, Some(e))).orders == []
    ensures !StatsMatch(FetchOrders(v, Some(user), Returned(None, Some(e))))
  {
  }

  /** The first fetch always leaves matching counters. */
  lemma FirstFetchMatches(user: Option<string>, outcome: QueryOutcome<seq<Order>>)
    ensures StatsMatch(FetchOrders(InitialOrdersView, user, outcome))
  {
    FetchKeepsStatsMatch(InitialOrdersView, user, outcome);
  }

  // ---------------------------------------------------------------------------
  // Roles

  /** The role shown under the name: admin over farmer over agronomist, otherwise buyer. */
  function PrimaryRole(roles: seq<string>): (r: string)
    ensures r == "Admin" <==> "admin" in roles
    ensures r == "Farmer" <==> "farmer" in roles && "admin" !in roles
    ensures r == "Agronomist" <==> "agronomist" in roles && "farmer" !in roles && "admin" !in roles
    ensures r == "Buyer" <==> "admin" !in roles && "farmer" !in roles && "agronomist" !in roles
  {
    if "admin" in roles then "Admin"
    else if "farmer" in roles then "Farmer"
    else if "agronomist" in roles then "Agronomist"
    else "Buyer"
  }

  /** The "Verified Seller" badge. */
  predicate VerifiedSeller(roles: seq<string>)
  {
    "farmer" in roles
  }

  /** The badge follows the farmer role, not the title: an admin who also farms is
      titled Admin and still shown as a verified seller, and every farmer title
      carries the badge. */
  lemma SellerBadgeAndTitle(roles: seq<string>)
    ensures PrimaryRole(roles) == "Farmer" ==> VerifiedSeller(roles)
    ensures "admin" in roles && "farmer" in roles ==> PrimaryRole(roles) == "Admin" && VerifiedSeller(roles)
    ensures PrimaryRole(roles) == PrimaryRole(roles + ["buyer"])
  {
    assert forall x :: x in roles + ["buyer"] <==> x in roles || x == "buyer";
  }

  // ---------------------------------------------------------------------------
  // Status icon and badge

  datatype StatusIcon = ClockAmber | CheckBlue | TruckPurple | CheckGreen | CrossRed | ClockGrey
  datatype BadgeStyle = AmberBadge | BlueBadge | PurpleBadge | GreenBadge | RedBadge | MutedBadge

  function OrderStatusIcon(status: string): (r: StatusIcon)
    ensures r == ClockGrey <==> status !in {Pending, Confirmed, Shipped, Delivered, Cancelled}
  {
    if status == Pending then ClockAmber
    else if status == Confirmed then CheckBlue
    else if status == Shipped then TruckPurple
    else if status == Delivered then CheckGreen
    else if status == Cancelled then CrossRed
    else ClockGrey
  }

  function StatusBadge(status: string): (r: BadgeStyle)
    ensures r == MutedBadge <==> status !in {Pending, Confirmed, Shipped, Delivered, Cancelled}
  {
    if status == Pending then AmberBadge
    else if status == Confirmed then BlueBadge
    else if status == Shipped then PurpleBadge
    else if status == Delivered then GreenBadge
    else if status == Cancelled then RedBadge
    else MutedBadge
  }

  /** Icon and badge fall back together: an unknown status gets the grey clock and
      the muted badge, and each known status gets matching colours. */
  lemma IconAndBadgeAgree(status: string)
    ensures OrderStatusIcon(status) == ClockGrey <==> StatusBadge(status) == MutedBadge
    ensures OrderStatusIcon(status) == CheckGreen <==> StatusBadge(status) == GreenBadge
    ensures OrderStatusIcon(status) == CrossRed <==> StatusBadge(status) == RedBadge
  {
  }
}
