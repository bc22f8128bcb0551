/** Rows of the backend tables that several pages read, and the small rules the
    pages share about them: order statuses, per-status counts, the rounding of
    `Math.round(a / b)` on whole numbers, and the role gate of the dashboards. */
module Domain {
  import opened Common

  /** An order row, reduced to the fields the pages use. `status` is one of the
      five order statuses of the backend, kept as text as the pages compare it. */
  datatype Order = Order(id: string, status: string, totalAmount: int)

  const Pending: string := "pending"
  const Confirmed: string := "confirmed"
  const Shipped: string := "shipped"
  const Delivered: string := "delivered"
  const Cancelled: string := "cancelled"

  function HasStatus(status: string): Order -> bool
  {
    (o: Order) => o.status == status
  }

  /** `orders.filter(o => o.status === status).length`. */
  function CountStatus(orders: seq<Order>, status: string): (r: nat)
    ensures r <= |orders|
  {
    CountWhere(orders, HasStatus(status))
  }

  /** Counts of two different statuses never add up to more than the number of orders. */
  lemma CountTwoStatuses(orders: seq<Order>, s: string, t: string)
    requires s != t
    ensures CountStatus(orders, s) + CountStatus(orders, t) <= |orders|
  {
    CountDisjoint(orders, HasStatus(s), HasStatus(t));
  }

  function AmountOf(o: Order): int { o.totalAmount }

  /** `orders.reduce((sum, o) => sum + o.total_amount, 0)`. */
  function TotalRevenue(orders: seq<Order>): int
  {
    SumOf(orders, AmountOf)
  }

  /** `Math.round(a / b)` for whole numbers and a positive divisor: the nearest
      integer to a / b, halves rounded up. */
  function RoundDiv(a: int, b: int): (r: int)
    requires b > 0
    ensures 2 * b * r - b <= 2 * a < 2 * b * r + b
  {
    var q := (2 * a + b) / (2 * b);
    assert 2 * a + b == 2 * b * q + (2 * a + b) % (2 * b);
    q
  }

  lemma {:induction false} ScaleAtLeast(b: int, d: int)
    requires b > 0 && d >= 1
    ensures b * d >= b
    decreases d
  {
    if d > 1 {
      ScaleAtLeast(b, d - 1);
      assert b * d == b * (d - 1) + b;
    }
  }

  lemma ScaleGap(b: int, x: int, y: int)
    requires b > 0 && x > y
    ensures b * x >= b * y + b
  {
    ScaleAtLeast(b, x - y);
    assert b * (x - y) == b * x - b * y;
  }

  /** The rounding is the only integer within half a unit (halves up), so it is exact. */
  lemma RoundDivUnique(a: int, b: int, t: int)
    requires b > 0
    requires 2 * b * t - b <= 2 * a < 2 * b * t + b
    ensures t == RoundDiv(a, b)
  {
    var r := RoundDiv(a, b);
    if t < r {
      ScaleGap(2 * b, r, t);
    } else if t > r {
      ScaleGap(2 * b, t, r);
    }
  }

  /** Rounding a quotient that lies between two whole numbers stays between them. */
  lemma RoundDivWithin(a: int, b: int, lo: int, hi: int)
    requires b > 0
    requires lo * b <= a <= hi * b
    ensures lo <= RoundDiv(a, b) <= hi
  {
    var r := RoundDiv(a, b);
    assert 2 * (lo * b) == 2 * b * lo && 2 * (hi * b) == 2 * b * hi;
    if r < lo {
      ScaleGap(2 * b, lo, r);
    } else if r > hi {
      ScaleGap(2 * b, r, hi);
    }
  }

  /** A notification row. */
  datatype Notification = Notification(
    id: string,
    userId: string,
    kind: string,
    title: string,
    message: string,
    isRead: bool,
    createdAt: string)

  /** The `data` payload attached to a synthesized notification. */
  datatype NotificationData =
    | OrderRef(orderId: string)
    | OrderStatusRef(orderId: string, status: string)
    | ReviewRef(productId: string, reviewId: string)

  /** A notification the client inserts. */
  datatype NotificationInsert = NotificationInsert(
    userId: string,
    kind: string,
    title: string,
    message: string,
    data: NotificationData)

  /** A product row, reduced to the fields the pages use. Prices are whole rupees. */
  datatype Product = Product(
    id: string,
    sellerId: string,
    name: string,
    description: Option<string>,
    price: int,
    unit: string,
    imageUrl: Option<string>,
    location: Option<string>,
    isOrganic: Option<bool>,
    quantityAvailable: int)

  /** What a role-gated dashboard does once the session is known. */
  datatype GateAction = Redirect | FetchData | Wait

  /** The effect of the admin and farmer dashboards: redirect away once loading has
      finished and the user is missing or lacks the role; fetch as soon as a user
      with the role is present. */
  function DashboardGate(authLoading: bool, signedIn: bool, hasRole: bool): (r: GateAction)
    ensures r == FetchData <==> signedIn && hasRole
    ensures r == Redirect <==> !authLoading && !(signedIn && hasRole)
  {
    if !authLoading && (!signedIn || !hasRole) then Redirect
    else if signedIn && hasRole then FetchData
    else Wait
  }
}
