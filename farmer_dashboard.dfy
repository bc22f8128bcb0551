/** The farmer dashboard: the farmer's own products with the add, edit and delete
    dialogs, the latest orders and notifications, and the stat cards. */
module FarmerDashboard {
  import opened Common
  import opened Domain
  import NotificationsDropdown

  // ---------------------------------------------------------------------------
  // The product form

  /** The form's fields, all text as typed, except the organic switch. */
  datatype ProductForm = ProductForm(
    name: string,
    description: string,
    price: string,
    unit: string,
    quantityAvailable: string,
    location: string,
    isOrganic: bool)

  /** The form `resetForm` restores: every text field empty, the unit "kg", not organic. */
  const EmptyForm: ProductForm := ProductForm("", "", "", "kg", "", "", false)

  /** The add dialog's required fields: name, price and quantity must not be empty. */
  predicate RequiredFilled(f: ProductForm)
  {
    f.name != "" && f.price != "" && f.quantityAvailable != ""
  }

  predicate AllDigits(s: string)
  {
    forall i :: 0 <= i < |s| ==> '0' <= s[i] <= '9'
  }

  /** The number a field's text is read as: a whole decimal number, optionally
      negative; any other text is not a number (JavaScript's NaN). */
  function ParseNumber(s: string): (r: Option<int>)
    ensures r.Some? ==> s != ""
    ensures s == "" ==> r.None?
  {
    if s != [] && AllDigits(s) then Some(ParseDigits(s))
    else if |s| > 1 && s[0] == '-' && AllDigits(s[1..]) then Some(-(ParseDigits(s[1..]) as int))
    else None
  }

  /** A number shown in the form reads back as itself. */
  lemma ParseNumberRoundTrip(n: int)
    ensures ParseNumber(IntToString(n)) == Some(n)
  {
    if n >= 0 {
      NatToStringRoundTrip(n);
    } else {
      var t := NatToString(-n);
      var s := "-" + t;
      assert s == IntToString(n);
      assert s[1..] == t;
      assert s[0] == '-';
      assert !AllDigits(s);
      assert AllDigits(t);
      NatToStringRoundTrip(-n);
    }
  }

  /** `startEdit`: the product's fields as the edit dialog shows them; a missing
      description or location becomes empty text and a missing organic flag false. */
  function FormFromProduct(p: Product): ProductForm
  {
    ProductForm(p.name, OrElse(p.description, ""), IntToString(p.price), p.unit,
                IntToString(p.quantityAvailable), OrElse(p.location, ""), OrFalse(p.isOrganic))
  }

  /** The fields written for a product, on insert and on update alike. */
  datatype ProductPayload = ProductPayload(
    name: string,
    description: Option<string>,
    price: Option<int>,
    unit: string,
    quantityAvailable: Option<int>,
    location: Option<string>,
    isOrganic: bool)

  /** The form as a row: empty description and location are stored as null and the
      numbers are parsed from their text. */
  function PayloadOf(f: ProductForm): (r: ProductPayload)
    ensures r.description.None? <==> f.description == ""
    ensures r.location.None? <==> f.location == ""
    ensures r.description.Some? ==> r.description.value == f.description
    ensures r.location.Some? ==> r.location.value == f.location
    ensures r.name == f.name && r.unit == f.unit && r.isOrganic == f.isOrganic
  {
    ProductPayload(f.name, EmptyToNull(f.description), ParseNumber(f.price), f.unit,
                   ParseNumber(f.quantityAvailable), EmptyToNull(f.location), f.isOrganic)
  }

  /** Opening a product for editing and saving without changes writes the product
      back as it is, except that an empty description or location becomes null and a
      missing organic flag becomes false. */
  lemma EditRoundTrip(p: Product)
    ensures PayloadOf(FormFromProduct(p)) ==
      ProductPayload(p.name, EmptyToNull(OrElse(p.description, "")), Some(p.price), p.unit,
                     Some(p.quantityAvailable), EmptyToNull(OrElse(p.location, "")), OrFalse(p.isOrganic))
    ensures p.description.Some? && p.description.value != "" ==> PayloadOf(FormFromProduct(p)).description == p.description
    ensures p.location.Some? && p.location.value != "" ==> PayloadOf(FormFromProduct(p)).location == p.location
  {
    ParseNumberRoundTrip(p.price);
    ParseNumberRoundTrip(p.quantityAvailable);
  }

  /** A product opened for editing passes the add dialog's check exactly when it has
      a name: its price and quantity are never empty text. */
  lemma EditedFormFilled(p: Product)
    ensures RequiredFilled(FormFromProduct(p)) <==> p.name != ""
  {
  }

  /** The reset form fails the add check, and stores no description or location. */
  lemma EmptyFormRejected()
    ensures !RequiredFilled(EmptyForm)
    ensures PayloadOf(EmptyForm).description.None? && PayloadOf(EmptyForm).location.None?
    ensures PayloadOf(EmptyForm).unit == "kg" && !PayloadOf(EmptyForm).isOrganic
  {
  }

  /** What "Add Product" decides before touching the database. */
  datatype AddDecision = NoUser | MissingFields | InsertRow(sellerId: string, fields: ProductPayload)

  function DecideAdd(user: Option<string>, f: ProductForm): (r: AddDecision)
    ensures r.InsertRow? <==> user.Some? && RequiredFilled(f)
    ensures r == NoUser <==> user.None?
    ensures r.InsertRow? ==> r.sellerId == user.value && r.fields == PayloadOf(f)
  {
    if user.None? then NoUser
    else if !RequiredFilled(f) then MissingFields
    else InsertRow(user.value, PayloadOf(f))
  }

  // ---------------------------------------------------------------------------
  // Lists and cards

  /** The notification list never holds more than five entries. */
  const NotificationWindow: nat := 5
  /** The orders query's row limit. */
  const OrderLimit: nat := 10

  /** `rows.slice(0, n)` and a query's `.limit(n)`: the first `n` rows. */
  function Take<T>(rows: seq<T>, n: nat): (r: seq<T>)
    ensures |r| <= n && |r| <= |rows|
    ensures |rows| <= n ==> r == rows
    ensures forall i :: 0 <= i < |r| ==> r[i] == rows[i]
  {
    if |rows| <= n then rows else rows[..n]
  }

  /** The realtime insert: the new notification on top, then cut to five. */
  function PushNotification(ns: seq<Notification>, n: Notification): (r: seq<Notification>)
    ensures |r| <= NotificationWindow
    ensures r != [] && r[0] == n
    ensures |ns| < NotificationWindow ==> r == [n] + ns
  {
    Take([n] + ns, NotificationWindow)
  }

  /** After an insert the list keeps the newest entries it had, in order, and drops
      only from the bottom; the badge grows by at most one. */
  lemma PushKeepsNewest(ns: seq<Notification>, n: Notification)
    ensures PushNotification(ns, n)[1..] == Take(ns, NotificationWindow - 1)
    ensures IsSubsequence(PushNotification(ns, n)[1..], ns)
    ensures NotificationsDropdown.UnreadCount(PushNotification(ns, n)) <=
            NotificationsDropdown.UnreadCount(ns) + 1
  {
    var rest := Take(ns, NotificationWindow - 1);
    PushIsTopThenTake(ns, n);
    PrefixIsSubsequence(rest, ns[|rest|..]);
    assert rest + ns[|rest|..] == ns;
    NotificationsDropdown.InsertCount(rest, n);
    SubsequenceCount(rest, ns, NotificationsDropdown.IsUnread);
  }

  lemma PushIsTopThenTake(ns: seq<Notification>, n: Notification)
    ensures PushNotification(ns, n) == [n] + Take(ns, NotificationWindow - 1)
  {
    var r := PushNotification(ns, n);
    var rest := Take(ns, NotificationWindow - 1);
    assert |r| == |[n] + rest|;
    forall i | 0 <= i < |r|
      ensures r[i] == ([n] + rest)[i]
    {
      if i > 0 {
        assert r[i] == ([n] + ns)[i] == ns[i - 1];
      }
    }
  }

  /** The "Pending Orders" card. */
  function PendingOrders(orders: seq<Order>): nat
  {
    CountStatus(orders, Pending)
  }

  /** The stat cards never count more than the lists they summarise, and with the
      query limits that is at most ten pending orders and five unread notifications. */
  lemma CardsWithinLists(orders: seq<Order>, notifications: seq<Notification>)
    requires |orders| <= OrderLimit && |notifications| <= NotificationWindow
    ensures PendingOrders(orders) <= |orders| <= 10
    ensures NotificationsDropdown.UnreadCount(notifications) <= |notifications| <= 5
  {
  }

  /** The icon of an order in the "Recent Orders" list. */
  datatype OrderIcon = ClockAmber | CheckBlue | TruckPurple | CheckGreen | CrossRed

  function OrderStatusIcon(status: string): (r: OrderIcon)
    ensures r == CrossRed <==> status !in {Pending, Confirmed, Shipped, Delivered}
    ensures r == CheckGreen <==> status == Delivered
  {
    if status == Pending then ClockAmber
    else if status == Confirmed then CheckBlue
    else if status == Shipped then TruckPurple
    else if status == Delivered then CheckGreen
    else CrossRed
  }

  // ---------------------------------------------------------------------------
  // The page

  /** The remote writes the dashboard issues. */
  datatype FarmerWrite =
    | InsertProduct(sellerId: string, fields: ProductPayload)
    | UpdateProduct(productId: string, fields: ProductPayload)
    | DeleteProduct(productId: string)

  class FarmerDashboard {
    var products: seq<Product>
    var orders: seq<Order>
    var notifications: seq<Notification>
    var isLoading: bool
    var showAddProduct: bool
    var editing: Option<Product>
    var form: ProductForm
    var issued: seq<FarmerWrite>

    /** The query limits hold for the lists the page keeps. */
    predicate Valid()
      reads this
    {
      |orders| <= OrderLimit && |notifications| <= NotificationWindow
    }

    constructor ()
      ensures Valid()
      ensures products == [] && orders == [] && notifications == [] && isLoading
      ensures !showAddProduct && editing.None? && form == EmptyForm && issued == []
    {
      products := [];
      orders := [];
      notifications := [];
      isLoading := true;
      showAddProduct := false;
      editing := None;
      form := EmptyForm;
      issued := [];
    }

    /** `fetchData`: nothing without a user; otherwise each list is replaced when its
        query answers data. `orderRows` and `notificationRows` are the matching rows,
        newest first, before the queries' limits apply. */
    method FetchData(user: Option<string>, productRows: Option<seq<Product>>,
                     orderRows: Option<seq<Order>>, notificationRows: Option<seq<Notification>>)
      modifies this
      ensures user.None? ==> products == old(products) && orders == old(orders) &&
                             notifications == old(notifications) && isLoading == old(isLoading)
      ensures user.Some? ==>
        products == (if productRows.Some? then productRows.value else old(products)) &&
        orders == (if orderRows.Some? then Take(orderRows.value, OrderLimit) else old(orders)) &&
        notifications == (if notificationRows.Some? then Take(notificationRows.value, NotificationWindow) else old(notifications)) &&
        !isLoading
      ensures old(Valid()) ==> Valid()
      ensures form == old(form) && editing == old(editing) && showAddProduct == old(showAddProduct) && issued == old(issued)
    {
      if user.None? {
        return;
      }
      isLoading := true;
      if productRows.Some? { products := productRows.value; }
      if orderRows.Some? { orders := Take(orderRows.value, OrderLimit); }
      if notificationRows.Some? { notifications := Take(notificationRows.value, NotificationWindow); }
      isLoading := false;
    }

    /** A notification inserted for the farmer: shown on top, list cut to five, and
        its title toasted. */
    method OnNotificationInsert(n: Notification) returns (toast: string)
      modifies this
      ensures notifications == PushNotification(old(notifications), n)
      ensures toast == n.title
      ensures old(Valid()) ==> Valid()
      ensures products == old(products) && orders == old(orders) && form == old(form) && issued == old(issued)
    {
      notifications := PushNotification(notifications, n);
      toast := n.title;
    }

    /** Typing in a dialog. */
    method EditForm(f: ProductForm)
      modifies this
      ensures form == f
      ensures products == old(products) && orders == old(orders) && notifications == old(notifications)
      ensures editing == old(editing) && showAddProduct == old(showAddProduct) && issued == old(issued)
    {
      form := f;
    }

    method ResetForm()
      modifies this
      ensures form == EmptyForm
      ensures products == old(products) && orders == old(orders) && notifications == old(notifications)
      ensures editing == old(editing) && showAddProduct == old(showAddProduct) && issued == old(issued)
    {
      form := EmptyForm;
    }

    /** The pencil on a product row: the edit dialog opens with the product's fields. */
    method StartEdit(p: Product)
      modifies this
      ensures form == FormFromProduct(p) && editing == Some(p)
      ensures products == old(products) && orders == old(orders) && notifications == old(notifications)
      ensures showAddProduct == old(showAddProduct) && issued == old(issued)
    {
      form := FormFromProduct(p);
      editing := Some(p);
    }

    /** Closing the edit dialog forgets the product and resets the form. */
    method CloseEdit()
      modifies this
      ensures editing.None? && form == EmptyForm
      ensures products == old(products) && orders == old(orders) && notifications == old(notifications)
      ensures showAddProduct == old(showAddProduct) && issued == old(issued)
    {
      editing := None;
      ResetForm();
    }

    /** "Add Product": nothing without a user; a missing required field is refused
        with a toast and writes nothing; otherwise the row is inserted. On success
        the dialog closes, the form resets and a refetch follows; on failure the
        form is kept and the error's message shown. */
    method HandleAddProduct(user: Option<string>, error: Option<string>) returns (toast: Option<string>, refetch: bool)
      modifies this
      ensures DecideAdd(user, old(form)) == NoUser ==> toast.None? && !refetch && form == old(form) && issued == old(issued)
      ensures DecideAdd(user, old(form)) == MissingFields ==>
        toast == Some("Please fill in all required fields") && !refetch && form == old(form) && issued == old(issued)
      ensures DecideAdd(user, old(form)).InsertRow? ==>
        issued == old(issued) + [InsertProduct(user.value, PayloadOf(old(form)))] &&
        (refetch <==> error.None?) &&
        (error.None? ==> toast == Some("Product added successfully!") && form == EmptyForm && !showAddProduct) &&
        (error.Some? ==> toast == Some(OrElse(error, "Failed to add product")) && form == old(form) &&
                         showAddProduct == old(showAddProduct))
      ensures products == old(products) && orders == old(orders) && notifications == old(notifications)
      ensures editing == old(editing)
    {
      var d := DecideAdd(user, form);
      match d {
        case NoUser =>
          return None, false;
        case MissingFields =>
          return Some("Please fill in all required fields"), false;
        case InsertRow(seller, fields) =>
          issued := issued + [InsertProduct(seller, fields)];
          if error.Some? {
            return Some(OrElse(error, "Failed to add product")), false;
          }
          showAddProduct := false;
          ResetForm();
          return Some("Product added successfully!"), true;
      }
    }

    /** "Save Changes": nothing unless a product is being edited; the form is written
        over that product's row as it stands, with no required-field check. */
    method HandleUpdateProduct(error: Option<string>) returns (toast: Option<string>, refetch: bool)
      modifies this
      ensures old(editing).None? ==> toast.None? && !refetch && issued == old(issued) && form == old(form)
      ensures old(editing).Some? ==>
        issued == old(issued) + [UpdateProduct(old(editing).value.id, PayloadOf(old(form)))] &&
        (refetch <==> error.None?) &&
        (error.None? ==> toast == Some("Product updated successfully!") && editing.None? && form == EmptyForm) &&
        (error.Some? ==> toast == Some(OrElse(error, "Failed to update product")) && editing == old(editing) &&
                         form == old(form))
      ensures products == old(products) && orders == old(orders) && notifications == old(notifications)
      ensures showAddProduct == old(showAddProduct)
    {
      if editing.None? {
        return None, false;
      }
      issued := issued + [UpdateProduct(editing.value.id, PayloadOf(form))];
      if error.Some? {
        return Some(OrElse(error, "Failed to update product")), false;
      }
      editing := None;
      ResetForm();
      return Some("Product updated successfully!"), true;
    }

    /** The bin on a product row: nothing unless the farmer confirms. */
    method HandleDeleteProduct(id: string, confirmed: bool, error: Option<string>) returns (toast: Option<string>, refetch: bool)
      modifies this
      ensures !confirmed ==> toast.None? && !refetch && issued == old(issued)
      ensures confirmed ==>
        issued == old(issued) + [DeleteProduct(id)] &&
        (refetch <==> error.None?) &&
        toast == Some(if error.None? then "Product deleted" else OrElse(error, "Failed to delete product"))
      ensures products == old(products) && orders == old(orders) && notifications == old(notifications)
      ensures form == old(form) && editing == old(editing) && showAddProduct == old(showAddProduct)
    {
      if !confirmed {
        return None, false;
      }
      issued := issued + [DeleteProduct(id)];
      if error.Some? {
        return Some(OrElse(error, "Failed to delete product")), false;
      }
      return Some("Product deleted"), true;
    }
  }
}
