/** The shopping-cart store: an ordered list of line items with at most one line
    per id (and per product), every quantity at least 1, totals derived from the
    lines, and two replicas it pushes to: the browser's local-storage slot while
    nobody is signed in, and the remote cart rows of the signed-in user. The
    remote replica is not read or written here; the store records which remote
    write each operation issues. */
module CartContext {
  import opened Common

  /** A cart line: a snapshot of the product's display fields taken when the
      product was added, and the quantity. Money is whole rupees. */
  datatype CartItem = CartItem(
    id: string,
    title: string,
    price: int,
    unit: string,
    quantity: int,
    image: string,
    seller: string,
    location: string,
    isOrganic: bool,
    productId: Option<string>)

  /** What `addItem` is given: a line without its quantity. */
  datatype NewItem = NewItem(
    id: string,
    title: string,
    price: int,
    unit: string,
    image: string,
    seller: string,
    location: string,
    isOrganic: bool,
    productId: Option<string>)

  function WithQuantity(c: NewItem, q: int): CartItem
  {
    CartItem(c.id, c.title, c.price, c.unit, q, c.image, c.seller, c.location, c.isOrganic, c.productId)
  }

  // ---------------------------------------------------------------------------
  // Invariants of the line list

  predicate IdsUnique(items: seq<CartItem>)
  {
    forall i, j :: 0 <= i < j < |items| ==> items[i].id != items[j].id
  }

  /** A product id is only compared when it is truthy (present and non-empty). */
  predicate HasProductId(line: CartItem)
  {
    line.productId.Some? && line.productId.value != ""
  }

  predicate ProductsUnique(items: seq<CartItem>)
  {
    forall i, j :: 0 <= i < j < |items| && HasProductId(items[i]) ==> items[i].productId != items[j].productId
  }

  predicate QuantitiesPositive(items: seq<CartItem>)
  {
    forall i :: 0 <= i < |items| ==> items[i].quantity >= 1
  }

  /** The store's invariant: one line per id, and no line stored at quantity 0 or below. */
  predicate LinesValid(items: seq<CartItem>)
  {
    IdsUnique(items) && QuantitiesPositive(items)
  }

  predicate HasLine(items: seq<CartItem>, id: string)
  {
    exists j :: 0 <= j < |items| && items[j].id == id
  }

  // ---------------------------------------------------------------------------
  // Derived totals

  function LineQuantity(line: CartItem): int { line.quantity }

  function LineSubtotal(line: CartItem): int { line.price * line.quantity }

  function TotalItems(items: seq<CartItem>): int { SumOf(items, LineQuantity) }

  function TotalPrice(items: seq<CartItem>): int { SumOf(items, LineSubtotal) }

  /** An empty cart holds nothing and costs nothing. */
  lemma EmptyTotals()
    ensures TotalItems([]) == 0 && TotalPrice([]) == 0
  {
  }

  /** Every valid line counts at least once, so the item count bounds the number of lines. */
  lemma {:induction false} TotalItemsAtLeastLines(items: seq<CartItem>)
    requires QuantitiesPositive(items)
    ensures TotalItems(items) >= |items|
    decreases |items|
  {
    if items != [] {
      TotalItemsAtLeastLines(items[1..]);
    }
  }

  // ---------------------------------------------------------------------------
  // addItem

  /** The line `addItem` looks for: the same id, or the same truthy product id. */
  predicate Matches(line: CartItem, c: NewItem)
  {
    line.id == c.id || (HasProductId(line) && line.productId == c.productId)
  }

  /** `prev.find(...)`: the index of the first matching line. */
  function FirstMatch(items: seq<CartItem>, c: NewItem): (r: Option<nat>)
    ensures r.Some? ==> r.value < |items| && Matches(items[r.value], c)
    ensures r.Some? ==> forall j :: 0 <= j < r.value ==> !Matches(items[j], c)
    ensures r.None? ==> forall j :: 0 <= j < |items| ==> !Matches(items[j], c)
    decreases |items|
  {
    if items == [] then None
    else if Matches(items[0], c) then Some(0)
    else match FirstMatch(items[1..], c)
      case None => None
      case Some(k) => Some(k + 1)
  }

  /** `prev.map(i => i.id === id ? {...i, quantity: i.quantity + 1} : i)`. */
  function Bump(items: seq<CartItem>, id: string): seq<CartItem>
  {
    seq(|items|, j requires 0 <= j < |items| =>
      if items[j].id == id then items[j].(quantity := items[j].quantity + 1) else items[j])
  }

  /** The new line list after `addItem(c)`. */
  function AddLines(items: seq<CartItem>, c: NewItem): seq<CartItem>
  {
    match FirstMatch(items, c)
    case Some(k) => Bump(items, items[k].id)
    case None => items + [WithQuantity(c, 1)]
  }

  /** With one line per id, a match raises exactly the matched line by 1 and leaves the rest. */
  lemma AddToMatchedLine(items: seq<CartItem>, c: NewItem, k: nat)
    requires IdsUnique(items)
    requires FirstMatch(items, c) == Some(k)
    ensures AddLines(items, c) == items[k := items[k].(quantity := items[k].quantity + 1)]
  {
    var r := AddLines(items, c);
    assert forall j :: 0 <= j < |items| && j != k ==> items[j].id != items[k].id;
    assert forall j :: 0 <= j < |items| ==> r[j] == items[k := items[k].(quantity := items[k].quantity + 1)][j];
  }

  /** Without a match, the candidate is appended with quantity 1 and earlier lines are untouched. */
  lemma AddAppendsNewLine(items: seq<CartItem>, c: NewItem)
    requires forall j :: 0 <= j < |items| ==> !Matches(items[j], c)
    ensures |AddLines(items, c)| == |items| + 1
    ensures AddLines(items, c)[..|items|] == items
    ensures AddLines(items, c)[|items|] == WithQuantity(c, 1)
  {
    assert (items + [WithQuantity(c, 1)])[..|items|] == items;
  }

  /** `addItem` keeps one line per id and every quantity at least 1. */
  lemma AddKeepsValid(items: seq<CartItem>, c: NewItem)
    requires LinesValid(items)
    ensures LinesValid(AddLines(items, c))
  {
    match FirstMatch(items, c)
    case Some(k) => AddToMatchedLine(items, c, k);
    case None =>
  }

  /** `addItem` never creates a second line for a product already in the cart. */
  lemma AddKeepsProductsUnique(items: seq<CartItem>, c: NewItem)
    requires IdsUnique(items) && ProductsUnique(items)
    ensures ProductsUnique(AddLines(items, c))
  {
    match FirstMatch(items, c)
    case Some(k) => AddToMatchedLine(items, c, k);
    case None =>
  }

  /** The unit price of the line that absorbs an add: the matched line's, or the candidate's. */
  function AbsorbingPrice(items: seq<CartItem>, c: NewItem): int
  {
    match FirstMatch(items, c)
    case Some(k) => items[k].price
    case None => c.price
  }

  /** Adding raises the item count by exactly 1 and the price by the unit price of
      the line that absorbed it. */
  lemma AddTotals(items: seq<CartItem>, c: NewItem)
    requires IdsUnique(items)
    ensures TotalItems(AddLines(items, c)) == TotalItems(items) + 1
    ensures TotalPrice(AddLines(items, c)) == TotalPrice(items) + AbsorbingPrice(items, c)
  {
    var m := FirstMatch(items, c);
    if m.Some? {
      AddTotalsMatched(items, c, m.value);
    } else {
      var r := items + [WithQuantity(c, 1)];
      assert AddLines(items, c) == r;
      SumOfAppend(items, [WithQuantity(c, 1)], LineQuantity);
      SumOfAppend(items, [WithQuantity(c, 1)], LineSubtotal);
    }
  }

  lemma AddTotalsMatched(items: seq<CartItem>, c: NewItem, k: nat)
    requires IdsUnique(items)
    requires FirstMatch(items, c) == Some(k)
    ensures TotalItems(AddLines(items, c)) == TotalItems(items) + 1
    ensures TotalPrice(AddLines(items, c)) == TotalPrice(items) + items[k].price
  {
    AddToMatchedLine(items, c, k);
    var line := items[k].(quantity := items[k].quantity + 1);
    SumOfUpdate(items, k, line, LineQuantity);
    SumOfUpdate(items, k, line, LineSubtotal);
    assert LineSubtotal(line) == LineSubtotal(items[k]) + items[k].price;
  }

  /** Raising a quantity changes neither ids nor product ids, so the same line
      keeps being the first match: repeated adds of one product hit one line. */
  lemma {:induction false} FirstMatchIgnoresQuantity(items: seq<CartItem>, c: NewItem, id: string)
    ensures FirstMatch(Bump(items, id), c) == FirstMatch(items, c)
    decreases |items|
  {
    if items != [] {
      FirstMatchIgnoresQuantity(items[1..], c, id);
      assert Bump(items, id)[1..] == Bump(items[1..], id);
    }
  }

  // ---------------------------------------------------------------------------
  // removeItem and updateQuantity

  function IdIsNot(id: string): CartItem -> bool
  {
    (line: CartItem) => line.id != id
  }

  /** `prev.filter(i => i.id !== id)`. */
  function RemoveLines(items: seq<CartItem>, id: string): seq<CartItem>
  {
    Filter(items, IdIsNot(id))
  }

  /** Removing drops exactly the lines with that id and keeps the rest in order. */
  lemma RemoveDropsExactly(items: seq<CartItem>, id: string, x: CartItem)
    ensures x in RemoveLines(items, id) <==> x in items && x.id != id
    ensures IsSubsequence(RemoveLines(items, id), items)
    ensures !HasLine(RemoveLines(items, id), id)
  {
    FilterMembers(items, IdIsNot(id), x);
    FilterIsSubsequence(items, IdIsNot(id));
  }

  /** Removing an id that is not in the cart changes nothing. */
  lemma RemoveMissingIsNoOp(items: seq<CartItem>, id: string)
    requires !HasLine(items, id)
    ensures RemoveLines(items, id) == items
  {
    FilterKeepsAll(items, IdIsNot(id));
  }

  lemma {:induction false} FilterAppend<T>(a: seq<T>, b: seq<T>, p: T -> bool)
    ensures Filter(a + b, p) == Filter(a, p) + Filter(b, p)
    decreases |a|
  {
    if a == [] {
      assert a + b == b;
    } else {
      assert (a + b)[1..] == a[1..] + b;
      FilterAppend(a[1..], b, p);
    }
  }

  /** With one line per id, removing the line at `k` is cutting it out of the list. */
  lemma RemoveCutsLine(items: seq<CartItem>, k: nat)
    requires IdsUnique(items) && k < |items|
    ensures RemoveLines(items, items[k].id) == items[..k] + items[k + 1..]
  {
    var id := items[k].id;
    assert items == items[..k] + ([items[k]] + items[k + 1..]);
    FilterAppend(items[..k], [items[k]] + items[k + 1..], IdIsNot(id));
    FilterAppend([items[k]], items[k + 1..], IdIsNot(id));
    FilterKeepsAll(items[..k], IdIsNot(id));
    FilterKeepsAll(items[k + 1..], IdIsNot(id));
  }

  /** Removing a line takes its quantity and subtotal off the totals. */
  lemma RemoveTotals(items: seq<CartItem>, k: nat)
    requires IdsUnique(items) && k < |items|
    ensures TotalItems(RemoveLines(items, items[k].id)) == TotalItems(items) - items[k].quantity
    ensures TotalPrice(RemoveLines(items, items[k].id)) == TotalPrice(items) - LineSubtotal(items[k])
  {
    RemoveCutsLine(items, k);
    assert items == items[..k] + [items[k]] + items[k + 1..];
    SumOfAppend(items[..k] + [items[k]], items[k + 1..], LineQuantity);
    SumOfAppend(items[..k], [items[k]], LineQuantity);
    SumOfAppend(items[..k], items[k + 1..], LineQuantity);
    SumOfAppend(items[..k] + [items[k]], items[k + 1..], LineSubtotal);
    SumOfAppend(items[..k], [items[k]], LineSubtotal);
    SumOfAppend(items[..k], items[k + 1..], LineSubtotal);
  }

  /** Removing keeps the invariants: a subsequence of a valid list is valid. */
  lemma RemoveKeepsValid(items: seq<CartItem>, id: string)
    requires LinesValid(items) && ProductsUnique(items)
    ensures LinesValid(RemoveLines(items, id)) && ProductsUnique(RemoveLines(items, id))
  {
    var r := RemoveLines(items, id);
    FilterIsSubsequence(items, IdIsNot(id));
    SubsequenceKeepsLines(r, items);
  }

  lemma {:induction false} SubsequenceKeepsLines(a: seq<CartItem>, b: seq<CartItem>)
    requires IsSubsequence(a, b)
    requires LinesValid(b) && ProductsUnique(b)
    ensures LinesValid(a) && ProductsUnique(a)
    ensures forall x :: x in a ==> x in b
    decreases |b|
  {
    if b != [] {
      if a != [] && a[0] == b[0] && IsSubsequence(a[1..], b[1..]) {
        SubsequenceKeepsLines(a[1..], b[1..]);
        assert forall j :: 1 <= j < |a| ==> a[j] in b[1..];
      } else {
        SubsequenceKeepsLines(a, b[1..]);
      }
    }
  }

  /** `prev.map(i => i.id === id ? {...i, quantity} : i)`. */
  function SetQuantity(items: seq<CartItem>, id: string, q: int): seq<CartItem>
  {
    seq(|items|, j requires 0 <= j < |items| =>
      if items[j].id == id then items[j].(quantity := q) else items[j])
  }

  /** Setting a quantity touches only the line with that id: the order, the
      other lines and every other field stay, and a missing id is a no-op. */
  lemma SetQuantityTouchesOneLine(items: seq<CartItem>, id: string, q: int)
    ensures |SetQuantity(items, id, q)| == |items|
    ensures forall j :: 0 <= j < |items| && items[j].id == id ==>
      SetQuantity(items, id, q)[j] == items[j].(quantity := q)
    ensures forall j :: 0 <= j < |items| && items[j].id != id ==> SetQuantity(items, id, q)[j] == items[j]
    ensures !HasLine(items, id) ==> SetQuantity(items, id, q) == items
  {
  }

  lemma SetQuantityKeepsValid(items: seq<CartItem>, id: string, q: int)
    requires q >= 1
    requires LinesValid(items) && ProductsUnique(items)
    ensures LinesValid(SetQuantity(items, id, q)) && ProductsUnique(SetQuantity(items, id, q))
  {
  }

  /** Setting line `k` to `q` moves the item count by exactly `q` minus its old quantity. */
  lemma SetQuantityTotals(items: seq<CartItem>, k: nat, q: int)
    requires IdsUnique(items) && k < |items|
    ensures TotalItems(SetQuantity(items, items[k].id, q)) == TotalItems(items) - items[k].quantity + q
    ensures TotalPrice(SetQuantity(items, items[k].id, q)) == TotalPrice(items) - LineSubtotal(items[k]) + items[k].price * q
  {
    var line := items[k].(quantity := q);
    assert SetQuantity(items, items[k].id, q) == items[k := line];
    SumOfUpdate(items, k, line, LineQuantity);
    SumOfUpdate(items, k, line, LineSubtotal);
  }

  // ---------------------------------------------------------------------------
  // The remote replica: rows, inserts and the writes each operation issues

  /** The loosely typed display snapshot stored with a remote row; any field may be missing. */
  datatype ProductData = ProductData(
    title: Option<string>,
    price: Option<int>,
    unit: Option<string>,
    image: Option<string>,
    seller: Option<string>,
    location: Option<string>,
    isOrganic: Option<bool>)

  datatype CartRow = CartRow(id: string, productId: Option<string>, productData: Option<ProductData>, quantity: int)

  /** What is sent to insert a new line; the row id is chosen by the remote store. */
  datatype InsertPayload = InsertPayload(userId: string, productId: Option<string>, productData: ProductData, quantity: int)

  datatype RemoteWrite =
    | InsertLine(payload: InsertPayload)
    | UpdateLineQuantity(userId: string, rowId: string, quantity: int)
    | DeleteLine(userId: string, rowId: string)
    | DeleteAllLines(userId: string)

  const DefaultTitle: string := "Product"
  const DefaultUnit: string := "unit"
  const DefaultImage: string := "\U{1F33E}"
  const DefaultSeller: string := "Farmer"
  const DefaultLocation: string := "India"

  /** `item.product_data?.field`: missing when the snapshot itself is missing. */
  function SnapshotText(d: Option<ProductData>, field: ProductData -> Option<string>): Option<string>
  {
    if d.Some? then field(d.value) else None
  }

  function TitleOf(d: ProductData): Option<string> { d.title }
  function UnitOf(d: ProductData): Option<string> { d.unit }
  function ImageOf(d: ProductData): Option<string> { d.image }
  function SellerOf(d: ProductData): Option<string> { d.seller }
  function LocationOf(d: ProductData): Option<string> { d.location }

  /** The row-to-line mapping of `loadCartFromDB`: falsy snapshot fields take defaults. */
  function RowToItem(row: CartRow): CartItem
  {
    var d := row.productData;
    CartItem(
      row.id,
      OrElse(SnapshotText(d, TitleOf), DefaultTitle),
      if d.Some? && d.value.price.Some? then d.value.price.value else 0,
      OrElse(SnapshotText(d, UnitOf), DefaultUnit),
      row.quantity,
      OrElse(SnapshotText(d, ImageOf), DefaultImage),
      OrElse(SnapshotText(d, SellerOf), DefaultSeller),
      OrElse(SnapshotText(d, LocationOf), DefaultLocation),
      d.Some? && OrFalse(d.value.isOrganic),
      row.productId)
  }

  function RowsToItems(rows: seq<CartRow>): (items: seq<CartItem>)
    ensures |items| == |rows|
    ensures forall i :: 0 <= i < |rows| ==> items[i] == RowToItem(rows[i])
  {
    seq(|rows|, i requires 0 <= i < |rows| => RowToItem(rows[i]))
  }

  /** A row whose snapshot is missing altogether loads with every default. */
  lemma RowWithoutSnapshotDefaults(row: CartRow)
    requires row.productData.None?
    ensures RowToItem(row).title == "Product" && RowToItem(row).price == 0
    ensures RowToItem(row).unit == "unit" && RowToItem(row).image == "\U{1F33E}"
    ensures RowToItem(row).seller == "Farmer" && RowToItem(row).location == "India"
    ensures !RowToItem(row).isOrganic
    ensures RowToItem(row).id == row.id && RowToItem(row).quantity == row.quantity
  {
  }

  /** The insert sent for a new line: the product id becomes null when falsy. */
  function InsertPayloadFor(userId: string, line: CartItem): InsertPayload
  {
    InsertPayload(
      userId,
      if HasProductId(line) then line.productId else None,
      ProductData(Some(line.title), Some(line.price), Some(line.unit), Some(line.image),
                  Some(line.seller), Some(line.location), Some(line.isOrganic)),
      line.quantity)
  }

  /** The row the remote store holds after an insert, under the id it assigned. */
  function StoredRow(p: InsertPayload, rowId: string): CartRow
  {
    CartRow(rowId, p.productId, Some(p.productData), p.quantity)
  }

  /** Inserting a line and loading it back gives the same line under the
      server-assigned id, as long as no snapshot field was falsy (a falsy field
      would come back as its default). */
  lemma InsertThenLoad(userId: string, line: CartItem, rowId: string)
    requires line.title != "" && line.unit != "" && line.image != "" && line.seller != "" && line.location != ""
    requires line.productId != Some("")
    ensures RowToItem(StoredRow(InsertPayloadFor(userId, line), rowId)) == line.(id := rowId)
  {
  }

  /** Rows with distinct ids and positive quantities load as a valid cart. */
  lemma LoadedLinesValid(rows: seq<CartRow>)
    requires forall i, j :: 0 <= i < j < |rows| ==> rows[i].id != rows[j].id
    requires forall i :: 0 <= i < |rows| ==> rows[i].quantity >= 1
    ensures LinesValid(RowsToItems(rows))
  {
  }

  /** The remote write `addItem` issues: an update of the matched row, or an insert. */
  function AddWrites(user: Option<string>, items: seq<CartItem>, c: NewItem): seq<RemoteWrite>
  {
    if user.None? then []
    else match FirstMatch(items, c)
      case Some(k) => [UpdateLineQuantity(user.value, items[k].id, items[k].quantity + 1)]
      case None => [InsertLine(InsertPayloadFor(user.value, WithQuantity(c, 1)))]
  }

  /** `removeItem` deletes the row only when the line was in the cart. */
  function RemoveWrites(user: Option<string>, items: seq<CartItem>, id: string): seq<RemoteWrite>
  {
    if user.Some? && HasLine(items, id) then [DeleteLine(user.value, id)] else []
  }

  /** `updateQuantity` with a positive quantity updates the row only when the line exists. */
  function SetQuantityWrites(user: Option<string>, items: seq<CartItem>, id: string, q: int): seq<RemoteWrite>
  {
    if user.Some? && HasLine(items, id) then [UpdateLineQuantity(user.value, id, q)] else []
  }

  /** A signed-in user's add issues exactly one write; a guest's issues none. */
  lemma AddWritesOnlyForUser(user: Option<string>, items: seq<CartItem>, c: NewItem)
    ensures |AddWrites(user, items, c)| == if user.Some? then 1 else 0
    ensures forall w :: w in AddWrites(user, items, c) ==> w.InsertLine? || w.UpdateLineQuantity?
  {
  }

  /** A guest's local slot holds what a guest session loads from it. */
  function SlotContents(slot: Option<seq<CartItem>>): seq<CartItem>
  {
    if slot.Some? then slot.value else []
  }

  // ---------------------------------------------------------------------------
  // The store

  class CartStore {
    /** The signed-in user's id, or None for a guest session. */
    var user: Option<string>
    var items: seq<CartItem>
    var isLoading: bool
    /** The local-storage slot: None when the key is absent. */
    var localSlot: Option<seq<CartItem>>
    /** Every remote write issued so far, oldest first. */
    var issued: seq<RemoteWrite>

    ghost predicate Valid()
      reads this
    {
      LinesValid(items) && ProductsUnique(items)
    }

    /** While nobody is signed in, every change of the lines is persisted to local storage. */
    ghost predicate Mirrored()
      reads this
    {
      user.None? ==> localSlot == Some(items)
    }

    /** A guest session starts from whatever the local slot holds, or empty. */
    constructor (saved: Option<seq<CartItem>>)
      ensures user == None && items == SlotContents(saved)
      ensures localSlot == Some(items) && issued == [] && !isLoading
      ensures Mirrored()
    {
      user := None;
      items := SlotContents(saved);
      localSlot := Some(SlotContents(saved));
      issued := [];
      isLoading := false;
    }

    /** Persist effect: a guest's lines are written to the local slot after each change. */
    method Persist()
      modifies this
      ensures localSlot == (if user.None? then Some(items) else old(localSlot))
      ensures user == old(user) && items == old(items) && issued == old(issued) && isLoading == old(isLoading)
      ensures Mirrored()
    {
      if user.None? {
        localSlot := Some(items);
      }
    }

    method AddItem(c: NewItem)
      modifies this
      ensures items == AddLines(old(items), c)
      ensures issued == old(issued) + AddWrites(user, old(items), c)
      ensures user == old(user) && isLoading == old(isLoading)
      ensures localSlot == (if user.None? then Some(items) else old(localSlot))
      ensures old(Valid()) ==> Valid()
      ensures old(IdsUnique(items)) ==> TotalItems(items) == old(TotalItems(items)) + 1
    {
      if old(Valid()) {
        AddKeepsValid(items, c);
        AddKeepsProductsUnique(items, c);
      }
      if IdsUnique(items) {
        AddTotals(items, c);
      }
      issued := issued + AddWrites(user, items, c);
      items := AddLines(items, c);
      Persist();
    }

    method RemoveItem(id: string)
      modifies this
      ensures items == RemoveLines(old(items), id)
      ensures issued == old(issued) + RemoveWrites(user, old(items), id)
      ensures user == old(user) && isLoading == old(isLoading)
      ensures localSlot == (if user.None? then Some(items) else old(localSlot))
      ensures old(Valid()) ==> Valid()
    {
      if Valid() {
        RemoveKeepsValid(items, id);
      }
      issued := issued + RemoveWrites(user, items, id);
      items := RemoveLines(items, id);
      Persist();
    }

    /** A quantity of 0 or below behaves exactly as `RemoveItem`. */
    method UpdateQuantity(id: string, q: int)
      modifies this
      ensures q <= 0 ==> items == RemoveLines(old(items), id)
      ensures q <= 0 ==> issued == old(issued) + RemoveWrites(user, old(items), id)
      ensures q > 0 ==> items == SetQuantity(old(items), id, q)
      ensures q > 0 ==> issued == old(issued) + SetQuantityWrites(user, old(items), id, q)
      ensures user == old(user) && isLoading == old(isLoading)
      ensures localSlot == (if user.None? then Some(items) else old(localSlot))
      ensures old(Valid()) ==> Valid()
    {
      if q <= 0 {
        RemoveItem(id);
        return;
      }
      if Valid() {
        SetQuantityKeepsValid(items, id, q);
      }
      issued := issued + SetQuantityWrites(user, items, id, q);
      items := SetQuantity(items, id, q);
      Persist();
    }

    /** Empties the lines, deletes a signed-in user's rows and removes the local-storage key
        (which a guest session then re-creates holding the empty list). */
    method ClearCart()
      modifies this
      ensures items == []
      ensures issued == old(issued) + (if user.Some? then [DeleteAllLines(user.value)] else [])
      ensures localSlot == (if user.None? then Some([]) else None)
      ensures user == old(user) && isLoading == old(isLoading)
      ensures Valid() && Mirrored()
    {
      if user.Some? {
        issued := issued + [DeleteAllLines(user.value)];
      }
      items := [];
      localSlot := None;
      Persist();
    }

    /** Sign-in: the lines are replaced by the user's remote rows, discarding the guest
        lines; `fetched` is None when the query failed or returned no data, and then
        the lines are left as they were. */
    method SignIn(userId: string, fetched: Option<seq<CartRow>>)
      modifies this
      ensures user == Some(userId)
      ensures items == (if fetched.Some? then RowsToItems(fetched.value) else old(items))
      ensures localSlot == old(localSlot) && issued == old(issued) && !isLoading
    {
      user := Some(userId);
      isLoading := true;
      if fetched.Some? {
        items := RowsToItems(fetched.value);
      }
      isLoading := false;
    }

    /** Sign-out: the lines are reloaded from the local slot, which still holds the
        guest cart from before sign-in unless the cart was cleared meanwhile. */
    method SignOut()
      modifies this
      ensures user == None
      ensures items == SlotContents(old(localSlot))
      ensures issued == old(issued) && isLoading == old(isLoading)
      ensures Mirrored()
    {
      user := None;
      items := SlotContents(localSlot);
      Persist();
    }
  }

  /** A guest adds one product twice, sets its quantity to 5, then removes it:
      the cart holds 2, then 5 units worth ₹250, then nothing, and no remote write
      is issued. */
  method Scenario()
  {
    var cart := new CartStore(None);
    var one := NewItem("1", "Tomatoes", 50, "kg", "\U{1F345}", "Farmer", "India", false, None);
    cart.AddItem(one);
    cart.AddItem(one);
    assert cart.items == [WithQuantity(one, 2)];
    cart.UpdateQuantity("1", 5);
    assert cart.items == [WithQuantity(one, 5)];
    assert cart.items[1..] == [];
    assert TotalPrice(cart.items) == LineSubtotal(cart.items[0]) + TotalPrice(cart.items[1..]);
    assert TotalPrice(cart.items) == 250;
    cart.RemoveItem("1");
    assert cart.items == [];
    assert cart.issued == [];
  }
}
