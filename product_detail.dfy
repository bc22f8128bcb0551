/** The product page: loading one product, the cart line it offers, adding the
    chosen quantity one unit at a time, the quantity picker, the review list fed
    by the realtime channel, the average rating, and review submission. */
module ProductDetail {
  import opened Common
  import opened Domain
  import opened CartContext
  import opened SupabaseHelpers

  const FallbackImage: string := "\U{1F33E}"
  const FallbackSeller: string := "Verified Farmer"
  const FallbackLocation: string := "India"

  /** The seller's display name, when a public profile was found and has one. */
  function SellerName(profile: Option<PublicProfile>): Option<string>
  {
    if profile.Some? then profile.value.fullName else None
  }

  /** The line offered to the cart for a product. */
  function CartCandidate(p: Product, profile: Option<PublicProfile>): NewItem
  {
    NewItem(
      p.id, p.name, p.price, p.unit,
      OrElse(p.imageUrl, FallbackImage),
      OrElse(SellerName(profile), FallbackSeller),
      OrElse(p.location, FallbackLocation),
      OrFalse(p.isOrganic),
      Some(p.id))
  }

  /** The candidate carries the product's own data wherever the product has a
      truthy value and falls back otherwise; its id doubles as the product id, so
      it always matches the line it creates. */
  lemma CandidateReflectsProduct(p: Product, profile: Option<PublicProfile>)
    ensures var c := CartCandidate(p, profile);
      c.id == p.id && c.productId == Some(p.id) && c.price == p.price && c.title == p.name &&
      (c.image == FallbackImage <==> p.imageUrl.None? || p.imageUrl.value == "" || p.imageUrl.value == FallbackImage) &&
      (c.isOrganic <==> p.isOrganic == Some(true)) &&
      forall q :: Matches(WithQuantity(c, q), c)
  {
  }

  /** What loading the product ends in. */
  datatype ProductLoad = Loaded(product: Product) | LoadFailed(message: string)

  /** `fetchProduct`: a query error, a missing row and a thrown error each end in
      their own message; otherwise the row is shown. */
  function LoadProduct(outcome: QueryOutcome<Product>): (r: ProductLoad)
    ensures r.Loaded? <==> outcome.Returned? && outcome.error.None? && outcome.data.Some?
    ensures r.Loaded? ==> outcome.data == Some(r.product)
    ensures r.LoadFailed? ==> r.message != ""
  {
    match outcome
    case Threw(_) => LoadFailed("An unexpected error occurred.")
    case Returned(data, error) =>
      if error.Some? then LoadFailed("Unable to load product details.")
      else if data.None? then LoadFailed("Product not found.")
      else Loaded(data.value)
  }

  // ---------------------------------------------------------------------------
  // Adding a quantity: `quantity` calls of `addItem`

  /** The lines after `n` successive `addItem(c)` calls. */
  function AddTimes(items: seq<CartItem>, c: NewItem, n: nat): seq<CartItem>
  {
    if n == 0 then items else AddLines(AddTimes(items, c, n - 1), c)
  }

  /** The remote writes of `n` successive `addItem(c)` calls, oldest first. */
  function AddTimesWrites(user: Option<string>, items: seq<CartItem>, c: NewItem, n: nat): seq<RemoteWrite>
  {
    if n == 0 then [] else AddTimesWrites(user, items, c, n - 1) + AddWrites(user, AddTimes(items, c, n - 1), c)
  }

  /** A signed-in user's `n` adds issue `n` writes, each an insert or an update; a
      guest's issue none. */
  lemma AddTimesWritesCount(user: Option<string>, items: seq<CartItem>, c: NewItem, n: nat)
    ensures |AddTimesWrites(user, items, c, n)| == if user.Some? then n else 0
    ensures forall i :: 0 <= i < |AddTimesWrites(user, items, c, n)| ==>
      AddTimesWrites(user, items, c, n)[i].InsertLine? || AddTimesWrites(user, items, c, n)[i].UpdateLineQuantity?
  {
    AddTimesWritesLength(user, items, c, n);
    AddTimesWritesKinds(user, items, c, n);
  }

  lemma {:induction false} AddTimesWritesLength(user: Option<string>, items: seq<CartItem>, c: NewItem, n: nat)
    ensures |AddTimesWrites(user, items, c, n)| == if user.Some? then n else 0
    decreases n
  {
    if n > 0 {
      AddTimesWritesLength(user, items, c, n - 1);
      AddWritesOnlyForUser(user, AddTimes(items, c, n - 1), c);
    }
  }

  lemma {:induction false} AddTimesWritesKinds(user: Option<string>, items: seq<CartItem>, c: NewItem, n: nat)
    ensures forall i :: 0 <= i < |AddTimesWrites(user, items, c, n)| ==>
      AddTimesWrites(user, items, c, n)[i].InsertLine? || AddTimesWrites(user, items, c, n)[i].UpdateLineQuantity?
    decreases n
  {
    if n > 0 {
      AddTimesWritesKinds(user, items, c, n - 1);
      var prev := AddTimes(items, c, n - 1);
      AddWritesOnlyForUser(user, prev, c);
      ConcatKinds(AddTimesWrites(user, items, c, n - 1), AddWrites(user, prev, c));
    }
  }

  /** Kind of every write in a concatenation. */
  lemma ConcatKinds(a: seq<RemoteWrite>, b: seq<RemoteWrite>)
    requires forall i :: 0 <= i < |a| ==> a[i].InsertLine? || a[i].UpdateLineQuantity?
    requires forall w :: w in b ==> w.InsertLine? || w.UpdateLineQuantity?
    ensures forall i :: 0 <= i < |a + b| ==> (a + b)[i].InsertLine? || (a + b)[i].UpdateLineQuantity?
  {
    forall i | 0 <= i < |a + b|
      ensures (a + b)[i].InsertLine? || (a + b)[i].UpdateLineQuantity?
    {
      if i >= |a| {
        assert (a + b)[i] == b[i - |a|];
        assert b[i - |a|] in b;
      }
    }
  }

  /** One more add: the lines and the writes of `n + 1` adds extend those of `n`. */
  lemma AddTimesStep(user: Option<string>, items: seq<CartItem>, c: NewItem, n: nat)
    ensures AddTimes(items, c, n + 1) == AddLines(AddTimes(items, c, n), c)
    ensures AddTimesWrites(user, items, c, n + 1) ==
      AddTimesWrites(user, items, c, n) + AddWrites(user, AddTimes(items, c, n), c)
  {
  }

  /** An add of a product that has a line writes at most an update of that line. */
  lemma AddWritesWhenMatched(user: Option<string>, items: seq<CartItem>, c: NewItem)
    requires FirstMatch(items, c).Some?
    ensures forall w :: w in AddWrites(user, items, c) ==> w.UpdateLineQuantity?
  {
  }

  /** Once a product has a line, it keeps one however often it is added. */
  lemma AddTimesKeepsMatch(items: seq<CartItem>, c: NewItem, n: nat)
    requires IdsUnique(items) && FirstMatch(items, c).Some?
    ensures FirstMatch(AddTimes(items, c, n), c).Some?
  {
    var k := FirstMatch(items, c).value;
    AddTimesToExistingLine(items, c, k, n);
    RaisedLineStillMatches(items, c, k, n);
  }

  /** Adding a product already in the cart only ever updates its row. */
  lemma AddTimesWritesUpdatesOnly(user: Option<string>, items: seq<CartItem>, c: NewItem, n: nat)
    requires IdsUnique(items) && FirstMatch(items, c).Some?
    ensures forall i :: 0 <= i < |AddTimesWrites(user, items, c, n)| ==> AddTimesWrites(user, items, c, n)[i].UpdateLineQuantity?
  {
    forall m | 0 <= m < n
      ensures FirstMatch(AddTimes(items, c, m), c).Some?
    {
      AddTimesKeepsMatch(items, c, m);
    }
    AddTimesWritesUpdatesFrom(user, items, c, n);
  }

  /** While every add finds its line, the adds' writes are all updates. */
  lemma {:induction false} AddTimesWritesUpdatesFrom(user: Option<string>, items: seq<CartItem>, c: NewItem, n: nat)
    requires forall m :: 0 <= m < n ==> FirstMatch(AddTimes(items, c, m), c).Some?
    ensures forall i :: 0 <= i < |AddTimesWrites(user, items, c, n)| ==> AddTimesWrites(user, items, c, n)[i].UpdateLineQuantity?
    decreases n
  {
    if n > 0 {
      AddTimesWritesUpdatesFrom(user, items, c, n - 1);
      var prev := AddTimes(items, c, n - 1);
      AddWritesWhenMatched(user, prev, c);
      var a: seq<RemoteWrite>, b: seq<RemoteWrite> := AddTimesWrites(user, items, c, n - 1), AddWrites(user, prev, c);
      forall i | 0 <= i < |a + b|
        ensures (a + b)[i].UpdateLineQuantity?
      {
        if i >= |a| {
          assert (a + b)[i] == b[i - |a|];
          assert b[i - |a|] in b;
        }
      }
    }
  }

  /** After raising the matched line, it is still the first match. */
  lemma RaisedLineStillMatches(items: seq<CartItem>, c: NewItem, k: nat, m: nat)
    requires IdsUnique(items)
    requires FirstMatch(items, c) == Some(k)
    ensures k < |items| && FirstMatch(Raised(items, k, m), c) == Some(k)
  {
    var prev := Raised(items, k, m);
    assert forall j :: 0 <= j < |prev| ==> prev[j].id == items[j].id && prev[j].productId == items[j].productId;
    FirstMatchSameKeys(prev, items, c);
  }

  /** Matching looks only at ids and product ids. */
  lemma {:induction false} FirstMatchSameKeys(a: seq<CartItem>, b: seq<CartItem>, c: NewItem)
    requires |a| == |b|
    requires forall j :: 0 <= j < |a| ==> a[j].id == b[j].id && a[j].productId == b[j].productId
    ensures FirstMatch(a, c) == FirstMatch(b, c)
    decreases |a|
  {
    if a != [] {
      FirstMatchSameKeys(a[1..], b[1..], c);
    }
  }

  /** A line appended after lines that do not match is the first match. */
  lemma {:induction false} FirstMatchAtEnd(items: seq<CartItem>, x: CartItem, c: NewItem)
    requires forall j :: 0 <= j < |items| ==> !Matches(items[j], c)
    requires Matches(x, c)
    ensures FirstMatch(items + [x], c) == Some(|items|)
    decreases |items|
  {
    if items != [] {
      FirstMatchAtEnd(items[1..], x, c);
      assert (items + [x])[1..] == items[1..] + [x];
    }
  }

  /** Adding `n` units of a product already in the cart raises its line by `n`
      and leaves every other line as it was. */
  lemma AddTimesToExistingLine(items: seq<CartItem>, c: NewItem, k: nat, n: nat)
    requires IdsUnique(items)
    requires FirstMatch(items, c) == Some(k)
    ensures k < |items| && AddTimes(items, c, n) == Raised(items, k, n)
  {
    forall m: nat | m < n
      ensures AddLines(Raised(items, k, m), c) == Raised(items, k, m + 1)
    {
      AddToRaisedLine(items, c, k, m);
    }
    AddTimesRaises(items, c, k, n);
  }

  /** Line `k` with its quantity raised by `m`. */
  function Raised(items: seq<CartItem>, k: nat, m: nat): seq<CartItem>
    requires k < |items|
  {
    items[k := items[k].(quantity := items[k].quantity + m)]
  }

  /** While each add raises line `k` by one, `n` adds raise it by `n`. */
  lemma {:induction false} AddTimesRaises(items: seq<CartItem>, c: NewItem, k: nat, n: nat)
    requires k < |items|
    requires forall m: nat :: m < n ==> AddLines(Raised(items, k, m), c) == Raised(items, k, m + 1)
    ensures AddTimes(items, c, n) == Raised(items, k, n)
    decreases n
  {
    if n > 0 {
      AddTimesRaises(items, c, k, n - 1);
    } else {
      assert items[k := items[k].(quantity := items[k].quantity + 0)] == items;
    }
  }

  /** One more add after the matched line was raised by `m` raises it by `m + 1`. */
  lemma AddToRaisedLine(items: seq<CartItem>, c: NewItem, k: nat, m: nat)
    requires IdsUnique(items)
    requires FirstMatch(items, c) == Some(k)
    ensures k < |items|
    ensures AddLines(Raised(items, k, m), c) == Raised(items, k, m + 1)
  {
    RaisedLineStillMatches(items, c, k, m);
    RaisedKeepsIds(items, k, m);
    AddToMatchedLine(Raised(items, k, m), c, k);
    RaisedTwice(items, k, m);
  }

  /** Raising a quantity keeps the ids, so it keeps them unique. */
  lemma RaisedKeepsIds(items: seq<CartItem>, k: nat, m: nat)
    requires k < |items| && IdsUnique(items)
    ensures IdsUnique(Raised(items, k, m))
  {
    var prev := Raised(items, k, m);
    assert forall j :: 0 <= j < |prev| ==> prev[j].id == items[j].id;
  }

  /** Raising by `m` and then by one is raising by `m + 1`. */
  lemma RaisedTwice(items: seq<CartItem>, k: nat, m: nat)
    requires k < |items|
    ensures Raised(items, k, m)[k := Raised(items, k, m)[k].(quantity := Raised(items, k, m)[k].quantity + 1)]
      == Raised(items, k, m + 1)
  {
  }

  /** Adding `n >= 1` units of a product not in the cart appends one line holding `n`. */
  lemma {:induction false} AddTimesNewLine(items: seq<CartItem>, c: NewItem, n: nat)
    requires IdsUnique(items)
    requires FirstMatch(items, c).None?
    requires n >= 1
    ensures AddTimes(items, c, n) == items + [WithQuantity(c, n)]
    decreases n
  {
    if n > 1 {
      AddTimesNewLine(items, c, n - 1);
      var prev := items + [WithQuantity(c, n - 1)];
      FirstMatchAtEnd(items, WithQuantity(c, n - 1), c);
      assert IdsUnique(prev) by {
        forall j | 0 <= j < |items|
          ensures items[j].id != c.id
        {
          assert !Matches(items[j], c);
        }
      }
      AddToMatchedLine(prev, c, |items|);
      assert prev[|items| := WithQuantity(c, n)] == items + [WithQuantity(c, n)];
    }
  }

  // ---------------------------------------------------------------------------
  // Reviews

  datatype Review = Review(
    id: string,
    productId: string,
    userId: string,
    rating: int,
    title: Option<string>,
    content: Option<string>)

  datatype ReviewInsert = ReviewInsert(
    productId: string,
    userId: string,
    rating: int,
    title: Option<string>,
    content: Option<string>)

  datatype ReviewForm = ReviewForm(rating: int, title: string, content: string)

  const FreshReviewForm: ReviewForm := ReviewForm(5, "", "")

  function RatingOf(r: Review): int { r.rating }

  /** The mean rating, or 4.5 for a product without reviews. */
  function AverageRating(reviews: seq<Review>): real
  {
    if |reviews| > 0 then (SumOf(reviews, RatingOf) as real) / (|reviews| as real) else 4.5
  }

  lemma QuotientBounds(s: real, n: real, lo: real, hi: real)
    requires n > 0.0 && lo * n <= s <= hi * n
    ensures lo <= s / n <= hi
  {
    assert s / n * n == s;
  }

  lemma CastProduct(a: int, b: int)
    ensures (a * b) as real == (a as real) * (b as real)
  {
  }

  /** The average lies between the lowest and the highest rating given. */
  lemma AverageWithinRatings(reviews: seq<Review>, lo: int, hi: int)
    requires |reviews| > 0
    requires forall i :: 0 <= i < |reviews| ==> lo <= reviews[i].rating <= hi
    ensures lo as real <= AverageRating(reviews) <= hi as real
  {
    var n := |reviews|;
    var s := SumOf(reviews, RatingOf);
    SumOfBounds(reviews, RatingOf, lo, hi);
    assert lo * n <= s <= hi * n;
    CastProduct(lo, n);
    CastProduct(hi, n);
    assert (lo as real) * (n as real) <= s as real <= (hi as real) * (n as real);
    QuotientBounds(s as real, n as real, lo as real, hi as real);
    assert AverageRating(reviews) == (s as real) / (n as real);
  }

  /** The message shown after "Submit Review". */
  datatype ReviewToast = SignInRequired | PermissionDenied | SubmitFailed | Submitted

  /** The toast for the insert's answer: the page's own narrow permission test decides. */
  function SubmitToast(error: Option<PgError>): (t: ReviewToast)
    ensures t == Submitted <==> error.None?
    ensures t == PermissionDenied ==> IsPermissionError(error)
  {
    if error.None? then Submitted
    else if IsPolicyDenial(error.value) then (PolicyDenialIsPermissionError(error.value); PermissionDenied)
    else SubmitFailed
  }

  /** One `addItem(c)` after `i` of them: the lines and the writes become those of
      `i + 1` adds, and a guest's lines are mirrored to the local slot. */
  method AddOnce(cart: CartStore, c: NewItem, ghost lines0: seq<CartItem>, ghost issued0: seq<RemoteWrite>, ghost i: nat)
    requires cart.items == AddTimes(lines0, c, i)
    requires cart.issued == issued0 + AddTimesWrites(cart.user, lines0, c, i)
    modifies cart
    ensures cart.items == AddTimes(lines0, c, i + 1)
    ensures cart.issued == issued0 + AddTimesWrites(cart.user, lines0, c, i + 1)
    ensures cart.localSlot == if cart.user.None? then Some(cart.items) else old(cart.localSlot)
    ensures cart.user == old(cart.user) && cart.isLoading == old(cart.isLoading)
    ensures old(cart.Valid()) ==> cart.Valid()
  {
    AddTimesStep(cart.user, lines0, c, i);
    cart.AddItem(c);
  }

  class ProductDetailPage {
    var quantity: int
    var reviews: seq<Review>
    var form: ReviewForm
    var isSubmitting: bool

    ghost predicate Valid()
      reads this
    {
      quantity >= 1
    }

    constructor ()
      ensures quantity == 1 && reviews == [] && form == FreshReviewForm && !isSubmitting
      ensures Valid()
    {
      quantity := 1;
      reviews := [];
      form := FreshReviewForm;
      isSubmitting := false;
    }

    /** "−": never below 1. */
    method Decrement()
      modifies this
      ensures quantity == if old(quantity) - 1 < 1 then 1 else old(quantity) - 1
      ensures reviews == old(reviews) && form == old(form) && isSubmitting == old(isSubmitting)
      ensures Valid()
    {
      quantity := if quantity - 1 < 1 then 1 else quantity - 1;
    }

    /** "+". */
    method Increment()
      modifies this
      ensures quantity == old(quantity) + 1
      ensures reviews == old(reviews) && form == old(form) && isSubmitting == old(isSubmitting)
      ensures old(Valid()) ==> Valid()
    {
      quantity := quantity + 1;
    }

    /** "Add to Cart": nothing without a loaded product; otherwise `quantity` adds
        of the product's line, one after another. */
    method HandleAddToCart(cart: CartStore, product: Option<Product>, profile: Option<PublicProfile>)
      requires Valid()
      modifies cart
      ensures product.None? ==>
        cart.items == old(cart.items) && cart.issued == old(cart.issued) && cart.localSlot == old(cart.localSlot)
      ensures product.Some? ==>
        cart.items == AddTimes(old(cart.items), CartCandidate(product.value, profile), quantity) &&
        cart.issued == old(cart.issued) + AddTimesWrites(cart.user, old(cart.items), CartCandidate(product.value, profile), quantity) &&
        cart.localSlot == if cart.user.None? then Some(cart.items) else old(cart.localSlot)
      ensures cart.user == old(cart.user) && cart.isLoading == old(cart.isLoading)
      ensures old(cart.Valid()) ==> cart.Valid()
    {
      if product.None? {
        return;
      }
      var c := CartCandidate(product.value, profile);
      ghost var lines0, issued0, slot0 := cart.items, cart.issued, cart.localSlot;
      for i := 0 to quantity
        invariant cart.items == AddTimes(lines0, c, i)
        invariant cart.issued == issued0 + AddTimesWrites(cart.user, lines0, c, i)
        invariant cart.localSlot == if i == 0 then slot0
          else if cart.user.None? then Some(cart.items) else slot0
        invariant cart.user == old(cart.user) && cart.isLoading == old(cart.isLoading)
        invariant old(cart.Valid()) ==> cart.Valid()
      {
        AddOnce(cart, c, lines0, issued0, i);
      }
    }

    /** The initial review list: replaced only when the query answers rows without error. */
    method ReviewsFetched(data: Option<seq<Review>>, error: Option<PgError>)
      modifies this
      ensures reviews == if error.None? && data.Some? then data.value else old(reviews)
      ensures quantity == old(quantity) && form == old(form) && isSubmitting == old(isSubmitting)
    {
      if error.None? && data.Some? {
        reviews := data.value;
      }
    }

    /** A review inserted for this product arrives on the channel and goes on top. */
    method OnReviewInserted(r: Review)
      modifies this
      ensures reviews == [r] + old(reviews)
      ensures quantity == old(quantity) && form == old(form) && isSubmitting == old(isSubmitting)
    {
      reviews := [r] + reviews;
    }

    /** Clicking a star of the review form. */
    method SetRating(star: int)
      requires 1 <= star <= 5
      modifies this
      ensures form == old(form).(rating := star)
      ensures quantity == old(quantity) && reviews == old(reviews) && isSubmitting == old(isSubmitting)
    {
      form := form.(rating := star);
    }

    /** "Submit Review". Without a signed-in user or a product id nothing is sent.
        Otherwise the form is inserted (empty title and content as null); the form
        is reset only when the insert succeeds. The new review itself is shown
        only once it arrives on the channel. */
    method SubmitReview(user: Option<string>, productId: Option<string>, error: Option<PgError>)
      returns (insert: Option<ReviewInsert>, toast: ReviewToast)
      modifies this
      ensures user.None? || productId.None? || productId.value == "" ==>
        insert.None? && toast == SignInRequired && form == old(form)
      ensures user.Some? && productId.Some? && productId.value != "" ==>
        insert == Some(ReviewInsert(productId.value, user.value, old(form).rating,
                                    EmptyToNull(old(form).title), EmptyToNull(old(form).content))) &&
        toast == SubmitToast(error) &&
        form == (if error.None? then FreshReviewForm else old(form))
      ensures !isSubmitting
      ensures quantity == old(quantity) && reviews == old(reviews)
    {
      if user.None? || productId.None? || productId.value == "" {
        insert := None;
        toast := SignInRequired;
        isSubmitting := false;
        return;
      }
      isSubmitting := true;
      insert := Some(ReviewInsert(productId.value, user.value, form.rating, EmptyToNull(form.title), EmptyToNull(form.content)));
      toast := SubmitToast(error);
      if error.None? {
        form := FreshReviewForm;
      }
      isSubmitting := false;
    }
  }
}
