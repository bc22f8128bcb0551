/** The marketplace page: the product list and its refetch, the seller-profile
    lookup, the client-side search (the category selector does not filter yet),
    and the cart line each product card offers. */
module Marketplace {
  import opened Common
  import opened Domain
  import opened CartContext
  import opened SupabaseHelpers
  import ProductDetail

  /** The search: the product name contains the query, ignoring letter case. The
      selected category takes part in the test but cannot reject anything. */
  function MatchesSearch(query: string, category: Option<string>): Product -> bool
  {
    (p: Product) => Contains(Lower(p.name), Lower(query)) && (category.None? || category.value == "" || true)
  }

  function FilteredProducts(products: seq<Product>, query: string, category: Option<string>): seq<Product>
  {
    Filter(products, MatchesSearch(query, category))
  }

  /** The listing shows exactly the products whose name contains the query, in the
      fetched order. */
  lemma FilteredIsSearch(products: seq<Product>, query: string, category: Option<string>, p: Product)
    ensures p in FilteredProducts(products, query, category) <==> p in products && Contains(Lower(p.name), Lower(query))
    ensures IsSubsequence(FilteredProducts(products, query, category), products)
  {
    FilterMembers(products, MatchesSearch(query, category), p);
    FilterIsSubsequence(products, MatchesSearch(query, category));
  }

  /** An empty search box lists every product. */
  lemma EmptyQueryListsAll(products: seq<Product>, category: Option<string>)
    ensures FilteredProducts(products, "", category) == products
  {
    forall i | 0 <= i < |products|
      ensures MatchesSearch("", category)(products[i])
    {
      ContainsEmpty(Lower(products[i].name));
    }
    FilterKeepsAll(products, MatchesSearch("", category));
  }

  /** Choosing a category does not change the listing. */
  lemma CategoryIgnored(products: seq<Product>, query: string, c1: Option<string>, c2: Option<string>)
    ensures FilteredProducts(products, query, c1) == FilteredProducts(products, query, c2)
  {
    FilterSamePredicate(products, MatchesSearch(query, c1), MatchesSearch(query, c2));
  }

  /** Typing the query in capitals finds the same products. */
  lemma QueryCaseInsensitive(products: seq<Product>, query: string, category: Option<string>)
    ensures FilteredProducts(products, Lower(query), category) == FilteredProducts(products, query, category)
  {
    LowerIdempotent(query);
    FilterSamePredicate(products, MatchesSearch(Lower(query), category), MatchesSearch(query, category));
  }

  /** The distinct seller ids of the listed products, in order of first appearance. */
  function SellerIds(products: seq<Product>): (ids: seq<string>)
    ensures NoDuplicates(ids)
    ensures forall s :: s in ids <==> exists i :: 0 <= i < |products| && products[i].sellerId == s
  {
    SellerColumnMembers(products);
    Dedup(SellerColumn(products))
  }

  function SellerColumn(products: seq<Product>): seq<string>
  {
    seq(|products|, i requires 0 <= i < |products| => products[i].sellerId)
  }

  lemma SellerColumnMembers(products: seq<Product>)
    ensures forall s :: s in SellerColumn(products) <==> exists i :: 0 <= i < |products| && products[i].sellerId == s
  {
    var all := SellerColumn(products);
    forall s
      ensures s in all <==> exists i :: 0 <= i < |products| && products[i].sellerId == s
    {
      if s in all {
        var i :| 0 <= i < |all| && all[i] == s;
        assert products[i].sellerId == s;
      }
      if exists i :: 0 <= i < |products| && products[i].sellerId == s {
        var i :| 0 <= i < |products| && products[i].sellerId == s;
        assert all[i] == s;
      }
    }
  }

  /** The seller's profile, `sellerProfiles.get(product.seller_id)`. */
  function ProfileOf(profiles: map<string, PublicProfile>, sellerId: string): Option<PublicProfile>
  {
    if sellerId in profiles then Some(profiles[sellerId]) else None
  }

  /** The cart line of a product card as written: the fallback image is the
      wheat-ear emoji's UTF-8 bytes decoded as Windows-1252 text. */
  const GarbledImage: string := "\U{F0}\U{178}\U{152}\U{BE}"

  function CartCandidateAsWritten(p: Product, profiles: map<string, PublicProfile>): NewItem
  {
    ProductDetail.CartCandidate(p, ProfileOf(profiles, p.sellerId)).(image := OrElse(p.imageUrl, GarbledImage))
  }

  /** For a product without an image, the card's line shows four garbled characters
      instead of the wheat-ear emoji the product page and a reloaded cart use, and
      because both pages' lines share the product id, whichever page adds first
      fixes the image of the single cart line. */
  lemma AsWrittenImageDiffers(p: Product, profiles: map<string, PublicProfile>)
    requires p.imageUrl.None? || p.imageUrl.value == ""
    ensures CartCandidateAsWritten(p, profiles).image == GarbledImage
    ensures CartCandidateAsWritten(p, profiles).image != ProductDetail.CartCandidate(p, ProfileOf(profiles, p.sellerId)).image
    ensures CartCandidateAsWritten(p, profiles).image != CartContext.DefaultImage
    ensures Matches(WithQuantity(CartCandidateAsWritten(p, profiles), 1), ProductDetail.CartCandidate(p, ProfileOf(profiles, p.sellerId)))
  {
    assert GarbledImage[0] != ProductDetail.FallbackImage[0];
    assert GarbledImage[0] != CartContext.DefaultImage[0];
  }

  /** The card's line with the intended fallback: the same line the product page offers. */
  function CartCandidate(p: Product, profiles: map<string, PublicProfile>): NewItem
  {
    ProductDetail.CartCandidate(p, ProfileOf(profiles, p.sellerId))
  }

  /** With the intended fallback, an image-less product shows the same wheat ear as
      the product page and as a cart row reloaded without its snapshot. */
  lemma CandidateImageAgrees(p: Product, profiles: map<string, PublicProfile>)
    ensures CartCandidate(p, profiles).image == OrElse(p.imageUrl, CartContext.DefaultImage)
    ensures CartCandidate(p, profiles).productId == Some(p.id)
  {
  }

  class MarketplacePage {
    var products: seq<Product>
    var sellerProfiles: map<string, PublicProfile>
    var isLoading: bool
    var error: Option<string>
    var searchQuery: string
    var selectedCategory: Option<string>

    constructor ()
      ensures products == [] && sellerProfiles == map[] && isLoading && error.None?
      ensures searchQuery == "" && selectedCategory.None?
    {
      products := [];
      sellerProfiles := map[];
      isLoading := true;
      error := None;
      searchQuery := "";
      selectedCategory := None;
    }

    /** The products shown under the current search. */
    function Shown(): seq<Product>
      reads this
    {
      FilteredProducts(products, searchQuery, selectedCategory)
    }

    /** `fetchProducts`, run on mount, on sign-in changes and on every change of
        the products table. A failed query empties the list; a thrown error keeps
        it; a successful one lists the rows and, when there are any, looks up their
        sellers (`profilesTable` and `profilesFailed` describe that lookup). */
    method FetchProducts(outcome: QueryOutcome<seq<Product>>, profilesTable: seq<PublicProfile>, profilesFailed: bool)
      modifies this
      ensures outcome.Threw? ==>
        products == old(products) && sellerProfiles == old(sellerProfiles) &&
        error == Some("An unexpected error occurred.")
      ensures outcome.Returned? && outcome.error.Some? ==>
        products == [] && sellerProfiles == old(sellerProfiles) &&
        error == Some("Unable to load products. Please try again later.")
      ensures outcome.Returned? && outcome.error.None? ==>
        error.None? &&
        products == (if outcome.data.Some? then outcome.data.value else []) &&
        sellerProfiles == (if products == [] then old(sellerProfiles)
                           else if profilesFailed then map[]
                           else ProfilesByUser(Filter(profilesTable, UserIn(SellerIds(products)))))
      ensures forall k :: k in sellerProfiles && k !in old(sellerProfiles) ==>
        exists i :: 0 <= i < |products| && products[i].sellerId == k
      ensures !isLoading && searchQuery == old(searchQuery) && selectedCategory == old(selectedCategory)
    {
      isLoading := true;
      error := None;
      match outcome {
        case Threw(_) =>
          error := Some("An unexpected error occurred.");
        case Returned(data, queryError) =>
          if queryError.Some? {
            error := Some("Unable to load products. Please try again later.");
            products := [];
          } else {
            products := if data.Some? then data.value else [];
            if |products| > 0 {
              var ids := SellerIds(products);
              var found, _ := FetchPublicProfiles(ids, profilesTable, profilesFailed);
              sellerProfiles := found;
            }
          }
      }
      isLoading := false;
    }

    /** "Add to Cart" on a product card: one `addItem` of the card's line. */
    method HandleAddToCart(cart: CartStore, p: Product)
      modifies cart
      ensures cart.items == AddLines(old(cart.items), CartCandidate(p, sellerProfiles))
      ensures cart.issued == old(cart.issued) + AddWrites(cart.user, old(cart.items), CartCandidate(p, sellerProfiles))
      ensures cart.user == old(cart.user) && cart.isLoading == old(cart.isLoading)
      ensures cart.localSlot == if cart.user.None? then Some(cart.items) else old(cart.localSlot)
      ensures old(IdsUnique(cart.items)) ==> TotalItems(cart.items) == old(TotalItems(cart.items)) + 1
      ensures old(cart.Valid()) ==> cart.Valid()
    {
      cart.AddItem(CartCandidate(p, sellerProfiles));
    }
  }
}
