/** The catalog grid (src/components/CategoriesSection.tsx): subcategory chips, the product
    grid shown four to a row in a window that grows three rows at a time, guest
    add-to-cart on the stored cart list, and the wishlist hearts. */
module CategoriesSection {
  import opened Common
  import opened BrowserStorage
  import AuthStore

  datatype Subcategory = Subcategory(id: string, name: string, image: string)

  const AllId := "all"
  /** The chip the component starts with. */
  const InitialAll := Subcategory(AllId, "ALL RAKHIS", "/placeholder.svg?height=80&width=80")
  /** The chip put in front of the fetched subcategories (with a different image). */
  const FetchedAll := Subcategory(AllId, "ALL RAKHIS", "../assets/image/allRakhi.jpg")
  const ChipPlaceholder := "/placeholder.svg?height=80&width=80"
  const ProductPlaceholder := "/placeholder.svg?height=300&width=300"
  const CartImagePlaceholder := "/placeholder.svg?height=100&width=100"
  const ProductsPerRow := 4
  const InitialRows := 3
  const RowsPerViewMore := 3

  /** A subcategory as the backend lists it. */
  datatype SubcategoryRecord = SubcategoryRecord(id: string, name: string, backgroundImage: Option<string>)

  /** The subcategory response: `Array.isArray(data)` or not. */
  datatype SubcategoryBody = SubcategoryArray(items: seq<SubcategoryRecord>) | NotAnArray

  /** A product as the backend lists it (prices are whole rupees). */
  datatype ProductRecord = ProductRecord(id: string, name: string, sellingPrice: int, images: Option<seq<string>>,
                                         subcategoryName: Option<string>, totalStock: int)

  datatype ProductsBody = ProductsBody(status: string, data: seq<ProductRecord>)

  /** A product as the grid keeps it. */
  datatype Product = Product(id: string, name: string, price: int, images: seq<string>, subcategory: string, stock: int)

  // ---------------------------------------------------------------------------------
  // Building the chips and the products

  function ChipFrom(rec: SubcategoryRecord): (s: Subcategory)
    ensures s.id == rec.id && s.name == rec.name
    ensures rec.backgroundImage.Some? && rec.backgroundImage.value != "" ==> s.image == rec.backgroundImage.value
    ensures !(rec.backgroundImage.Some? && rec.backgroundImage.value != "") ==> s.image == ChipPlaceholder
  {
    Subcategory(rec.id, rec.name,
                if rec.backgroundImage.Some? && rec.backgroundImage.value != "" then rec.backgroundImage.value
                else ChipPlaceholder)
  }

  /** The chip list after a successful fetch: the "all" chip, then the fetched
      subcategories in the order the backend sent them. */
  function SubcategoryList(recs: seq<SubcategoryRecord>): (r: seq<Subcategory>)
    ensures |r| == |recs| + 1
    ensures r[0] == FetchedAll
    ensures forall i :: 0 <= i < |recs| ==> r[i + 1] == ChipFrom(recs[i])
  {
    [FetchedAll] + seq(|recs|, i requires 0 <= i < |recs| => ChipFrom(recs[i]))
  }

  function ProductFrom(rec: ProductRecord): (p: Product)
    ensures p.id == rec.id && p.name == rec.name && p.price == rec.sellingPrice && p.stock == rec.totalStock
    ensures p.images == rec.images.GetOr([ProductPlaceholder])
    ensures p.subcategory == rec.subcategoryName.GetOr("")
  {
    Product(rec.id, rec.name, rec.sellingPrice, rec.images.GetOr([ProductPlaceholder]),
            rec.subcategoryName.GetOr(""), rec.totalStock)
  }

  function ProductsFrom(recs: seq<ProductRecord>): (r: seq<Product>)
    ensures |r| == |recs|
    ensures forall i :: 0 <= i < |recs| ==> r[i] == ProductFrom(recs[i])
  {
    seq(|recs|, i requires 0 <= i < |recs| => ProductFrom(recs[i]))
  }

  // ---------------------------------------------------------------------------------
  // Guest add-to-cart

  /** The line a first add creates: quantity 1 and the first image, or a placeholder. */
  function NewCartItem(p: Product): (item: CartItem)
    ensures item.id == p.id && item.name == p.name && item.price == p.price && item.quantity == 1
    ensures |p.images| > 0 && p.images[0] != "" ==> item.image == p.images[0]
    ensures !(|p.images| > 0 && p.images[0] != "") ==> item.image == CartImagePlaceholder
  {
    CartItem(p.id, p.name, p.price, 1, if |p.images| > 0 && p.images[0] != "" then p.images[0] else CartImagePlaceholder)
  }

  predicate InCart(items: seq<CartItem>, id: string)
  {
    exists i :: 0 <= i < |items| && items[i].id == id
  }

  /** The stored list after one guest add, as a reference definition: every line with the
      product's id one more, or the new line at the end when there is none. */
  function GuestCartAfterAdd(items: seq<CartItem>, p: Product): seq<CartItem>
  {
    if InCart(items, p.id) then
      seq(|items|, i requires 0 <= i < |items| =>
        if items[i].id == p.id then items[i].(quantity := items[i].quantity + 1) else items[i])
    else items + [NewCartItem(p)]
  }

  /** Adding a product already in the list bumps each matching line by exactly one and
      keeps the length; it never caps the quantity. */
  lemma AddExistingIncrements(items: seq<CartItem>, p: Product, k: nat)
    requires k < |items| && items[k].id == p.id
    ensures |GuestCartAfterAdd(items, p)| == |items|
    ensures GuestCartAfterAdd(items, p)[k].quantity == items[k].quantity + 1
    ensures forall i :: 0 <= i < |items| && items[i].id != p.id ==> GuestCartAfterAdd(items, p)[i] == items[i]
  {
    assert InCart(items, p.id);
  }

  /** Adding a product not in the list appends its new line and keeps the rest. */
  lemma AddNewAppends(items: seq<CartItem>, p: Product)
    requires forall i :: 0 <= i < |items| ==> items[i].id != p.id
    ensures GuestCartAfterAdd(items, p) == items + [NewCartItem(p)]
  {
  }

  /** Adding the same new product twice yields one line of quantity 2, not two lines. */
  lemma AddTwiceMergesLine(items: seq<CartItem>, p: Product)
    requires forall i :: 0 <= i < |items| ==> items[i].id != p.id
    ensures GuestCartAfterAdd(GuestCartAfterAdd(items, p), p) == items + [NewCartItem(p).(quantity := 2)]
  {
    var once := items + [NewCartItem(p)];
    assert GuestCartAfterAdd(items, p) == once;
    assert once[|items|].id == p.id;
    assert InCart(once, p.id);
    var twice := GuestCartAfterAdd(once, p);
    assert |twice| == |items| + 1;
    forall i | 0 <= i < |twice|
      ensures twice[i] == (items + [NewCartItem(p).(quantity := 2)])[i]
    {
      if i < |items| {
        assert once[i] == items[i];
      }
    }
  }

  /** The guest branch of `addToCart` as the source runs it on the parsed array: `find`,
      then a `forEach` that bumps every match, or a `push`. */
  method AddToSavedCart(items: seq<CartItem>, p: Product) returns (r: seq<CartItem>)
    ensures r == GuestCartAfterAdd(items, p)
  {
    var found := false;
    var k := 0;
    while k < |items| && !found
      invariant 0 <= k <= |items|
      invariant found ==> InCart(items, p.id)
      invariant !found ==> forall j :: 0 <= j < k ==> items[j].id != p.id
    {
      found := items[k].id == p.id;
      k := k + 1;
    }
    if !found {
      r := items + [NewCartItem(p)];
      return;
    }
    r := items;
    var i := 0;
    while i < |r|
      invariant 0 <= i <= |r| == |items|
      invariant forall j :: 0 <= j < i ==>
        r[j] == if items[j].id == p.id then items[j].(quantity := items[j].quantity + 1) else items[j]
      invariant forall j :: i <= j < |r| ==> r[j] == items[j]
    {
      if r[i].id == p.id {
        r := r[i := r[i].(quantity := r[i].quantity + 1)];
      }
      i := i + 1;
    }
  }

  // ---------------------------------------------------------------------------------
  // The visible products

  /** `subcategories.find(sub => sub._id === id)?.name`. */
  function NameOf(subcategories: seq<Subcategory>, id: string): (r: Option<string>)
    ensures r.None? <==> forall i :: 0 <= i < |subcategories| ==> subcategories[i].id != id
    ensures r.Some? ==> exists k :: 0 <= k < |subcategories| && subcategories[k].id == id
                                   && subcategories[k].name == r.value
                                   && forall j :: 0 <= j < k ==> subcategories[j].id != id
  {
    if subcategories == [] then None
    else if subcategories[0].id == id then Some(subcategories[0].name)
    else
      var rest := NameOf(subcategories[1..], id);
      assert forall j :: 1 <= j < |subcategories| ==> subcategories[j] == subcategories[1..][j - 1];
      rest
  }

  /** The products whose subcategory name is `name`; no product matches a missing name. */
  function InSubcategory(products: seq<Product>, name: Option<string>): (r: seq<Product>)
    ensures forall p :: p in r <==> p in products && name == Some(p.subcategory)
    ensures |r| <= |products|
  {
    if products == [] then []
    else if name == Some(products[0].subcategory) then [products[0]] + InSubcategory(products[1..], name)
    else InSubcategory(products[1..], name)
  }

  /** `filteredProducts`: everything for "all", otherwise the products of the chosen chip. */
  function Filtered(products: seq<Product>, selected: string, subcategories: seq<Subcategory>): (r: seq<Product>)
    ensures selected == AllId ==> r == products
    ensures selected != AllId ==>
      forall p :: p in r <==> p in products && NameOf(subcategories, selected) == Some(p.subcategory)
  {
    if selected == AllId then products else InSubcategory(products, NameOf(subcategories, selected))
  }

  /** `filter` works piece by piece: the kept products of a list put together are the
      kept products of each part, in order, and one product is kept exactly when its
      subcategory is the name. So order and repetitions are those of the input. */
  lemma {:induction false} InSubcategoryPiecewise(a: seq<Product>, b: seq<Product>, name: Option<string>)
    ensures InSubcategory(a + b, name) == InSubcategory(a, name) + InSubcategory(b, name)
    ensures forall p :: InSubcategory([p], name) == if name == Some(p.subcategory) then [p] else []
  {
    forall p
      ensures InSubcategory([p], name) == if name == Some(p.subcategory) then [p] else []
    {
      assert [p][1..] == [];
    }
    if a == [] {
      assert a + b == b;
    } else {
      assert (a + b)[0] == a[0];
      assert (a + b)[1..] == a[1..] + b;
      InSubcategoryPiecewise(a[1..], b, name);
    }
  }

  /** The same for `filteredProducts`, whose window then shows the first products in
      the listing's own order: "all" keeps every product, any other chip exactly those
      of its name. */
  lemma FilteredPiecewise(a: seq<Product>, b: seq<Product>, selected: string, subcategories: seq<Subcategory>)
    ensures Filtered(a + b, selected, subcategories)
         == Filtered(a, selected, subcategories) + Filtered(b, selected, subcategories)
    ensures forall p :: (Filtered([p], selected, subcategories)
                         == if selected == AllId || NameOf(subcategories, selected) == Some(p.subcategory)
                            then [p] else [])
  {
    InSubcategoryPiecewise(a, b, NameOf(subcategories, selected));
  }

  /** A selection id that no chip carries shows no products. */
  lemma UnknownSelectionShowsNothing(products: seq<Product>, selected: string, subcategories: seq<Subcategory>)
    requires selected != AllId
    requires forall i :: 0 <= i < |subcategories| ==> subcategories[i].id != selected
    ensures Filtered(products, selected, subcategories) == []
  {
    MissingNameMatchesNothing(products);
  }

  lemma {:induction false} MissingNameMatchesNothing(products: seq<Product>)
    ensures InSubcategory(products, None) == []
  {
    if products != [] {
      MissingNameMatchesNothing(products[1..]);
    }
  }

  /** JavaScript's `s.slice(0, end)`, where a negative end counts from the back. */
  function SlicePrefix(s: seq<Product>, end: int): (r: seq<Product>)
    ensures end >= 0 ==> |r| == if end < |s| then end else |s|
    ensures end < 0 ==> |r| == if |s| + end > 0 then |s| + end else 0
    ensures r == s[..|r|]
  {
    if end >= |s| then s
    else if end >= 0 then s[..end]
    else if |s| + end > 0 then s[..|s| + end]
    else []
  }

  /** `visibleProducts`: the first `rows` rows of four. */
  function Visible(filtered: seq<Product>, rows: int): seq<Product>
  {
    SlicePrefix(filtered, rows * ProductsPerRow)
  }

  /** `hasMoreProducts`. */
  predicate HasMore(filtered: seq<Product>, rows: int)
  {
    |filtered| > |Visible(filtered, rows)|
  }

  /** The window is the first min(length, 4 x rows) products, and "View More" is offered
      exactly when products lie beyond it. */
  lemma VisibleWindow(filtered: seq<Product>, rows: int)
    requires rows >= 0
    ensures |Visible(filtered, rows)| == if 4 * rows < |filtered| then 4 * rows else |filtered|
    ensures Visible(filtered, rows) == filtered[..|Visible(filtered, rows)|]
    ensures HasMore(filtered, rows) <==> |filtered| > 4 * rows
  {
  }

  /** "View More" only extends the window: the old window is a prefix of the new one, and
      the new one holds up to twelve more products. */
  lemma ViewMoreExtends(filtered: seq<Product>, rows: int)
    requires rows >= 0
    ensures Visible(filtered, rows) <= Visible(filtered, rows + RowsPerViewMore)
    ensures |Visible(filtered, rows + RowsPerViewMore)|
         == if |Visible(filtered, rows)| + 12 < |filtered| then |Visible(filtered, rows)| + 12 else |filtered|
  {
    VisibleWindow(filtered, rows);
    VisibleWindow(filtered, rows + RowsPerViewMore);
  }

  // ---------------------------------------------------------------------------------
  // The component state

  class CatalogGrid {
    const store: LocalStorage
    const auth: AuthStore.Store
    var selectedSubcategory: string
    var subcategories: seq<Subcategory>
    var products: seq<Product>
    var visibleRows: int
    var loading: bool
    var error: Option<string>
    var wishlist: set<string>
    /** The requests issued so far, oldest first. */
    var sent: seq<Request>
    /** Set once `window.location.reload()` has been called. */
    var reloaded: bool

    /** The window never shrinks below three rows and the "all" chip always comes first. */
    ghost predicate Valid()
      reads this
    {
      visibleRows >= InitialRows && |subcategories| > 0 && subcategories[0].id == AllId
    }

    constructor (store: LocalStorage, auth: AuthStore.Store)
      ensures Valid()
      ensures this.store == store && this.auth == auth
      ensures selectedSubcategory == AllId && subcategories == [InitialAll] && products == []
      ensures visibleRows == InitialRows && !loading && error == None && wishlist == {}
      ensures sent == [] && !reloaded
    {
      this.store := store;
      this.auth := auth;
      selectedSubcategory := AllId;
      subcategories := [InitialAll];
      products := [];
      visibleRows := InitialRows;
      loading := false;
      error := None;
      wishlist := {};
      sent := [];
      reloaded := false;
    }

    /** The subcategory fetch on mount; loading ends false whatever the outcome. */
    method LoadSubcategories(outcome: Outcome<SubcategoryBody>)
      requires Valid()
      modifies this
      ensures Valid() && !loading
      ensures outcome.Thrown? ==> subcategories == old(subcategories) && error == Some("Error fetching subcategories")
      ensures !outcome.Thrown? && outcome.body.SubcategoryArray? ==>
        subcategories == SubcategoryList(outcome.body.items) && error == old(error)
      ensures !outcome.Thrown? && outcome.body.NotAnArray? ==>
        subcategories == old(subcategories) && error == Some("Failed to fetch subcategories")
      ensures selectedSubcategory == old(selectedSubcategory) && products == old(products)
      ensures visibleRows == old(visibleRows) && wishlist == old(wishlist)
      ensures sent == old(sent) && reloaded == old(reloaded)
    {
      match outcome {
        case Thrown =>
          error := Some("Error fetching subcategories");
        case Ok(body) =>
          ApplySubcategories(body);
        case HttpError(_, body) =>
          ApplySubcategories(body);
      }
      loading := false;
    }

    method ApplySubcategories(body: SubcategoryBody)
      requires Valid()
      modifies this
      ensures Valid()
      ensures body.SubcategoryArray? ==> subcategories == SubcategoryList(body.items) && error == old(error)
      ensures body.NotAnArray? ==>
        subcategories == old(subcategories) && error == Some("Failed to fetch subcategories")
      ensures selectedSubcategory == old(selectedSubcategory) && products == old(products) && loading == old(loading)
      ensures visibleRows == old(visibleRows) && wishlist == old(wishlist)
      ensures sent == old(sent) && reloaded == old(reloaded)
    {
      match body
      case SubcategoryArray(items) =>
        subcategories := SubcategoryList(items);
      case NotAnArray =>
        error := Some("Failed to fetch subcategories");
    }

    /** The product fetch for the selected chip; loading ends false whatever the outcome. */
    method LoadProducts(outcome: Outcome<ProductsBody>)
      requires Valid()
      modifies this
      ensures Valid() && !loading
      ensures outcome.Thrown? ==> products == old(products) && error == Some("Error fetching products")
      ensures !outcome.Thrown? && outcome.body.status == "success" ==>
        products == ProductsFrom(outcome.body.data) && error == old(error)
      ensures !outcome.Thrown? && outcome.body.status != "success" ==>
        products == old(products) && error == Some("Failed to fetch products")
      ensures selectedSubcategory == old(selectedSubcategory) && subcategories == old(subcategories)
      ensures visibleRows == old(visibleRows) && wishlist == old(wishlist)
      ensures sent == old(sent) && reloaded == old(reloaded)
    {
      if outcome.Thrown? {
        error := Some("Error fetching products");
      } else if outcome.body.status == "success" {
        products := ProductsFrom(outcome.body.data);
      } else {
        error := Some("Failed to fetch products");
      }
      loading := false;
    }

    /** `addToCart`: a signed-in user's add is one request, and a response whose status is
        not "success" reloads the page; a guest's add rewrites the stored list. */
    method AddToCart(product: Product, outcome: Outcome<string>)
      requires Valid()
      modifies this, store
      ensures Valid()
      ensures auth.isAuthenticated ==> sent == old(sent) + [CartAdd(product.id, 1)]
      ensures auth.isAuthenticated ==> store.cartItems == old(store.cartItems)
      ensures auth.isAuthenticated && outcome.Thrown? ==>
        error == Some("Error adding product to cart") && reloaded == old(reloaded)
      ensures auth.isAuthenticated && !outcome.Thrown? ==>
        error == old(error) && reloaded == (old(reloaded) || outcome.body != "success")
      ensures !auth.isAuthenticated ==>
        store.cartItems == Some(GuestCartAfterAdd(old(store.cartItems).GetOr([]), product))
        && sent == old(sent) && error == old(error) && reloaded == old(reloaded)
      ensures store.entries == old(store.entries)
      ensures selectedSubcategory == old(selectedSubcategory) && subcategories == old(subcategories)
      ensures products == old(products) && visibleRows == old(visibleRows)
      ensures loading == old(loading) && wishlist == old(wishlist)
    {
      if auth.isAuthenticated {
        sent := sent + [CartAdd(product.id, 1)];
        match outcome
        case Thrown =>
          error := Some("Error adding product to cart");
        case Ok(status) =>
          if status != "success" { reloaded := true; }
        case HttpError(_, status) =>
          if status != "success" { reloaded := true; }
      } else {
        var updated := AddToSavedCart(store.cartItems.GetOr([]), product);
        store.cartItems := Some(updated);
      }
    }

    /** `toggleWishlist`: refused while signed out; otherwise one add or remove request,
        and the heart flips only on a "success" status. */
    method ToggleWishlist(productId: string, outcome: Outcome<string>)
      requires Valid()
      modifies this
      ensures Valid()
      ensures !auth.isAuthenticated ==>
        error == Some("Please log in to manage your wishlist") && sent == old(sent) && wishlist == old(wishlist)
      ensures auth.isAuthenticated ==>
        sent == old(sent) + [if productId in old(wishlist) then WishlistRemove(productId) else WishlistAdd(productId)]
      ensures auth.isAuthenticated && !outcome.Thrown? && outcome.body == "success" ==>
        wishlist == Toggle(old(wishlist), productId) && error == old(error)
      ensures auth.isAuthenticated && !outcome.Thrown? && outcome.body != "success" ==>
        wishlist == old(wishlist)
        && error == Some(if productId in old(wishlist) then "Failed to remove from wishlist" else "Failed to add to wishlist")
      ensures auth.isAuthenticated && outcome.Thrown? ==>
        wishlist == old(wishlist)
        && error == Some(if productId in old(wishlist) then "Error removing from wishlist" else "Error adding to wishlist")
      ensures selectedSubcategory == old(selectedSubcategory) && subcategories == old(subcategories)
      ensures products == old(products) && visibleRows == old(visibleRows)
      ensures loading == old(loading) && reloaded == old(reloaded)
    {
      if !auth.isAuthenticated {
        error := Some("Please log in to manage your wishlist");
        return;
      }
      var isIn := productId in wishlist;
      sent := sent + [if isIn then WishlistRemove(productId) else WishlistAdd(productId)];
      if outcome.Thrown? {
        error := Some(if isIn then "Error removing from wishlist" else "Error adding to wishlist");
      } else if outcome.body == "success" {
        wishlist := Toggle(wishlist, productId);
      } else {
        error := Some(if isIn then "Failed to remove from wishlist" else "Failed to add to wishlist");
      }
    }

    /** `handleViewMore`: three more rows. */
    method ViewMore()
      requires Valid()
      modifies this
      ensures Valid()
      ensures visibleRows == old(visibleRows) + RowsPerViewMore
      ensures selectedSubcategory == old(selectedSubcategory) && subcategories == old(subcategories)
      ensures products == old(products) && loading == old(loading) && error == old(error)
      ensures wishlist == old(wishlist) && sent == old(sent) && reloaded == old(reloaded)
    {
      visibleRows := visibleRows + RowsPerViewMore;
    }

    /** `handleSubcategoryChange`: select the chip and reset the window to three rows. */
    method ChangeSubcategory(id: string)
      requires Valid()
      modifies this
      ensures Valid()
      ensures selectedSubcategory == id && visibleRows == InitialRows
      ensures subcategories == old(subcategories) && products == old(products)
      ensures loading == old(loading) && error == old(error)
      ensures wishlist == old(wishlist) && sent == old(sent) && reloaded == old(reloaded)
    {
      selectedSubcategory := id;
      visibleRows := InitialRows;
    }
  }
}
