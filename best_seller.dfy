/** The best-seller grid (src/components/BestSeller.tsx): eight products, a quantity
    selector per product clamped to 1..10, add-to-cart with an in-flight set, and a
    wishlist held only in the component. */
module BestSeller {
  import opened Common
  import opened BrowserStorage

  /** The fields of a product the grid's logic reads. */
  datatype Product = Product(id: string, name: string, totalStock: int)

  const MaxBestSellers := 8
  const MinQuantity := 1
  const MaxQuantity := 10

  /** The quantity shown for a product: `quantities[id] || 1`, so a missing entry (and a
      zero, which JavaScript treats as false) reads as 1. */
  function Current(quantities: map<string, int>, id: string): (r: int)
    ensures id !in quantities ==> r == 1
    ensures id in quantities && quantities[id] != 0 ==> r == quantities[id]
    ensures r != 0
  {
    if id in quantities && quantities[id] != 0 then quantities[id] else 1
  }

  /** `Math.max(1, Math.min(10, x))`. */
  function Clamp(x: int): (r: int)
    ensures MinQuantity <= r <= MaxQuantity
    ensures MinQuantity <= x <= MaxQuantity ==> r == x
    ensures x < MinQuantity ==> r == MinQuantity
    ensures x > MaxQuantity ==> r == MaxQuantity
  {
    if x < MinQuantity then MinQuantity else if x > MaxQuantity then MaxQuantity else x
  }

  /** The map `updateQuantity` produces: the entry for `id` becomes the clamped sum and
      every other entry is kept. */
  function AfterChange(quantities: map<string, int>, id: string, change: int): (r: map<string, int>)
    ensures r.Keys == quantities.Keys + {id}
    ensures r[id] == Clamp(Current(quantities, id) + change)
    ensures forall k :: k in quantities && k != id ==> r[k] == quantities[k]
  {
    quantities[id := Clamp(Current(quantities, id) + change)]
  }

  /** Every stored quantity lies in 1..10. */
  predicate InRange(quantities: map<string, int>)
  {
    forall k :: k in quantities ==> MinQuantity <= quantities[k] <= MaxQuantity
  }

  /** Quantity changes keep every entry in 1..10, whatever the change. */
  lemma ChangeKeepsRange(quantities: map<string, int>, id: string, change: int)
    requires InRange(quantities)
    ensures InRange(AfterChange(quantities, id, change))
    ensures MinQuantity <= Current(AfterChange(quantities, id, change), id) <= MaxQuantity
  {
  }

  /** Minus is disabled at 1 or below. */
  predicate MinusDisabled(quantities: map<string, int>, id: string)
  {
    Current(quantities, id) <= MinQuantity
  }

  /** Plus is disabled at 10 or above. */
  predicate PlusDisabled(quantities: map<string, int>, id: string)
  {
    Current(quantities, id) >= MaxQuantity
  }

  /** Add is disabled for a product out of stock or already being added. */
  predicate AddDisabled(p: Product, addingToCart: set<string>)
  {
    p.totalStock == 0 || p.id in addingToCart
  }

  /** An enabled plus or minus button moves the shown quantity by exactly one, so the
      clamp only ever acts on entries the buttons cannot reach; and minus after plus
      restores the quantity. */
  lemma EnabledButtonsStepByOne(quantities: map<string, int>, id: string)
    requires InRange(quantities)
    ensures !PlusDisabled(quantities, id) ==>
      Current(AfterChange(quantities, id, 1), id) == Current(quantities, id) + 1
    ensures !MinusDisabled(quantities, id) ==>
      Current(AfterChange(quantities, id, -1), id) == Current(quantities, id) - 1
    ensures !PlusDisabled(quantities, id) ==>
      Current(AfterChange(AfterChange(quantities, id, 1), id, -1), id) == Current(quantities, id)
  {
  }

  /** The kept products: the first eight of the shuffled listing, in that order. */
  function BestSellers(shuffled: seq<Product>): (r: seq<Product>)
    ensures |r| == if |shuffled| < MaxBestSellers then |shuffled| else MaxBestSellers
    ensures r == shuffled[..|r|]
  {
    if |shuffled| <= MaxBestSellers then shuffled else shuffled[..MaxBestSellers]
  }

  /** The id of every product in a list. */
  function Ids(products: seq<Product>): set<string>
  {
    set i | 0 <= i < |products| :: products[i].id
  }

  /** The `forEach` that builds `initialQuantities`: an entry of 1 for every product. */
  method InitialQuantities(products: seq<Product>) returns (q: map<string, int>)
    ensures q.Keys == Ids(products)
    ensures forall k :: k in q ==> q[k] == 1
  {
    q := map[];
    var i := 0;
    while i < |products|
      invariant 0 <= i <= |products|
      invariant q.Keys == Ids(products[..i])
      invariant forall k :: k in q ==> q[k] == 1
    {
      assert Ids(products[..i + 1]) == Ids(products[..i]) + {products[i].id} by {
        assert forall j :: 0 <= j < i ==> products[..i + 1][j] == products[..i][j];
      }
      q := q[products[i].id := 1];
      i := i + 1;
    }
    assert products[..i] == products;
  }

  /** The toast a successful add shows. */
  function AddedText(p: Product, quantity: int): string
  {
    "Added to Cart! \U{1F6D2}: " + p.name + " (" + DecimalText(quantity) + "x) added to your cart"
  }

  const AuthRequiredText := "Authentication Required: Please login to add items to cart"
  const AddFailedText := "Error: Failed to add item to cart. Please try again."
  const LoadFailedText := "Failed to load best sellers"

  class BestSellerGrid {
    const storage: LocalStorage
    var products: seq<Product>
    var loading: bool
    var error: Option<string>
    var quantities: map<string, int>
    var wishlist: set<string>
    var addingToCart: set<string>
    var sent: seq<Request>
    var toasts: seq<Toast>

    constructor (storage: LocalStorage)
      ensures this.storage == storage
      ensures products == [] && loading && error == None
      ensures quantities == map[] && wishlist == {} && addingToCart == {}
      ensures sent == [] && toasts == []
    {
      this.storage := storage;
      products := [];
      loading := true;
      error := None;
      quantities := map[];
      wishlist := {};
      addingToCart := {};
      sent := [];
      toasts := [];
    }

    /** `fetchProducts`. The listing arrives in `outcome`; `shuffled` is the order the
        random sort left it in, which only the environment can choose. A failure sets the
        error and keeps everything else; success does not clear an earlier error. */
    method FetchProducts(outcome: Outcome<seq<Product>>, shuffled: seq<Product>)
      requires outcome.Ok? ==> multiset(shuffled) == multiset(outcome.body)
      modifies this
      ensures !loading
      ensures outcome.Ok? ==> products == BestSellers(shuffled) && |products| <= MaxBestSellers
      ensures outcome.Ok? ==> quantities.Keys == Ids(products) && forall k :: k in quantities ==> quantities[k] == 1
      ensures outcome.Ok? ==> error == old(error)
      ensures !outcome.Ok? ==>
        error == Some(LoadFailedText) && products == old(products) && quantities == old(quantities)
      ensures wishlist == old(wishlist) && addingToCart == old(addingToCart)
      ensures sent == old(sent) && toasts == old(toasts)
    {
      loading := true;
      if outcome.Ok? {
        products := BestSellers(shuffled);
        quantities := InitialQuantities(products);
      } else {
        error := Some(LoadFailedText);
      }
      loading := false;
    }

    /** `updateQuantity`. */
    method UpdateQuantity(id: string, change: int)
      modifies this
      ensures quantities == AfterChange(old(quantities), id, change)
      ensures products == old(products) && loading == old(loading) && error == old(error)
      ensures wishlist == old(wishlist) && addingToCart == old(addingToCart)
      ensures sent == old(sent) && toasts == old(toasts)
    {
      quantities := AfterChange(quantities, id, change);
    }

    /** The part of `addToCart` before the request settles. Without a stored token it
        reports, sends nothing and its `finally` drops the id from the in-flight set;
        otherwise the request for the shown quantity goes out with the id in flight. */
    method StartAddToCart(p: Product) returns (inFlight: bool)
      modifies this
      ensures inFlight <==> storage.HasToken()
      ensures !inFlight ==>
        toasts == old(toasts) + [Error(AuthRequiredText)] && sent == old(sent)
        && addingToCart == old(addingToCart) - {p.id}
      ensures inFlight ==>
        sent == old(sent) + [CartAdd(p.id, Current(old(quantities), p.id))]
        && addingToCart == old(addingToCart) + {p.id} && toasts == old(toasts)
      ensures inFlight ==> AddDisabled(p, addingToCart)
      ensures products == old(products) && loading == old(loading) && error == old(error)
      ensures quantities == old(quantities) && wishlist == old(wishlist)
    {
      var quantity := Current(quantities, p.id);
      addingToCart := addingToCart + {p.id};
      if !storage.HasToken() {
        toasts := toasts + [Error(AuthRequiredText)];
        addingToCart := addingToCart - {p.id};
        return false;
      }
      sent := sent + [CartAdd(p.id, quantity)];
      return true;
    }

    /** The part of `addToCart` after the request settles: a 2xx response reports the
        quantity sent and resets it to 1; anything else reports a failure and keeps it.
        Either way the id leaves the in-flight set. */
    method FinishAddToCart(p: Product, quantity: int, outcome: Outcome<()>)
      requires p.id in addingToCart
      modifies this
      ensures p.id !in addingToCart && addingToCart == old(addingToCart) - {p.id}
      ensures p.totalStock != 0 ==> !AddDisabled(p, addingToCart)
      ensures outcome.Ok? ==>
        quantities == old(quantities)[p.id := 1] && toasts == old(toasts) + [Success(AddedText(p, quantity))]
      ensures !outcome.Ok? ==>
        quantities == old(quantities) && toasts == old(toasts) + [Error(AddFailedText)]
      ensures products == old(products) && loading == old(loading) && error == old(error)
      ensures wishlist == old(wishlist) && sent == old(sent)
    {
      if outcome.Ok? {
        toasts := toasts + [Success(AddedText(p, quantity))];
        quantities := quantities[p.id := 1];
      } else {
        toasts := toasts + [Error(AddFailedText)];
      }
      addingToCart := addingToCart - {p.id};
    }

    /** `toggleWishlist`: flips the heart locally and says which way it went. */
    method ToggleWishlist(id: string)
      modifies this
      ensures wishlist == Toggle(old(wishlist), id)
      ensures toasts == old(toasts) + [if id in old(wishlist) then Info("Removed from Wishlist: Item removed from your wishlist")
                                       else Success("Added to Wishlist ❤️: Item added to your wishlist")]
      ensures products == old(products) && loading == old(loading) && error == old(error)
      ensures quantities == old(quantities) && addingToCart == old(addingToCart) && sent == old(sent)
    {
      if id in wishlist {
        toasts := toasts + [Info("Removed from Wishlist: Item removed from your wishlist")];
      } else {
        toasts := toasts + [Success("Added to Wishlist ❤️: Item added to your wishlist")];
      }
      wishlist := Toggle(wishlist, id);
    }
  }

  /** One complete add with a token: the id is in flight between the two steps and gone
      afterwards; success leaves the quantity at 1, failure leaves it as it was. */
  method AddRoundTrip(grid: BestSellerGrid, p: Product, outcome: Outcome<()>)
    requires grid.storage.HasToken() && p.id !in grid.addingToCart
    modifies grid
    ensures grid.addingToCart == old(grid.addingToCart)
    ensures grid.sent == old(grid.sent) + [CartAdd(p.id, Current(old(grid.quantities), p.id))]
    ensures outcome.Ok? ==> Current(grid.quantities, p.id) == 1
    ensures !outcome.Ok? ==> grid.quantities == old(grid.quantities)
  {
    var quantity := Current(grid.quantities, p.id);
    var inFlight := grid.StartAddToCart(p);
    assert inFlight && p.id in grid.addingToCart;
    grid.FinishAddToCart(p, quantity, outcome);
  }

  /** A failed load followed by a successful "Try Again" still holds the error, so the
      grid keeps showing the error panel. */
  method RetryKeepsError(grid: BestSellerGrid, listing: seq<Product>)
    modifies grid
    ensures grid.error == Some(LoadFailedText)
    ensures grid.products == BestSellers(listing)
  {
    grid.FetchProducts(Thrown, []);
    grid.FetchProducts(Ok(listing), listing);
  }
}
