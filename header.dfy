/** The cart drawer of the page header (src/components/Header.tsx): the cart lines, their
    total, the shipping-address form, and checkout through the payment widget. Every
    backend call is an Outcome argument; the widget's success and failure callbacks are
    separate steps. */
module Header {
  import opened Common
  import opened BrowserStorage
  import AuthStore

  datatype Address = Address(street: string, city: string, state: string, postalCode: string, country: string, isDefault: bool)

  /** The form's value when no default address is known. */
  const BlankAddress := Address("", "", "", "", "", true)

  /** The five text inputs of the address form, named as their `name` attributes. */
  datatype AddressField = Street | City | State | PostalCode | Country

  /** The body of the cart fetch: its status, the cart lines (already mapped from product
      records) and the user's addresses. */
  datatype CartBody = CartBody(status: string, cart: Option<seq<CartItem>>, addresses: seq<Address>)

  /** The body of the order creation call. */
  datatype OrderBody = OrderBody(message: string, razorpayOrderId: string, orderId: string, totalAmount: int, transactionId: string)

  const OrderCreatedMessage := "Order created, proceed to payment"

  /** What the payment widget is opened with, and the ids its success handler navigates with. */
  datatype PaymentWidget = PaymentWidget(amount: int, currency: string, orderHandle: string, description: string, orderId: string, transactionId: string)

  datatype Navigation = ToAuthPage | ToOrderConfirmation(orderId: string, transactionId: string)

  /** Where one checkout click ends. */
  datatype CheckoutStep = NotSignedIn | NoAddress | CartEmpty | OrderNotCreated | CheckoutFailed | PaymentOpened

  // ---------------------------------------------------------------------------------
  // The cart lines

  /** One line's share of the total. */
  function LineTotal(item: CartItem): int
  {
    item.price * item.quantity
  }

  /** `cartItems.reduce((total, item) => total + item.price * item.quantity, 0)`,
      folding from the first line to the last. */
  function TotalAmount(items: seq<CartItem>): int
  {
    if items == [] then 0 else TotalAmount(items[..|items| - 1]) + LineTotal(items[|items| - 1])
  }

  /** The total of two carts put together is the sum of their totals. */
  lemma {:induction false} TotalAmountAppend(a: seq<CartItem>, b: seq<CartItem>)
    ensures TotalAmount(a + b) == TotalAmount(a) + TotalAmount(b)
  {
    if b == [] {
      assert a + b == a;
    } else {
      var last := |b| - 1;
      assert (a + b)[..|a + b| - 1] == a + b[..last];
      TotalAmountAppend(a, b[..last]);
    }
  }

  /** The total of a single line is that line's price times its quantity. */
  lemma TotalAmountSingle(item: CartItem)
    ensures TotalAmount([item]) == item.price * item.quantity
  {
    assert [item][..0] == [];
  }

  /** Replacing one line changes the total by the difference of the two lines. */
  lemma TotalAmountReplace(items: seq<CartItem>, k: nat, x: CartItem)
    requires k < |items|
    ensures TotalAmount(items[k := x]) == TotalAmount(items) - LineTotal(items[k]) + LineTotal(x)
  {
    var before, after := items[..k], items[k + 1..];
    assert items == before + [items[k]] + after;
    assert items[k := x] == before + [x] + after;
    TotalAmountAppend(before + [items[k]], after);
    TotalAmountAppend(before + [x], after);
    TotalAmountAppend(before, [items[k]]);
    TotalAmountAppend(before, [x]);
    TotalAmountSingle(items[k]);
    TotalAmountSingle(x);
  }

  /** With prices and quantities never negative, the total is never negative. */
  lemma {:induction false} TotalAmountNonNegative(items: seq<CartItem>)
    requires forall i :: 0 <= i < |items| ==> items[i].price >= 0 && items[i].quantity >= 0
    ensures TotalAmount(items) >= 0
  {
    if items != [] {
      TotalAmountNonNegative(items[..|items| - 1]);
    }
  }

  /** `prev.map(item => item.id === id ? { ...item, quantity } : item)`: every line whose id
      matches gets the new quantity, every other line and the order stay as they were. */
  function WithQuantity(items: seq<CartItem>, id: string, quantity: int): (r: seq<CartItem>)
    ensures |r| == |items|
    ensures forall i :: 0 <= i < |items| && items[i].id == id ==> r[i] == items[i].(quantity := quantity)
    ensures forall i :: 0 <= i < |items| && items[i].id != id ==> r[i] == items[i]
  {
    if items == [] then []
    else
      [if items[0].id == id then items[0].(quantity := quantity) else items[0]]
      + WithQuantity(items[1..], id, quantity)
  }

  /** `prev.filter(item => item.id !== id)`. */
  function Without(items: seq<CartItem>, id: string): (r: seq<CartItem>)
    ensures forall x :: x in r <==> x in items && x.id != id
    ensures |r| <= |items|
  {
    if items == [] then []
    else if items[0].id == id then Without(items[1..], id)
    else [items[0]] + Without(items[1..], id)
  }

  /** Filtering keeps the relative order: it works piece by piece. */
  lemma {:induction false} WithoutAppend(a: seq<CartItem>, b: seq<CartItem>, id: string)
    ensures Without(a + b, id) == Without(a, id) + Without(b, id)
  {
    if a == [] {
      assert a + b == b;
    } else {
      assert (a + b)[1..] == a[1..] + b;
      WithoutAppend(a[1..], b, id);
    }
  }

  /** Removing an id that no line carries leaves the cart as it was. */
  lemma {:induction false} WithoutAbsent(items: seq<CartItem>, id: string)
    requires forall i :: 0 <= i < |items| ==> items[i].id != id
    ensures Without(items, id) == items
  {
    if items != [] {
      WithoutAbsent(items[1..], id);
    }
  }

  /** The removal requests `clearCart` sends, one per line in list order. */
  function Removals(items: seq<CartItem>): (r: seq<Request>)
    ensures |r| == |items|
    ensures forall i :: 0 <= i < |items| ==> r[i] == CartRemove(items[i].id)
  {
    seq(|items|, i requires 0 <= i < |items| => CartRemove(items[i].id))
  }

  /** The first address flagged as default, as `addresses.find(addr => addr.isDefault)`. */
  function FirstDefault(addresses: seq<Address>): (r: Option<Address>)
    ensures r.None? <==> forall i :: 0 <= i < |addresses| ==> !addresses[i].isDefault
    ensures r.Some? ==> r.value.isDefault && r.value in addresses
    ensures r.Some? ==> exists k :: 0 <= k < |addresses| && addresses[k] == r.value
                                   && forall j :: 0 <= j < k ==> !addresses[j].isDefault
  {
    if addresses == [] then None
    else if addresses[0].isDefault then Some(addresses[0])
    else
      var rest := FirstDefault(addresses[1..]);
      if rest.Some? then
        assert forall j :: 1 <= j < |addresses| ==> addresses[j] == addresses[1..][j - 1];
        rest
      else rest
  }

  // ---------------------------------------------------------------------------------
  // The address form and the checkout decisions

  /** The guard in `saveAddress`: every text field is filled in. */
  predicate IsComplete(a: Address)
  {
    a.street != "" && a.city != "" && a.state != "" && a.postalCode != "" && a.country != ""
  }

  /** `setAddressForm(prev => ({ ...prev, [name]: value }))` for one input. */
  function WithField(a: Address, field: AddressField, value: string): (r: Address)
    ensures r.isDefault == a.isDefault
    ensures field == Street ==> r == a.(street := value)
    ensures field == City ==> r == a.(city := value)
    ensures field == State ==> r == a.(state := value)
    ensures field == PostalCode ==> r == a.(postalCode := value)
    ensures field == Country ==> r == a.(country := value)
  {
    match field
    case Street => a.(street := value)
    case City => a.(city := value)
    case State => a.(state := value)
    case PostalCode => a.(postalCode := value)
    case Country => a.(country := value)
  }

  /** Clearing any one field makes the form incomplete, so `saveAddress` refuses it. */
  lemma ClearedFieldBlocksSave(a: Address, field: AddressField)
    ensures !IsComplete(WithField(a, field, ""))
  {
  }

  /** The guard chain at the top of `handleCheckout`: sign-in first, then the address,
      then a non-empty cart. None means every guard passed and the order is requested. */
  function CheckoutGuard(signedIn: bool, address: Option<Address>, cartIsEmpty: bool): (r: Option<CheckoutStep>)
    ensures r.None? <==> signedIn && address.Some? && !cartIsEmpty
    ensures !signedIn ==> r == Some(NotSignedIn)
    ensures signedIn && address.None? ==> r == Some(NoAddress)
    ensures signedIn && address.Some? && cartIsEmpty ==> r == Some(CartEmpty)
  {
    if !signedIn then Some(NotSignedIn)
    else if address.None? then Some(NoAddress)
    else if cartIsEmpty then Some(CartEmpty)
    else None
  }

  /** The widget options built from a created order: the amount in paise (the order total
      is in rupees), the currency, the gateway order handle. */
  function WidgetFor(order: OrderBody): (w: PaymentWidget)
    ensures w.amount % 100 == 0 && w.amount / 100 == order.totalAmount
    ensures w.currency == "INR"
    ensures w.orderHandle == order.razorpayOrderId
    ensures w.orderId == order.orderId && w.transactionId == order.transactionId
  {
    PaymentWidget(order.totalAmount * 100, "INR", order.razorpayOrderId,
                  "Order Payment #" + order.orderId, order.orderId, order.transactionId)
  }

  /** The text of the failure notification: the gateway's description, or a fallback. */
  function PaymentFailedText(description: string): (t: string)
    ensures description != "" ==> t == "Payment failed: " + description
    ensures description == "" ==> t == "Payment failed: Please try again."
  {
    "Payment failed: " + (if description == "" then "Please try again." else description)
  }

  /** The order creation request for a saved address. */
  function OrderRequest(a: Address): Request
  {
    CreateOrder(a.street, a.city, a.state, a.postalCode, a.country, "Razorpay")
  }

  // ---------------------------------------------------------------------------------
  // The component state

  class CartDrawer {
    const store: LocalStorage
    const auth: AuthStore.Store
    var cartItems: seq<CartItem>
    var defaultAddress: Option<Address>
    var addressForm: Address
    var isAddressFormOpen: bool
    /** The payment widget once checkout has opened it. */
    var widget: Option<PaymentWidget>
    /** The requests issued so far, oldest first. */
    var sent: seq<Request>
    /** The notifications shown so far, oldest first. */
    var toasts: seq<Toast>
    /** The last call of `navigate`. */
    var navigation: Option<Navigation>

    /** `isAuthenticated && localStorage.getItem('token')`, the test every cart handler makes. */
    predicate SignedIn()
      reads this, auth, store
    {
      auth.isAuthenticated && store.HasToken()
    }

    constructor (store: LocalStorage, auth: AuthStore.Store)
      ensures this.store == store && this.auth == auth
      ensures cartItems == [] && defaultAddress == None && addressForm == BlankAddress && !isAddressFormOpen
      ensures widget == None && sent == [] && toasts == [] && navigation == None
    {
      this.store := store;
      this.auth := auth;
      cartItems := [];
      defaultAddress := None;
      addressForm := BlankAddress;
      isAddressFormOpen := false;
      widget := None;
      sent := [];
      toasts := [];
      navigation := None;
    }

    /** The mount effect: a signed-in user's cart and default address come from the
        backend, a guest's cart from the 'cartItems' key. */
    method LoadCart(outcome: Outcome<CartBody>)
      modifies this
      ensures SignedIn() && outcome.Thrown? ==>
        cartItems == old(cartItems) && defaultAddress == old(defaultAddress) && addressForm == old(addressForm)
        && toasts == old(toasts) + [Error("Failed to load cart")]
      ensures SignedIn() && !outcome.Thrown? ==> toasts == old(toasts)
      ensures SignedIn() && !outcome.Thrown? && outcome.body.status == "success" && outcome.body.cart.Some? ==>
        cartItems == outcome.body.cart.value
        && (FirstDefault(outcome.body.addresses).Some? ==>
              defaultAddress == FirstDefault(outcome.body.addresses) && addressForm == defaultAddress.value)
        && (FirstDefault(outcome.body.addresses).None? ==>
              defaultAddress == old(defaultAddress) && addressForm == old(addressForm))
      ensures SignedIn() && !outcome.Thrown? && !(outcome.body.status == "success" && outcome.body.cart.Some?) ==>
        cartItems == old(cartItems) && defaultAddress == old(defaultAddress) && addressForm == old(addressForm)
      ensures !SignedIn() ==>
        cartItems == old(store.cartItems).GetOr(old(cartItems))
        && defaultAddress == old(defaultAddress) && addressForm == old(addressForm) && toasts == old(toasts)
      ensures isAddressFormOpen == old(isAddressFormOpen) && widget == old(widget)
      ensures sent == old(sent) && navigation == old(navigation)
    {
      if SignedIn() {
        match outcome
        case Thrown =>
          toasts := toasts + [Error("Failed to load cart")];
        case Ok(body) =>
          ApplyCartBody(body);
        case HttpError(_, body) =>
          ApplyCartBody(body);
      } else if store.cartItems.Some? {
        cartItems := store.cartItems.value;
      }
    }

    /** The part of the mount effect that reads the fetched body. */
    method ApplyCartBody(body: CartBody)
      modifies this
      ensures body.status == "success" && body.cart.Some? ==>
        cartItems == body.cart.value
        && (FirstDefault(body.addresses).Some? ==>
              defaultAddress == FirstDefault(body.addresses) && addressForm == defaultAddress.value)
        && (FirstDefault(body.addresses).None? ==>
              defaultAddress == old(defaultAddress) && addressForm == old(addressForm))
      ensures !(body.status == "success" && body.cart.Some?) ==>
        cartItems == old(cartItems) && defaultAddress == old(defaultAddress) && addressForm == old(addressForm)
      ensures isAddressFormOpen == old(isAddressFormOpen) && widget == old(widget)
      ensures sent == old(sent) && toasts == old(toasts) && navigation == old(navigation)
    {
      if body.status == "success" && body.cart.Some? {
        cartItems := body.cart.value;
        var found := FirstDefault(body.addresses);
        if found.Some? {
          defaultAddress := found;
          addressForm := found.value;
        }
      }
    }

    /** The persistence effect, run after every change of the cart or of the sign-in flag:
        a guest's cart is written to the 'cartItems' key. */
    method PersistGuestCart()
      modifies store
      ensures !auth.isAuthenticated ==> store.cartItems == Some(cartItems)
      ensures auth.isAuthenticated ==> store.cartItems == old(store.cartItems)
      ensures store.entries == old(store.entries)
    {
      if !auth.isAuthenticated {
        store.cartItems := Some(cartItems);
      }
    }

    /** `openAddressForm`: the form opens, prefilled with the saved address if any. */
    method OpenAddressForm()
      modifies this
      ensures isAddressFormOpen
      ensures addressForm == old(defaultAddress).GetOr(old(addressForm))
      ensures defaultAddress == old(defaultAddress) && cartItems == old(cartItems)
      ensures widget == old(widget) && sent == old(sent) && toasts == old(toasts) && navigation == old(navigation)
    {
      isAddressFormOpen := true;
      if defaultAddress.Some? {
        addressForm := defaultAddress.value;
      }
    }

    /** `handleAddressChange` for one input. */
    method ChangeAddressField(field: AddressField, value: string)
      modifies this
      ensures addressForm == WithField(old(addressForm), field, value)
      ensures defaultAddress == old(defaultAddress) && isAddressFormOpen == old(isAddressFormOpen)
      ensures cartItems == old(cartItems) && widget == old(widget)
      ensures sent == old(sent) && toasts == old(toasts) && navigation == old(navigation)
    {
      addressForm := WithField(addressForm, field, value);
    }

    /** `saveAddress`: an incomplete form is refused and stays open; a complete one becomes
        the default address and the form closes. */
    method SaveAddress()
      modifies this
      ensures !IsComplete(old(addressForm)) ==>
        defaultAddress == old(defaultAddress) && isAddressFormOpen == old(isAddressFormOpen)
        && toasts == old(toasts) + [Error("Please fill in all address fields")]
      ensures IsComplete(old(addressForm)) ==>
        defaultAddress == Some(old(addressForm)) && !isAddressFormOpen
        && toasts == old(toasts) + [Success("Address saved successfully")]
      ensures addressForm == old(addressForm) && cartItems == old(cartItems)
      ensures widget == old(widget) && sent == old(sent) && navigation == old(navigation)
    {
      if !IsComplete(addressForm) {
        toasts := toasts + [Error("Please fill in all address fields")];
        return;
      }
      defaultAddress := Some(addressForm);
      isAddressFormOpen := false;
      toasts := toasts + [Success("Address saved successfully")];
    }

    /** `cancelAddressForm`: the form closes and goes back to the saved address, or blank. */
    method CancelAddressForm()
      modifies this
      ensures !isAddressFormOpen
      ensures addressForm == old(defaultAddress).GetOr(BlankAddress)
      ensures defaultAddress == old(defaultAddress) && cartItems == old(cartItems)
      ensures widget == old(widget) && sent == old(sent) && toasts == old(toasts) && navigation == old(navigation)
    {
      isAddressFormOpen := false;
      addressForm := defaultAddress.GetOr(BlankAddress);
    }

    /** `removeItem`: the lines with that id go away, except that a signed-in user's list
        stays as it was when the request is rejected. An HTTP error status is not looked at. */
    method RemoveItem(id: string, outcome: Outcome<()>)
      modifies this
      ensures SignedIn() ==> sent == old(sent) + [CartRemove(id)]
      ensures !SignedIn() ==> sent == old(sent)
      ensures SignedIn() && outcome.Thrown? ==>
        cartItems == old(cartItems) && toasts == old(toasts) + [Error("Error removing item")]
      ensures !(SignedIn() && outcome.Thrown?) ==>
        cartItems == Without(old(cartItems), id) && toasts == old(toasts) + [Success("Item removed from cart")]
      ensures defaultAddress == old(defaultAddress) && addressForm == old(addressForm)
      ensures isAddressFormOpen == old(isAddressFormOpen) && widget == old(widget) && navigation == old(navigation)
    {
      if SignedIn() {
        sent := sent + [CartRemove(id)];
        if outcome.Thrown? {
          toasts := toasts + [Error("Error removing item")];
          return;
        }
      }
      cartItems := Without(cartItems, id);
      toasts := toasts + [Success("Item removed from cart")];
    }

    /** `updateQuantity`: a quantity below 1 is handed to `removeItem` (with the outcome of
        its request); otherwise every line with that id gets the quantity, with no upper
        bound, unless a signed-in user's request is rejected. */
    method UpdateQuantity(id: string, quantity: int, outcome: Outcome<()>)
      modifies this
      ensures quantity < 1 && SignedIn() ==> sent == old(sent) + [CartRemove(id)]
      ensures quantity < 1 && (SignedIn() && outcome.Thrown?) ==>
        cartItems == old(cartItems) && toasts == old(toasts) + [Error("Error removing item")]
      ensures quantity < 1 && !(SignedIn() && outcome.Thrown?) ==>
        cartItems == Without(old(cartItems), id) && toasts == old(toasts) + [Success("Item removed from cart")]
      ensures quantity >= 1 && SignedIn() ==> sent == old(sent) + [CartAdd(id, quantity)]
      ensures !SignedIn() ==> sent == old(sent)
      ensures quantity >= 1 && SignedIn() && outcome.Thrown? ==>
        cartItems == old(cartItems) && toasts == old(toasts) + [Error("Error updating cart")]
      ensures quantity >= 1 && !(SignedIn() && outcome.Thrown?) ==>
        cartItems == WithQuantity(old(cartItems), id, quantity) && toasts == old(toasts) + [Success("Cart updated")]
      ensures defaultAddress == old(defaultAddress) && addressForm == old(addressForm)
      ensures isAddressFormOpen == old(isAddressFormOpen) && widget == old(widget) && navigation == old(navigation)
    {
      if quantity < 1 {
        RemoveItem(id, outcome);
        return;
      }
      if SignedIn() {
        sent := sent + [CartAdd(id, quantity)];
        if outcome.Thrown? {
          toasts := toasts + [Error("Error updating cart")];
          return;
        }
      }
      cartItems := WithQuantity(cartItems, id, quantity);
      toasts := toasts + [Success("Cart updated")];
    }

    /** `clearCart`: a signed-in user's lines are removed one request at a time, in list
        order (`outcomes[i]` is what the i-th request delivers); a rejected request stops
        the loop and leaves the list and the 'cartItems' key as they were. Otherwise the list
        ends empty and the key is removed. */
    method ClearCart(outcomes: seq<Outcome<()>>)
      requires |outcomes| == |cartItems|
      modifies this, store
      ensures SignedIn() && FirstThrow(outcomes).Some? ==>
        sent == old(sent) + Removals(old(cartItems)[..FirstThrow(outcomes).value + 1])
        && cartItems == old(cartItems) && store.cartItems == old(store.cartItems)
        && toasts == old(toasts) + [Error("Error clearing cart")]
      ensures SignedIn() && FirstThrow(outcomes).None? ==> sent == old(sent) + Removals(old(cartItems))
      ensures !SignedIn() ==> sent == old(sent)
      ensures !(SignedIn() && FirstThrow(outcomes).Some?) ==>
        cartItems == [] && store.cartItems == None && toasts == old(toasts) + [Success("Cart cleared")]
      ensures store.entries == old(store.entries)
      ensures defaultAddress == old(defaultAddress) && addressForm == old(addressForm)
      ensures isAddressFormOpen == old(isAddressFormOpen) && widget == old(widget) && navigation == old(navigation)
    {
      if SignedIn() {
        var i := 0;
        var rejected := false;
        while i < |cartItems| && !rejected
          invariant 0 <= i <= |cartItems|
          invariant cartItems == old(cartItems) && SignedIn()
          invariant sent == old(sent) + Removals(cartItems[..i])
          invariant rejected ==> i > 0 && outcomes[i - 1].Thrown?
          invariant forall j :: 0 <= j < (if rejected then i - 1 else i) ==> !outcomes[j].Thrown?
          invariant unchanged(store) && toasts == old(toasts)
          invariant defaultAddress == old(defaultAddress) && addressForm == old(addressForm)
          invariant isAddressFormOpen == old(isAddressFormOpen) && widget == old(widget) && navigation == old(navigation)
        {
          sent := sent + [CartRemove(cartItems[i].id)];
          assert Removals(cartItems[..i + 1]) == Removals(cartItems[..i]) + [CartRemove(cartItems[i].id)];
          rejected := outcomes[i].Thrown?;
          i := i + 1;
        }
        if rejected {
          assert FirstThrow(outcomes) == Some(i - 1);
          toasts := toasts + [Error("Error clearing cart")];
          return;
        }
        assert cartItems[..i] == cartItems;
      }
      cartItems := [];
      store.cartItems := None;
      toasts := toasts + [Success("Cart cleared")];
    }

    /** `handleCheckout`: the guard chain, then the order creation request, then the widget
        opens when the backend confirms the order. Nothing here touches the cart. */
    method Checkout(outcome: Outcome<OrderBody>) returns (step: CheckoutStep)
      modifies this
      ensures CheckoutGuard(SignedIn(), defaultAddress, cartItems == []).Some? ==>
        step == CheckoutGuard(SignedIn(), defaultAddress, cartItems == []).value
        && sent == old(sent) && widget == old(widget)
      ensures step == NotSignedIn ==>
        navigation == Some(ToAuthPage) && toasts == old(toasts) + [Error("Please log in to proceed with checkout")]
      ensures step == NoAddress ==> toasts == old(toasts) + [Error("Please add a shipping address")]
      ensures step == CartEmpty ==> toasts == old(toasts) + [Error("Your cart is empty")]
      ensures CheckoutGuard(SignedIn(), defaultAddress, cartItems == []).None? ==>
        sent == old(sent) + [OrderRequest(defaultAddress.value)]
      ensures CheckoutGuard(SignedIn(), defaultAddress, cartItems == []).None? && outcome.Thrown? ==>
        step == CheckoutFailed && widget == old(widget) && toasts == old(toasts) + [Error("Error during checkout")]
      ensures CheckoutGuard(SignedIn(), defaultAddress, cartItems == []).None? && !outcome.Thrown? ==>
        if outcome.body.message == OrderCreatedMessage
        then step == PaymentOpened && widget == Some(WidgetFor(outcome.body)) && toasts == old(toasts)
        else step == OrderNotCreated && widget == old(widget) && toasts == old(toasts) + [Error("Failed to create order")]
      ensures step != NotSignedIn ==> navigation == old(navigation)
      ensures cartItems == old(cartItems) && defaultAddress == old(defaultAddress)
      ensures addressForm == old(addressForm) && isAddressFormOpen == old(isAddressFormOpen)
    {
      var guard := CheckoutGuard(SignedIn(), defaultAddress, cartItems == []);
      if guard.Some? {
        step := guard.value;
        match step
        case NotSignedIn =>
          toasts := toasts + [Error("Please log in to proceed with checkout")];
          navigation := Some(ToAuthPage);
        case NoAddress =>
          toasts := toasts + [Error("Please add a shipping address")];
        case CartEmpty =>
          toasts := toasts + [Error("Your cart is empty")];
        case _ =>
          assert false;
      } else {
        sent := sent + [OrderRequest(defaultAddress.value)];
        match outcome
        case Thrown =>
          step := CheckoutFailed;
          toasts := toasts + [Error("Error during checkout")];
        case Ok(body) =>
          step := OpenWidget(body);
        case HttpError(_, body) =>
          step := OpenWidget(body);
      }
    }

    /** The part of `handleCheckout` that reads the order creation response. */
    method OpenWidget(body: OrderBody) returns (step: CheckoutStep)
      modifies this
      ensures body.message == OrderCreatedMessage ==>
        step == PaymentOpened && widget == Some(WidgetFor(body)) && toasts == old(toasts)
      ensures body.message != OrderCreatedMessage ==>
        step == OrderNotCreated && widget == old(widget) && toasts == old(toasts) + [Error("Failed to create order")]
      ensures cartItems == old(cartItems) && defaultAddress == old(defaultAddress)
      ensures addressForm == old(addressForm) && isAddressFormOpen == old(isAddressFormOpen)
      ensures sent == old(sent) && navigation == old(navigation)
    {
      if body.message == OrderCreatedMessage {
        widget := Some(WidgetFor(body));
        step := PaymentOpened;
      } else {
        toasts := toasts + [Error("Failed to create order")];
        step := OrderNotCreated;
      }
    }

    /** The widget's success handler: the cart is cleared (as `clearCart` does, including
        its failure), then the confirmation page is opened with the order and transaction
        ids, whether or not clearing succeeded. */
    method PaymentSucceeded(outcomes: seq<Outcome<()>>)
      requires widget.Some?
      requires |outcomes| == |cartItems|
      modifies this, store
      ensures SignedIn() && FirstThrow(outcomes).Some? ==>
        sent == old(sent) + Removals(old(cartItems)[..FirstThrow(outcomes).value + 1])
        && cartItems == old(cartItems) && store.cartItems == old(store.cartItems)
        && toasts == old(toasts) + [Error("Error clearing cart"), Success("Payment successful! Order placed.")]
      ensures SignedIn() && FirstThrow(outcomes).None? ==> sent == old(sent) + Removals(old(cartItems))
      ensures !SignedIn() ==> sent == old(sent)
      ensures !(SignedIn() && FirstThrow(outcomes).Some?) ==>
        cartItems == [] && store.cartItems == None
        && toasts == old(toasts) + [Success("Cart cleared"), Success("Payment successful! Order placed.")]
      ensures navigation == Some(ToOrderConfirmation(old(widget).value.orderId, old(widget).value.transactionId))
      ensures store.entries == old(store.entries) && widget == old(widget)
      ensures defaultAddress == old(defaultAddress) && addressForm == old(addressForm)
      ensures isAddressFormOpen == old(isAddressFormOpen)
    {
      var w := widget.value;
      ClearCart(outcomes);
      toasts := toasts + [Success("Payment successful! Order placed.")];
      navigation := Some(ToOrderConfirmation(w.orderId, w.transactionId));
    }

    /** The widget's failure handler: a notification and nothing else. */
    method PaymentFailed(description: string)
      requires widget.Some?
      modifies this
      ensures toasts == old(toasts) + [Error(PaymentFailedText(description))]
      ensures cartItems == old(cartItems) && sent == old(sent) && navigation == old(navigation)
      ensures defaultAddress == old(defaultAddress) && addressForm == old(addressForm)
      ensures isAddressFormOpen == old(isAddressFormOpen) && widget == old(widget)
    {
      toasts := toasts + [Error(PaymentFailedText(description))];
    }
  }

  /** A guest's cart written by the persistence effect is what the next mount loads. */
  method GuestCartSurvivesReload(drawer: CartDrawer, next: CartDrawer, outcome: Outcome<CartBody>)
    requires next.store == drawer.store && next.auth == drawer.auth
    requires next != drawer && !drawer.auth.isAuthenticated
    modifies drawer.store, next
    ensures next.cartItems == drawer.cartItems
  {
    drawer.PersistGuestCart();
    next.LoadCart(outcome);
  }
}
