/** The account page (src/components/profile.tsx): the profile and order history are
    fetched on mount, and each order card derives its status badge, its shortened id
    and its payment lines from the order record. */
module Profile {
  import opened Common

  /** The fields of the user record the page's logic reads. */
  datatype UserProfile = UserProfile(id: string, firstName: string, lastName: string, email: string)

  /** The fields of an order the page's logic reads; amounts are whole rupees. */
  datatype Order = Order(id: string, status: string, totalAmount: Option<int>, shippingCharges: Option<int>)

  /** The profile response: `data.user` may be missing. */
  datatype ProfileBody = ProfileBody(user: Option<UserProfile>)

  /** The orders response: `Array.isArray(data)` or not. */
  datatype OrdersBody = OrderArray(orders: seq<Order>) | NotAnArray

  const IdDigits := 8

  // ---------------------------------------------------------------------------------
  // Status badge

  function LowerChar(c: char): (r: char)
    ensures 'A' <= c <= 'Z' ==> 'a' <= r <= 'z'
    ensures !('A' <= c <= 'Z') ==> r == c
    ensures !('A' <= r <= 'Z')
  {
    if 'A' <= c <= 'Z' then (c as int - 'A' as int + 'a' as int) as char else c
  }

  /** `toLowerCase` on the ASCII letters: every upper-case letter is replaced by its
      lower-case form and every other character is kept. */
  function ToLower(s: string): (r: string)
    ensures |r| == |s|
    ensures forall i :: 0 <= i < |s| ==> r[i] == LowerChar(s[i])
  {
    if s == [] then [] else [LowerChar(s[0])] + ToLower(s[1..])
  }

  /** Lower-casing twice is lower-casing once. */
  lemma {:induction false} ToLowerIdempotent(s: string)
    ensures ToLower(ToLower(s)) == ToLower(s)
  {
    if s != [] {
      ToLowerIdempotent(s[1..]);
      assert ToLower(s)[1..] == ToLower(s[1..]);
    }
  }

  const PendingClass := "bg-yellow-100 text-yellow-800 border-yellow-200"
  const ActiveClass := "bg-blue-100 text-blue-800 border-blue-200"
  const ShippedClass := "bg-purple-100 text-purple-800 border-purple-200"
  const DeliveredClass := "bg-green-100 text-green-800 border-green-200"
  const CancelledClass := "bg-red-100 text-red-800 border-red-200"
  const DefaultClass := "bg-gray-100 text-gray-800 border-gray-200"

  /** The statuses the two switches name. */
  predicate Known(lower: string)
  {
    lower == "pending" || lower == "confirmed" || lower == "processing" || lower == "shipped"
    || lower == "delivered" || lower == "cancelled"
  }

  /** `getStatusColor`. */
  function StatusColor(status: string): (r: string)
    ensures ToLower(status) == "pending" ==> r == PendingClass
    ensures ToLower(status) == "confirmed" || ToLower(status) == "processing" ==> r == ActiveClass
    ensures ToLower(status) == "shipped" ==> r == ShippedClass
    ensures ToLower(status) == "delivered" ==> r == DeliveredClass
    ensures ToLower(status) == "cancelled" ==> r == CancelledClass
    ensures !Known(ToLower(status)) ==> r == DefaultClass
  {
    match ToLower(status)
    case "pending" => PendingClass
    case "confirmed" => ActiveClass
    case "processing" => ActiveClass
    case "shipped" => ShippedClass
    case "delivered" => DeliveredClass
    case "cancelled" => CancelledClass
    case _ => DefaultClass
  }

  datatype Icon = Clock | Package | Truck | CheckCircle | XCircle

  /** `getStatusIcon`. */
  function StatusIcon(status: string): (r: Icon)
    ensures ToLower(status) == "pending" || !Known(ToLower(status)) ==> r == Clock
    ensures ToLower(status) == "confirmed" || ToLower(status) == "processing" ==> r == Package
    ensures ToLower(status) == "shipped" ==> r == Truck
    ensures ToLower(status) == "delivered" ==> r == CheckCircle
    ensures ToLower(status) == "cancelled" ==> r == XCircle
  {
    match ToLower(status)
    case "pending" => Clock
    case "confirmed" => Package
    case "processing" => Package
    case "shipped" => Truck
    case "delivered" => CheckCircle
    case "cancelled" => XCircle
    case _ => Clock
  }

  /** The badge depends only on the lower-cased status: a status and its lower-case form
      get the same colour and icon. */
  lemma BadgeIgnoresCase(status: string)
    ensures StatusColor(ToLower(status)) == StatusColor(status)
    ensures StatusIcon(ToLower(status)) == StatusIcon(status)
  {
    ToLowerIdempotent(status);
  }

  /** Two statuses with the same colour get the same icon; the converse fails, because
      "pending" and an unknown status share the clock but not the colour. */
  lemma ColorDeterminesIcon(s: string, t: string)
    ensures StatusColor(s) == StatusColor(t) ==> StatusIcon(s) == StatusIcon(t)
    ensures StatusIcon("pending") == StatusIcon("") && StatusColor("pending") != StatusColor("")
  {
    assert ToLower("pending") == "pending";
    assert ToLower("") == "";
  }

  // ---------------------------------------------------------------------------------
  // Payment lines

  /** "Subtotal" as the page computes it: total minus shipping only when both are
      truthy, so a missing or zero shipping charge shows 0. */
  function SubtotalAsWritten(order: Order): (r: int)
    ensures order.totalAmount.Some? && order.totalAmount.value != 0
            && order.shippingCharges.Some? && order.shippingCharges.value != 0 ==>
      r + Shown(order.shippingCharges) == Shown(order.totalAmount)
    ensures (order.totalAmount.None? || order.totalAmount.value == 0
             || order.shippingCharges.None? || order.shippingCharges.value == 0) ==> r == 0
  {
    if order.totalAmount.Some? && order.totalAmount.value != 0
       && order.shippingCharges.Some? && order.shippingCharges.value != 0
    then order.totalAmount.value - order.shippingCharges.value
    else 0
  }

  /** "Subtotal" as the rest of the card reads it: the total less shipping whenever both
      are present, so subtotal plus shipping is the total the card shows. */
  function Subtotal(order: Order): (r: int)
    ensures order.totalAmount.Some? && order.shippingCharges.Some? ==>
      r + Shown(order.shippingCharges) == Shown(order.totalAmount)
    ensures order.totalAmount.None? || order.shippingCharges.None? ==> r == 0
  {
    if order.totalAmount.Some? && order.shippingCharges.Some?
    then order.totalAmount.value - order.shippingCharges.value
    else 0
  }

  /** With free shipping the page as written shows a subtotal of 0 under a non-zero
      total (an order of 500 with 0 shipping), where the card's lines should add up. */
  lemma SubtotalAsWrittenDropsFreeShipping()
    ensures var order := Order("o1", "pending", Some(500), Some(0));
            SubtotalAsWritten(order) == 0 && Subtotal(order) == 500
            && SubtotalAsWritten(order) + Shown(order.shippingCharges) != Shown(order.totalAmount)
            && Card(order).subtotal == 0 && Card(order).shipping == 0 && Card(order).total == 500
  {
  }

  /** The two agree whenever both amounts are non-zero. */
  lemma SubtotalAgreement(order: Order)
    requires order.totalAmount.Some? && order.shippingCharges.Some?
    requires order.totalAmount.value != 0 && order.shippingCharges.value != 0
    ensures SubtotalAsWritten(order) == Subtotal(order)
  {
  }

  /** One order card. */
  datatype OrderCard = OrderCard(title: string, color: string, icon: Icon, subtotal: int, shipping: int, total: int)

  /** One order card, with the payment lines as the page computes them: they add up
      when both amounts are non-zero, and the subtotal shows 0 otherwise. */
  function Card(order: Order): (c: OrderCard)
    ensures |c.title| == if |order.id| < IdDigits then |order.id| else IdDigits
    ensures c.title == order.id[|order.id| - |c.title|..]
    ensures c.color == StatusColor(order.status) && c.icon == StatusIcon(order.status)
    ensures c.subtotal == SubtotalAsWritten(order)
    ensures c.shipping == Shown(order.shippingCharges) && c.total == Shown(order.totalAmount)
    ensures order.totalAmount.Some? && order.totalAmount.value != 0
            && order.shippingCharges.Some? && order.shippingCharges.value != 0 ==>
      c.subtotal + c.shipping == c.total
  {
    OrderCard(LastChars(order.id, IdDigits), StatusColor(order.status), StatusIcon(order.status),
              SubtotalAsWritten(order), Shown(order.shippingCharges), Shown(order.totalAmount))
  }

  /** What the page renders. */
  datatype View = Loading | ErrorPanel(message: Option<string>) | Account(user: UserProfile, cards: seq<OrderCard>)

  class ProfilePage {
    var userProfile: Option<UserProfile>
    var orders: seq<Order>
    var loading: bool
    var error: Option<string>

    constructor ()
      ensures userProfile == None && orders == [] && loading && error == None
    {
      userProfile := None;
      orders := [];
      loading := true;
      error := None;
    }

    /** `fetchUserProfile`: the body is read whatever the status; a body without a user
        sets one error and a rejection another. It does not touch `loading`. */
    method FetchUserProfile(outcome: Outcome<ProfileBody>)
      modifies this
      ensures outcome.Thrown? ==> userProfile == old(userProfile) && error == Some("Failed to fetch user profile")
      ensures !outcome.Thrown? && outcome.body.user.Some? ==> userProfile == outcome.body.user && error == old(error)
      ensures !outcome.Thrown? && outcome.body.user.None? ==>
        userProfile == old(userProfile) && error == Some("No user data received")
      ensures orders == old(orders) && loading == old(loading)
    {
      if outcome.Thrown? {
        error := Some("Failed to fetch user profile");
      } else if outcome.body.user.Some? {
        userProfile := outcome.body.user;
      } else {
        error := Some("No user data received");
      }
    }

    /** `fetchOrders`: an array replaces the orders, anything else sets an error, and
        loading ends in every case. */
    method FetchOrders(outcome: Outcome<OrdersBody>)
      modifies this
      ensures !loading
      ensures outcome.Thrown? ==> orders == old(orders) && error == Some("Failed to fetch orders")
      ensures !outcome.Thrown? && outcome.body.OrderArray? ==> orders == outcome.body.orders && error == old(error)
      ensures !outcome.Thrown? && outcome.body.NotAnArray? ==>
        orders == old(orders) && error == Some("Invalid orders data received")
      ensures userProfile == old(userProfile)
    {
      if outcome.Thrown? {
        error := Some("Failed to fetch orders");
      } else {
        match outcome.body {
          case OrderArray(list) =>
            orders := list;
          case NotAnArray =>
            error := Some("Invalid orders data received");
        }
      }
      loading := false;
    }

    function Render(): (v: View)
      reads this
      ensures v.Loading? <==> loading
      ensures v.ErrorPanel? <==> !loading && (error.Some? || userProfile.None?)
      ensures v.ErrorPanel? ==> v.message == error
      ensures v.Account? ==> v.user == userProfile.value
      ensures v.Account? ==> |v.cards| == |orders| && forall i :: 0 <= i < |orders| ==> v.cards[i] == Card(orders[i])
    {
      if loading then Loading
      else if error.Some? || userProfile.None? then ErrorPanel(error)
      else Account(userProfile.value, seq(|orders|, i requires 0 <= i < |orders| reads this => Card(orders[i])))
    }
  }
}
