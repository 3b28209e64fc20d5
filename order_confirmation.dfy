/** The order-confirmation page (src/pages/OrderConfirmation.tsx): it loads the order
    named by the navigation state, shows its summary, and counts down from 15 seconds
    before returning to the home page. */
module OrderConfirmation {
  import opened Common
  import Header

  /** The fields of an order the page's logic reads; amounts are whole rupees. */
  datatype OrderDetails = OrderDetails(id: string, totalAmount: Option<int>, shippingCharges: Option<int>)

  const CountdownStart := 15
  const IdDigits := 8
  const Home := "/"
  const NoOrderIdText := "Order ID not provided"
  const LoadFailedText := "Failed to load order details"

  /** "Total Paid" as the page computes it: when both amounts are present it is the sum
      of the Subtotal and Shipping lines above it, otherwise `formatPrice(undefined)`,
      which shows 0. */
  function TotalPaidAsWritten(order: OrderDetails): (r: int)
    ensures order.totalAmount.Some? && order.shippingCharges.Some? ==>
      r == Shown(order.totalAmount) + Shown(order.shippingCharges)
    ensures order.totalAmount.None? || order.shippingCharges.None? ==> r == 0
  {
    if order.totalAmount.Some? && order.shippingCharges.Some?
    then order.totalAmount.value + order.shippingCharges.value
    else 0
  }

  /** "Total Paid" as the amount the payment gateway was asked to charge: the order's
      total, which already includes shipping. */
  function TotalPaid(order: OrderDetails): int
  {
    order.totalAmount.GetOr(0)
  }

  /** The charge the gateway was opened with is exactly 100 times the corrected
      "Total Paid" of the same order. */
  lemma TotalPaidIsCharged(body: Header.OrderBody, order: OrderDetails)
    requires order.totalAmount == Some(body.totalAmount)
    ensures Header.WidgetFor(body).amount == TotalPaid(order) * 100
  {
  }

  /** As written, "Total Paid" overstates the charge by the shipping amount: an order of
      500 with 50 shipping was charged 50000 paise but shows 550. */
  lemma TotalPaidAsWrittenOverstates()
    ensures var body := Header.OrderBody(Header.OrderCreatedMessage, "rzp", "o1", 500, "t1");
            var order := OrderDetails("o1", Some(500), Some(50));
            Header.WidgetFor(body).amount == 50000 && TotalPaidAsWritten(order) == 550
            && TotalPaidAsWritten(order) * 100 != Header.WidgetFor(body).amount
  {
  }

  /** The two agree exactly when shipping is free or one of the amounts is missing
      (in which case the as-written total falls back to 0). */
  lemma TotalPaidAgreement(order: OrderDetails)
    requires order.totalAmount.Some? && order.shippingCharges.Some?
    ensures TotalPaidAsWritten(order) == TotalPaid(order) <==> order.shippingCharges.value == 0
  {
  }

  /** `s.slice(-8)` of the order id, and of the transaction id when it is non-empty. */
  function ShownTransaction(transactionId: Option<string>): (r: Option<string>)
    ensures r.None? <==> transactionId.None? || transactionId.value == ""
    ensures r.Some? ==> |r.value| == if |transactionId.value| < IdDigits then |transactionId.value| else IdDigits
    ensures r.Some? ==> transactionId.value[|transactionId.value| - |r.value|..] == r.value
  {
    if transactionId.Some? && transactionId.value != "" then Some(LastChars(transactionId.value, IdDigits)) else None
  }

  /** What the page renders once the three-second loader is gone. */
  datatype View =
    | ErrorPanel(message: Option<string>)
    | Summary(orderId: string, transactionId: Option<string>, subtotal: int, shipping: int, totalPaid: int,
              countdown: Option<int>)

  /** The next value of the countdown: one less, or 0 once it reaches 1. */
  function NextCount(c: int): (r: int)
    ensures c > 1 ==> r == c - 1
    ensures c <= 1 ==> r == 0
    ensures 0 <= c ==> 0 <= r <= c
  {
    if c <= 1 then 0 else c - 1
  }

  /** The countdown after k ticks from c. */
  function CountAfter(c: int, k: nat): int
    decreases k
  {
    if k == 0 then c else CountAfter(NextCount(c), k - 1)
  }

  /** From a start c >= 1, k ticks leave c - k while k < c, and 0 from then on; from 15
      the page shows 15, 14, ..., 1 and then 0. */
  lemma {:induction false} CountAfterFormula(c: int, k: nat)
    requires c >= 1
    ensures CountAfter(c, k) == if k < c then c - k else 0
  {
    if k > 0 {
      if c == 1 {
        ZeroStays(k - 1);
      } else {
        CountAfterFormula(c - 1, k - 1);
      }
    }
  }

  lemma {:induction false} ZeroStays(k: nat)
    ensures CountAfter(0, k) == 0
  {
    if k > 0 {
      ZeroStays(k - 1);
    }
  }

  class ConfirmationPage {
    var countdown: int
    var isRedirecting: bool
    var orderDetails: Option<OrderDetails>
    var loading: bool
    var error: Option<string>
    /** The navigation state's `transactionId`. */
    const transactionId: Option<string>
    /** The order ids the page has requested. */
    var requested: seq<string>
    /** A delayed navigation home has been scheduled by the countdown. */
    var homeScheduled: bool
    /** The route navigated to, if any. */
    var location: Option<string>

    ghost predicate Valid()
      reads this
    {
      0 <= countdown <= CountdownStart
    }

    constructor (transactionId: Option<string>)
      ensures Valid()
      ensures countdown == CountdownStart && !isRedirecting && orderDetails == None && loading && error == None
      ensures this.transactionId == transactionId && requested == [] && !homeScheduled && location == None
    {
      countdown := CountdownStart;
      isRedirecting := false;
      orderDetails := None;
      loading := true;
      error := None;
      this.transactionId := transactionId;
      requested := [];
      homeScheduled := false;
      location := None;
    }

    /** `fetchOrderDetails`: a missing or empty order id fails at once with no request;
        otherwise one request, whose non-2xx status or rejection sets the error. Loading
        ends in every case. */
    method FetchOrderDetails(orderId: Option<string>, outcome: Outcome<OrderDetails>)
      requires Valid()
      modifies this
      ensures Valid() && !loading
      ensures orderId.None? || orderId.value == "" ==>
        error == Some(NoOrderIdText) && requested == old(requested) && orderDetails == old(orderDetails)
      ensures orderId.Some? && orderId.value != "" ==> requested == old(requested) + [orderId.value]
      ensures orderId.Some? && orderId.value != "" && outcome.Ok? ==>
        orderDetails == Some(outcome.body) && error == old(error)
      ensures orderId.Some? && orderId.value != "" && !outcome.Ok? ==>
        orderDetails == old(orderDetails) && error == Some(LoadFailedText)
      ensures countdown == old(countdown) && isRedirecting == old(isRedirecting)
      ensures homeScheduled == old(homeScheduled) && location == old(location)
    {
      if orderId.None? || orderId.value == "" {
        error := Some(NoOrderIdText);
        loading := false;
        return;
      }
      requested := requested + [orderId.value];
      if outcome.Ok? {
        orderDetails := Some(outcome.body);
      } else {
        error := Some(LoadFailedText);
      }
      loading := false;
    }

    /** One second of the interval, which exists only once loading is over: above 1 the
        countdown drops by one; at 1 or below it becomes 0, the page says it is
        redirecting and schedules the navigation home. */
    method Tick()
      requires Valid()
      modifies this
      ensures Valid()
      ensures old(loading) ==> countdown == old(countdown) && isRedirecting == old(isRedirecting)
                               && homeScheduled == old(homeScheduled)
      ensures !old(loading) ==> countdown == NextCount(old(countdown))
      ensures !old(loading) && old(countdown) <= 1 ==> isRedirecting && homeScheduled
      ensures !old(loading) && old(countdown) > 1 ==>
        isRedirecting == old(isRedirecting) && homeScheduled == old(homeScheduled)
      ensures orderDetails == old(orderDetails) && loading == old(loading) && error == old(error)
      ensures requested == old(requested) && location == old(location)
    {
      if loading {
        return;
      }
      if countdown <= 1 {
        isRedirecting := true;
        homeScheduled := true;
      }
      countdown := NextCount(countdown);
    }

    /** The half-second timeout the countdown scheduled: navigate home. */
    method ScheduledNavigation()
      requires homeScheduled
      modifies this
      ensures location == Some(Home) && !homeScheduled
      ensures countdown == old(countdown) && isRedirecting == old(isRedirecting)
      ensures orderDetails == old(orderDetails) && loading == old(loading) && error == old(error)
      ensures requested == old(requested)
    {
      location := Some(Home);
      homeScheduled := false;
    }

    /** `handleGoHome`. */
    method GoHome()
      modifies this
      ensures isRedirecting && location == Some(Home)
      ensures countdown == old(countdown) && homeScheduled == old(homeScheduled)
      ensures orderDetails == old(orderDetails) && loading == old(loading) && error == old(error)
      ensures requested == old(requested)
    {
      isRedirecting := true;
      location := Some(Home);
    }

    /** The page body: the error panel while there is an error or no order, otherwise
        the summary with the shortened ids, the amounts as the page computes them and the
        countdown line (absent once redirecting). */
    function Render(): (v: View)
      reads this
      ensures v.ErrorPanel? <==> error.Some? || orderDetails.None?
      ensures v.ErrorPanel? ==> v.message == error
      ensures v.Summary? ==>
        var o := orderDetails.value;
        && v.orderId == LastChars(o.id, IdDigits)
        && v.transactionId == ShownTransaction(transactionId)
        && v.subtotal == Shown(o.totalAmount)
        && v.shipping == Shown(o.shippingCharges)
        && v.totalPaid == TotalPaidAsWritten(o)
        && (v.countdown.None? <==> isRedirecting)
        && (v.countdown.Some? ==> v.countdown.value == countdown)
      ensures v.Summary? && orderDetails.value.totalAmount.Some? && orderDetails.value.shippingCharges.Some? ==>
        v.totalPaid == v.subtotal + v.shipping
    {
      if error.Some? || orderDetails.None? then ErrorPanel(error)
      else
        var o := orderDetails.value;
        Summary(LastChars(o.id, IdDigits), ShownTransaction(transactionId), Shown(o.totalAmount),
                Shown(o.shippingCharges), TotalPaidAsWritten(o), if isRedirecting then None else Some(countdown))
    }
  }

  /** Left to its interval after loading, the page counts down to 0 and schedules the
      way home. */
  method RunCountdown(page: ConfirmationPage)
    requires page.Valid() && !page.loading
    modifies page
    ensures page.countdown == 0 && page.isRedirecting && page.homeScheduled
  {
    page.Tick();
    while page.countdown > 0
      invariant page.Valid() && !page.loading
      invariant page.countdown == 0 ==> page.isRedirecting && page.homeScheduled
      decreases page.countdown
    {
      page.Tick();
    }
  }
}
