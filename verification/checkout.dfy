/** `POST /api/stripe/checkout` of `src/app/api/stripe/checkout/route.ts`:
    build one Stripe line item per stored item, create a hosted checkout
    session, and record the session on the order. Stripe's
    `checkout.sessions.create` is an oracle parameter. */
module Checkout {
  import opened Wrappers
  import opened OrderModel

  const Currency: string := "aed"
  /** Fils per dirham: Stripe amounts are in the minor unit. */
  const MinorUnitsPerAed: int := 100

  datatype LineItem = LineItem(
    currency: string,
    name: string,
    description: string,
    metadata: map<string, string>,   // color, shape
    unitAmount: int,
    quantity: int
  )

  /** What the route asks Stripe for. */
  datatype SessionRequest = SessionRequest(
    lineItems: seq<LineItem>,
    customerEmail: Option<string>,
    clientReferenceId: string,
    metadata: map<string, string>,
    paymentIntentMetadata: map<string, string>
  )

  /** Stripe's answer: the created session, or an API failure. */
  datatype SessionResult = SessionCreated(sessionId: string, url: string) | StripeError

  /** The product name: `${shape} Stamp`, with ` with Custom Logo` for a logo. */
  function ProductName(item: OrderItem): (n: string)
    ensures item.hasLogo ==> n == item.shape + " Stamp with Custom Logo"
    ensures !item.hasLogo ==> n == item.shape + " Stamp"
  {
    item.shape + " Stamp" + (if item.hasLogo then " with Custom Logo" else "")
  }

  /** One line item, quantity 1, priced in fils. For a whole-dirham price
      `Math.round(price * 100)` is `price * 100`. */
  function ToLineItem(item: OrderItem): (li: LineItem)
    ensures li.quantity == 1 && li.currency == "aed"
    ensures li.unitAmount == item.price * 100
    ensures li.name == ProductName(item)
    ensures li.description == (if Truthy(item.companyName) then item.companyName.value
                               else "Custom Company Stamp")
    ensures li.metadata == map["color" := item.color, "shape" := item.shape]
  {
    LineItem(Currency, ProductName(item), OrElse(item.companyName, "Custom Company Stamp"),
             map["color" := item.color, "shape" := item.shape],
             item.price * MinorUnitsPerAed, 1)
  }

  function ToLineItems(items: seq<OrderItem>): (r: seq<LineItem>)
    ensures |r| == |items|
    ensures forall i :: 0 <= i < |items| ==> r[i] == ToLineItem(items[i])
  {
    seq(|items|, i requires 0 <= i < |items| => ToLineItem(items[i]))
  }

  /** The metadata carried on both the session and its payment intent. */
  function OrderMetadata(o: Order): (m: map<string, string>)
    ensures m.Keys == {"orderId", "friendlyId"}
    ensures m["orderId"] == o.id
    ensures m["friendlyId"] == (if Truthy(o.friendlyId) then o.friendlyId.value else "")
  {
    map["orderId" := o.id, "friendlyId" := OrElse(o.friendlyId, "")]
  }

  function BuildSessionRequest(o: Order): (req: SessionRequest)
    ensures req.lineItems == ToLineItems(o.items)
    ensures req.metadata == req.paymentIntentMetadata == OrderMetadata(o)
    ensures req.clientReferenceId == o.id
    ensures req.customerEmail == OrNull(o.customerEmail)
  {
    var meta := OrderMetadata(o);
    SessionRequest(ToLineItems(o.items), OrNull(o.customerEmail), o.id, meta, meta)
  }

  datatype CheckoutResponse =
    | SessionReady(sessionId: string, url: string)  // 200
    | MissingOrderId                                // 400 Order ID is required
    | OrderNotFound                                 // 404
    | CheckoutFailed                                // 500 Failed to create checkout session

  function HttpStatus(r: CheckoutResponse): int {
    match r
    case SessionReady(_, _) => 200
    case MissingOrderId => 400
    case OrderNotFound => 404
    case CheckoutFailed => 500
  }

  /** The order after the session is attached: the session id becomes the
      payment reference and the payment is pending; nothing else changes. */
  function AttachSession(o: Order, sessionId: string): (o': Order)
    ensures o' == o.(paymentId := Some(sessionId), paymentStatus := PaymentPending)
    ensures SameIdentity(o, o')
  {
    o.(paymentId := Some(sessionId), paymentStatus := PaymentPending)
  }

  /** The route. `orderId` is the body's field (`None` when missing). */
  function StartCheckout(s: Store, orderId: Option<string>,
                         createSession: SessionRequest -> SessionResult)
    : (r: (CheckoutResponse, Store))
    requires s.Valid()
    ensures r.1.Valid()
    ensures !Truthy(orderId) <==> r.0.MissingOrderId?
    ensures r.0.OrderNotFound? <==> Truthy(orderId) && orderId.value !in s.orders
    ensures !r.0.SessionReady? ==> r.1 == s
    ensures r.0.SessionReady? ==>
      var id := orderId.value;
      var o := s.orders[id];
      && id in s.orders
      && createSession(BuildSessionRequest(o)) == SessionCreated(r.0.sessionId, r.0.url)
      && r.1.orders == s.orders[id := o.(paymentId := Some(r.0.sessionId),
                                        paymentStatus := PaymentPending)]
  {
    if !Truthy(orderId) then (MissingOrderId, s)
    else if orderId.value !in s.orders then (OrderNotFound, s)
    else
      var o := s.orders[orderId.value];
      match createSession(BuildSessionRequest(o))
      case StripeError => (CheckoutFailed, s)
      case SessionCreated(sid, url) =>
        var s' := UpdateOrder(s, orderId.value, AttachSession(o, sid)).value;
        (SessionReady(sid, url), s')
  }

  /** The checkout entry as evidently intended by the storefront, which
      posts the id the order route returned, i.e. the friendly id: the id is
      resolved through the unique friendly-id index, and the order it names
      is checked out as by `StartCheckout` (an order stored under an empty
      internal id, which the database never generates, counts as not found). */
  function StartCheckoutByFriendlyId(s: Store, friendlyId: Option<string>,
                                     createSession: SessionRequest -> SessionResult)
    : (r: (CheckoutResponse, Store))
    requires s.Valid()
    ensures r.1.Valid()
    ensures !Truthy(friendlyId) <==> r.0.MissingOrderId?
    ensures Truthy(friendlyId) && FindByFriendlyId(s, friendlyId.value).None?
            ==> r == (OrderNotFound, s)
    ensures !r.0.SessionReady? ==> r.1 == s
    ensures r.0.SessionReady? ==>
      var o := FindByFriendlyId(s, friendlyId.value).value;
      && Truthy(friendlyId) && o.friendlyId == friendlyId
      && createSession(BuildSessionRequest(o)) == SessionCreated(r.0.sessionId, r.0.url)
      && r.1.orders == s.orders[o.id := AttachSession(o, r.0.sessionId)]
      && r.1.byFriendly == s.byFriendly
  {
    if !Truthy(friendlyId) then (MissingOrderId, s)
    else match FindByFriendlyId(s, friendlyId.value)
      case None => (OrderNotFound, s)
      case Some(o) =>
        if o.id == "" then (OrderNotFound, s)
        else StartCheckout(s, Some(o.id), createSession)
  }

  /** Line items follow the order's items one for one: quantity 1, price in
      fils, and the logo suffix exactly for logo items. */
  lemma LineItemsFollowItems(o: Order, i: int)
    requires 0 <= i < |o.items|
    ensures var li := BuildSessionRequest(o).lineItems;
      && |li| == |o.items|
      && li[i].quantity == 1
      && li[i].unitAmount == 100 * o.items[i].price
      && (o.items[i].hasLogo <==> li[i].name == o.items[i].shape + " Stamp with Custom Logo")
  {
    var li := BuildSessionRequest(o).lineItems;
    if !o.items[i].hasLogo {
      var n := li[i].name;
      assert n == o.items[i].shape + " Stamp";
      if n == o.items[i].shape + " Stamp with Custom Logo" {
        assert |n| == |o.items[i].shape| + 6;
      }
    }
  }

  /** What Stripe charges for a list of line items, in fils. */
  function AmountCharged(lis: seq<LineItem>): int {
    if lis == [] then 0
    else
      var last := lis[|lis| - 1];
      AmountCharged(lis[..|lis| - 1]) + last.unitAmount * last.quantity
  }

  /** The sum of the stored items' prices, in dirhams. */
  function ItemsPrice(items: seq<OrderItem>): int {
    if items == [] then 0 else ItemsPrice(items[..|items| - 1]) + items[|items| - 1].price
  }

  /** The session charges exactly the stored items' prices converted to
      fils; the order's client-sent `totalPrice` plays no part. */
  lemma {:induction false} ChargeIsItemsInFils(items: seq<OrderItem>)
    ensures AmountCharged(ToLineItems(items)) == MinorUnitsPerAed * ItemsPrice(items)
  {
    if items != [] {
      var n := |items| - 1;
      assert ToLineItems(items)[..n] == ToLineItems(items[..n]);
      ChargeIsItemsInFils(items[..n]);
    }
  }

  /** For a stored order, the checkout session's amount is 100 times the sum
      of its items' prices. */
  lemma SessionChargesOrderItems(o: Order)
    ensures AmountCharged(BuildSessionRequest(o).lineItems) == 100 * ItemsPrice(o.items)
  {
    ChargeIsItemsInFils(o.items);
  }
}
