/** `POST /api/stripe/webhook` of `src/app/api/stripe/webhook/route.ts`: the
    signature gate, then a dispatch on the event type that moves the order's
    payment state. Stripe's `webhooks.constructEvent` (signature check and
    parse) and Mailgun are oracle parameters. */
module Webhook {
  import opened Wrappers
  import opened OrderModel
  import EmailService
  import Decimal

  /** The event's `data.object`: a checkout session or a payment intent. */
  datatype EventObject = EventObject(id: string, metadata: Option<map<string, string>>)

  datatype Event = Event(kind: string, data: EventObject)

  /** `constructEvent(body, signature, secret)`: the verified event, or `None`
      when it throws. */
  type EventVerifier = (string, string, string) -> Option<Event>

  datatype WebhookResponse =
    | Received          // 200 { success: true, received: true }
    | NoSignature       // 400 No signature provided
    | SecretMissing     // 500 Webhook secret not configured
    | InvalidSignature  // 400 Invalid signature
    | HandlerFailed     // 500 Webhook handler failed

  function HttpStatus(r: WebhookResponse): int {
    match r
    case Received => 200
    case NoSignature => 400
    case SecretMissing => 500
    case InvalidSignature => 400
    case HandlerFailed => 500
  }

  /** The response, the store afterwards, and the e-mails the handler
      dispatched, in order. */
  datatype Outcome = Outcome(response: WebhookResponse, store: Store,
                             emails: seq<EmailService.Dispatch>)

  const CompletedKind: string := "checkout.session.completed"
  const ExpiredKind: string := "checkout.session.expired"
  const PaymentFailedKind: string := "payment_intent.payment_failed"

  /** `object.metadata?.orderId`, `None` when missing or empty. */
  function MetadataOrderId(obj: EventObject): (r: Option<string>)
    ensures r.Some? <==> obj.metadata.Some? && "orderId" in obj.metadata.value
                         && obj.metadata.value["orderId"] != ""
    ensures r.Some? ==> r.value == obj.metadata.value["orderId"]
  {
    MetadataId(obj.metadata)
  }

  /** The completed-payment update. */
  function MarkPaid(o: Order, sessionId: string): Order {
    o.(status := Paid, paymentStatus := PaymentPaid, paymentId := Some(sessionId))
  }

  /** `handleCheckoutSessionCompleted`: mark the order paid, then attempt the
      confirmation and the receipt. The update throws for an unknown order,
      which the caller turns into a 500. */
  function HandleCompleted(s: Store, session: EventObject, mailer: EmailService.Mailer)
    : (r: Outcome)
    requires s.Valid()
    ensures r.store.Valid()
    ensures MetadataOrderId(session).None? ==> r == Outcome(Received, s, [])
    ensures MetadataOrderId(session).Some? && MetadataOrderId(session).value !in s.orders
            ==> r == Outcome(HandlerFailed, s, [])
    ensures MetadataOrderId(session).Some? && MetadataOrderId(session).value in s.orders ==>
      var id := MetadataOrderId(session).value;
      var o := s.orders[id];
      && r.response == Received
      && r.store.orders == s.orders[id := MarkPaid(o, session.id)]
      && r.store.orders[id].status == Paid
      && r.store.orders[id].paymentStatus == PaymentPaid
      && r.store.orders[id].paymentId == Some(session.id)
      && r.emails == [EmailService.SendOrderConfirmation(MarkPaid(o, session.id), mailer),
                      EmailService.SendPaymentReceipt(MarkPaid(o, session.id), session.id, mailer)]
  {
    match MetadataOrderId(session)
    case None => Outcome(Received, s, [])
    case Some(id) =>
      if id !in s.orders then Outcome(HandlerFailed, s, [])
      else
        var o' := MarkPaid(s.orders[id], session.id);
        var s' := UpdateOrder(s, id, o').value;
        var confirmation := EmailService.SendOrderConfirmation(o', mailer);
        var receipt := EmailService.SendPaymentReceipt(o', session.id, mailer);
        Outcome(Received, s', [confirmation, receipt])
  }

  /** `handleCheckoutSessionExpired` and `handlePaymentFailed`: set only the
      payment status of the order named in the object's metadata. */
  function SetPaymentStatus(s: Store, obj: EventObject, ps: PaymentStatus): (r: Outcome)
    requires s.Valid()
    ensures r.store.Valid()
    ensures r.emails == []
    ensures MetadataOrderId(obj).None? ==> r == Outcome(Received, s, [])
    ensures MetadataOrderId(obj).Some? && MetadataOrderId(obj).value !in s.orders
            ==> r == Outcome(HandlerFailed, s, [])
    ensures MetadataOrderId(obj).Some? && MetadataOrderId(obj).value in s.orders ==>
      var id := MetadataOrderId(obj).value;
      && r.response == Received
      && r.store.orders == s.orders[id := s.orders[id].(paymentStatus := ps)]
  {
    match MetadataOrderId(obj)
    case None => Outcome(Received, s, [])
    case Some(id) =>
      if id !in s.orders then Outcome(HandlerFailed, s, [])
      else Outcome(Received, UpdateOrder(s, id, s.orders[id].(paymentStatus := ps)).value, [])
  }

  /** The `switch (event.type)`; any other type is logged and ignored. */
  function Dispatch(s: Store, ev: Event, mailer: EmailService.Mailer): (r: Outcome)
    requires s.Valid()
    ensures r.store.Valid()
    ensures ev.kind !in {CompletedKind, ExpiredKind, PaymentFailedKind} ==> r == Outcome(Received, s, [])
    ensures ev.kind == CompletedKind && MetadataOrderId(ev.data).Some?
            && MetadataOrderId(ev.data).value in s.orders ==>
      var id := MetadataOrderId(ev.data).value;
      && r.response == Received
      && r.store.orders == s.orders[id := MarkPaid(s.orders[id], ev.data.id)]
      && r.emails == [EmailService.SendOrderConfirmation(MarkPaid(s.orders[id], ev.data.id), mailer),
                      EmailService.SendPaymentReceipt(MarkPaid(s.orders[id], ev.data.id), ev.data.id, mailer)]
    ensures ev.kind in {ExpiredKind, PaymentFailedKind} ==>
      var ps := if ev.kind == ExpiredKind then PaymentExpired else PaymentFailed;
      && r.emails == []
      && (MetadataOrderId(ev.data).None? ==> r == Outcome(Received, s, []))
      && (MetadataOrderId(ev.data).Some? && MetadataOrderId(ev.data).value !in s.orders ==>
            r == Outcome(HandlerFailed, s, []))
      && (MetadataOrderId(ev.data).Some? && MetadataOrderId(ev.data).value in s.orders ==>
            var id := MetadataOrderId(ev.data).value;
            r.response == Received && r.store.orders == s.orders[id := s.orders[id].(paymentStatus := ps)])
    ensures ev.kind in {CompletedKind, ExpiredKind, PaymentFailedKind}
            && MetadataOrderId(ev.data).Some? && MetadataOrderId(ev.data).value !in s.orders
            ==> r == Outcome(HandlerFailed, s, [])
    ensures ev.kind in {CompletedKind, ExpiredKind, PaymentFailedKind}
            && MetadataOrderId(ev.data).None?
            ==> r == Outcome(Received, s, [])
  {
    if ev.kind == CompletedKind then HandleCompleted(s, ev.data, mailer)
    else if ev.kind == ExpiredKind then SetPaymentStatus(s, ev.data, PaymentExpired)
    else if ev.kind == PaymentFailedKind then SetPaymentStatus(s, ev.data, PaymentFailed)
    else Outcome(Received, s, [])
  }

  /** The route. `signature` is the `stripe-signature` header and `secret` the
      configured webhook secret; either is `None` when unset. */
  function Post(s: Store, body: string, signature: Option<string>, secret: Option<string>,
                constructEvent: EventVerifier, mailer: EmailService.Mailer): (r: Outcome)
    requires s.Valid()
    ensures r.store.Valid()
    ensures !Truthy(signature) ==> r == Outcome(NoSignature, s, [])
    ensures Truthy(signature) && !Truthy(secret) ==> r == Outcome(SecretMissing, s, [])
    ensures Truthy(signature) && Truthy(secret)
            && constructEvent(body, signature.value, secret.value).None?
            ==> r == Outcome(InvalidSignature, s, [])
    ensures r.response in {NoSignature, SecretMissing, InvalidSignature, HandlerFailed}
            ==> r.store == s && r.emails == []
    ensures Truthy(signature) && Truthy(secret)
            && constructEvent(body, signature.value, secret.value).Some?
            ==> r == Dispatch(s, constructEvent(body, signature.value, secret.value).value, mailer)
  {
    if !Truthy(signature) then Outcome(NoSignature, s, [])
    else if !Truthy(secret) then Outcome(SecretMissing, s, [])
    else match constructEvent(body, signature.value, secret.value)
      case None => Outcome(InvalidSignature, s, [])
      case Some(ev) => Dispatch(s, ev, mailer)
  }

  /** An event that does not pass the signature gate changes no order,
      whatever its body. */
  lemma RejectedEventsChangeNothing(s: Store, body: string, signature: Option<string>,
                                    secret: Option<string>, constructEvent: EventVerifier,
                                    mailer: EmailService.Mailer)
    requires s.Valid()
    requires !Truthy(signature) || !Truthy(secret)
             || constructEvent(body, signature.value, secret.value).None?
    ensures var r := Post(s, body, signature, secret, constructEvent, mailer);
            r.store == s && r.emails == [] && HttpStatus(r.response) in {400, 500}
  {
  }

  /** An expired session or a failed payment never changes the fulfilment
      status, the items, the customer or the payment reference of any order;
      only the named order's payment status moves. */
  lemma ExpiryAndFailureKeepStatus(s: Store, ev: Event, mailer: EmailService.Mailer, k: string)
    requires s.Valid()
    requires ev.kind == ExpiredKind || ev.kind == PaymentFailedKind
    requires k in s.orders
    ensures var r := Dispatch(s, ev, mailer);
            && k in r.store.orders
            && r.store.orders[k].status == s.orders[k].status
            && r.store.orders[k] == s.orders[k].(paymentStatus := r.store.orders[k].paymentStatus)
            && r.emails == []
            && (r.store.orders[k] != s.orders[k] ==>
                  r.store.orders[k].paymentStatus ==
                    (if ev.kind == ExpiredKind then PaymentExpired else PaymentFailed))
            && (MetadataOrderId(ev.data) == Some(k) ==>
                  && r.response == Received
                  && r.store.orders == s.orders[k := s.orders[k].(paymentStatus :=
                       if ev.kind == ExpiredKind then PaymentExpired else PaymentFailed)])
  {
  }

  /** At the route: a verified expiry or payment-failure event naming a
      stored order is acknowledged, sets that order's payment status to
      expired or failed, leaves its fulfilment status and every other order
      alone, and sends no e-mail. */
  lemma VerifiedExpiryOrFailure(s: Store, body: string, sig: string, secret: string,
                                constructEvent: EventVerifier, mailer: EmailService.Mailer,
                                ev: Event, k: string)
    requires s.Valid() && k in s.orders
    requires sig != "" && secret != ""
    requires constructEvent(body, sig, secret) == Some(ev)
    requires ev.kind == ExpiredKind || ev.kind == PaymentFailedKind
    requires MetadataOrderId(ev.data) == Some(k)
    ensures var r := Post(s, body, Some(sig), Some(secret), constructEvent, mailer);
            && r.response == Received
            && r.emails == []
            && r.store.orders.Keys == s.orders.Keys
            && r.store.orders[k].status == s.orders[k].status
            && r.store.orders[k].paymentStatus ==
                 (if ev.kind == ExpiredKind then PaymentExpired else PaymentFailed)
            && (forall j :: j in s.orders && j != k ==> r.store.orders[j] == s.orders[j])
  {
  }

  /** There is no idempotency guard: delivering the same completed event a
      second time writes the same state again and re-attempts the very same
      two e-mails. */
  lemma CompletedRedeliveryRepeatsEmails(s: Store, session: EventObject, mailer: EmailService.Mailer)
    requires s.Valid()
    requires MetadataOrderId(session).Some? && MetadataOrderId(session).value in s.orders
    ensures var first := HandleCompleted(s, session, mailer);
            var second := HandleCompleted(first.store, session, mailer);
            && second.response == Received
            && second.store.orders == first.store.orders
            && second.emails == first.emails
            && |second.emails| == 2
  {
    var id := MetadataOrderId(session).value;
    var o := s.orders[id];
    var first := HandleCompleted(s, session, mailer);
    assert first.store.orders[id] == MarkPaid(o, session.id);
    assert MarkPaid(MarkPaid(o, session.id), session.id) == MarkPaid(o, session.id);
  }

  /** The confirmation sent for a completed payment describes the stored
      order: its display id, and every stored item's AED price in order. */
  lemma CompletedConfirmationShowsOrder(s: Store, session: EventObject, mailer: EmailService.Mailer)
    requires s.Valid()
    requires MetadataOrderId(session).Some? && MetadataOrderId(session).value in s.orders
    requires Truthy(s.orders[MetadataOrderId(session).value].customerEmail)
    ensures var o := s.orders[MetadataOrderId(session).value];
            var r := HandleCompleted(s, session, mailer);
            && |r.emails| == 2
            && r.emails[0].attempted.Some?
            && r.emails[0].attempted.value.html.ConfirmationBody?
            && var e := r.emails[0].attempted.value.html.confirmation;
            && e.orderId == EmailService.DisplayId(o)
            && |e.items| == |o.items|
            && (forall i :: 0 <= i < |o.items| ==>
                  e.items[i].priceText == Decimal.AedText(o.items[i].price))
  {
    var o := s.orders[MetadataOrderId(session).value];
    var paid := MarkPaid(o, session.id);
    EmailService.ConfirmationShowsOrder(paid, mailer);
    assert EmailService.DisplayId(paid) == EmailService.DisplayId(o);
  }
}
