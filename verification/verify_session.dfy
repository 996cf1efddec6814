/** `GET /api/stripe/verify-session` of
    `src/app/api/stripe/verify-session/route.ts`: confirm a checkout session
    was paid and report the order it paid for. Stripe's
    `checkout.sessions.retrieve` is an oracle (`None` when it throws). The
    route only reads. */
module VerifySession {
  import opened Wrappers
  import opened OrderModel

  datatype Session = Session(id: string, paymentStatus: string, metadata: Option<map<string, string>>)

  datatype VerifyResponse =
    | Verified(orderId: string, friendlyId: Option<string>,
               status: OrderStatus, paymentStatus: PaymentStatus)  // 200
    | MissingSessionId   // 400 Session ID is required
    | PaymentIncomplete  // 400 Payment not completed
    | NoOrderInSession   // 400 Order ID not found in session
    | OrderNotFound      // 404
    | VerifyFailed       // 500 Failed to verify session

  function HttpStatus(r: VerifyResponse): int {
    match r
    case Verified(_, _, _, _) => 200
    case MissingSessionId => 400
    case PaymentIncomplete => 400
    case NoOrderInSession => 400
    case OrderNotFound => 404
    case VerifyFailed => 500
  }

  /** `session.metadata?.orderId`, `None` when missing or empty. */
  function SessionOrderId(ses: Session): (r: Option<string>)
    ensures r.Some? <==> ses.metadata.Some? && "orderId" in ses.metadata.value
                         && ses.metadata.value["orderId"] != ""
    ensures r.Some? ==> r.value == ses.metadata.value["orderId"]
  {
    MetadataId(ses.metadata)
  }

  function Get(s: Store, sessionId: Option<string>, retrieve: string -> Option<Session>)
    : (r: VerifyResponse)
    requires s.Valid()
    ensures !Truthy(sessionId) <==> r.MissingSessionId?
    ensures r.VerifyFailed? <==> Truthy(sessionId) && retrieve(sessionId.value).None?
    ensures r.PaymentIncomplete? <==>
      Truthy(sessionId) && retrieve(sessionId.value).Some?
      && retrieve(sessionId.value).value.paymentStatus != "paid"
    ensures r.NoOrderInSession? ==> SessionOrderId(retrieve(sessionId.value).value).None?
    ensures r.OrderNotFound? ==>
      SessionOrderId(retrieve(sessionId.value).value).Some?
      && SessionOrderId(retrieve(sessionId.value).value).value !in s.orders
    ensures r.Verified? ==>
      var ses := retrieve(sessionId.value).value;
      && ses.paymentStatus == "paid"
      && SessionOrderId(ses) == Some(r.orderId)
      && r.orderId in s.orders
      && var o := s.orders[r.orderId];
         r.friendlyId == o.friendlyId && r.status == o.status && r.paymentStatus == o.paymentStatus
  {
    if !Truthy(sessionId) then MissingSessionId
    else match retrieve(sessionId.value)
      case None => VerifyFailed
      case Some(ses) =>
        if ses.paymentStatus != "paid" then PaymentIncomplete
        else match SessionOrderId(ses)
          case None => NoOrderInSession
          case Some(id) =>
            if id !in s.orders then OrderNotFound
            else
              var o := s.orders[id];
              Verified(o.id, o.friendlyId, o.status, o.paymentStatus)
  }

  /** The payment check comes first: an unpaid session is refused with 400
      whatever its metadata says and whatever the store holds. */
  lemma UnpaidRefusedBeforeMetadata(s: Store, s2: Store, sessionId: string,
                                    retrieve: string -> Option<Session>, md: Option<map<string, string>>)
    requires s.Valid() && s2.Valid()
    requires sessionId != ""
    requires retrieve(sessionId).Some? && retrieve(sessionId).value.paymentStatus != "paid"
    ensures Get(s, Some(sessionId), retrieve) == Get(s2, Some(sessionId),
              x => if x == sessionId then Some(retrieve(sessionId).value.(metadata := md))
                   else retrieve(x))
            == PaymentIncomplete
  {
  }
}
