/** The order lifecycle across the routes: an order created by the order
    route, sent to checkout, and confirmed by Stripe's completed-session
    event, which echoes the metadata the checkout route attached. */
module Lifecycle {
  import opened Wrappers
  import opened OrderModel
  import OrderSubmission
  import Checkout
  import Webhook
  import Tracking
  import EmailService
  import FriendlyId

  /** A created order is stored under its internal id with the submitted
      phone, the creation time and the returned friendly id. */
  lemma CreateStep(s: Store, p: OrderSubmission.OrderPayload, isEmail: string -> bool,
                   internalId: string, draw: seq<nat>, createdAt: int)
    requires s.Valid()
    requires FriendlyId.ValidDraw(draw)
    requires OrderSubmission.CreateOrder(s, p, isEmail, internalId, draw, createdAt).0.Created?
    ensures var (created, s1) := OrderSubmission.CreateOrder(s, p, isEmail, internalId, draw, createdAt);
            && s1.Valid()
            && internalId in s1.orders
            && s1.orders[internalId].customerPhone == p.customerPhone.value
            && s1.orders[internalId].customerPhone != ""
            && s1.orders[internalId].createdAt == createdAt
            && s1.orders[internalId].friendlyId == Some(created.orderId)
  {
  }

  /** As the storefront is wired, checkout of a freshly created order fails:
      the order route answers with the friendly id, the client posts that
      value to the checkout route, and the checkout route looks it up as an
      internal id. Unless the friendly id happens to equal some internal id,
      the answer is 404 and nothing changes. */
  lemma ReturnedIdNotFound(s: Store, p: OrderSubmission.OrderPayload, isEmail: string -> bool,
                           internalId: string, draw: seq<nat>, createdAt: int,
                           createSession: Checkout.SessionRequest -> Checkout.SessionResult)
    requires s.Valid()
    requires FriendlyId.ValidDraw(draw)
    requires OrderSubmission.CreateOrder(s, p, isEmail, internalId, draw, createdAt).0.Created?
    requires FriendlyId.Generate(draw) != internalId && FriendlyId.Generate(draw) !in s.orders
    ensures var (created, s1) := OrderSubmission.CreateOrder(s, p, isEmail, internalId, draw, createdAt);
            Checkout.StartCheckout(s1, Some(created.orderId), createSession) == (Checkout.OrderNotFound, s1)
  {
    var (created, s1) := OrderSubmission.CreateOrder(s, p, isEmail, internalId, draw, createdAt);
    assert created.orderId !in s1.orders;
  }

  /** With the friendly id resolved through the index, the id the order
      route returns checks out the order it created. */
  lemma ReturnedIdChecksOut(s1: Store, internalId: string, fid: string,
                            createSession: Checkout.SessionRequest -> Checkout.SessionResult,
                            sid: string, url: string)
    requires s1.Valid() && internalId != "" && internalId in s1.orders
    requires s1.orders[internalId].friendlyId == Some(fid) && fid != ""
    requires createSession(Checkout.BuildSessionRequest(s1.orders[internalId]))
             == Checkout.SessionCreated(sid, url)
    ensures var (started, s2) := Checkout.StartCheckoutByFriendlyId(s1, Some(fid), createSession);
            && started == Checkout.SessionReady(sid, url)
            && s2 == Store(s1.orders[internalId := Checkout.AttachSession(s1.orders[internalId], sid)],
                           s1.byFriendly)
  {
    assert FindByFriendlyId(s1, fid) == Some(s1.orders[internalId]);
    CheckoutStep(s1, internalId, createSession, sid, url);
  }

  /** Checkout of a stored order attaches the session and leaves the index. */
  lemma CheckoutStep(s1: Store, id: string,
                     createSession: Checkout.SessionRequest -> Checkout.SessionResult,
                     sid: string, url: string)
    requires s1.Valid() && id != "" && id in s1.orders
    requires createSession(Checkout.BuildSessionRequest(s1.orders[id])) == Checkout.SessionCreated(sid, url)
    ensures var (started, s2) := Checkout.StartCheckout(s1, Some(id), createSession);
            && started == Checkout.SessionReady(sid, url)
            && s2 == Store(s1.orders[id := Checkout.AttachSession(s1.orders[id], sid)], s1.byFriendly)
  {
  }

  /** A verified completed event carrying an order's checkout metadata marks
      that order paid and leaves the index. */
  lemma CompletedStep(s2: Store, id: string, meta: map<string, string>, sid: string,
                      body: string, sig: string, secret: string,
                      constructEvent: Webhook.EventVerifier, mailer: EmailService.Mailer)
    requires s2.Valid() && id in s2.orders
    requires sig != "" && secret != ""
    requires "orderId" in meta && meta["orderId"] == id && id != ""
    requires constructEvent(body, sig, secret) ==
               Some(Webhook.Event(Webhook.CompletedKind, Webhook.EventObject(sid, Some(meta))))
    ensures var hook := Webhook.Post(s2, body, Some(sig), Some(secret), constructEvent, mailer);
            && hook.response == Webhook.Received
            && hook.store == Store(s2.orders[id := Webhook.MarkPaid(s2.orders[id], sid)], s2.byFriendly)
  {
    assert Webhook.MetadataOrderId(Webhook.EventObject(sid, Some(meta))) == Some(id);
  }

  /** Tracking a stored order by its friendly id with a phone that
      normalizes like the stored one finds it. */
  lemma TrackStep(s: Store, id: string, fid: string, phone: string)
    requires s.Valid() && id in s.orders
    requires s.orders[id].friendlyId == Some(fid) && fid != ""
    requires phone == s.orders[id].customerPhone && phone != ""
    ensures Tracking.Track(s, Some(fid), Some(phone)) == Tracking.Found(Tracking.Sanitize(s.orders[id]))
  {
    assert FindByFriendlyId(s, fid) == Some(s.orders[id]);
  }

  /** From a stored order onwards: checkout with its friendly id, then the
      completed event echoing the checkout metadata, leave the order paid and
      trackable by its friendly id and phone. */
  lemma PayAndTrack(
    s1: Store, internalId: string, fid: string,
    createSession: Checkout.SessionRequest -> Checkout.SessionResult,
    sid: string, url: string,
    body: string, sig: string, secret: string,
    constructEvent: Webhook.EventVerifier, mailer: EmailService.Mailer,
    started: Checkout.CheckoutResponse, s2: Store, hook: Webhook.Outcome)
    requires s1.Valid() && internalId != "" && internalId in s1.orders
    requires s1.orders[internalId].friendlyId == Some(fid) && fid != ""
    requires s1.orders[internalId].customerPhone != ""
    requires sig != "" && secret != ""
    requires createSession(Checkout.BuildSessionRequest(s1.orders[internalId]))
             == Checkout.SessionCreated(sid, url)
    requires (started, s2) == Checkout.StartCheckoutByFriendlyId(s1, Some(fid), createSession)
    requires constructEvent(body, sig, secret) ==
               Some(Webhook.Event(Webhook.CompletedKind,
                    Webhook.EventObject(sid, Some(Checkout.OrderMetadata(s1.orders[internalId])))))
    requires hook == Webhook.Post(s2, body, Some(sig), Some(secret), constructEvent, mailer)
    ensures started == Checkout.SessionReady(sid, url)
    ensures hook.response == Webhook.Received
    ensures internalId in hook.store.orders
    ensures hook.store.orders[internalId].status == Paid
    ensures hook.store.orders[internalId].paymentStatus == PaymentPaid
    ensures hook.store.orders[internalId].paymentId == Some(sid)
    ensures Tracking.Track(hook.store, Some(fid), Some(s1.orders[internalId].customerPhone))
            == Tracking.Found(Tracking.TrackedOrder(Some(fid), Paid, s1.orders[internalId].createdAt,
                                                   s1.orders[internalId].deliveryMethod))
  {
    var o1 := s1.orders[internalId];
    ReturnedIdChecksOut(s1, internalId, fid, createSession, sid, url);
    var o2 := s2.orders[internalId];
    CompletedStep(s2, internalId, Checkout.OrderMetadata(o1), sid, body, sig, secret,
                  constructEvent, mailer);
    var o3 := hook.store.orders[internalId];
    assert o3 == Webhook.MarkPaid(o2, sid);
    TrackStep(hook.store, internalId, fid, o3.customerPhone);
  }

  /** After creation, checkout and the completed event, the customer tracking
      the friendly id with the phone used at submission sees the order PAID,
      and the stored record is paid with the session as payment reference. */
  lemma PaidOrderIsTrackable(
    s: Store, p: OrderSubmission.OrderPayload, isEmail: string -> bool,
    internalId: string, draw: seq<nat>, createdAt: int,
    createSession: Checkout.SessionRequest -> Checkout.SessionResult,
    sid: string, url: string,
    body: string, sig: string, secret: string,
    constructEvent: Webhook.EventVerifier, mailer: EmailService.Mailer,
    created: OrderSubmission.CreateResponse, s1: Store,
    started: Checkout.CheckoutResponse, s2: Store,
    hook: Webhook.Outcome)
    requires s.Valid()
    requires FriendlyId.ValidDraw(draw)
    requires internalId != "" && sig != "" && secret != ""
    requires (created, s1) == OrderSubmission.CreateOrder(s, p, isEmail, internalId, draw, createdAt)
    requires created.Created?
    requires internalId in s1.orders
    requires createSession(Checkout.BuildSessionRequest(s1.orders[internalId]))
             == Checkout.SessionCreated(sid, url)
    requires (started, s2) == Checkout.StartCheckoutByFriendlyId(s1, Some(created.orderId), createSession)
    requires constructEvent(body, sig, secret) ==
               Some(Webhook.Event(Webhook.CompletedKind,
                    Webhook.EventObject(sid, Some(Checkout.OrderMetadata(s1.orders[internalId])))))
    requires hook == Webhook.Post(s2, body, Some(sig), Some(secret), constructEvent, mailer)
    ensures started == Checkout.SessionReady(sid, url)
    ensures hook.response == Webhook.Received
    ensures internalId in hook.store.orders
    ensures hook.store.orders[internalId].status == Paid
    ensures hook.store.orders[internalId].paymentStatus == PaymentPaid
    ensures hook.store.orders[internalId].paymentId == Some(sid)
    ensures Tracking.Track(hook.store, Some(created.orderId), p.customerPhone)
            == Tracking.Found(Tracking.TrackedOrder(Some(created.orderId), Paid, createdAt,
                                                   s1.orders[internalId].deliveryMethod))
  {
    CreateStep(s, p, isEmail, internalId, draw, createdAt);
    PayAndTrack(s1, internalId, created.orderId, createSession, sid, url, body, sig, secret,
                constructEvent, mailer, started, s2, hook);
  }
}
