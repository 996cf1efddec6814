/** The three `send*` functions of `src/lib/email-service.ts`. Mailgun's
    `messages.create` is an oracle: it returns the message id, or `None` when
    it throws. None of the functions throws; each reports its outcome. */
module EmailService {
  import opened Wrappers
  import opened OrderModel
  import opened EmailTemplates
  import Decimal

  datatype EmailBody =
    | ConfirmationBody(confirmation: ConfirmationEmail)
    | ReceiptBody(receipt: ReceiptEmail)
    | StatusBody(update: StatusUpdateEmail)

  datatype Message = Message(to: seq<string>, subject: string, text: string, html: EmailBody)

  /** `{ success: true, messageId }`, `{ success: false, message: 'No email
      provided' }`, or `{ success: false, error }`. */
  datatype SendResult = Sent(messageId: string) | NoEmail | SendFailed

  /** What a send function did: its result and the message it handed to the
      provider, if any. */
  datatype Dispatch = Dispatch(result: SendResult, attempted: Option<Message>)

  type Mailer = Message -> Option<string>

  /** `order.friendlyId || order.id`. */
  function DisplayId(o: Order): (d: string)
    ensures Truthy(o.friendlyId) ==> d == o.friendlyId.value
    ensures !Truthy(o.friendlyId) ==> d == o.id
  {
    OrElse(o.friendlyId, o.id)
  }

  /** The template's view of a stored item. */
  function ToEmailItem(it: OrderItem): (e: EmailItem)
    ensures e.shape == it.shape && e.color == it.color && e.companyName == it.companyName
    ensures e.price == it.price && e.hasLogo == it.hasLogo
  {
    EmailItem(it.shape, it.color, it.companyName, it.price, it.hasLogo)
  }

  /** The template data built from a stored order; a null address is passed
      as absent. */
  function ToEmailData(o: Order): (d: OrderEmailData)
    ensures d.orderId == DisplayId(o)
    ensures d.customerName == o.customerName
    ensures d.totalPrice == o.totalPrice
    ensures d.deliveryMethod == DeliveryMethodName(o.deliveryMethod)
    ensures |d.items| == |o.items|
    ensures forall i :: 0 <= i < |o.items| ==>
              && d.items[i].shape == o.items[i].shape && d.items[i].color == o.items[i].color
              && d.items[i].companyName == o.items[i].companyName
              && d.items[i].price == o.items[i].price && d.items[i].hasLogo == o.items[i].hasLogo
    ensures d.address.Some? <==> Truthy(o.address)
    ensures d.address.Some? ==> d.address == o.address
    ensures d.createdAt == o.createdAt
  {
    OrderEmailData(DisplayId(o), o.customerName,
                   seq(|o.items|, i requires 0 <= i < |o.items| => ToEmailItem(o.items[i])),
                   o.totalPrice, DeliveryMethodName(o.deliveryMethod),
                   if Truthy(o.address) then o.address else None, o.createdAt)
  }

  /** Hand a message to the provider and report the outcome. */
  function Deliver(msg: Message, mailer: Mailer): (d: Dispatch)
    ensures d.attempted == Some(msg)
    ensures d.result.Sent? <==> mailer(msg).Some?
    ensures d.result.Sent? ==> d.result.messageId == mailer(msg).value
    ensures !d.result.NoEmail?
  {
    match mailer(msg)
    case Some(id) => Dispatch(Sent(id), Some(msg))
    case None => Dispatch(SendFailed, Some(msg))
  }

  /** `sendOrderConfirmation`. */
  function SendOrderConfirmation(o: Order, mailer: Mailer): (d: Dispatch)
    ensures !Truthy(o.customerEmail) <==> d.result == NoEmail
    ensures !Truthy(o.customerEmail) ==> d.attempted.None?
    ensures Truthy(o.customerEmail) ==>
      && d.attempted.Some?
      && d.attempted.value.to == [o.customerEmail.value]
      && d.attempted.value.subject == "Order Confirmed - " + DisplayId(o)
      && d.attempted.value.text == "Your order " + DisplayId(o) + " has been confirmed. Total: "
                                   + Decimal.AedText(o.totalPrice)
      && d.attempted.value.html.ConfirmationBody?
      && d.attempted.value.html.confirmation.orderId == DisplayId(o)
      && d.attempted.value.html.confirmation == OrderConfirmationEmail(ToEmailData(o))
      && d.attempted.value.html.confirmation.totalText == Decimal.AedText(o.totalPrice)
      && (d.result.SendFailed? <==> mailer(d.attempted.value).None?)
  {
    if !Truthy(o.customerEmail) then Dispatch(NoEmail, None)
    else
      var id := DisplayId(o);
      var msg := Message(
        [o.customerEmail.value],
        "Order Confirmed - " + id,
        "Your order " + id + " has been confirmed. Total: " + Decimal.AedText(o.totalPrice),
        ConfirmationBody(OrderConfirmationEmail(ToEmailData(o))));
      Deliver(msg, mailer)
  }

  /** `sendPaymentReceipt`. */
  function SendPaymentReceipt(o: Order, paymentId: string, mailer: Mailer): (d: Dispatch)
    ensures !Truthy(o.customerEmail) <==> d.result == NoEmail
    ensures !Truthy(o.customerEmail) ==> d.attempted.None?
    ensures Truthy(o.customerEmail) ==>
      && d.attempted.Some?
      && d.attempted.value.to == [o.customerEmail.value]
      && d.attempted.value.subject == "Payment Receipt - " + DisplayId(o)
      && d.attempted.value.text == "Payment received for order " + DisplayId(o) + ". Amount: "
                                   + Decimal.AedText(o.totalPrice)
      && d.attempted.value.html.ReceiptBody?
      && d.attempted.value.html.receipt.orderId == DisplayId(o)
      && d.attempted.value.html.receipt.paymentId == paymentId
      && d.attempted.value.html.receipt.amountText == Decimal.AedText(o.totalPrice)
      && (d.result.SendFailed? <==> mailer(d.attempted.value).None?)
  {
    if !Truthy(o.customerEmail) then Dispatch(NoEmail, None)
    else
      var id := DisplayId(o);
      var msg := Message(
        [o.customerEmail.value],
        "Payment Receipt - " + id,
        "Payment received for order " + id + ". Amount: " + Decimal.AedText(o.totalPrice),
        ReceiptBody(PaymentReceiptEmail(ToEmailData(o), paymentId)));
      Deliver(msg, mailer)
  }

  /** `sendOrderStatusUpdate`. */
  function SendOrderStatusUpdate(o: Order, newStatus: string, statusMessage: string,
                                 mailer: Mailer): (d: Dispatch)
    ensures !Truthy(o.customerEmail) <==> d.result == NoEmail
    ensures !Truthy(o.customerEmail) ==> d.attempted.None?
    ensures Truthy(o.customerEmail) ==>
      && d.attempted.Some?
      && d.attempted.value.to == [o.customerEmail.value]
      && d.attempted.value.subject == "Order Update: " + newStatus + " - " + DisplayId(o)
      && d.attempted.value.text == "Your order " + DisplayId(o) + " status: " + newStatus + ". "
                                   + statusMessage
      && d.attempted.value.html.StatusBody?
      && d.attempted.value.html.update.statusColor == StatusColor(newStatus)
      && d.attempted.value.html.update.statusMessage == statusMessage
      && (d.result.SendFailed? <==> mailer(d.attempted.value).None?)
  {
    if !Truthy(o.customerEmail) then Dispatch(NoEmail, None)
    else
      var id := DisplayId(o);
      var msg := Message(
        [o.customerEmail.value],
        "Order Update: " + newStatus + " - " + id,
        "Your order " + id + " status: " + newStatus + ". " + statusMessage,
        StatusBody(OrderStatusUpdateEmail(ToEmailData(o), newStatus, statusMessage)));
      Deliver(msg, mailer)
  }

  /** The three send functions agree on whether they send, and to whom: the
      same single recipient, for any provider behaviour. */
  lemma SendersAgree(o: Order, paymentId: string, st: string, msg: string, mailer: Mailer)
    ensures var c := SendOrderConfirmation(o, mailer);
            var r := SendPaymentReceipt(o, paymentId, mailer);
            var u := SendOrderStatusUpdate(o, st, msg, mailer);
            && c.attempted.Some? == r.attempted.Some? == u.attempted.Some?
            && (c.attempted.Some? ==>
                  c.attempted.value.to == r.attempted.value.to == u.attempted.value.to
                  == [o.customerEmail.value])
  {
  }

  /** The confirmation for an order with an e-mail address shows the order's
      display id, its customer, one block per stored item, numbered in order
      with that item's shape and AED price, and the order's AED total. */
  lemma ConfirmationShowsOrder(o: Order, mailer: Mailer)
    requires Truthy(o.customerEmail)
    ensures var d := SendOrderConfirmation(o, mailer);
            && d.attempted.Some? && d.attempted.value.html.ConfirmationBody?
            && var e := d.attempted.value.html.confirmation;
            && e.orderId == DisplayId(o)
            && e.customerName == o.customerName
            && e.totalText == Decimal.AedText(o.totalPrice)
            && |e.items| == |o.items|
            && (forall i :: 0 <= i < |o.items| ==>
                  && e.items[i].heading == Heading(i, o.items[i].shape)
                  && e.items[i].priceText == Decimal.AedText(o.items[i].price)
                  && (e.items[i].logoMarker <==> o.items[i].hasLogo))
  {
    var data := ToEmailData(o);
    var e := OrderConfirmationEmail(data);
    forall i | 0 <= i < |o.items|
      ensures e.items[i] == RenderItem(data.items[i], i)
    {
    }
  }
}
