/** The three transactional e-mails of `src/lib/email-templates.ts`, as the
    data-dependent content each one shows. Static markup, styling and the
    formatted creation date are not modelled. */
module EmailTemplates {
  import opened Wrappers
  import opened Decimal

  /** One item as the templates receive it. */
  datatype EmailItem = EmailItem(shape: string, color: string, companyName: Option<string>,
                                 price: int, hasLogo: bool)

  /** `OrderEmailData`; `createdAt` is kept only as a timestamp. */
  datatype OrderEmailData = OrderEmailData(
    orderId: string,
    customerName: string,
    items: seq<EmailItem>,
    totalPrice: int,
    deliveryMethod: string,
    address: Option<string>,
    createdAt: int
  )

  /** One item block of the confirmation: heading, price, optional company
      line, colour line, and whether the custom-logo marker is shown. */
  datatype ItemBlock = ItemBlock(
    heading: string,
    priceText: string,
    companyLine: Option<string>,
    colorLine: string,
    logoMarker: bool
  )

  /** The delivery-information section: the customer's address, or the shop's
      pickup location. */
  datatype LocationSection = AddressBlock(address: string) | PickupLocation

  datatype ConfirmationEmail = ConfirmationEmail(
    title: string,
    customerName: string,
    orderId: string,
    items: seq<ItemBlock>,
    totalText: string,
    methodLabel: string,
    location: LocationSection,
    homeDelivery: bool     // which "What's Next?" sentence is shown
  )

  datatype ReceiptEmail = ReceiptEmail(
    title: string,
    customerName: string,
    orderId: string,
    paymentId: string,
    amountText: string
  )

  datatype StatusUpdateEmail = StatusUpdateEmail(
    title: string,
    customerName: string,
    orderId: string,
    statusColor: string,
    status: string,
    statusMessage: string
  )

  /** The heading of the block at zero-based position `index`. */
  function Heading(index: nat, shape: string): string {
    "Item " + NatToString(index + 1) + ": " + shape + " Stamp"
  }

  /** The item block for the item at zero-based position `index`. */
  function RenderItem(item: EmailItem, index: nat): (b: ItemBlock)
    ensures b.heading == "Item " + NatToString(index + 1) + ": " + item.shape + " Stamp"
    ensures b.priceText == AedText(item.price)
    ensures b.companyLine.Some? <==> Truthy(item.companyName)
    ensures b.companyLine.Some? ==> b.companyLine.value == "Company: " + item.companyName.value
    ensures b.colorLine == "Color: " + item.color
    ensures b.logoMarker <==> item.hasLogo
  {
    ItemBlock(
      Heading(index, item.shape),
      AedText(item.price),
      if Truthy(item.companyName) then Some("Company: " + item.companyName.value) else None,
      "Color: " + item.color,
      item.hasLogo)
  }

  function RenderItems(items: seq<EmailItem>): (r: seq<ItemBlock>)
    ensures |r| == |items|
    ensures forall i :: 0 <= i < |items| ==> r[i] == RenderItem(items[i], i)
  {
    seq(|items|, i requires 0 <= i < |items| => RenderItem(items[i], i))
  }

  /** The address is shown only for a delivery with a non-empty address;
      every other case shows the pickup location. */
  function Location(deliveryMethod: string, address: Option<string>): (l: LocationSection)
    ensures l.AddressBlock? <==> deliveryMethod == "DELIVERY" && Truthy(address)
    ensures l.AddressBlock? ==> l.address == address.value
  {
    if deliveryMethod == "DELIVERY" && Truthy(address) then AddressBlock(address.value)
    else PickupLocation
  }

  /** `generateOrderConfirmationEmail`. */
  function OrderConfirmationEmail(d: OrderEmailData): (e: ConfirmationEmail)
    ensures e.orderId == d.orderId && e.customerName == d.customerName
    ensures e.title == "Order Confirmation - " + d.orderId
    ensures e.items == RenderItems(d.items)
    ensures e.totalText == AedText(d.totalPrice)
    ensures e.methodLabel == (if d.deliveryMethod == "DELIVERY" then "Delivery" else "Pickup")
    ensures e.location == Location(d.deliveryMethod, d.address)
    ensures e.homeDelivery <==> d.deliveryMethod == "DELIVERY"
  {
    ConfirmationEmail(
      "Order Confirmation - " + d.orderId, d.customerName, d.orderId,
      RenderItems(d.items), AedText(d.totalPrice),
      if d.deliveryMethod == "DELIVERY" then "Delivery" else "Pickup",
      Location(d.deliveryMethod, d.address),
      d.deliveryMethod == "DELIVERY")
  }

  /** `generatePaymentReceiptEmail`. */
  function PaymentReceiptEmail(d: OrderEmailData, paymentId: string): (e: ReceiptEmail)
    ensures e.orderId == d.orderId && e.paymentId == paymentId
    ensures e.title == "Payment Receipt - " + d.orderId
    ensures e.amountText == AedText(d.totalPrice)
  {
    ReceiptEmail("Payment Receipt - " + d.orderId, d.customerName, d.orderId, paymentId,
                 AedText(d.totalPrice))
  }

  const DefaultStatusColor: string := "#6c757d"

  /** `statusColors[newStatus] || '#6c757d'`. */
  function StatusColor(status: string): (c: string)
    ensures status == "PROCESSING" ==> c == "#007bff"
    ensures status == "DELIVERED" ==> c == "#28a745"
    ensures status == "CANCELLED" ==> c == "#dc3545"
    ensures status !in {"PROCESSING", "DELIVERED", "CANCELLED"} ==> c == "#6c757d"
  {
    var statusColors := map["PROCESSING" := "#007bff", "DELIVERED" := "#28a745",
                            "CANCELLED" := "#dc3545"];
    if status in statusColors then statusColors[status] else DefaultStatusColor
  }

  /** `generateOrderStatusUpdateEmail`. */
  function OrderStatusUpdateEmail(d: OrderEmailData, newStatus: string, statusMessage: string)
    : (e: StatusUpdateEmail)
    ensures e.orderId == d.orderId && e.status == newStatus && e.statusMessage == statusMessage
    ensures e.title == "Order Update - " + d.orderId
    ensures e.statusColor == StatusColor(newStatus)
  {
    StatusUpdateEmail("Order Update - " + d.orderId, d.customerName, d.orderId,
                      StatusColor(newStatus), newStatus, statusMessage)
  }

  /** The three named statuses have distinct colours, none of them the
      fallback grey. */
  lemma StatusColorsDistinct(s: string)
    requires s in {"PROCESSING", "DELIVERED", "CANCELLED"}
    ensures StatusColor(s) != DefaultStatusColor
    ensures forall t :: t in {"PROCESSING", "DELIVERED", "CANCELLED"} && StatusColor(t) == StatusColor(s) ==> t == s
  {
  }

  /** The position of the first ':' in `s`, or `|s|` when there is none. */
  function ColonIndex(s: string): (n: nat)
    ensures n <= |s|
  {
    if |s| == 0 || s[0] == ':' then 0 else 1 + ColonIndex(s[1..])
  }

  /** In a run of digits followed by ':', the first ':' is the one after the
      digits. */
  lemma {:induction false} ColonAfterDigits(a: string, x: string)
    requires forall k :: 0 <= k < |a| ==> IsDigit(a[k])
    ensures ColonIndex(a + ":" + x) == |a|
    decreases |a|
  {
    if |a| > 0 {
      assert (a + ":" + x)[1..] == a[1..] + ":" + x;
      ColonAfterDigits(a[1..], x);
    }
  }

  /** A run of digits ended by ':' is recovered from the string it starts. */
  lemma DigitsBeforeColon(a: string, b: string, x: string, y: string)
    requires forall k :: 0 <= k < |a| ==> IsDigit(a[k])
    requires forall k :: 0 <= k < |b| ==> IsDigit(b[k])
    requires a + ":" + x == b + ":" + y
    ensures a == b
  {
    var l := a + ":" + x;
    ColonAfterDigits(a, x);
    ColonAfterDigits(b, y);
    assert a == l[..|a|];
  }

  /** Blocks at different positions never share a heading, whatever their
      shapes: the number before the ':' tells them apart. */
  lemma HeadingsDistinct(i: nat, j: nat, a: string, b: string)
    requires i != j
    ensures Heading(i, a) != Heading(j, b)
  {
    var ni, nj := NatToString(i + 1), NatToString(j + 1);
    var ti, tj := " " + a + " Stamp", " " + b + " Stamp";
    var hi, hj := Heading(i, a), Heading(j, b);
    assert hi == "Item " + (ni + ":" + ti);
    assert hj == "Item " + (nj + ":" + tj);
    if hi == hj {
      var ri, rj := ni + ":" + ti, nj + ":" + tj;
      assert ri == hi[5..];
      assert rj == hj[5..];
      DigitsBeforeColon(ni, nj, ti, tj);
      NatToStringInjective(i + 1, j + 1);
    }
  }

  /** The confirmation's item blocks are numbered 1, 2, ... in item order, so
      no two blocks share a heading, and each shows its own item's price:
      equal price texts mean equal prices. */
  lemma ItemBlocksNumbered(items: seq<EmailItem>, i: nat, j: nat)
    requires i < |items| && j < |items|
    ensures RenderItems(items)[i].heading[..5] == "Item "
    ensures i != j ==> RenderItems(items)[i].heading != RenderItems(items)[j].heading
    ensures RenderItems(items)[i].priceText == RenderItems(items)[j].priceText
            <==> items[i].price == items[j].price
  {
    var r := RenderItems(items);
    assert r[i] == RenderItem(items[i], i) && r[j] == RenderItem(items[j], j);
    if r[i].priceText == r[j].priceText {
      AedTextInjective(items[i].price, items[j].price);
    }
    if i != j {
      HeadingsDistinct(i, j, items[i].shape, items[j].shape);
    }
  }
}
