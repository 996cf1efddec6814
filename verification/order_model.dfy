/** The persisted order aggregate the API routes read and write, and the
    store that holds it: a map from internal id to order, plus the unique
    index on the friendly id that the database keeps. */
module OrderModel {
  import opened Wrappers

  datatype OrderStatus = Pending | Processing | Ready | Delivered | Paid | Cancelled

  /** The payment axis, kept separately from the fulfilment status. */
  datatype PaymentStatus = PaymentPending | PaymentPaid | PaymentExpired | PaymentFailed

  datatype DeliveryMethod = Delivery | Pickup

  function DeliveryMethodName(d: DeliveryMethod): string {
    match d
    case Delivery => "DELIVERY"
    case Pickup => "PICKUP"
  }

  /** A stored line: a snapshot of one stamp at the price the client sent.
      Shape and colour are stored as the strings the client sent. */
  datatype OrderItem = OrderItem(
    shape: string,
    color: string,
    companyName: Option<string>,
    companyNameAr: Option<string>,
    licenseNumber: Option<string>,
    emirate: Option<string>,
    hasLogo: bool,
    tradeLicenseUrl: Option<string>,
    price: int
  )

  /** A stored order. `createdAt` is the timestamp the database assigned. */
  datatype Order = Order(
    id: string,
    friendlyId: Option<string>,
    customerName: string,
    customerEmail: Option<string>,
    customerPhone: string,
    deliveryMethod: DeliveryMethod,
    address: Option<string>,
    totalPrice: int,
    status: OrderStatus,
    paymentStatus: PaymentStatus,
    paymentId: Option<string>,
    createdAt: int,
    items: seq<OrderItem>
  )

  datatype Store = Store(orders: map<string, Order>, byFriendly: map<string, string>) {

    /** Every order is filed under its own id, and the friendly-id index
        points at exactly the orders that bear each friendly id. */
    ghost predicate Valid() {
      && (forall k :: k in orders ==> orders[k].id == k)
      && (forall f :: f in byFriendly ==>
            byFriendly[f] in orders && orders[byFriendly[f]].friendlyId == Some(f))
      && (forall k :: k in orders && orders[k].friendlyId.Some? ==>
            orders[k].friendlyId.value in byFriendly
            && byFriendly[orders[k].friendlyId.value] == k)
    }
  }

  const EmptyStore := Store(map[], map[])

  lemma EmptyStoreValid()
    ensures EmptyStore.Valid()
  {
  }

  /** `findUnique({ where: { friendlyId } })`, through the unique index. */
  function FindByFriendlyId(s: Store, fid: string): (r: Option<Order>)
    requires s.Valid()
    ensures r.Some? ==> r.value.friendlyId == Some(fid) && r.value.id in s.orders
                        && s.orders[r.value.id] == r.value
    ensures r.None? ==> forall k :: k in s.orders ==> s.orders[k].friendlyId != Some(fid)
  {
    if fid in s.byFriendly then Some(s.orders[s.byFriendly[fid]]) else None
  }

  /** `metadata?.orderId` of a Stripe object as the handlers read it: `None`
      when the metadata or the key is missing, or the id is empty. */
  function MetadataId(metadata: Option<map<string, string>>): (r: Option<string>)
    ensures r.Some? <==> metadata.Some? && "orderId" in metadata.value
                         && metadata.value["orderId"] != ""
    ensures r.Some? ==> r.value == metadata.value["orderId"]
  {
    if metadata.Some? && "orderId" in metadata.value && metadata.value["orderId"] != ""
    then Some(metadata.value["orderId"]) else None
  }

  /** An in-place update of one order that keeps its identity. */
  predicate SameIdentity(a: Order, b: Order) {
    a.id == b.id && a.friendlyId == b.friendlyId
  }

  /** `update({ where: { id }, data })` with the updated record supplied;
      a missing id is a failed update (the database client throws). */
  function UpdateOrder(s: Store, id: string, updated: Order): (r: Option<Store>)
    requires s.Valid()
    requires id in s.orders ==> SameIdentity(s.orders[id], updated)
    ensures id !in s.orders <==> r.None?
    ensures r.Some? ==> r.value.Valid()
    ensures r.Some? ==> r.value.orders == s.orders[id := updated]
    ensures r.Some? ==> r.value.byFriendly == s.byFriendly
  {
    if id in s.orders then Some(Store(s.orders[id := updated], s.byFriendly)) else None
  }
}
