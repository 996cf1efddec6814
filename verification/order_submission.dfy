/** `POST /api/orders` of `src/app/api/orders/route.ts`: validate the
    payload, generate a friendly id, store the order with its item
    snapshots. The internal id, the random draw for the friendly id, the
    creation timestamp and the e-mail format check are inputs. */
module OrderSubmission {
  import opened Wrappers
  import opened OrderModel
  import FriendlyId

  /** One element of `items` as the client sends it (`orderItemSchema`).
      For the required keys and the nullable optional strings, `None` is a
      missing key (or `null`, which the schema treats alike for the optional
      strings and rejects for the required ones). `basePrice` and
      `logoPrice` are optional but not nullable: the outer `None` is a
      missing key and `Some(None)` an explicit `null`. */
  datatype ItemPayload = ItemPayload(
    shape: Option<string>,
    color: Option<string>,
    companyName: Option<string>,
    companyNameAr: Option<string>,
    licenseNumber: Option<string>,
    emirate: Option<string>,
    hasLogo: Option<bool>,
    basePrice: Option<Option<int>>,
    logoPrice: Option<Option<int>>,
    tradeLicenseUrl: Option<string>,
    price: Option<int>
  )

  /** An item that passed `orderItemSchema`. */
  datatype ValidItem = ValidItem(
    shape: string,
    color: string,
    companyName: Option<string>,
    companyNameAr: Option<string>,
    licenseNumber: Option<string>,
    emirate: Option<string>,
    hasLogo: bool,
    basePrice: Option<int>,
    logoPrice: Option<int>,
    tradeLicenseUrl: Option<string>,
    price: int
  )

  /** The request body (`orderPayloadSchema`); `None` is a missing key. */
  datatype OrderPayload = OrderPayload(
    customerName: Option<string>,
    customerEmail: Option<string>,
    customerPhone: Option<string>,
    deliveryMethod: Option<string>,
    address: Option<string>,
    items: Option<seq<ItemPayload>>,
    totalPrice: Option<int>
  )

  /** The top-level keys `error.flatten().fieldErrors` reports under; an
      error inside an item is reported under `items`. */
  datatype PayloadField =
    | CustomerNameField | CustomerEmailField | CustomerPhoneField
    | DeliveryMethodField | AddressField | ItemsField | TotalPriceField

  /** The payload after a successful parse. */
  datatype ValidPayload = ValidPayload(
    customerName: string,
    customerEmail: Option<string>,
    customerPhone: string,
    deliveryMethod: DeliveryMethod,
    address: Option<string>,
    items: seq<ValidItem>,
    totalPrice: int
  )

  datatype Validation = Valid(payload: ValidPayload) | Invalid(errors: set<PayloadField>)

  const MinPhoneLength: nat := 5

  /** A string's JavaScript `.length`, which zod's `min` compares: UTF-16
      code units, two for a character outside the Basic Multilingual Plane. */
  function Utf16Length(s: string): (n: nat)
    ensures |s| <= n <= 2 * |s|
  {
    if s == [] then 0
    else (if s[|s| - 1] as int >= 0x1_0000 then 2 else 1) + Utf16Length(s[..|s| - 1])
  }

  /** A string of Basic Multilingual Plane characters is as long in UTF-16
      as in characters. */
  lemma {:induction false} Utf16LengthBmp(s: string)
    requires forall k :: 0 <= k < |s| ==> (s[k] as int) < 0x1_0000
    ensures Utf16Length(s) == |s|
  {
    if s != [] {
      Utf16LengthBmp(s[..|s| - 1]);
    }
  }

  /** A string of characters outside the Basic Multilingual Plane (emoji,
      say) counts twice its characters. */
  lemma {:induction false} Utf16LengthAstral(s: string)
    requires forall k :: 0 <= k < |s| ==> (s[k] as int) >= 0x1_0000
    ensures Utf16Length(s) == 2 * |s|
  {
    if s != [] {
      Utf16LengthAstral(s[..|s| - 1]);
    }
  }

  function ParseDeliveryMethod(s: string): (r: Option<DeliveryMethod>)
    ensures r.Some? <==> s == "DELIVERY" || s == "PICKUP"
    ensures r.Some? ==> DeliveryMethodName(r.value) == s
  {
    if s == "DELIVERY" then Some(Delivery)
    else if s == "PICKUP" then Some(Pickup)
    else None
  }

  /** `orderItemSchema.parse(item)`: the required keys must be present and
      the two price parts, when present, must not be `null`. */
  function ParseItem(ip: ItemPayload): (r: Option<ValidItem>)
    ensures r.Some? <==>
      && ip.shape.Some? && ip.color.Some? && ip.hasLogo.Some? && ip.price.Some?
      && ip.basePrice != Some(None) && ip.logoPrice != Some(None)
    ensures r.Some? ==>
      && r.value.shape == ip.shape.value && r.value.color == ip.color.value
      && r.value.hasLogo == ip.hasLogo.value && r.value.price == ip.price.value
      && r.value.companyName == ip.companyName && r.value.companyNameAr == ip.companyNameAr
      && r.value.licenseNumber == ip.licenseNumber && r.value.emirate == ip.emirate
      && r.value.tradeLicenseUrl == ip.tradeLicenseUrl
      && (ip.basePrice.Some? <==> r.value.basePrice.Some?)
      && (ip.logoPrice.Some? <==> r.value.logoPrice.Some?)
  {
    if ip.shape.None? || ip.color.None? || ip.hasLogo.None? || ip.price.None?
       || ip.basePrice == Some(None) || ip.logoPrice == Some(None)
    then None
    else
      Some(ValidItem(ip.shape.value, ip.color.value, ip.companyName, ip.companyNameAr,
                     ip.licenseNumber, ip.emirate, ip.hasLogo.value,
                     if ip.basePrice.Some? then ip.basePrice.value else None,
                     if ip.logoPrice.Some? then ip.logoPrice.value else None,
                     ip.tradeLicenseUrl, ip.price.value))
  }

  /** Every item passes `orderItemSchema`. */
  predicate ItemsParse(items: seq<ItemPayload>) {
    forall i :: 0 <= i < |items| ==> ParseItem(items[i]).Some?
  }

  const AllFields: set<PayloadField> :=
    {CustomerNameField, CustomerEmailField, CustomerPhoneField, DeliveryMethodField,
     AddressField, ItemsField, TotalPriceField}

  /** The rule of `orderPayloadSchema` for one field. `isEmail` is the format
      check of `z.string().email()`; `address` is a plain optional string. */
  predicate Fails(p: OrderPayload, isEmail: string -> bool, f: PayloadField) {
    match f
    case CustomerNameField => p.customerName.None? || Utf16Length(p.customerName.value) < 1
    case CustomerEmailField =>
      p.customerEmail.Some? && p.customerEmail.value != "" && !isEmail(p.customerEmail.value)
    case CustomerPhoneField =>
      p.customerPhone.None? || Utf16Length(p.customerPhone.value) < MinPhoneLength
    case DeliveryMethodField =>
      p.deliveryMethod.None? || ParseDeliveryMethod(p.deliveryMethod.value).None?
    case AddressField => false
    case ItemsField => p.items.None? || |p.items.value| < 1 || !ItemsParse(p.items.value)
    case TotalPriceField => p.totalPrice.None?
  }

  /** The fields the schema rejects: zod checks every field and reports all
      that fail. */
  function FieldErrors(p: OrderPayload, isEmail: string -> bool): (e: set<PayloadField>)
    ensures (CustomerNameField in e) <==>
              (p.customerName.None? || p.customerName.value == "")
    ensures (CustomerEmailField in e) <==>
              (p.customerEmail.Some? && p.customerEmail.value != "" && !isEmail(p.customerEmail.value))
    ensures (CustomerPhoneField in e) <==>
              (p.customerPhone.None? || Utf16Length(p.customerPhone.value) < 5)
    ensures (DeliveryMethodField in e) <==>
              (p.deliveryMethod.None? || p.deliveryMethod.value !in {"DELIVERY", "PICKUP"})
    ensures (ItemsField in e) <==>
              (p.items.None? || p.items.value == []
               || exists i :: 0 <= i < |p.items.value| && ParseItem(p.items.value[i]).None?)
    ensures (TotalPriceField in e) <==> p.totalPrice.None?
    ensures AddressField !in e
  {
    set f | f in AllFields && Fails(p, isEmail, f)
  }

  /** `orderPayloadSchema.parse(body)`: all fields are checked and every
      failing one is reported; the payload is accepted only when none fail. */
  function Validate(p: OrderPayload, isEmail: string -> bool): (v: Validation)
    ensures v.Invalid? ==> v.errors != {}
    ensures v.Valid? <==> FieldErrors(p, isEmail) == {}
    ensures v.Invalid? ==> v.errors == FieldErrors(p, isEmail)
    ensures v.Valid? ==>
      && v.payload.customerName == p.customerName.value && v.payload.customerName != ""
      && v.payload.customerPhone == p.customerPhone.value
      && Utf16Length(v.payload.customerPhone) >= 5
      && DeliveryMethodName(v.payload.deliveryMethod) == p.deliveryMethod.value
      && v.payload.customerEmail == p.customerEmail
      && v.payload.address == p.address
      && |v.payload.items| == |p.items.value| >= 1
      && (forall i :: 0 <= i < |v.payload.items| ==>
            ParseItem(p.items.value[i]) == Some(v.payload.items[i]))
      && v.payload.totalPrice == p.totalPrice.value
  {
    var errors := FieldErrors(p, isEmail);
    if errors != {} then Invalid(errors)
    else
      assert CustomerNameField !in errors;
      assert ItemsField !in errors;
      var items := p.items.value;
      Valid(ValidPayload(
        p.customerName.value, p.customerEmail, p.customerPhone.value,
        ParseDeliveryMethod(p.deliveryMethod.value).value, p.address,
        seq(|items|, i requires 0 <= i < |items| => ParseItem(items[i]).value),
        p.totalPrice.value))
  }

  /** The stored snapshot of one requested item: shape, colour, logo flag and
      price copied, falsy optional strings stored as null, the client's price
      breakdown dropped. */
  function ToOrderItem(ip: ValidItem): (it: OrderItem)
    ensures it.shape == ip.shape && it.color == ip.color
    ensures it.hasLogo == ip.hasLogo && it.price == ip.price
    ensures it.companyName.None? <==> !Truthy(ip.companyName)
    ensures it.companyName.Some? ==> it.companyName == ip.companyName
    ensures it.companyNameAr.None? <==> !Truthy(ip.companyNameAr)
    ensures it.companyNameAr.Some? ==> it.companyNameAr == ip.companyNameAr
    ensures it.licenseNumber.None? <==> !Truthy(ip.licenseNumber)
    ensures it.licenseNumber.Some? ==> it.licenseNumber == ip.licenseNumber
    ensures it.emirate.None? <==> !Truthy(ip.emirate)
    ensures it.emirate.Some? ==> it.emirate == ip.emirate
    ensures it.tradeLicenseUrl.None? <==> !Truthy(ip.tradeLicenseUrl)
    ensures it.tradeLicenseUrl.Some? ==> it.tradeLicenseUrl == ip.tradeLicenseUrl
  {
    OrderItem(ip.shape, ip.color, OrNull(ip.companyName), OrNull(ip.companyNameAr),
              OrNull(ip.licenseNumber), OrNull(ip.emirate), ip.hasLogo,
              OrNull(ip.tradeLicenseUrl), ip.price)
  }

  /** `validatedData.items.map(...)`: one stored item per requested item, in order. */
  function ToOrderItems(items: seq<ValidItem>): (r: seq<OrderItem>)
    ensures |r| == |items|
    ensures forall i :: 0 <= i < |items| ==> r[i] == ToOrderItem(items[i])
  {
    seq(|items|, i requires 0 <= i < |items| => ToOrderItem(items[i]))
  }

  /** The record `prisma.order.create` is given. The payment status is the
      schema default. */
  function NewOrder(v: ValidPayload, id: string, friendlyId: string, createdAt: int): (o: Order)
    ensures o.id == id && o.friendlyId == Some(friendlyId)
    ensures o.customerName == v.customerName && o.customerPhone == v.customerPhone
    ensures o.customerEmail.None? <==> !Truthy(v.customerEmail)
    ensures o.customerEmail.Some? ==> o.customerEmail == v.customerEmail
    ensures o.address.None? <==> !Truthy(v.address)
    ensures o.address.Some? ==> o.address == v.address
    ensures o.deliveryMethod == v.deliveryMethod
    ensures o.totalPrice == v.totalPrice
    ensures o.status == Pending && o.paymentStatus == PaymentPending && o.paymentId.None?
    ensures o.createdAt == createdAt
    ensures |o.items| == |v.items|
    ensures forall i :: 0 <= i < |v.items| ==> o.items[i] == ToOrderItem(v.items[i])
  {
    Order(id, Some(friendlyId), v.customerName, OrNull(v.customerEmail), v.customerPhone,
          v.deliveryMethod, OrNull(v.address), v.totalPrice, Pending, PaymentPending,
          None, createdAt, ToOrderItems(v.items))
  }

  datatype CreateResponse =
    | Created(orderId: string)                  // 200 { success, orderId }
    | ValidationFailed(errors: set<PayloadField>) // 400 { success: false, errors }
    | ServerError                               // 500 Internal Server Error

  function HttpStatus(r: CreateResponse): int {
    match r
    case Created(_) => 200
    case ValidationFailed(_) => 400
    case ServerError => 500
  }

  /** The whole route: validation, friendly id, one atomic insert. A
      duplicate internal or friendly id violates a unique constraint, the
      insert throws and the route answers 500 with nothing stored. */
  function CreateOrder(s: Store, p: OrderPayload, isEmail: string -> bool,
                       internalId: string, draw: seq<nat>, createdAt: int)
    : (r: (CreateResponse, Store))
    requires s.Valid()
    requires FriendlyId.ValidDraw(draw)
    ensures r.1.Valid()
    ensures !r.0.Created? ==> r.1 == s
    ensures r.0.ValidationFailed? <==> FieldErrors(p, isEmail) != {}
    ensures r.0.ValidationFailed? ==> r.0.errors == FieldErrors(p, isEmail)
    ensures r.0.ServerError? <==>
              FieldErrors(p, isEmail) == {}
              && (internalId in s.orders || FriendlyId.Generate(draw) in s.byFriendly)
    ensures r.0.Created? <==>
              FieldErrors(p, isEmail) == {}
              && internalId !in s.orders && FriendlyId.Generate(draw) !in s.byFriendly
    ensures r.0.Created? ==>
      && r.0.orderId == FriendlyId.Generate(draw)
      && FriendlyId.IsFriendlyId(r.0.orderId)
      && Validate(p, isEmail).Valid?
      && r.1.orders == s.orders[internalId := NewOrder(Validate(p, isEmail).payload,
                                                       internalId, r.0.orderId, createdAt)]
      && r.1.byFriendly == s.byFriendly[r.0.orderId := internalId]
      && r.1.orders.Keys == s.orders.Keys + {internalId}
      && (forall k :: k in s.orders ==> r.1.orders[k] == s.orders[k])
      && r.1.orders[internalId].friendlyId == Some(r.0.orderId)
      && r.1.orders[internalId].status == Pending
      && r.1.orders[internalId].paymentStatus == PaymentPending
      && r.1.orders[internalId].customerPhone == p.customerPhone.value
      && (r.1.orders[internalId].customerEmail.None? <==> !Truthy(p.customerEmail))
      && r.1.orders[internalId].totalPrice == p.totalPrice.value
      && |r.1.orders[internalId].items| == |p.items.value| > 0
  {
    match Validate(p, isEmail)
    case Invalid(errors) => (ValidationFailed(errors), s)
    case Valid(v) =>
      var fid := FriendlyId.Generate(draw);
      if internalId in s.orders || fid in s.byFriendly then (ServerError, s)
      else
        var o := NewOrder(v, internalId, fid, createdAt);
        var s' := Store(s.orders[internalId := o], s.byFriendly[fid := internalId]);
        assert s'.Valid() by {
          forall k | k in s'.orders && s'.orders[k].friendlyId.Some?
            ensures s'.orders[k].friendlyId.value in s'.byFriendly
            ensures s'.byFriendly[s'.orders[k].friendlyId.value] == k
          {
            if k != internalId {
              assert s.orders[k].friendlyId.value != fid;
            }
          }
        }
        (Created(fid), s')
  }

  /** Each of the four required-field rules alone makes the route answer 400
      and store nothing. */
  lemma RejectedPayloads(s: Store, p: OrderPayload, isEmail: string -> bool,
                         internalId: string, draw: seq<nat>, createdAt: int)
    requires s.Valid()
    requires FriendlyId.ValidDraw(draw)
    requires || p.customerName == Some("")
             || (p.customerPhone.Some? && Utf16Length(p.customerPhone.value) < 5)
             || (p.deliveryMethod.Some? && p.deliveryMethod.value !in {"DELIVERY", "PICKUP"})
             || p.items == Some([])
    ensures var (resp, s') := CreateOrder(s, p, isEmail, internalId, draw, createdAt);
            HttpStatus(resp) == 400 && s' == s
  {
    var errors := FieldErrors(p, isEmail);
    if p.customerName == Some("") {
      assert CustomerNameField in errors;
    } else if p.customerPhone.Some? && Utf16Length(p.customerPhone.value) < 5 {
      assert CustomerPhoneField in errors;
    } else if p.deliveryMethod.Some? && p.deliveryMethod.value !in {"DELIVERY", "PICKUP"} {
      assert DeliveryMethodField in errors;
    } else {
      assert ItemsField in errors;
    }
  }

  /** The address is never required: a pickup or delivery order without an
      address is accepted (given the other fields are fine), and stored with
      a null address. */
  lemma AddressNotRequired(s: Store, p: OrderPayload, isEmail: string -> bool,
                           internalId: string, draw: seq<nat>, createdAt: int)
    requires s.Valid()
    requires FriendlyId.ValidDraw(draw)
    requires FieldErrors(p.(address := None), isEmail) == {}
    requires internalId !in s.orders
    requires FriendlyId.Generate(draw) !in s.byFriendly
    ensures var (resp, s') := CreateOrder(s, p.(address := None), isEmail, internalId, draw, createdAt);
            resp.Created? && s'.orders[internalId].address.None?
  {
  }

  /** The phone's minimum length counts UTF-16 units, as JavaScript does: a
      phone of three emoji is long enough, while three ordinary characters
      are not. */
  lemma PhoneLengthInUtf16(p: OrderPayload, isEmail: string -> bool)
    requires p.customerPhone.Some? && |p.customerPhone.value| == 3
    ensures (forall k :: 0 <= k < 3 ==> (p.customerPhone.value[k] as int) >= 0x1_0000)
            ==> CustomerPhoneField !in FieldErrors(p, isEmail)
    ensures (forall k :: 0 <= k < 3 ==> (p.customerPhone.value[k] as int) < 0x1_0000)
            ==> CustomerPhoneField in FieldErrors(p, isEmail)
  {
    var phone := p.customerPhone.value;
    if forall k :: 0 <= k < 3 ==> (phone[k] as int) >= 0x1_0000 {
      Utf16LengthAstral(phone);
    }
    if forall k :: 0 <= k < 3 ==> (phone[k] as int) < 0x1_0000 {
      Utf16LengthBmp(phone);
    }
  }
}
