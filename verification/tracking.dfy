/** `GET /api/orders/track` of `src/app/api/orders/track/route.ts`: look an
    order up by friendly id and release its public status only to a caller
    who knows the phone number. */
module Tracking {
  import opened Wrappers
  import opened OrderModel
  import Decimal

  /** The characters `normalize` keeps (`[0-9+]`). */
  predicate Kept(c: char) {
    Decimal.IsDigit(c) || c == '+'
  }

  /** `p.replace(/[^0-9+]/g, "")`: drop every character that is not a digit
      or '+', wherever it stands. */
  function Normalize(p: string): (r: string)
    ensures |r| <= |p|
    ensures forall i :: 0 <= i < |r| ==> Kept(r[i])
  {
    if |p| == 0 then ""
    else (if Kept(p[0]) then [p[0]] else "") + Normalize(p[1..])
  }

  /** Normalizing a string made only of kept characters changes nothing. */
  lemma {:induction false} NormalizeKeepsClean(p: string)
    requires forall i :: 0 <= i < |p| ==> Kept(p[i])
    ensures Normalize(p) == p
    decreases |p|
  {
    if |p| > 0 {
      NormalizeKeepsClean(p[1..]);
      assert [p[0]] + p[1..] == p;
    }
  }

  /** `normalize` is idempotent. */
  lemma NormalizeIdempotent(p: string)
    ensures Normalize(Normalize(p)) == Normalize(p)
  {
    NormalizeKeepsClean(Normalize(p));
  }

  /** Normalization works piecewise: the kept characters of `a` come first,
      in order, then those of `b`. */
  lemma {:induction false} NormalizeConcat(a: string, b: string)
    ensures Normalize(a + b) == Normalize(a) + Normalize(b)
    decreases |a|
  {
    if |a| == 0 {
      assert a + b == b;
    } else {
      assert (a + b)[1..] == a[1..] + b;
      NormalizeConcat(a[1..], b);
    }
  }

  /** A character survives normalization exactly when it occurs in the input
      and is a digit or '+'. */
  lemma {:induction false} NormalizeMembership(p: string, c: char)
    ensures c in Normalize(p) <==> c in p && Kept(c)
    decreases |p|
  {
    if |p| > 0 {
      NormalizeMembership(p[1..], c);
      assert p == [p[0]] + p[1..];
    }
  }

  /** The public part of an order: no phone, address, name or items. */
  datatype TrackedOrder = TrackedOrder(friendlyId: Option<string>, status: OrderStatus,
                                       createdAt: int, deliveryMethod: DeliveryMethod)

  datatype TrackResponse =
    | Found(order: TrackedOrder)  // 200
    | MissingParams               // 400 Order ID and Phone Number are required
    | NotFound                    // 404 Order not found
    | PhoneMismatch               // 401 Phone number does not match order records.

  function HttpStatus(r: TrackResponse): int {
    match r
    case Found(_) => 200
    case MissingParams => 400
    case NotFound => 404
    case PhoneMismatch => 401
  }

  function Sanitize(o: Order): TrackedOrder {
    TrackedOrder(o.friendlyId, o.status, o.createdAt, o.deliveryMethod)
  }

  /** The route. `id` and `phone` are the query parameters. */
  function Track(s: Store, id: Option<string>, phone: Option<string>): (r: TrackResponse)
    requires s.Valid()
    ensures (!Truthy(id) || !Truthy(phone)) <==> r.MissingParams?
    ensures r.NotFound? <==> Truthy(id) && Truthy(phone) && FindByFriendlyId(s, id.value).None?
    ensures r.PhoneMismatch? <==>
      Truthy(id) && Truthy(phone) && FindByFriendlyId(s, id.value).Some?
      && Normalize(FindByFriendlyId(s, id.value).value.customerPhone) != Normalize(phone.value)
    ensures r.Found? ==>
      exists k :: k in s.orders
        && s.orders[k].friendlyId == Some(id.value)
        && Normalize(s.orders[k].customerPhone) == Normalize(phone.value)
        && r.order == TrackedOrder(Some(id.value), s.orders[k].status,
                                   s.orders[k].createdAt, s.orders[k].deliveryMethod)
  {
    if !Truthy(id) || !Truthy(phone) then MissingParams
    else match FindByFriendlyId(s, id.value)
      case None => NotFound
      case Some(o) =>
        if Normalize(o.customerPhone) != Normalize(phone.value) then PhoneMismatch
        else Found(Sanitize(o))
  }

  /** An unknown friendly id is "not found" whatever phone is offered. */
  lemma UnknownIdNotFound(s: Store, id: string, phone1: string, phone2: string)
    requires s.Valid()
    requires id != "" && phone1 != "" && phone2 != ""
    requires forall k :: k in s.orders ==> s.orders[k].friendlyId != Some(id)
    ensures Track(s, Some(id), Some(phone1)) == Track(s, Some(id), Some(phone2)) == NotFound
  {
  }

  /** Formatting does not matter: spaces, dashes and brackets around the
      same digits still match. */
  lemma FormattingIgnored(s: Store, id: string, phone: string, sep: string)
    requires s.Valid()
    requires id != "" && phone != ""
    requires forall i :: 0 <= i < |sep| ==> !Kept(sep[i])
    ensures Track(s, Some(id), Some(sep + phone)) == Track(s, Some(id), Some(phone))
  {
    NormalizeConcat(sep, phone);
    NormalizeNoneKept(sep);
    assert "" + Normalize(phone) == Normalize(phone);
  }

  lemma {:induction false} NormalizeNoneKept(p: string)
    requires forall i :: 0 <= i < |p| ==> !Kept(p[i])
    ensures Normalize(p) == ""
    decreases |p|
  {
    if |p| > 0 {
      NormalizeNoneKept(p[1..]);
    }
  }
}
