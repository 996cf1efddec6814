# Supreme Stamps order lifecycle in Dafny

A Dafny model of the logic behind the Supreme Stamps storefront. The
storefront sells custom rubber stamps, priced in whole UAE dirhams (AED).
A customer configures a stamp, which is priced, and puts it in a cart. The
order route validates the submission and stores an `Order` under a friendly
id `SS-XXXXXX`, which it returns. The checkout route opens a Stripe checkout
session for an order it looks up by internal id; since the storefront posts
it the friendly id, that lookup fails as the code is written (see
"## Findings"), and the chain is modelled with the id resolved through the
friendly-id index.
Stripe's webhook moves the order's payment state. After that, the customer
can verify the session or track the order by friendly id and phone number.
Transactional e-mails go out along the way. The admin area is guarded by a
middleware.

The persistence layer is one immutable `Store`. It holds a finite map from
internal id to `Order`, plus the unique index from friendly id to internal
id. The invariant `Store.Valid` ties the two together, and every operation
that writes preserves it. Every route is a pure function from the store and
its request to a response and the next store. Everything outside the program
is a parameter:

- the e-mail format check of `z.string().email()`;
- the `nanoid` draw, as six alphabet positions;
- the internal id and the creation timestamp;
- Stripe's `checkout.sessions.create`, `checkout.sessions.retrieve` and
  `webhooks.constructEvent`;
- Mailgun's `messages.create`;
- `jwtVerify`.

Files and modules:

- `wrappers.dfy`: `Wrappers`, `Option` and JavaScript truthiness of optional strings.
- `stamp.dfy`: `Stamp`, the shapes, colours, `StampConfig` and `Partial<StampConfig>`.
- `pricing.dfy`: `Pricing`, `calculatePrice`.
- `stamp_config.dfy`: `StampConfigHook`, the defaults of `useStampConfig`, the override and the derived prices.
- `cart.dfy`: `Cart`, add, remove, clear and total on the cart list.
- `decimal.dfy`: `Decimal`, how a whole number prints inside a template literal.
- `order_model.dfy`: `OrderModel`, `Order`, `OrderItem`, the statuses, and the store with its friendly-id index.
- `friendly_id.dfy`: `FriendlyId`, generating and reading back `SS-` ids.
- `order_submission.dfy`: `OrderSubmission`, `POST /api/orders`.
- `checkout.dfy`: `Checkout`, `POST /api/stripe/checkout`.
- `email_templates.dfy`, `email_service.dfy`: `EmailTemplates` and `EmailService`, the three e-mails.
- `webhook.dfy`: `Webhook`, `POST /api/stripe/webhook`.
- `verify_session.dfy`: `VerifySession`, `GET /api/stripe/verify-session`.
- `tracking.dfy`: `Tracking`, `GET /api/orders/track`.
- `middleware.dfy`: `AdminMiddleware`, the `/admin` guard.
- `lifecycle.dfy`: `Lifecycle`, the create → checkout → paid → track chain,
  and the failing checkout of the id the order route returns.

Behaviours of the code worth noting:

- The order route does not require an address for a delivery order
  (`OrderSubmission.AddressNotRequired`).
- zod's minimum lengths count UTF-16 code units, so a phone of three emoji
  passes the five-character minimum (`OrderSubmission.PhoneLengthInUtf16`).
- The Stripe session charges the stored items' prices; the client-sent
  `totalPrice` is stored but never charged (`Checkout.SessionChargesOrderItems`).
- `normalize` keeps a `+` at any position, not only a leading one
  (`Tracking.Normalize`).
- The webhook has no idempotency guard. A redelivered completed event sends
  both e-mails again (`Webhook.CompletedRedeliveryRepeatsEmails`).
- An unknown order id in a webhook event makes the database update throw.
  The route then answers 500 and changes nothing (`Webhook.HandleCompleted`).

## Model

| member | source | states |
|---|---|---|
| Pricing.CalculatePrice | src/lib/pricing.ts:5-21 | base price 149 always; logo surcharge 49 exactly when `hasLogo` is present and true, 0 when false or missing; total = base + logo, so 149 or 198 |
| Pricing.PriceDependsOnlyOnLogo | src/lib/pricing.ts:8-15 | two configurations that agree on `hasLogo` (missing counts as false) get identical prices, whatever else differs |
| Pricing.TotalByLogo | src/lib/pricing.test.ts:6-17 | total is 149 if and only if there is no logo, and 198 if and only if there is one |
| StampConfigHook.Merge | src/features/configurator/hooks/use-stamp-config.ts:6-21 | each field given in `initialConfig` replaces the default; each field not given keeps the default |
| StampConfigHook.UseStampConfig | src/features/configurator/hooks/use-stamp-config.ts:5-31 | state is the defaults overridden by `initialConfig`; base/logo/total prices follow the state's `hasLogo`; without a `hasLogo` override the total is 149 |
| StampConfigHook.DefaultHookState | src/features/configurator/hooks/use-stamp-config.ts:6-19 | with no overrides: round, blue, "Dubai", no logo, license number shown, no trade license, total 149 |
| StampConfigHook.HookPricesAgree | src/features/configurator/hooks/use-stamp-config.ts:23-30 | the returned prices are the ones `calculatePrice` gives the hook's own state |
| StampConfigHook.FullConfigIsKept | src/features/configurator/hooks/use-stamp-config.ts:6-27 | after `setConfig` replaces the state with a complete configuration, that configuration is the state: merging a complete configuration over any base gives it back |
| Cart.AddToCart | src/lib/cart-context.tsx:42-49 | appends exactly one item (fresh id, given config and price) after the unchanged earlier items; total grows by exactly the price |
| Cart.RemoveFromCart | src/lib/cart-context.tsx:51-53 | no surviving item carries the removed id; the cart never grows |
| Cart.RemoveMembership | src/lib/cart-context.tsx:52 | an item survives removal if and only if it was in the cart and carries another id |
| Cart.RemoveKeepsOrder | src/lib/cart-context.tsx:52 | the surviving items keep their relative order (subsequence of the cart) |
| Cart.RemoveDistributes | src/lib/cart-context.tsx:52 | removal on a concatenation is the concatenation of the removals (filter semantics) |
| Cart.RemoveAbsentIsIdentity | src/lib/cart-context.tsx:51-53 | removing an id no item carries leaves the cart unchanged |
| Cart.RemoveTotal | src/lib/cart-context.tsx:51-59 | after removal the total drops by exactly the prices of the items carrying that id |
| Cart.ClearCart | src/lib/cart-context.tsx:55-57 | clearing yields the empty cart, whose total is 0 |
| Cart.CartTotal | src/lib/cart-context.tsx:59 | the total of non-negative prices is non-negative, and a one-item cart totals that item's price |
| Cart.CartTotalConcat | src/lib/cart-context.tsx:59 | the total of two joined carts is the sum of their totals |
| Cart.RemoveKeepsDistinct | src/lib/cart-context.tsx:51-53 | removal keeps item ids pairwise distinct |
| Cart.IdsStayDistinct | src/lib/cart-context.tsx:42-57 | if every added id is fresh, ids stay pairwise distinct across any sequence of add/remove/clear |
| Decimal.ParseNatToString | src/lib/email-templates.ts:48 | the decimal rendering of a whole amount reads back as the same number |
| Decimal.AedTextInjective | src/lib/email-templates.ts:98 | different amounts print as different `AED n.00` texts |
| FriendlyId.Generate | src/app/api/orders/route.ts:6-7 | every generated id is `SS-` followed by 6 characters of `0-9A-Z`, the i-th being the alphabet's character at the i-th drawn position |
| FriendlyId.Parse | src/app/api/orders/route.ts:43 | a string parses if and only if it has the `SS-XXXXXX` shape, and then yields a valid draw |
| FriendlyId.ParseGenerate | src/app/api/orders/route.ts:43 | parsing a generated id recovers the draw |
| FriendlyId.GenerateParse | src/app/api/orders/route.ts:43 | every well-shaped id is the one generated from its parsed draw |
| OrderSubmission.ParseDeliveryMethod | src/app/api/orders/route.ts:29 | accepts exactly "DELIVERY" and "PICKUP", and reads back to the same text |
| OrderSubmission.Utf16Length | src/app/api/orders/route.ts:26-28 | a string's JavaScript length lies between its character count and twice that |
| OrderSubmission.Utf16LengthBmp | src/app/api/orders/route.ts:28 | characters of the Basic Multilingual Plane count one unit each |
| OrderSubmission.Utf16LengthAstral | src/app/api/orders/route.ts:28 | characters outside the Basic Multilingual Plane count two units each |
| OrderSubmission.PhoneLengthInUtf16 | src/app/api/orders/route.ts:28 | a three-character phone passes the minimum of 5 if its characters are emoji and fails if they are ordinary characters |
| OrderSubmission.ParseItem | src/app/api/orders/route.ts:10-22 | an item passes if and only if shape, colour, logo flag and price are present and neither price part is `null`; the parsed item carries the sent values |
| OrderSubmission.FieldErrors | src/app/api/orders/route.ts:10-33 | per-field rules: name missing or empty; email present, non-empty and not an e-mail; phone missing or shorter than 5 UTF-16 units; method not DELIVERY/PICKUP; items missing, empty, or some item failing its schema; total missing; address never fails |
| OrderSubmission.Validate | src/app/api/orders/route.ts:25-40 | accepted if and only if no field fails, else rejected with exactly the failing fields; an accepted payload carries the sent name, phone, e-mail, address, method and total, and the parsed items in order |
| OrderSubmission.ToOrderItem | src/app/api/orders/route.ts:58-68 | shape, colour, logo flag and price copied; each optional string stored as null exactly when falsy |
| OrderSubmission.ToOrderItems | src/app/api/orders/route.ts:58 | one stored item per requested item, in order |
| OrderSubmission.NewOrder | src/app/api/orders/route.ts:47-70 | status PENDING; client total stored as sent; empty email and empty address stored as null; items mapped one for one |
| OrderSubmission.CreateOrder | src/app/api/orders/route.ts:35-82 | 400 if and only if some field fails, with exactly those fields; 500 if and only if the payload is valid but the internal or generated friendly id is taken; created exactly otherwise. Failures store nothing. On success the response carries the generated friendly id, the one new record is `NewOrder` of the validated payload (pending, payment pending, phone, e-mail null exactly when empty, total, items), the index gains that friendly id, the other orders are untouched, and the store stays valid |
| OrderSubmission.RejectedPayloads | src/app/api/orders/route.ts:26-31 | empty name, phone under 5 characters, unknown delivery method or empty items each alone gives 400 and no change |
| OrderSubmission.AddressNotRequired | src/app/api/orders/route.ts:30 | a payload without address that is otherwise valid is accepted and stored with a null address |
| OrderModel.FindByFriendlyId | src/app/api/orders/track/route.ts:16-25 | finds the stored order bearing the friendly id; `None` exactly when no stored order bears it |
| OrderModel.UpdateOrder | src/app/api/stripe/webhook/route.ts:126-131 | an update of an existing order replaces just that record and keeps the store valid; a missing id fails |
| OrderModel.MetadataId | src/app/api/stripe/webhook/route.ts:82-87 | the order id read from a Stripe object's metadata is present if and only if the metadata has a non-empty `orderId`, and is that value |
| Checkout.ProductName | src/app/api/stripe/checkout/route.ts:35 | `<shape> Stamp`, plus ` with Custom Logo` exactly for logo items |
| Checkout.ToLineItem | src/app/api/stripe/checkout/route.ts:31-45 | quantity 1, currency aed, unit amount = price × 100 fils, description = company name if non-empty else "Custom Company Stamp", colour/shape metadata |
| Checkout.ToLineItems | src/app/api/stripe/checkout/route.ts:31 | one line item per order item, in order |
| Checkout.OrderMetadata | src/app/api/stripe/checkout/route.ts:56-59 | exactly the keys orderId (internal id) and friendlyId (empty string when missing) |
| Checkout.BuildSessionRequest | src/app/api/stripe/checkout/route.ts:48-66 | the same metadata on the session and on the payment intent; client reference is the internal id |
| Checkout.AttachSession | src/app/api/stripe/checkout/route.ts:69-75 | only `paymentId` (the session id) and `paymentStatus` (pending) change |
| Checkout.StartCheckout | src/app/api/stripe/checkout/route.ts:5-89 | 400 if and only if no order id, 404 if and only if the order is unknown, 500 if Stripe fails; none of these changes the store; on success the order records the session and payment pending |
| Checkout.StartCheckoutByFriendlyId | src/app/api/stripe/checkout/route.ts:5-89 | corrected entry: 400 if and only if no id; 404 when no order bears the friendly id; on success the order bearing it records the session and only that order changes, the index kept |
| Checkout.LineItemsFollowItems | src/app/api/stripe/checkout/route.ts:31-45 | for every item: quantity 1, amount in fils, and the logo suffix if and only if the item has a logo |
| Checkout.ChargeIsItemsInFils | src/app/api/stripe/checkout/route.ts:31-45 | the line items charge exactly 100 fils per dirham of the summed item prices |
| Checkout.SessionChargesOrderItems | src/app/api/stripe/checkout/route.ts:31-45 | the session built for a stored order charges 100 times the sum of its items' prices, independent of the client-sent total |
| EmailTemplates.RenderItem | src/lib/email-templates.ts:44-56 | heading `Item <n+1>: <shape> Stamp`, price `AED <price>.00`, company line if and only if the company name is non-empty, logo marker if and only if `hasLogo` |
| EmailTemplates.RenderItems | src/lib/email-templates.ts:44 | one block per item, the i-th block rendered from the i-th item at position i |
| EmailTemplates.HeadingsDistinct | src/lib/email-templates.ts:47 | blocks at different positions never share a heading, whatever their shapes |
| EmailTemplates.ItemBlocksNumbered | src/lib/email-templates.ts:44-48 | headings start with "Item ", differ between blocks, and two price texts match if and only if the prices match |
| EmailTemplates.Location | src/lib/email-templates.ts:104-113 | address block if and only if the method is DELIVERY and the address is non-empty; pickup location otherwise |
| EmailTemplates.OrderConfirmationEmail | src/lib/email-templates.ts:43-147 | shows the order id, the item blocks, total `AED <total>.00`, the Delivery/Pickup label and the location section |
| EmailTemplates.PaymentReceiptEmail | src/lib/email-templates.ts:149-197 | contains the order id, the payment id and `AED <total>.00` |
| EmailTemplates.StatusColor | src/lib/email-templates.ts:202-208 | PROCESSING #007bff, DELIVERED #28a745, CANCELLED #dc3545, anything else #6c757d |
| EmailTemplates.StatusColorsDistinct | src/lib/email-templates.test.ts:118-138 | the three named statuses get three different colours, none of them the fallback |
| EmailTemplates.OrderStatusUpdateEmail | src/lib/email-templates.ts:199-257 | shows the order id, the new status, its message and the status colour |
| EmailService.DisplayId | src/lib/email-service.ts:38 | the friendly id when non-null and non-empty, otherwise the internal id |
| EmailService.ToEmailData | src/lib/email-service.ts:37-45 | the template gets the display id, the customer name, the total, the delivery method's stored spelling, the creation time and every item with its shape, colour, company, price and logo flag in order; the address exactly when it is non-empty, and then the stored one |
| EmailService.Deliver | src/lib/email-service.ts:47-60 | the message is attempted; success with the provider's id, or failure when the provider throws; never "no email" |
| EmailService.SendOrderConfirmation | src/lib/email-service.ts:30-61 | no email: "No email provided" and nothing sent; otherwise sent to exactly `[email]`, subject `Order Confirmed - <id>`, confirmation body with that id and total; provider failure returned as failure |
| EmailService.SendPaymentReceipt | src/lib/email-service.ts:66-98 | same guard; subject `Payment Receipt - <id>`; receipt body with order id, payment id and amount |
| EmailService.SendOrderStatusUpdate | src/lib/email-service.ts:103-140 | same guard; subject `Order Update: <status> - <id>`; body with the status colour and message |
| EmailService.SendersAgree | src/lib/email-service.ts:31-49 | the three send functions agree on whether they send, and all send to the same single recipient |
| EmailService.ToEmailItem | src/lib/email-service.ts:37-45 | a template item carries the stored item's shape, colour, company, price and logo flag |
| EmailService.ConfirmationShowsOrder | src/lib/email-templates.ts:43-56 | the confirmation for an order with an address shows its display id, customer, AED total and one block per stored item, numbered in order, with that item's AED price and logo marker |
| Webhook.MetadataOrderId | src/app/api/stripe/webhook/route.ts:82-87 | the order id is present if and only if the metadata has a non-empty `orderId` |
| Webhook.HandleCompleted | src/app/api/stripe/webhook/route.ts:81-110 | no order id: nothing happens. Unknown order: 500, nothing changes. Known order: status PAID, payment paid, payment id = session id, then confirmation and receipt attempted in that order. Store stays valid |
| Webhook.SetPaymentStatus | src/app/api/stripe/webhook/route.ts:115-154 | only the named order's payment status changes; a missing order id changes nothing; an unknown order gives 500 and no change |
| Webhook.Dispatch | src/app/api/stripe/webhook/route.ts:43-75 | a completed event for a stored order marks it paid and attempts the confirmation then the receipt for the paid order; an expired event sets the named order's payment status to expired and a failed payment to failed, nothing else, no e-mail; for all three kinds, no order id: acknowledged, no change, and unknown order: 500, no change; any unrecognised type is acknowledged and changes nothing |
| Webhook.Post | src/app/api/stripe/webhook/route.ts:7-76 | missing signature 400, missing secret 500, failed verification 400, handler failure 500: in every one of these nothing changes and no e-mail is attempted; a verified event is handed to the dispatch |
| Webhook.RejectedEventsChangeNothing | src/app/api/stripe/webhook/route.ts:11-41 | an event failing the signature gate never mutates any order, whatever its body |
| Webhook.ExpiryAndFailureKeepStatus | src/app/api/stripe/webhook/route.ts:126-153 | expired/failed events never change `status`; every order differs at most in payment status; the named stored order gets expired/failed and the event is acknowledged |
| Webhook.CompletedRedeliveryRepeatsEmails | src/app/api/stripe/webhook/route.ts:81-110 | a redelivered completed event rewrites the same state and attempts the same two e-mails again |
| Webhook.VerifiedExpiryOrFailure | src/app/api/stripe/webhook/route.ts:52-62 | at the route, a verified expiry or payment-failure event for a stored order is acknowledged, sets its payment status to expired or failed, keeps its status and every other order, and sends nothing |
| Webhook.CompletedConfirmationShowsOrder | src/app/api/stripe/webhook/route.ts:100-103 | the confirmation sent for a completed payment shows the stored order's display id and each stored item's AED price in order |
| VerifySession.SessionOrderId | src/app/api/stripe/verify-session/route.ts:27-31 | the session's order id is present if and only if its metadata has a non-empty `orderId`, and is that value |
| VerifySession.Get | src/app/api/stripe/verify-session/route.ts:5-68 | 400 if and only if there is no session id; 500 if and only if Stripe's retrieve throws; 400 if and only if not paid; 400 with no order id; 404 for an unknown order; success reports exactly that order's id, friendly id, status and payment status |
| VerifySession.UnpaidRefusedBeforeMetadata | src/app/api/stripe/verify-session/route.ts:20-34 | an unpaid session is refused whatever its metadata and whatever the store |
| Tracking.Normalize | src/app/api/orders/track/route.ts:33 | the result contains only digits and `+` and is no longer than the input |
| Tracking.NormalizeMembership | src/app/api/orders/track/route.ts:33 | a character survives if and only if it occurs in the input and is a digit or `+` |
| Tracking.NormalizeConcat | src/app/api/orders/track/route.ts:33 | normalization works piecewise on concatenations, so kept characters stay in order at any position |
| Tracking.NormalizeKeepsClean | src/app/api/orders/track/route.ts:33 | a string of only digits and `+` is left unchanged |
| Tracking.NormalizeIdempotent | src/app/api/orders/track/route.ts:33 | normalizing twice is normalizing once |
| Tracking.Track | src/app/api/orders/track/route.ts:6-53 | 400 if and only if id or phone is missing; 404 if and only if no order bears the id; 401 if and only if the normalized phones differ; on a match only friendly id, status, creation time and delivery method, never the phone |
| Tracking.UnknownIdNotFound | src/app/api/orders/track/route.ts:27-29 | an unknown friendly id gives 404 whatever the phone |
| Tracking.FormattingIgnored | src/app/api/orders/track/route.ts:31-36 | prefixing the phone with non-digit, non-`+` characters does not change the answer |
| AdminMiddleware.Middleware | src/middleware.ts:5-45 | non-`/admin` paths pass; login page redirects to `/admin` for a valid token, else passes; other admin paths: no token → login, valid → pass, invalid → login with the cookie deleted |
| AdminMiddleware.AdminPagesNeedValidToken | src/middleware.ts:26-41 | a protected admin page passes if and only if a valid token is present; the cookie is cleared if and only if a token was presented and rejected |
| AdminMiddleware.LoginNeverBlocked | src/middleware.ts:11-24 | the login page either shows or redirects to the dashboard |
| AdminMiddleware.Route | src/middleware.ts:47-49 | the guard runs exactly for `/admin` and the paths below it; any other path passes |
| AdminMiddleware.MatchedPagesNeedValidToken | src/middleware.ts:26-49 | every matched page other than the login page is served if and only if a valid token is present, and `/administrator` is never guarded |
| Lifecycle.CreateStep | src/app/api/orders/route.ts:42-73 | a successful submission stores the order under its internal id with the submitted phone, the creation time and the returned friendly id, and the store stays valid |
| Lifecycle.CheckoutStep | src/app/api/stripe/checkout/route.ts:66-80 | when Stripe creates the session, the response carries its id and URL and only that order changes, recording the session |
| Lifecycle.ReturnedIdNotFound | src/app/api/stripe/checkout/route.ts:17-27 | as written: posting the friendly id the order route returned to the checkout route answers 404 and changes nothing, whenever that friendly id is not also an internal id |
| Lifecycle.ReturnedIdChecksOut | src/app/api/stripe/checkout/route.ts:17-80 | corrected: the friendly id of a stored order, resolved through the index, checks that order out when Stripe creates the session |
| Lifecycle.PayAndTrack | src/app/api/stripe/webhook/route.ts:81-100 | from a stored order: checkout by friendly id, then the completed event, leave it PAID with the session as payment id and trackable by friendly id and phone |
| Lifecycle.CompletedStep | src/app/api/stripe/webhook/route.ts:44-50 | a verified completed event whose metadata names a stored order is acknowledged and marks exactly that order paid |
| Lifecycle.TrackStep | src/app/api/orders/track/route.ts:15-40 | tracking a stored order by its friendly id with its own phone finds it |
| Lifecycle.PaidOrderIsTrackable | src/app/api/stripe/webhook/route.ts:81-100 | create, then checkout with the returned friendly id resolved through the index (the corrected checkout entry), then Stripe echoes the checkout metadata in a completed event: the order is PAID with the session as payment id, and tracking with the submitted phone shows PAID |

## Findings

| source | as written | input that shows it | evidently intended | confidence | as-written member | corrected member |
|---|---|---|---|---|---|---|
| src/app/api/orders/route.ts:73, src/app/(shop)/checkout/page.tsx:91, src/app/api/stripe/checkout/route.ts:19 | the order route returns `orderId: order.friendlyId`, the storefront posts that value to the checkout route, which looks it up with `findUnique({ where: { id: orderId } })` | any successfully created order whose friendly id, e.g. `SS-ABC123`, is not also an internal id: checkout answers 404 "Order not found" | the checkout route finds the order the order route just created | high; not executed | Lifecycle.ReturnedIdNotFound | Checkout.StartCheckoutByFriendlyId (with Lifecycle.ReturnedIdChecksOut, used by Lifecycle.PaidOrderIsTrackable) |

## Left out

- React components, layout, animation and the admin pages: rendering only.
- The admin order-status PATCH route and admin login: these are not part of this model. The TOTP check and JWT signing are cryptography; only `jwtVerify`'s boolean outcome enters `AdminMiddleware`.
- Loading and saving the cart in `localStorage`, and its JSON parsing: I/O.
- Stripe, Mailgun and Prisma client setup, the `from` address, redirect URLs and the session URL's contents: environment configuration. Stripe and Mailgun calls are oracle parameters.
- The HMAC signature algorithm inside `constructEvent`: only its outcome is modelled.
- Date formatting, the current year in the footer, and all static HTML/CSS: templates are modelled as the data-dependent content they show.
- Concurrency and last-write-wins between webhook and admin writes: every route is one atomic step. A database failure of the checkout route's final update (500 after Stripe created a session) is not modelled.
- Database failures other than a missing row and an id collision (a lost connection, a timeout) are not modelled. The routes answer 500 from their `catch` blocks for any thrown Prisma call; in the model the order route's 500 comes only from an id collision, the tracking route never answers 500, and the verify-session route's 500 comes only from Stripe's `retrieve` throwing.
- A request body that is not valid JSON makes `req.json()` throw, and the order and checkout routes answer 500; an `orderId` that is not a string reaches Prisma, which throws, giving 500 as well. Neither is modelled: the payloads are typed records, so such bodies are not representable.
- The payment status a new order starts with comes from the database schema default, which is not part of this model. It is taken to be `pending`.
- `Math.round(price * 100)` and `${price}.00` for non-integer prices: prices are whole AED, as in every value the code and its tests use. Prices are also JavaScript doubles: they lose precision above 2^53 and `${n}` prints exponent notation (`1e+21`) from 10^21 on. The model's prices are unbounded integers, so `Decimal.AedTextInjective` and `price * 100` hold only for amounts below those limits in the program.
- Checkout.ToLineItem: states `price * 100` and does not model `Math.round` on fractional prices, because prices are whole AED.
- OrderSubmission.Validate: reports the set of failing top-level fields, not zod's messages or the nested path inside an item. A field sent with the wrong JSON type (a number for the name, a string for the price), or `null` for the e-mail or a top-level key, is not representable in the typed payload. Missing required item keys and `null` base or logo prices are modelled and reported under `items`.
- StampConfigHook.Merge: a key present in `initialConfig` with value `undefined` is representable only for the interface's optional properties. For required ones it is treated as absent.
- EmailTemplates.StatusColor: a status equal to an `Object.prototype` key (such as `constructor`) would read an inherited property in JavaScript. The model gives the fallback colour.
- `sendOrderStatusUpdate`'s caller and its per-status messages are not among the modelled files.
