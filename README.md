# BoxPaper storefront core, modelled in Dafny

The storefront is a browser application: a catalogue page with a cart, a
checkout page that posts a payment request to a backend function, a local
order history, and a local "account". This project models the parts of it
that carry logic:

- **Order store** (`orders.dfy`, module `Orders`). The `boxpaper_orders`
  storage key is a `Storage.Cell` (missing, unparseable, or a parsed list)
  held by the class `OrderStore`. `SaveOrder`, `DeleteOrder` and
  `UpdateOrderStatus` are read-modify-write methods. Each is tied to a
  function of the old list: prepend, `Deleted` (a filter by id) and
  `StatusUpdated` (a pointwise map). The lemmas are about those functions.
- **Cart** (`cart.dfy`, module `Cart`). `addToCart`, `removeFromCart`,
  `updateQuantity` and the two totals are pure functions over
  `seq<CartItem>`, as the page's `setCart(prev => next)` updates are. The
  cart invariant `WellFormed` (positive quantities, one line per product id)
  is kept by every operation and by any sequence of operations (`Run`).
- **Checkout** (`checkout.dfy`, module `Checkout`). The class `CheckoutPage`
  holds `cart`, the form, the payment method, `isProcessing` and
  `orderComplete`. The network result is a `PaymentOutcome` parameter:
  `Succeeded(orderId)`, `NotSucceeded`, or `Threw(timestamp)`.
  `HandlePayment` states the store, flags and cart after each outcome.
  `ClickPay` is the pay button, which acts only when `CanPay()` holds. The
  module also builds the request body the page posts and proves that the
  backend's validation accepts it.
- **Identity store** (`auth.dfy`, module `Auth`). The class `IdentityStore`
  holds the `boxpaper_auth` cell. It also has the token and user-id
  builders, with the clock and the random source as parameters.
- **Payment handler** (`payment.dfy`, module `Payment`). A pure `Handler`
  from a decoded event to a status code and body: method dispatch, the
  validation of the request models, the order id, the payment URL and the
  result record.

Shared modules: `Wrappers` (Option), `Storage` (the lenient cell), `Seqs`
(filter and map), `Text` (radix printing with its parse-back, slicing with
JavaScript's clamping, ASCII upper-casing) and `PaymentMethods`
(`sbp`/`tbank`/`sber`).

Three behaviours of the code that its types and names do not suggest, all
modelled as the code has them:

- A decrement that would bring a quantity to zero leaves the line and its
  quantity as they were. It does not remove the line
  (src/pages/Index.tsx:66-67; `Cart.UpdateKeepsLines`).
- `deleteOrder` removes every order with the id, not only the first
  (src/lib/orders.ts:44).
- A payment response that parses but has a falsy `success` does not take
  the fallback path. No order is saved, the cart is kept, and `isProcessing`
  stays true, so the pay button stays disabled for the rest of the page's
  life (src/pages/Checkout.tsx:73-95; `Checkout.NotSucceededIsStuck`). Only
  a thrown request or JSON decoding falls back to `ORDER-<timestamp>`.

## Model

| member | source | states |
|---|---|---|
| `Orders.ReadOrders` | src/lib/orders.ts:32-40 | a missing or unparseable record reads as the empty list; a parsed record reads as its list |
| `Orders.Deleted` | src/lib/orders.ts:42-46 | every order left has an id other than the deleted one and came from the list; every order with another id stays |
| `Orders.StatusUpdated` | src/lib/orders.ts:48-54 | same length; matching orders take the new status, the others keep theirs; every field other than `status` is unchanged |
| `Orders.DeletedConcat` | src/lib/orders.ts:44 | deletion distributes over concatenation, so the remaining orders keep their relative order |
| `Orders.DeletedAbsent` | src/lib/orders.ts:44 | deleting an id no order carries leaves the list unchanged |
| `Orders.DeletedIdempotent` | src/lib/orders.ts:42-46 | deleting the same id twice equals deleting it once |
| `Orders.DeletedAfterSave` | src/lib/orders.ts:26-46 | deleting the id of the order just prepended gives the same list as deleting it from the older list |
| `Orders.StatusUpdatedAbsent` | src/lib/orders.ts:50-52 | updating an id no order carries changes nothing |
| `Orders.StatusUpdatedTwice` | src/lib/orders.ts:48-54 | the later of two status updates of one id wins |
| `Orders.DeletedAfterStatusUpdate` | src/lib/orders.ts:42-54 | a status update is invisible once that id is deleted |
| `Orders.OrderStore.constructor` | src/lib/orders.ts:24 | the store starts from whatever the key holds |
| `Orders.OrderStore.GetOrders` | src/lib/orders.ts:32-40 | returns the lenient read of the key |
| `Orders.OrderStore.SaveOrder` | src/lib/orders.ts:26-30 | the key holds a parsed list: the order first, then the previous orders in their order; the length grows by one; on an unparseable or missing record the list is exactly `[order]` |
| `Orders.OrderStore.DeleteOrder` | src/lib/orders.ts:42-46 | the key holds a parsed list, the old list with the id deleted |
| `Orders.OrderStore.UpdateOrderStatus` | src/lib/orders.ts:48-54 | the key holds a parsed list, the old list with the status of matching orders replaced |
| `PaymentMethods.Parse` | backend/payment/index.py:7-10 | a string denotes a method exactly when it is that method's name; every other string denotes none |
| `PaymentMethods.ParseName` | backend/payment/index.py:7-10 | parsing a method's name gives the method back |
| `Cart.AddToCart` | src/pages/Index.tsx:47-57 | `addToCart`; its behaviour is stated by `Cart.AddExisting` (existing id: that line gains a unit), `Cart.AddNew` (new id: a line of quantity 1 at the end), `Cart.AddKeepsWellFormed`, `Cart.AddCountsOne` and `Cart.AddPricesOne` |
| `Cart.RemoveFromCart` | src/pages/Index.tsx:59-61 | `removeFromCart`; stated by `Cart.RemoveDropsExactly` (exactly the lines with the id go), `Cart.RemoveKeepsOrder`, `Cart.RemoveAbsent` and `Cart.RemoveKeepsWellFormed` |
| `Cart.UpdateQuantity` | src/pages/Index.tsx:63-71 | `updateQuantity`; stated by `Cart.UpdateKeepsLines` (no line dropped; a change to a non-positive quantity is ignored) and `Cart.UpdateKeepsWellFormed` |
| `Cart.TotalPrice` | src/pages/Index.tsx:73-75 | `getTotalPrice`, the left fold of `price * quantity`; stated by `Cart.SumOfAppend`, `Cart.SumOfUpdate`, `Cart.SumOfPositive`, `Cart.TotalsOfEmpty` and `Cart.AddPricesOne` |
| `Cart.TotalItems` | src/pages/Index.tsx:77-79 | `getTotalItems`, the left fold of the quantities; stated by `Cart.SumOfAppend`, `Cart.TotalsOfEmpty` and `Cart.AddCountsOne` |
| `Cart.Find` | src/pages/Index.tsx:49 | no result exactly when no line has the id; otherwise the first line with that id |
| `Cart.AddExisting` | src/pages/Index.tsx:49-53 | for a product already in the cart: same length, its line's quantity grows by 1, every other line is unchanged |
| `Cart.AddNew` | src/pages/Index.tsx:55 | for a new product: one line with quantity 1 is appended at the end |
| `Cart.AddKeepsWellFormed` | src/pages/Index.tsx:47-57 | `addToCart` keeps positive quantities and one line per product id |
| `Cart.AddCountsOne` | src/pages/Index.tsx:47-79 | on a cart with one line per id, `addToCart` raises the item count by exactly 1 |
| `Cart.AddPricesOne` | src/pages/Index.tsx:47-75 | `addToCart` raises the total by one unit price: the existing line's price, or the product's for a new line |
| `Cart.SumOfAppend` | src/pages/Index.tsx:73-79 | the left-fold sum of a cart with one more line grows by that line's amount |
| `Cart.SumOfUpdate` | src/pages/Index.tsx:73-79 | replacing one line changes the sum by the difference of the two lines' amounts |
| `Cart.SumOfPositive` | src/pages/Index.tsx:73-75 | a sum of positive line amounts over a non-empty cart is positive |
| `Cart.TotalsOfEmpty` | src/pages/Index.tsx:73-79 | the empty cart has total price 0 and item count 0 |
| `Cart.FilterKeepsDistinct` | src/pages/Index.tsx:60 | dropping lines never puts two lines with one id in the cart |
| `Cart.RemoveDropsExactly` | src/pages/Index.tsx:59-61 | no line with the removed id remains; every line with another id remains |
| `Cart.RemoveKeepsOrder` | src/pages/Index.tsx:60 | removal distributes over concatenation, so the remaining lines keep their order |
| `Cart.RemoveAbsent` | src/pages/Index.tsx:60 | removing an id with no line changes nothing |
| `Cart.RemoveKeepsWellFormed` | src/pages/Index.tsx:59-61 | `removeFromCart` keeps the cart invariant |
| `Cart.UpdateKeepsLines` | src/pages/Index.tsx:63-71 | with positive quantities: same length; a matching line takes `quantity + delta` when that is positive and otherwise keeps its quantity; other lines are unchanged |
| `Cart.UpdateKeepsWellFormed` | src/pages/Index.tsx:63-71 | `updateQuantity` keeps the cart invariant for every delta |
| `Cart.RunKeepsWellFormed` | src/pages/Index.tsx:47-71 | after any sequence of add, remove and quantity changes, quantities are positive and ids distinct |
| `Text.Radix` | src/lib/auth.ts:13 | a number printed in a radix is non-empty, made of that radix's digits, and starts with '0' only for zero |
| `Text.RadixRoundTrip` | src/lib/auth.ts:13 | reading a printed number back gives the number |
| `Text.RadixInjective` | src/pages/Checkout.tsx:98 | different numbers print differently |
| `Text.Prefix` | src/lib/auth.ts:15 | `substring(0, n)` / `[:n]` yields the first `min(n, length)` characters |
| `Text.Substring` | src/lib/auth.ts:14 | `substring(start, end)` is the slice between the bounds once each is clamped to the string and the two are put in order: the plain slice in range, the tail from `start` when `end` passes the end (as for a short `Math.random().toString(36)`), the slice between the swapped bounds, the head up to `end` for a negative `start`, and empty when both bounds lie on the same side of the string |
| `Text.ToUpperConcat` | src/lib/auth.ts:15 | upper-casing distributes over concatenation |
| `Checkout.IsFormValid` | src/pages/Checkout.tsx:121-124 | `isFormValid`; stated by `Checkout.PostalCodeNotRequired` and `Checkout.FormValidIffCustomerValid` (the same forms as the backend accepts) |
| `Checkout.RequestOf` | src/pages/Checkout.tsx:63-68 | the body posted to the payment endpoint; stated by `Checkout.RequestAccepted` (a valid checkout is always accepted) |
| `Checkout.OrderOf` | src/pages/Checkout.tsx:74-87 | the order saved after payment; its fields are stated field by field by `Checkout.CheckoutPage.HandlePayment` |
| `Checkout.PostalCodeNotRequired` | src/pages/Checkout.tsx:121-124 | the postal code does not affect the form's validity |
| `Checkout.FormValidIffCustomerValid` | src/pages/Checkout.tsx:121-124 | the page's form check accepts exactly the forms the backend's `CustomerInfo` validation accepts |
| `Checkout.RequestAccepted` | src/pages/Checkout.tsx:63-68 | from a non-empty cart of positive prices and quantities and a valid form, the posted body always passes the backend's validation |
| `Checkout.FallbackOrderId` | src/pages/Checkout.tsx:98 | the fallback id is `ORDER-` followed by at least one character |
| `Checkout.FallbackIdsDistinct` | src/pages/Checkout.tsx:98 | fallback ids made at different milliseconds differ |
| `Checkout.CheckoutPage.constructor` | src/pages/Checkout.tsx:30-41 | empty form, method `sbp`, not processing, not complete |
| `Checkout.CheckoutPage.CanPay` | src/pages/Checkout.tsx:412 | the pay button is shown and enabled exactly when the checkout is not complete, the cart is non-empty, the form is valid and no payment is processing |
| `Checkout.CheckoutPage.EditField` | src/pages/Checkout.tsx:47-52 | one form field takes the new value; nothing else changes |
| `Checkout.CheckoutPage.ChoosePaymentMethod` | src/pages/Checkout.tsx:306 | the method changes; nothing else does |
| `Checkout.CheckoutPage.Complete` | src/pages/Checkout.tsx:90-94 | processing ends, the confirmation shows, the cart is cleared |
| `Checkout.CheckoutPage.HandlePayment` | src/pages/Checkout.tsx:54-119 | on success or a thrown request: the stored record parses and holds exactly one more order, prepended, with the response's or the fallback id, the date, the cart as items, the cart total, status pending, the chosen method and the four address fields; then the page is complete with an empty cart. On a non-success response: the store, the cart and `orderComplete` are unchanged and `isProcessing` is true. Afterwards the button is never enabled |
| `Checkout.CheckoutPage.ClickPay` | src/pages/Checkout.tsx:410-412 | an enabled click has the effect of `handlePayment`, form and payment method kept; a disabled click changes nothing; at most one order is added and the button is disabled afterwards |
| `Checkout.ClickPayTwice` | src/pages/Checkout.tsx:55 | two clicks in a row add at most one order |
| `Checkout.NotSucceededIsStuck` | src/pages/Checkout.tsx:73-95 | after a non-success response the page stays processing, saves nothing and keeps the cart, whatever is clicked next |
| `Checkout.UnreachableEndpointScenario` | src/pages/Checkout.tsx:96-117 | one line of price 350 and quantity 2 with a request that throws at any millisecond saves one pending order of 700, dated now, with that millisecond's fallback id, and completes the page |
| `Auth.GenerateUserId` | src/lib/auth.ts:18-20 | a user id starts with `user_` |
| `Auth.GenerateToken` | src/lib/auth.ts:10-16 | `generateToken`; stated by `Auth.TokenShape` (its parts, the `BXPP_` prefix, no lower-case letter) and `Auth.NewUserTokenStart` |
| `Auth.TokenShape` | src/lib/auth.ts:10-16 | a token is `BXPP_` followed by the upper case of the first 8 characters of the user id, the base-36 time and the random part, separated by `_`; it starts with `BXPP_` and has no lower-case letter |
| `Auth.NewUserTokenStart` | src/lib/auth.ts:22-24 | the token made for a freshly generated user id starts with `BXPP_USER_` |
| `Auth.IdentityStore.constructor` | src/lib/auth.ts:9 | the store starts from whatever the key holds |
| `Auth.IdentityStore.CreateAccount` | src/lib/auth.ts:22-36 | the returned user has the given name and email, a generated id and token and the creation time; it replaces whatever was stored |
| `Auth.IdentityStore.Login` | src/lib/auth.ts:38-52 | returns the stored user exactly when a parsed record exists and its email matches; the password plays no part |
| `Auth.IdentityStore.GetCurrentUser` | src/lib/auth.ts:54-63 | returns the stored user when the record parses, and no user otherwise |
| `Auth.IdentityStore.Logout` | src/lib/auth.ts:65-67 | the record is removed |
| `Auth.IdentityStore.IsAuthenticated` | src/lib/auth.ts:69-71 | true exactly when the current-user read finds a user |
| `Auth.IdentityStore.GetAuthToken` | src/lib/auth.ts:73-75 | returns the stored token, or none when there is no user or the token is empty |
| `Auth.SignUpThenLogOut` | src/lib/auth.ts:22-75 | after sign-up the current user is the created one and its token is returned and starts with `BXPP_`; after logout there is no current user and no authentication |
| `Payment.ItemsValid` | backend/payment/index.py:13-18 | every item has a price above zero and a quantity above zero |
| `Payment.ValidateCustomer` | backend/payment/index.py:21-27 | accepted exactly when the five required fields are non-empty; the postal code defaults to "" |
| `Payment.Validate` | backend/payment/index.py:30-34 | accepted exactly when the amount is positive, the method is `sbp`, `tbank` or `sber`, the customer is valid, and there is at least one item and every item is valid; the accepted request echoes the body |
| `Payment.OrderId` | backend/payment/index.py:79 | `ORDER-` followed by the upper case of at most 8 leading characters of the request id, character by character; no lower-case letter follows the prefix |
| `Payment.PaymentUrl` | backend/payment/index.py:81-85 | the URL starts with the method's base and the order id follows it |
| `Payment.ResultOf` | backend/payment/index.py:79-100 | the result of an accepted payment; stated field by field by `Payment.AcceptedResult`, with `Payment.OrderId` and `Payment.PaymentUrl` |
| `Payment.Handler` | backend/payment/index.py:49-124 | the endpoint; stated by `Payment.HandlerStatus` (which status for which request), `Payment.OptionsIsEmpty`, `Payment.MissingMethodRefused` and `Payment.AcceptedResult` |
| `Payment.HandlerStatus` | backend/payment/index.py:49-124 | 200 exactly for OPTIONS or an accepted POST; 405 exactly for a method other than OPTIONS and POST, a missing one included; 400 exactly for a POST that does not decode or validate |
| `Payment.OptionsIsEmpty` | backend/payment/index.py:51-62 | OPTIONS gets 200 with an empty body |
| `Payment.MissingMethodRefused` | backend/payment/index.py:49 | a missing method is treated as GET and gets 405 |
| `Payment.AcceptedResult` | backend/payment/index.py:75-110 | an accepted POST gets 200 with `success`, status `pending`, the generated order id, the amount and method echoed, the item count, the customer's name, email and phone, and the payment URL: the method's base, then the order id, then `&amount=` and the formatted amount |
| `Payment.UrlIdentifiesMethod` | backend/payment/index.py:81-85 | different methods give different payment URLs |
| `Payment.AmountNotMatchedToItems` | backend/payment/index.py:31 | some request is accepted although its amount is not its items' total: only the amount's sign is checked |

## Left out

- JSX rendering. The checkout's choice of screen is kept (`CheckoutPage.Screen`). The catalogue page's menu, section and local sign-in toggle are left out. So are the hard-coded catalogue, src/pages/Orders.tsx (a display page over `getOrders`/`deleteOrder`) and the routing in src/App.tsx. App's `clearCart` is folded into `CheckoutPage.Complete`.
- `fetch` and `response.json()` become the `PaymentOutcome` parameter. The 1500 ms timer before completion collapses into one `Complete` step. `Date.now()`, `new Date().toISOString()` and `Math.random()` are parameters.
- `JSON.parse`/`JSON.stringify` and `localStorage` become the three-way `Storage.Cell`. A record that parses to a value of another shape is not modelled. Examples: `null` under the orders key, on which `saveOrder` would throw; an object lacking the user fields under the auth key.
- React applies `setIsProcessing(true)` at the next render, not at once. Two clicks landing before that render are not modelled; the model treats the flag as set immediately.
- A `saveOrder` that throws inside the `try` block (for example when storage is full) would go on to the fallback branch. This is not modelled. Two tabs writing the same key is not modelled either.
- The catalogue page's `CartItem` also carries the product's `category` and `badge`, copied by the spread. They are not modelled because no modelled code reads them.
- JavaScript numbers are doubles; prices, quantities and totals are unbounded integers here. The backend's `amount` and `price` are reals, and only their sign is checked. The float formatting of `amount` in the payment URLs is the `formatAmount` parameter.
- Python side: the CORS headers, `json.dumps` and the 400 response's `message` text (`str(e)`) are left out. A body that pydantic coerces and accepts (a quantity sent as `"2"`, say) is represented by its coerced `Payment.Body.Decoded` value; only a body that is not JSON, or that pydantic rejects for a missing or wrongly typed field, becomes `Payment.Body.Undecodable`.
- Text.ToUpper: maps only the ASCII letters. Every string it is applied to here is ASCII (ids, base-36 digits, request ids), but `toUpperCase`/`upper` on other letters is not modelled.
- Checkout's own `getTotalPrice` (src/pages/Checkout.tsx:43-45) is the same fold as the catalogue page's; both are `Cart.TotalPrice`.
