# E-commerce order and payment core, modelled in Dafny

This project models the order and payment path of a small storefront: an Express
backend over a document store, a hosted payment provider (Pesapal), and a React client.
The modelled parts are:

- **Checkout.** The user's cart becomes a `pending` order, with the current price captured
  on every line. The provider opens a payment session, a payment record mirroring the order
  total is stored and linked to the order, and only then is the cart emptied.
- **Payment status reconciliation.** There are two paths. The status query ("pull") and the
  provider's instant payment notification, IPN ("push"), both copy the provider's status
  string onto the matching payment. On `"Completed"` both paths mark the order `paid`. Only
  the push path marks it `cancelled` on `"Failed"`.
- **Token cache.** The provider bearer token is cached with its expiry.
- **Server cart.** Add merges a quantity into a line, remove drops a product's lines, and
  clear empties the cart.
- **Client cart reducer.** It keeps `total` and `itemCount` derived from `items`.
- **Order creation.** Line prices come from the catalogue. Reading an order is allowed to its
  owner or an admin.
- **Order page.** Tracking steps are derived from the status, and the subtotal and shipping
  line from the order.

The store is the `Store.Db` class. Its collections are fields that the controllers
reassign. Orders and payments are sequences in insertion order, and a record's id is its
position, so "the first document that matches" is the lowest index. Carts are a map from
user id to cart. Prices are integer minor units. `Db.Valid()` is the store invariant:

- every cart belongs to its key and has at most one line per product;
- every order's `totalAmount` is the sum of its lines;
- a linked payment points back to its order with the same amount;
- every payment's order reference resolves.

Every store-changing method is proved to preserve `Valid()`.

The provider is not called. Its answers are parameters:

- the token endpoint's answer is an `AuthResponse`;
- the order-submission endpoint is a function from the request body to a `SessionResponse`;
- the status endpoint's answer is a `StatusResponse`.

The clock and the merchant reference `order_<timestamp>` are parameters too. The token
helper reads the clock twice: `now` for the freshness test, and `nowAfter`, taken once the
provider has answered, for the new expiry. Both are in milliseconds.

Five behaviours of the code are easy to miss, and the model keeps each of them:

- The IPN handler does not always acknowledge with 200. A failed token or status request,
  or a payment whose order is gone, makes it fail.
- If a payment's linked order no longer exists, the status query fails only on
  `"Completed"`, because that is the only branch that writes `order.status`. The IPN handler
  fails on every status, because `order.save()` runs on every path. In both handlers the
  payment's new status has already been written (`OrderNotFound` in the model).
- A cart line whose product was deleted makes checkout fail before anything is written,
  because `item.product.price` throws on the missing product (`ProductMissing`).
- `createOrder` writes `qty` and `total`, while checkout writes `quantity` and `totalAmount`.
  The order schema is not part of this model, so `createOrder` is modelled as a pure
  function producing its own record.
- The payment schema requires `pesapal_order_id`, and an empty string fails that check. A
  session answer with an empty tracking id therefore makes checkout fail after the order
  was stored, with no payment written and the cart intact (`PaymentInvalid`).

## Model

| member | source | states |
|---|---|---|
| `PesapalAuth.Fetch` | backend/src/utils/pesapalAuthHelper.js:6-34 | a request is made exactly when the cache holds no fresh token; without a request, or when the request fails, the cache is unchanged; a returned token is the one the cache then holds, with an expiry set |
| `PesapalAuth.TokenCache.GetToken` | backend/src/utils/pesapalAuthHelper.js:6-34 | the returned token or error, whether a request was made, and the new cache fields are exactly those of `Fetch` on the old fields and both clock readings |
| `PesapalAuth.CacheHit` | backend/src/utils/pesapalAuthHelper.js:8-10 | a non-empty cached token whose expiry is after `now` is returned, with no request and no change to the cache |
| `PesapalAuth.RefreshStores` | backend/src/utils/pesapalAuthHelper.js:26-29 | without a fresh token, a request is made; the cache then holds the new token with expiry `nowAfter + expires_in * 1000`, computed from the clock reading taken after the provider answered, and that stored token is returned |
| `PesapalAuth.ExpiryIsStrict` | backend/src/utils/pesapalAuthHelper.js:8 | a token whose expiry equals `now` is refreshed |
| `PesapalAuth.RefreshAfterExpiry` | backend/src/utils/pesapalAuthHelper.js:8 | once the stored expiry is at or before `now`, every call requests a new token |
| `PesapalAuth.FailureKeepsCache` | backend/src/utils/pesapalAuthHelper.js:12-33 | a failed token request fails with "Failed to fetch Pesapal token" and leaves both cache fields unchanged |
| `PesapalAuth.ReuseWithinLifetime` | backend/src/utils/pesapalAuthHelper.js:8-29 | after a call that yields a non-empty token, any later call whose freshness reading is before the stored expiry makes no request, returns the same token and leaves the cache as it is |
| `PesapalAuth.SecondCallReuses` | backend/src/utils/pesapalAuthHelper.js:8-29 | two calls whose freshness tests read the same `now`, the first succeeding with a positive lifetime and a non-empty token and its second reading not earlier than `now`, make at most one request and return the same token |
| `PesapalAuth.EmptyTokenNotReused` | backend/src/utils/pesapalAuthHelper.js:8-27 | an empty token is stored but is falsy, so the next call requests again |
| `CheckoutController.CartItems` | backend/src/controllers/checkoutController.js:15-19 | a user without a cart has no items |
| `CheckoutController.Snapshot` | backend/src/controllers/checkoutController.js:33-37 | one order line per cart line, in cart order, each with the product id, the quantity and the product's price at checkout |
| `CheckoutController.SnapshotTotal` | backend/src/controllers/checkoutController.js:25-28 | the checkout total (sum of product price times quantity over the cart) equals the subtotal of the captured order lines |
| `CheckoutController.PlacedOrder` | backend/src/controllers/checkoutController.js:31-40 | the new order is `pending` with no payment, holds the snapshot, and its `totalAmount` is the checkout total and the sum of its own lines |
| `CheckoutController.Billing` | backend/src/controllers/checkoutController.js:53-58 | the billing phone is never empty: it is the user's phone when present and `"0700000000"` otherwise; email and name are the user's |
| `CheckoutController.SessionRequest` | backend/src/controllers/checkoutController.js:45-59 | the session request carries the merchant reference, the checkout total as amount, currency `KES`, and the billing details |
| `CheckoutController.PlaceKeepsConsistent` | backend/src/controllers/checkoutController.js:31-40 | storing an order whose total equals its subtotal and that has no payment keeps the store consistent |
| `CheckoutController.LinkKeepsConsistent` | backend/src/controllers/checkoutController.js:74-84 | appending a payment for the new order with the order's amount, and linking it from the order, keeps the store consistent |
| `CheckoutController.Checkout` | backend/src/controllers/checkoutController.js:14-96 | an empty or missing cart fails with "Cart is empty" and a line with a deleted product fails too, both writing nothing; otherwise the pending order is stored first; a token or session failure, or a session answer with an empty tracking id (which the payment schema refuses), leaves that order unpaid, writes no payment and keeps the cart intact; on success the payment (amount = total, status `pending`, order = new order, tracking id from the provider) is appended, the order links it, the cart is emptied, and the store invariant is preserved |
| `PaymentController.FindPayment` | backend/src/controllers/paymentController.js:23-27 | the first payment whose tracking id matches, or none exactly when no payment matches |
| `PaymentController.NextOrderStatus` | backend/src/controllers/paymentController.js:71-78 | the new order status is `paid`, `cancelled` or the old one; `"Completed"` gives `paid` on both paths and `"Failed"` gives `cancelled` on the push path; it becomes `paid` only on `"Completed"`, `cancelled` only on `"Failed"` on the push path, and any other description leaves it unchanged |
| `PaymentController.Reconcile` | backend/src/controllers/paymentController.js:23-35 | with no matching payment nothing changes; otherwise the matching payment's status becomes the provider's string and no other payment changes |
| `PaymentController.OnlyLinkedOrderChanges` | backend/src/controllers/paymentController.js:29-35 | only the order linked to the matching payment can change, and only in its status |
| `PaymentController.PullTransitions` | backend/src/controllers/paymentController.js:29-35 | on the pull path the linked order becomes `paid` on `"Completed"`; any other status, `"Failed"` included, leaves it unchanged |
| `PaymentController.PushTransitions` | backend/src/controllers/paymentController.js:71-79 | on the push path `"Completed"` gives `paid`, `"Failed"` gives `cancelled`, and any other status leaves the linked order unchanged |
| `PaymentController.UnlinkedLeavesOrders` | backend/src/controllers/paymentController.js:29-35 | with no matching payment, no order on it, or a dangling order reference, no order is modified; the failure on a dangling reference happens exactly on `"Completed"` for pull and always for push |
| `PaymentController.PathsAgreeExceptFailed` | backend/src/controllers/paymentController.js:71-78 | for every status other than `"Failed"`, pull and push write the same orders and payments |
| `PaymentController.FindPaymentIgnoresStatus` | backend/src/controllers/paymentController.js:23-27 | writing a payment's status does not change which payment a tracking id finds |
| `PaymentController.ReconcileIdempotent` | backend/src/controllers/paymentController.js:65-79 | delivering the same status a second time changes nothing further |
| `PaymentController.ReconcileKeepsConsistent` | backend/src/controllers/paymentController.js:65-79 | reconciliation keeps order totals, order/payment links and payment amounts consistent |
| `PaymentController.GetTransactionStatus` | backend/src/controllers/paymentController.js:8-38 | a token or status failure writes nothing; otherwise the store becomes `Reconcile` on the pull path and the provider payload is returned, unless a dangling order link makes it fail; the store invariant is preserved |
| `PaymentController.NotificationFields` | backend/src/controllers/paymentController.js:42-43 | the IPN fields are read from the body on POST and from the query otherwise |
| `PaymentController.IpnListener` | backend/src/controllers/paymentController.js:41-87 | a missing or empty tracking id fails with 400 before any request or write; otherwise, as for the pull path but with push transitions, and the answer echoes notification type, tracking id and merchant reference with status 200 |
| `CartLines.FindLine` | backend/src/controllers/cartController.js:18-20 | the index of the first line for the product, or none exactly when no line has it |
| `CartLines.AddLine` | backend/src/controllers/cartController.js:22-32 | an existing line's quantity grows by exactly the amount, with the line count and every other line unchanged; otherwise one line is appended at the end |
| `CartLines.RemoveLines` | backend/src/controllers/cartController.js:52 | the result holds exactly the lines for other products and no line for the removed one |
| `CartLines.RemoveLinesSingle` | backend/src/controllers/cartController.js:52 | a single line is kept iff it is for another product |
| `CartLines.RemoveLinesAppend` | backend/src/controllers/cartController.js:52 | removing from a concatenation removes from each part and keeps them in order, so the surviving lines keep their relative order (with `RemoveLinesSingle` this pins the result down as the order-preserving filter) |
| `CartLines.AddLineQuantities` | backend/src/controllers/cartController.js:22-32 | adding raises that product's total quantity by exactly the amount and leaves every other product's unchanged |
| `CartLines.RemoveLinesQuantities` | backend/src/controllers/cartController.js:52 | removing sets that product's quantity to zero and leaves every other product's unchanged |
| `CartLines.AddLinePreservesUnique` | backend/src/controllers/cartController.js:18-32 | adding keeps at most one line per product |
| `CartLines.RemoveLinesPreservesUnique` | backend/src/controllers/cartController.js:52 | removing keeps at most one line per product |
| `CartController.CartOrNew` | backend/src/controllers/cartController.js:12-16 | a user without a cart gets a new empty cart of their own |
| `CartController.AddToCart` | backend/src/controllers/cartController.js:5-36 | an empty product id or a zero quantity fails with 400; a new product that does not exist fails with 404 and nothing is saved; otherwise the user's cart (created if missing) becomes `AddLine` of it; uniqueness of lines is preserved |
| `CartController.RemoveFromCart` | backend/src/controllers/cartController.js:43-56 | a missing cart fails with 404; otherwise the cart's lines become `RemoveLines` of them: exactly the other products' lines, in their original order |
| `CartController.ClearCart` | backend/src/controllers/cartController.js:59-62 | an existing cart is left with no items; without a cart nothing is written |
| `CartReducer.FindItem` | frontend/src/contexts/CartContext.jsx:37-39 | the first item with the same `productId`, or none exactly when there is no such item |
| `CartReducer.MergeItem` | frontend/src/contexts/CartContext.jsx:41-50 | a matching item's quantity grows by the payload quantity, with the length and other items unchanged; otherwise the payload is appended |
| `CartReducer.KeepOthers` | frontend/src/contexts/CartContext.jsx:65 | exactly the items whose `product._id` differs from the payload are kept |
| `CartReducer.KeepOthersSingle` | frontend/src/contexts/CartContext.jsx:65 | a single item is kept iff its `product._id` differs from the payload |
| `CartReducer.KeepOthersAppend` | frontend/src/contexts/CartContext.jsx:65 | filtering a concatenation filters each part and keeps them in order, so the kept items keep their relative order |
| `CartReducer.Reduce` | frontend/src/contexts/CartContext.jsx:14-88 | SET_LOADING sets `isLoading` to its payload, SET_CART clears it, and every other action keeps it; ADD_TO_CART's items are `MergeItem` of the old ones and REMOVE_FROM_CART's are `KeepOthers` of them; SET_LOADING and an unknown action keep items, `total` and `itemCount`; every other action leaves `total` and `itemCount` equal to the sums over the new items |
| `CartReducer.InitialStateConsistent` | frontend/src/contexts/CartContext.jsx:7-12 | the initial state has no items, is not loading, and its `total` and `itemCount` equal the sums over its items |
| `CartReducer.ReducePreservesConsistency` | frontend/src/contexts/CartContext.jsx:14-88 | after every action, `total` and `itemCount` equal the sums over the items; SET_CART and CLEAR_CART establish this from any state |
| `CartReducer.ReduceFrames` | frontend/src/contexts/CartContext.jsx:16-86 | SET_LOADING changes only `isLoading`; SET_CART takes the payload or `[]` and clears `isLoading`; CLEAR_CART empties items and sums but keeps `isLoading`; an unknown action returns the state |
| `CartReducer.AddToCartDelta` | frontend/src/contexts/CartContext.jsx:36-63 | ADD_TO_CART raises `itemCount` by exactly the added quantity and `total` by that quantity times the price of the line it lands on |
| `CartReducer.AddThenRemoveKeepsUnpopulated` | frontend/src/contexts/CartContext.jsx:36-65 | because ADD_TO_CART keys on `productId` and REMOVE_FROM_CART on `product._id`, an item added by id without a populated product survives removal of that id |
| `OrderController.PriceItems` | backend/src/controllers/orderController.js:9-13 | priced lines exist iff every product exists; each keeps the requested quantity and takes the catalogue price; otherwise the error names a requested product that is missing |
| `OrderController.CreateOrder` | backend/src/controllers/orderController.js:5-18 | missing or empty items fail with 400; a missing product fails; otherwise the total is the sum of quantity times price over the priced lines |
| `OrderController.PricedTotal` | backend/src/controllers/orderController.js:15 | the order total equals the sum over the request of quantity times the catalogue price |
| `OrderController.ClientPricesIgnored` | backend/src/controllers/orderController.js:12 | whatever prices the client sends, the created order is the same |
| `OrderController.GetOrderById` | backend/src/controllers/orderController.js:25-32 | an unknown id fails with 404; the order is returned iff the requester owns it or is an admin, and otherwise the call fails with 403 |
| `OrderDetail.IndexOf` | frontend/src/pages/OrderDetail.jsx:72 | the first position of the status in the list, or -1 exactly when it is absent |
| `OrderDetail.TrackingSteps` | frontend/src/pages/OrderDetail.jsx:63-79 | the four initial steps keep their keys and captions; a current step is always completed, and at most one step is current |
| `OrderDetail.TrackingStepsShape` | frontend/src/pages/OrderDetail.jsx:63-79 | four steps in the order pending, processing, shipped, delivered; step i is completed iff i is at most the status's index, and current iff it is that index |
| `OrderDetail.CompletedIsPrefix` | frontend/src/pages/OrderDetail.jsx:74-77 | the completed steps form a prefix and no two steps are current |
| `OrderDetail.KnownStatusProgress` | frontend/src/pages/OrderDetail.jsx:72-77 | a listed status makes its own step current and the first step completed |
| `OrderDetail.UnknownStatusShowsNothing` | frontend/src/pages/OrderDetail.jsx:65-77 | a status outside the list completes no step, overriding the initial `completed: true`, and makes none current |
| `OrderDetail.PaidAndCancelledShowNothing` | frontend/src/pages/OrderDetail.jsx:65-77 | the `paid` and `cancelled` statuses show no completed step |
| `OrderDetail.Shipping` | frontend/src/pages/OrderDetail.jsx:312-314 | a fee is shown iff the total exceeds the subtotal (sum of price times quantity), and the fee is that positive difference; otherwise "Free" |
| `OrderDetail.StoredOrdersShipFree` | frontend/src/pages/OrderDetail.jsx:307-314 | every order in a consistent store has total equal to subtotal, so its shipping line reads "Free" |

## Left out

- HTTP plumbing is not modelled: URLs, headers, environment configuration, status-code
  bodies, and the callback and cancel pages. Provider calls are parameters, as described above.
- Persistence calls (`findOne`, `populate`, `create`, `save`, `findOneAndUpdate`) become field
  updates on `Store.Db`. Timestamps and ObjectId formats are not modelled. An id that is not a
  valid ObjectId would fail with a cast error; that failure is not modelled.
- Concurrency is not modelled. Races between the pull and push paths, and concurrent token
  refreshes, are out of scope. Each request is one sequential step.
- JavaScript number semantics are not modelled. Prices and quantities are unbounded integers,
  so there is no floating-point rounding, no `NaN`, and no string concatenation from a
  non-numeric `quantity`.
- `CartController.AddToCart`: a quantity is rejected only when it is zero. Negative and
  non-numeric quantities are accepted or coerced exactly as the integer model allows.
- `CartController.AddToCart`: product ids are compared as exact strings everywhere, as if every
  id were in its canonical lower-case hex spelling. In the code, `Product.findById` accepts any
  valid spelling of an ObjectId while the existing-line search compares `toString()` output, so a
  request spelling a carted product's id in upper case adds a second line for it. The
  one-line-per-product part of `Db.Valid()` (`CartLines.AddLinePreservesUnique`) holds in the
  code only for canonical spellings; the same applies to `OrderController.PriceItems`.
- `CartController.AddToCart`: a missing `productId` is represented by the empty string.
- `PaymentController.IpnListener`: a missing `OrderTrackingId` is represented by `None` or
  the empty string.
- `PesapalAuth.TokenCache.GetToken`: a token response without a `token` or `expires_in`
  field is not modelled.
- `OrderController.CreateOrder`: storing the new order in the orders collection is not
  modelled. The Order schema is not part of this model, and `createOrder` uses field names
  (`qty`, `total`) that differ from checkout's.
- `OrderController.PriceItems`: the product lookups run concurrently, so which missing product
  is reported is not fixed. The model reports the first missing one in request order.
- `getCart`, `getOrdersForUser`, the product, auth and admin endpoints, the async functions of
  `CartProvider`, and all React rendering are not modelled.
