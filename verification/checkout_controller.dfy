/**
 * Checkout: turn the requester's cart into a pending order, open a payment
 * session with the provider, record the payment, link it to the order and only
 * then empty the cart. The provider's session endpoint is a function from the
 * request body to its answer; the token endpoint's answer and the clock are
 * parameters; `orderRef` is the fresh merchant reference.
 */
module CheckoutController {
  import opened Wrappers
  import opened Store
  import opened PesapalAuth

  const DefaultPhone: string := "0700000000"

  datatype BillingAddress = BillingAddress(
    emailAddress: string, firstName: string, phoneNumber: string, countryCode: string)

  /** The body of the provider's order-submission request. */
  datatype SubmitOrderRequest = SubmitOrderRequest(
    id: string, currency: string, amount: int, description: string, billingAddress: BillingAddress)

  /** The provider's answer: a tracking id and a redirect target, or a failure. */
  datatype SessionResponse = SessionCreated(orderTrackingId: string, redirectUrl: string) | SessionRejected

  datatype CheckoutReply = CheckoutReply(
    redirectUrl: string, orderTrackingId: string, order: OrderId, payment: PaymentId)

  datatype CheckoutError =
    | EmptyCart          // 400 "Cart is empty"
    | ProductMissing     // a cart line whose product no longer resolves
    | TokenUnavailable   // "Failed to fetch Pesapal token"
    | SessionFailed      // the order-submission request failed
    | PaymentInvalid     // the payment record is refused: its tracking id is empty

  /** The lines of the user's cart; a missing cart has none. */
  function CartItems(carts: map<UserId, Cart>, user: UserId): (items: seq<CartLine>)
    ensures user !in carts ==> items == []
  {
    if user in carts then carts[user].items else []
  }

  /** Every line's product resolves in the catalogue. */
  predicate AllPriced(items: seq<CartLine>, products: map<ProductId, Product>)
  {
    forall i | 0 <= i < |items| :: items[i].product in products
  }

  /** The checkout total: the sum of the current product price times quantity. */
  function CartTotal(items: seq<CartLine>, products: map<ProductId, Product>): int
    requires AllPriced(items, products)
  {
    if items == [] then 0
    else products[items[0].product].price * items[0].quantity + CartTotal(items[1..], products)
  }

  /** The order lines: one per cart line, in cart order, with the price captured now. */
  function Snapshot(items: seq<CartLine>, products: map<ProductId, Product>): (lines: seq<OrderLine>)
    requires AllPriced(items, products)
    ensures |lines| == |items|
    ensures forall i | 0 <= i < |items| ::
      lines[i] == OrderLine(items[i].product, items[i].quantity, products[items[i].product].price)
  {
    if items == [] then []
    else [OrderLine(items[0].product, items[0].quantity, products[items[0].product].price)]
         + Snapshot(items[1..], products)
  }

  /** The captured lines add up to the checkout total, so the stored order's total is
      the sum of its own lines. */
  lemma {:induction false} SnapshotTotal(items: seq<CartLine>, products: map<ProductId, Product>)
    requires AllPriced(items, products)
    ensures Subtotal(Snapshot(items, products)) == CartTotal(items, products)
  {
    if items != [] {
      var lines := Snapshot(items, products);
      assert lines[1..] == Snapshot(items[1..], products);
      SnapshotTotal(items[1..], products);
    }
  }

  /** The order stored before payment: the snapshot, the total, status pending, no payment. */
  function PlacedOrder(user: UserId, items: seq<CartLine>, products: map<ProductId, Product>): (o: Order)
    requires AllPriced(items, products)
    ensures o.status == Pending && o.payment == None && o.user == user
    ensures o.items == Snapshot(items, products)
    ensures o.totalAmount == CartTotal(items, products) == Subtotal(o.items)
  {
    SnapshotTotal(items, products);
    Order(user, Snapshot(items, products), CartTotal(items, products), Pending, None)
  }

  /** The billing details; the phone number falls back to a placeholder when the user
      has none. */
  function Billing(user: User): (b: BillingAddress)
    ensures b.phoneNumber != ""
    ensures user.phone.Some? && user.phone.value != "" ==> b.phoneNumber == user.phone.value
    ensures user.phone.None? || user.phone.value == "" ==> b.phoneNumber == DefaultPhone
    ensures b.emailAddress == user.email && b.firstName == user.name
  {
    var phone := if user.phone.Some? && user.phone.value != "" then user.phone.value else DefaultPhone;
    BillingAddress(user.email, user.name, phone, "KE")
  }

  /** The session request: the merchant reference, the checkout total as the amount,
      currency KES, and the billing details. */
  function SessionRequest(orderRef: string, total: int, user: User): (q: SubmitOrderRequest)
    ensures q.id == orderRef && q.amount == total && q.currency == "KES" && q.billingAddress == Billing(user)
  {
    SubmitOrderRequest(orderRef, "KES", total, "E-commerce checkout", Billing(user))
  }

  /** A new order whose linked payment was just appended keeps the store consistent. */
  lemma LinkKeepsConsistent(orders: seq<Order>, payments: seq<Payment>, placed: Order, payment: Payment)
    requires Consistent(orders, payments)
    requires placed.totalAmount == Subtotal(placed.items)
    requires payment.order == Some(|orders|) && payment.amount == placed.totalAmount
    ensures Consistent(orders + [placed.(payment := Some(|payments|))], payments + [payment])
  {
  }

  /** A new order without payment keeps the store consistent. */
  lemma PlaceKeepsConsistent(orders: seq<Order>, payments: seq<Payment>, placed: Order)
    requires Consistent(orders, payments)
    requires placed.totalAmount == Subtotal(placed.items) && placed.payment == None
    ensures Consistent(orders + [placed], payments)
  {
  }

  method Checkout(db: Db, cache: TokenCache, user: User, now: int, nowAfter: int, auth: AuthResponse,
                  orderRef: string, provider: SubmitOrderRequest -> SessionResponse)
    returns (r: Result<CheckoutReply, CheckoutError>)
    modifies db, cache
    ensures db.products == old(db.products)
    // An empty or missing cart, or a line whose product is gone: nothing is written.
    ensures var items := CartItems(old(db.carts), user.id);
      |items| == 0 || !AllPriced(items, old(db.products)) ==>
        && r == Err(if |items| == 0 then EmptyCart else ProductMissing)
        && unchanged(db) && unchanged(cache)
    ensures var items := CartItems(old(db.carts), user.id);
      |items| > 0 && AllPriced(items, old(db.products)) ==>
        var placed := PlacedOrder(user.id, items, db.products);
        var fetched := Fetch(old(cache.State()), now, nowAfter, auth);
        var oid := |old(db.orders)|;
        var pid := |old(db.payments)|;
        && cache.State() == fetched.next
        && (fetched.result.Err? ==>
              && r == Err(TokenUnavailable)
              && db.orders == old(db.orders) + [placed]
              && db.payments == old(db.payments) && db.carts == old(db.carts))
        && (fetched.result.Ok? ==>
              match provider(SessionRequest(orderRef, placed.totalAmount, user))
              case SessionRejected =>
                && r == Err(SessionFailed)
                && db.orders == old(db.orders) + [placed]
                && db.payments == old(db.payments) && db.carts == old(db.carts)
              case SessionCreated(trackingId, redirectUrl) =>
                if trackingId == "" then
                  && r == Err(PaymentInvalid)
                  && db.orders == old(db.orders) + [placed]
                  && db.payments == old(db.payments) && db.carts == old(db.carts)
                else
                && r == Ok(CheckoutReply(redirectUrl, trackingId, oid, pid))
                && db.payments == old(db.payments)
                     + [Payment(user.id, Some(oid), trackingId, placed.totalAmount, "pending")]
                && db.orders == old(db.orders) + [placed.(payment := Some(pid))]
                && db.carts == old(db.carts)[user.id := old(db.carts)[user.id].(items := [])])
    ensures old(db.Valid()) ==> db.Valid()
  {
    if user.id !in db.carts || |db.carts[user.id].items| == 0 {
      return Err(EmptyCart);
    }
    var cart := db.carts[user.id];
    if !AllPriced(cart.items, db.products) {
      return Err(ProductMissing);
    }
    ghost var valid := db.Valid();

    var totalAmount := CartTotal(cart.items, db.products);
    var order := PlacedOrder(user.id, cart.items, db.products);
    var orderId := |db.orders|;
    if valid {
      PlaceKeepsConsistent(db.orders, db.payments, order);
    }
    db.orders := db.orders + [order];

    var token, _ := cache.GetToken(now, nowAfter, auth);
    if token.Err? {
      return Err(TokenUnavailable);
    }

    var response := provider(SessionRequest(orderRef, totalAmount, user));
    if response.SessionRejected? {
      return Err(SessionFailed);
    }
    // The payment schema requires a tracking id, and an empty string fails that check.
    if response.orderTrackingId == "" {
      return Err(PaymentInvalid);
    }

    var payment := Payment(user.id, Some(orderId), response.orderTrackingId, totalAmount, "pending");
    var paymentId := |db.payments|;
    if valid {
      LinkKeepsConsistent(db.orders[..orderId], db.payments, order, payment);
    }
    db.payments := db.payments + [payment];

    order := order.(payment := Some(paymentId));
    db.orders := db.orders[orderId := order];
    assert db.orders == old(db.orders) + [order];

    db.carts := db.carts[user.id := cart.(items := [])];
    r := Ok(CheckoutReply(response.redirectUrl, response.orderTrackingId, orderId, paymentId));
  }
}
