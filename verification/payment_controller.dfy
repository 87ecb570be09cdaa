/**
 * Payment status reconciliation. Both entry points ask the provider for the
 * transaction's status, copy that status string onto the payment whose tracking
 * id matches, and move the linked order: the pull path (status query) only to
 * `paid` on "Completed"; the push path (IPN) also to `cancelled` on "Failed".
 */
module PaymentController {
  import opened Wrappers
  import opened Store
  import opened PesapalAuth

  /** The provider's transaction-status answer, or a failed request. */
  datatype StatusResponse = TransactionStatus(paymentStatusDescription: string) | StatusUnavailable

  /** The IPN fields, read from the body on POST and from the query otherwise. */
  datatype Notification = Notification(
    orderTrackingId: Option<string>,
    orderMerchantReference: Option<string>,
    orderNotificationType: Option<string>)

  /** The IPN acknowledgement. */
  datatype IpnAck = IpnAck(
    orderNotificationType: Option<string>,
    orderTrackingId: string,
    orderMerchantReference: Option<string>,
    status: int)

  datatype ReconcileError =
    | TokenUnavailable    // "Failed to fetch Pesapal token"
    | StatusFetchFailed   // the status request failed
    | MissingTrackingId   // 400 "Missing OrderTrackingId"
    | OrderNotFound       // the payment's order no longer exists

  datatype Path = Pull | Push

  /** The first payment recorded for `trackingId`. */
  function FindPayment(payments: seq<Payment>, trackingId: string): (r: Option<PaymentId>)
    ensures r.Some? ==> r.value < |payments| && payments[r.value].pesapalOrderId == trackingId
    ensures r.Some? ==> forall j | 0 <= j < r.value :: payments[j].pesapalOrderId != trackingId
    ensures r.None? <==> forall j | 0 <= j < |payments| :: payments[j].pesapalOrderId != trackingId
  {
    if payments == [] then None
    else if payments[0].pesapalOrderId == trackingId then Some(0)
    else match FindPayment(payments[1..], trackingId)
      case None => None
      case Some(j) => Some(j + 1)
  }

  /** The order status a provider status leads to on each path: "Completed" marks the
      order paid on both paths, "Failed" cancels it only on the push path, and any other
      description leaves it as it was. */
  function NextOrderStatus(path: Path, current: OrderStatus, description: string): (r: OrderStatus)
    ensures r == Paid || r == Cancelled || r == current
    ensures description == "Completed" ==> r == Paid
    ensures path == Push && description == "Failed" ==> r == Cancelled
    ensures r == Paid && current != Paid ==> description == "Completed"
    ensures r == Cancelled && current != Cancelled ==> path == Push && description == "Failed"
    ensures description != "Completed" && description != "Failed" ==> r == current
  {
    if description == "Completed" then Paid
    else if path == Push && description == "Failed" then Cancelled
    else current
  }

  /** The store after reconciliation; `orderMissing` is set when the handler fails
      because the payment's order does not exist (after the payment was written). */
  datatype Reconciled = Reconciled(orders: seq<Order>, payments: seq<Payment>, orderMissing: bool)

  /** The reconciliation step shared by both paths, given the provider's status string. */
  function Reconcile(path: Path, orders: seq<Order>, payments: seq<Payment>,
                     trackingId: string, description: string): (out: Reconciled)
    ensures |out.orders| == |orders| && |out.payments| == |payments|
    ensures FindPayment(payments, trackingId).None? ==> out == Reconciled(orders, payments, false)
    ensures FindPayment(payments, trackingId).Some? ==>
      var k := FindPayment(payments, trackingId).value;
      && out.payments[k] == payments[k].(status := description)
      && forall j | 0 <= j < |payments| && j != k :: out.payments[j] == payments[j]
  {
    match FindPayment(payments, trackingId)
    case None => Reconciled(orders, payments, false)
    case Some(k) =>
      var payments' := payments[k := payments[k].(status := description)];
      match payments[k].order
      case None => Reconciled(orders, payments', false)
      case Some(o) =>
        if o < |orders| then
          Reconciled(orders[o := orders[o].(status := NextOrderStatus(path, orders[o].status, description))],
                     payments', false)
        else
          Reconciled(orders, payments', path == Push || description == "Completed")
  }

  /** The order linked to the payment for `trackingId`, when both exist. */
  function LinkedOrder(orders: seq<Order>, payments: seq<Payment>, trackingId: string): (r: Option<OrderId>)
    ensures r.Some? ==> r.value < |orders|
  {
    match FindPayment(payments, trackingId)
    case None => None
    case Some(k) =>
      if payments[k].order.Some? && payments[k].order.value < |orders| then payments[k].order else None
  }

  /** Only the linked order can change, and only in its status. */
  lemma OnlyLinkedOrderChanges(path: Path, orders: seq<Order>, payments: seq<Payment>,
                               trackingId: string, description: string)
    ensures var out := Reconcile(path, orders, payments, trackingId, description);
      forall i | 0 <= i < |orders| ::
        out.orders[i] == orders[i].(status := out.orders[i].status)
        && (LinkedOrder(orders, payments, trackingId) != Some(i) ==> out.orders[i] == orders[i])
  {
  }

  /** Pull path: the linked order becomes paid on "Completed"; every other status,
      "Failed" included, leaves it as it was. */
  lemma PullTransitions(orders: seq<Order>, payments: seq<Payment>, trackingId: string, description: string)
    requires LinkedOrder(orders, payments, trackingId).Some?
    ensures var o := LinkedOrder(orders, payments, trackingId).value;
      var out := Reconcile(Pull, orders, payments, trackingId, description);
      && !out.orderMissing
      && (description == "Completed" ==> out.orders[o].status == Paid)
      && (description != "Completed" ==> out.orders[o] == orders[o])
  {
  }

  /** Push path: "Completed" gives paid, "Failed" gives cancelled, anything else leaves
      the linked order as it was. */
  lemma PushTransitions(orders: seq<Order>, payments: seq<Payment>, trackingId: string, description: string)
    requires LinkedOrder(orders, payments, trackingId).Some?
    ensures var o := LinkedOrder(orders, payments, trackingId).value;
      var out := Reconcile(Push, orders, payments, trackingId, description);
      && !out.orderMissing
      && (description == "Completed" ==> out.orders[o].status == Paid)
      && (description == "Failed" ==> out.orders[o].status == Cancelled)
      && (description != "Completed" && description != "Failed" ==> out.orders[o] == orders[o])
  {
  }

  /** With no linked order no order is touched; the failure when the link dangles comes
      only on "Completed" for the pull path, and always for the push path. */
  lemma UnlinkedLeavesOrders(path: Path, orders: seq<Order>, payments: seq<Payment>,
                             trackingId: string, description: string)
    requires LinkedOrder(orders, payments, trackingId).None?
    ensures var out := Reconcile(path, orders, payments, trackingId, description);
      && out.orders == orders
      && (out.orderMissing <==>
            && FindPayment(payments, trackingId).Some?
            && payments[FindPayment(payments, trackingId).value].order.Some?
            && (path == Push || description == "Completed"))
  {
  }

  /** Both paths write the same thing for every status except "Failed". */
  lemma PathsAgreeExceptFailed(orders: seq<Order>, payments: seq<Payment>, trackingId: string, description: string)
    requires description != "Failed"
    ensures var pull := Reconcile(Pull, orders, payments, trackingId, description);
      var push := Reconcile(Push, orders, payments, trackingId, description);
      pull.orders == push.orders && pull.payments == push.payments
  {
  }

  /** Writing a payment's status does not change which payment a tracking id finds. */
  lemma {:induction false} FindPaymentIgnoresStatus(payments: seq<Payment>, k: nat, status: string, trackingId: string)
    requires k < |payments|
    ensures FindPayment(payments[k := payments[k].(status := status)], trackingId) == FindPayment(payments, trackingId)
  {
    var updated := payments[k := payments[k].(status := status)];
    if k > 0 && payments[0].pesapalOrderId != trackingId {
      assert updated[1..] == payments[1..][k - 1 := payments[k].(status := status)];
      FindPaymentIgnoresStatus(payments[1..], k - 1, status, trackingId);
    }
  }

  /** A repeated delivery of the same status changes nothing more. */
  lemma ReconcileIdempotent(path: Path, orders: seq<Order>, payments: seq<Payment>,
                            trackingId: string, description: string)
    ensures var once := Reconcile(path, orders, payments, trackingId, description);
      var twice := Reconcile(path, once.orders, once.payments, trackingId, description);
      twice.orders == once.orders && twice.payments == once.payments
  {
  }

  /** Reconciliation keeps totals, links and payment amounts consistent. */
  lemma ReconcileKeepsConsistent(path: Path, orders: seq<Order>, payments: seq<Payment>,
                                 trackingId: string, description: string)
    requires Consistent(orders, payments)
    ensures var out := Reconcile(path, orders, payments, trackingId, description);
      Consistent(out.orders, out.payments)
  {
  }

  /** The status query: returns the provider's payload. */
  method GetTransactionStatus(db: Db, cache: TokenCache, orderTrackingId: string, now: int,
                              nowAfter: int, auth: AuthResponse, status: StatusResponse)
    returns (r: Result<StatusResponse, ReconcileError>)
    modifies db, cache
    ensures db.products == old(db.products) && db.carts == old(db.carts)
    ensures var fetched := Fetch(old(cache.State()), now, nowAfter, auth);
      && cache.State() == fetched.next
      && (fetched.result.Err? ==> r == Err(TokenUnavailable) && unchanged(db))
      && (fetched.result.Ok? && status.StatusUnavailable? ==> r == Err(StatusFetchFailed) && unchanged(db))
      && (fetched.result.Ok? && status.TransactionStatus? ==>
            var out := Reconcile(Pull, old(db.orders), old(db.payments), orderTrackingId,
                                 status.paymentStatusDescription);
            && db.orders == out.orders && db.payments == out.payments
            && r == if out.orderMissing then Err(OrderNotFound) else Ok(status))
    ensures old(db.Valid()) ==> db.Valid()
  {
    var token, _ := cache.GetToken(now, nowAfter, auth);
    if token.Err? {
      return Err(TokenUnavailable);
    }
    if status.StatusUnavailable? {
      return Err(StatusFetchFailed);
    }
    var description := status.paymentStatusDescription;
    if db.Valid() {
      ReconcileKeepsConsistent(Pull, db.orders, db.payments, orderTrackingId, description);
    }
    r := Ok(status);
    var found := FindPayment(db.payments, orderTrackingId);
    if found.Some? {
      var k := found.value;
      db.payments := db.payments[k := db.payments[k].(status := description)];
      var link := db.payments[k].order;
      if link.Some? {
        var o := link.value;
        if o < |db.orders| {
          if description == "Completed" {
            db.orders := db.orders[o := db.orders[o].(status := Paid)];
          }
        } else if description == "Completed" {
          r := Err(OrderNotFound);
        }
      }
    }
  }

  /** The notification fields: from the body on POST, from the query otherwise. */
  function NotificationFields(httpMethod: string, body: Notification, query: Notification): (n: Notification)
    ensures httpMethod == "POST" ==> n == body
    ensures httpMethod != "POST" ==> n == query
  {
    if httpMethod == "POST" then body else query
  }

  /** A tracking id counts as present only when it is a non-empty string. */
  predicate HasTrackingId(n: Notification)
  {
    n.orderTrackingId.Some? && n.orderTrackingId.value != ""
  }

  /** The IPN listener: echoes the notification with status 200 once reconciled. */
  method IpnListener(db: Db, cache: TokenCache, httpMethod: string, body: Notification, query: Notification,
                     now: int, nowAfter: int, auth: AuthResponse, status: StatusResponse)
    returns (r: Result<IpnAck, ReconcileError>)
    modifies db, cache
    ensures db.products == old(db.products) && db.carts == old(db.carts)
    ensures var n := NotificationFields(httpMethod, body, query);
      !HasTrackingId(n) ==> r == Err(MissingTrackingId) && unchanged(db) && unchanged(cache)
    ensures var n := NotificationFields(httpMethod, body, query);
      var fetched := Fetch(old(cache.State()), now, nowAfter, auth);
      HasTrackingId(n) ==>
        && cache.State() == fetched.next
        && (fetched.result.Err? ==> r == Err(TokenUnavailable) && unchanged(db))
        && (fetched.result.Ok? && status.StatusUnavailable? ==> r == Err(StatusFetchFailed) && unchanged(db))
        && (fetched.result.Ok? && status.TransactionStatus? ==>
              var out := Reconcile(Push, old(db.orders), old(db.payments), n.orderTrackingId.value,
                                   status.paymentStatusDescription);
              && db.orders == out.orders && db.payments == out.payments
              && r == if out.orderMissing then Err(OrderNotFound)
                      else Ok(IpnAck(n.orderNotificationType, n.orderTrackingId.value,
                                     n.orderMerchantReference, 200)))
    ensures old(db.Valid()) ==> db.Valid()
  {
    var n := if httpMethod == "POST" then body else query;
    if n.orderTrackingId.None? || n.orderTrackingId.value == "" {
      return Err(MissingTrackingId);
    }
    var trackingId := n.orderTrackingId.value;
    var token, _ := cache.GetToken(now, nowAfter, auth);
    if token.Err? {
      return Err(TokenUnavailable);
    }
    if status.StatusUnavailable? {
      return Err(StatusFetchFailed);
    }
    var description := status.paymentStatusDescription;
    if db.Valid() {
      ReconcileKeepsConsistent(Push, db.orders, db.payments, trackingId, description);
    }
    var found := FindPayment(db.payments, trackingId);
    if found.Some? {
      var k := found.value;
      db.payments := db.payments[k := db.payments[k].(status := description)];
      var link := db.payments[k].order;
      if link.Some? {
        var o := link.value;
        if o >= |db.orders| {
          return Err(OrderNotFound);
        }
        var order := db.orders[o];
        if description == "Completed" {
          order := order.(status := Paid);
        } else if description == "Failed" {
          order := order.(status := Cancelled);
        }
        db.orders := db.orders[o := order];
      }
    }
    r := Ok(IpnAck(n.orderNotificationType, trackingId, n.orderMerchantReference, 200));
  }
}
