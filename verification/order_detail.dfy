/**
 * The order page's derived views: the four tracking steps for an order status,
 * and the summary's subtotal and shipping line.
 */
module OrderDetail {
  import opened Wrappers
  import opened Store

  datatype TrackingStep = TrackingStep(key: string, caption: string, completed: bool, current: bool)

  const StatusOrder: seq<string> := ["pending", "processing", "shipped", "delivered"]

  /** The step list before the status is applied: only the first is marked completed. */
  const InitialSteps: seq<TrackingStep> := [
    TrackingStep("pending", "Order Placed", true, false),
    TrackingStep("processing", "Processing", false, false),
    TrackingStep("shipped", "Shipped", false, false),
    TrackingStep("delivered", "Delivered", false, false)
  ]

  /** `indexOf`: the first position of `x`, or -1. */
  function IndexOf(xs: seq<string>, x: string): (r: int)
    ensures -1 <= r < |xs|
    ensures r >= 0 ==> xs[r] == x && forall k | 0 <= k < r :: xs[k] != x
    ensures r == -1 <==> x !in xs
  {
    if xs == [] then -1
    else if xs[0] == x then 0
    else var k := IndexOf(xs[1..], x); if k == -1 then -1 else k + 1
  }

  /** The tracking steps for an order status: the four initial steps, with their keys
      and captions, re-marked from the status's position. A current step is always
      completed, and at most one step is current. */
  function TrackingSteps(status: string): (steps: seq<TrackingStep>)
    ensures |steps| == |InitialSteps|
    ensures forall i | 0 <= i < |steps| ::
      steps[i].key == InitialSteps[i].key && steps[i].caption == InitialSteps[i].caption
    ensures forall i | 0 <= i < |steps| :: steps[i].current ==> steps[i].completed
    ensures forall i, j | 0 <= i < j < |steps| :: !(steps[i].current && steps[j].current)
  {
    var currentIndex := IndexOf(StatusOrder, status);
    seq(|InitialSteps|, i requires 0 <= i < |InitialSteps| =>
      InitialSteps[i].(completed := i <= currentIndex, current := i == currentIndex))
  }

  /** Four steps in the fixed order; step i is completed iff i is at most the status's
      position, and current iff it is that position. */
  lemma TrackingStepsShape(status: string)
    ensures var steps := TrackingSteps(status);
      && |steps| == 4
      && (forall i | 0 <= i < 4 :: steps[i].key == StatusOrder[i])
      && (forall i | 0 <= i < 4 :: steps[i].completed <==> i <= IndexOf(StatusOrder, status))
      && (forall i | 0 <= i < 4 :: steps[i].current <==> i == IndexOf(StatusOrder, status))
  {
  }

  /** The completed steps form a prefix and at most one step is current. */
  lemma CompletedIsPrefix(status: string, i: nat, j: nat)
    requires i <= j < 4
    ensures TrackingSteps(status)[j].completed ==> TrackingSteps(status)[i].completed
    ensures i != j ==> !(TrackingSteps(status)[i].current && TrackingSteps(status)[j].current)
  {
  }

  /** A status in the list completes its own step and every earlier one, and is the one
      current step. */
  lemma KnownStatusProgress(status: string)
    requires status in StatusOrder
    ensures var steps := TrackingSteps(status);
      var k := IndexOf(StatusOrder, status);
      && 0 <= k < 4 && StatusOrder[k] == status
      && steps[k].current && steps[0].completed
  {
  }

  /** A status outside the list completes no step (not even "Order Placed") and makes
      none current; `paid` and `cancelled` are such statuses. */
  lemma UnknownStatusShowsNothing(status: string)
    requires status !in StatusOrder
    ensures forall i | 0 <= i < 4 :: !TrackingSteps(status)[i].completed && !TrackingSteps(status)[i].current
  {
  }

  lemma PaidAndCancelledShowNothing()
    ensures forall i | 0 <= i < 4 :: !TrackingSteps(StatusName(Paid))[i].completed
    ensures forall i | 0 <= i < 4 :: !TrackingSteps(StatusName(Cancelled))[i].completed
  {
  }

  /** The shipping line: a fee when the total exceeds the subtotal, "Free" otherwise. */
  datatype ShippingLine = Fee(amount: int) | Free

  function Shipping(order: Order): (s: ShippingLine)
    ensures s.Fee? <==> order.totalAmount > Subtotal(order.items)
    ensures s.Fee? ==> s.amount > 0 && Subtotal(order.items) + s.amount == order.totalAmount
  {
    var subtotal := Subtotal(order.items);
    if order.totalAmount > subtotal then Fee(order.totalAmount - subtotal) else Free
  }

  /** Every stored order's total is its subtotal, so its shipping line reads "Free". */
  lemma StoredOrdersShipFree(orders: seq<Order>, payments: seq<Payment>, i: nat)
    requires Consistent(orders, payments)
    requires i < |orders|
    ensures Shipping(orders[i]) == Free
  {
  }
}
