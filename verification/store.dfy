/**
 * The records of the backend's document store (users, products, carts, orders,
 * payments) and an in-memory stand-in for the collections the controllers read
 * and write. Orders and payments are kept in insertion order; a record's id is
 * its position, so "the first document that matches" is the lowest index.
 */
module Store {
  import opened Wrappers

  type UserId = string
  type ProductId = string
  type OrderId = nat
  type PaymentId = nat

  /** The authenticated requester; `phone` may be absent. */
  datatype User = User(id: UserId, email: string, name: string, phone: Option<string>, role: string)

  /** A catalogue product; prices are integer minor units. */
  datatype Product = Product(title: string, price: int)

  /** One line of a server-side cart: a product reference and a quantity. */
  datatype CartLine = CartLine(product: ProductId, quantity: int)

  datatype Cart = Cart(user: UserId, items: seq<CartLine>)

  datatype OrderStatus = Pending | Paid | Cancelled | Processing | Shipped | Delivered

  /** An order line, with the unit price captured when the order was placed. */
  datatype OrderLine = OrderLine(product: ProductId, quantity: int, price: int)

  datatype Order = Order(
    user: UserId,
    items: seq<OrderLine>,
    totalAmount: int,
    status: OrderStatus,
    payment: Option<PaymentId>)

  /** A payment record: `pesapalOrderId` is the provider's tracking id and
      `status` mirrors the provider's own status string. */
  datatype Payment = Payment(
    user: UserId,
    order: Option<OrderId>,
    pesapalOrderId: string,
    amount: int,
    status: string)

  /** The status as it is stored and sent to the frontend. */
  function StatusName(s: OrderStatus): (name: string)
    ensures |name| > 0
  {
    match s
    case Pending => "pending"
    case Paid => "paid"
    case Cancelled => "cancelled"
    case Processing => "processing"
    case Shipped => "shipped"
    case Delivered => "delivered"
  }

  /** Sum of unit price times quantity over order lines. */
  function Subtotal(lines: seq<OrderLine>): int
  {
    if lines == [] then 0 else lines[0].price * lines[0].quantity + Subtotal(lines[1..])
  }

  /** At most one line per product. */
  predicate UniqueProducts(items: seq<CartLine>)
  {
    forall i, j | 0 <= i < j < |items| :: items[i].product != items[j].product
  }

  /** Payment `j` is the one recorded for order `i`, and its amount mirrors the order total. */
  predicate PaysFor(orders: seq<Order>, payments: seq<Payment>, j: nat, i: nat)
    requires i < |orders|
  {
    j < |payments| && payments[j].order == Some(i) && payments[j].amount == orders[i].totalAmount
  }

  /** What every stored order and payment satisfies: the order total is the sum of its
      lines, a linked payment points back to the order with the same amount, and a
      payment's order reference resolves. */
  predicate Consistent(orders: seq<Order>, payments: seq<Payment>)
  {
    && (forall i | 0 <= i < |orders| :: orders[i].totalAmount == Subtotal(orders[i].items))
    && (forall i | 0 <= i < |orders| ::
          orders[i].payment.Some? ==> PaysFor(orders, payments, orders[i].payment.value, i))
    && (forall j | 0 <= j < |payments| :: payments[j].order.Some? ==> payments[j].order.value < |orders|)
  }

  /** The collections, updated in place by the controllers. */
  class Db {
    var products: map<ProductId, Product>
    var carts: map<UserId, Cart>
    var orders: seq<Order>
    var payments: seq<Payment>

    ghost predicate Valid()
      reads this
    {
      && (forall u | u in carts :: carts[u].user == u && UniqueProducts(carts[u].items))
      && Consistent(orders, payments)
    }

    constructor (catalogue: map<ProductId, Product>)
      ensures Valid()
      ensures products == catalogue && carts == map[] && orders == [] && payments == []
    {
      products := catalogue;
      carts := map[];
      orders := [];
      payments := [];
    }
  }
}
