/**
 * Order creation from a request's items, priced from the catalogue, and the
 * owner-or-admin guard on reading an order.
 */
module OrderController {
  import opened Wrappers
  import opened Store

  /** A requested item; a client-supplied `price` may be present and is ignored. */
  datatype RequestItem = RequestItem(product: ProductId, qty: int, price: Option<int>)

  /** A priced line: quantity from the request, price from the product record. */
  datatype PricedLine = PricedLine(product: ProductId, qty: int, price: int)

  datatype NewOrder = NewOrder(user: UserId, items: seq<PricedLine>, total: int)

  datatype OrderError =
    | NoOrderItems                          // 400 "No order items"
    | ProductNotFound(product: ProductId)   // "Product <id> not found"
    | OrderNotFound                         // 404 "Order not found"
    | Forbidden                             // 403 "Forbidden"

  /** Price every item from the catalogue; the first item without a product fails. */
  function PriceItems(items: seq<RequestItem>, products: map<ProductId, Product>): (r: Result<seq<PricedLine>, OrderError>)
    ensures r.Ok? <==> forall i | 0 <= i < |items| :: items[i].product in products
    ensures r.Ok? ==> |r.value| == |items|
    ensures r.Ok? ==> forall i | 0 <= i < |items| ::
      r.value[i] == PricedLine(items[i].product, items[i].qty, products[items[i].product].price)
    ensures r.Err? ==>
      && r.error.ProductNotFound? && r.error.product !in products
      && exists i | 0 <= i < |items| :: items[i].product == r.error.product
  {
    if items == [] then Ok([])
    else if items[0].product !in products then Err(ProductNotFound(items[0].product))
    else match PriceItems(items[1..], products)
      case Err(e) => Err(e)
      case Ok(rest) =>
        Ok([PricedLine(items[0].product, items[0].qty, products[items[0].product].price)] + rest)
  }

  /** Sum of quantity times price over the priced lines. */
  function LinesTotal(lines: seq<PricedLine>): int
  {
    if lines == [] then 0 else lines[0].qty * lines[0].price + LinesTotal(lines[1..])
  }

  /** Sum of requested quantity times catalogue price, straight from the request. */
  function RequestTotal(items: seq<RequestItem>, products: map<ProductId, Product>): int
    requires forall i | 0 <= i < |items| :: items[i].product in products
  {
    if items == [] then 0 else items[0].qty * products[items[0].product].price + RequestTotal(items[1..], products)
  }

  /** Create an order from the request's items (None stands for a missing `items`). */
  function CreateOrder(user: UserId, items: Option<seq<RequestItem>>, products: map<ProductId, Product>): (r: Result<NewOrder, OrderError>)
    ensures items.None? || items.value == [] ==> r == Err(NoOrderItems)
    ensures r.Ok? ==> r.value.user == user && r.value.total == LinesTotal(r.value.items)
    ensures r.Ok? ==> items.Some? && PriceItems(items.value, products) == Ok(r.value.items)
    ensures items.Some? && items.value != [] ==> (r.Ok? <==> PriceItems(items.value, products).Ok?)
  {
    if items.None? || items.value == [] then Err(NoOrderItems)
    else match PriceItems(items.value, products)
      case Err(e) => Err(e)
      case Ok(lines) => Ok(NewOrder(user, lines, LinesTotal(lines)))
  }

  /** The order total is the sum over the request of quantity times the catalogue price. */
  lemma {:induction false} PricedTotal(items: seq<RequestItem>, products: map<ProductId, Product>)
    requires forall i | 0 <= i < |items| :: items[i].product in products
    ensures PriceItems(items, products).Ok?
    ensures LinesTotal(PriceItems(items, products).value) == RequestTotal(items, products)
  {
    if items != [] {
      PricedTotal(items[1..], products);
    }
  }

  /** Rewrite the client-supplied prices of a request. */
  function WithPrices(items: seq<RequestItem>, prices: seq<Option<int>>): (r: seq<RequestItem>)
    requires |prices| == |items|
    ensures |r| == |items|
    ensures forall i | 0 <= i < |items| :: r[i] == items[i].(price := prices[i])
  {
    seq(|items|, i requires 0 <= i < |items| => items[i].(price := prices[i]))
  }

  /** Prices come from the product records: whatever prices the client sends, the
      created order is the same. */
  lemma {:induction false} ClientPricesIgnored(user: UserId, items: seq<RequestItem>, prices: seq<Option<int>>,
                                               products: map<ProductId, Product>)
    requires |prices| == |items|
    ensures CreateOrder(user, Some(WithPrices(items, prices)), products) == CreateOrder(user, Some(items), products)
  {
    PriceItemsIgnoresPrices(items, prices, products);
  }

  lemma {:induction false} PriceItemsIgnoresPrices(items: seq<RequestItem>, prices: seq<Option<int>>,
                                                   products: map<ProductId, Product>)
    requires |prices| == |items|
    ensures PriceItems(WithPrices(items, prices), products) == PriceItems(items, products)
  {
    if items != [] {
      assert WithPrices(items, prices)[1..] == WithPrices(items[1..], prices[1..]);
      PriceItemsIgnoresPrices(items[1..], prices[1..], products);
    }
  }

  /** Read access: the order's owner or an admin. */
  predicate CanView(order: Order, requester: User)
  {
    order.user == requester.id || requester.role == "admin"
  }

  /** Look up an order for a requester. */
  function GetOrderById(orders: seq<Order>, id: OrderId, requester: User): (r: Result<Order, OrderError>)
    ensures id >= |orders| ==> r == Err(OrderNotFound)
    ensures id < |orders| && (orders[id].user == requester.id || requester.role == "admin") ==> r == Ok(orders[id])
    ensures id < |orders| && orders[id].user != requester.id && requester.role != "admin" ==> r == Err(Forbidden)
  {
    if id >= |orders| then Err(OrderNotFound)
    else if !CanView(orders[id], requester) then Err(Forbidden)
    else Ok(orders[id])
  }
}
