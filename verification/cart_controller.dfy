/**
 * The cart endpoints: add a quantity of a product, remove a product's lines,
 * clear the cart. Each works on the requester's cart in the store.
 */
module CartController {
  import opened Wrappers
  import opened Store
  import opened CartLines

  datatype CartError =
    | MissingFields     // 400 "Product ID and quantity are required"
    | ProductNotFound   // 404 "Product not found"
    | CartNotFound      // 404 "Cart not found"

  /** The user's stored cart, or the fresh empty cart built when there is none. */
  function CartOrNew(carts: map<UserId, Cart>, user: UserId): (c: Cart)
    ensures user !in carts ==> c == Cart(user, [])
  {
    if user in carts then carts[user] else Cart(user, [])
  }

  /** Add `quantity` of `productId` (an empty `productId` stands for a missing one). */
  method AddToCart(db: Db, user: UserId, productId: ProductId, quantity: int) returns (r: Result<Cart, CartError>)
    modifies db
    ensures db.products == old(db.products) && db.orders == old(db.orders) && db.payments == old(db.payments)
    ensures productId == "" || quantity == 0 ==> r == Err(MissingFields)
    ensures productId != "" && quantity != 0 ==>
      var cart := CartOrNew(old(db.carts), user);
      if FindLine(cart.items, productId).None? && productId !in db.products
      then r == Err(ProductNotFound)
      else r == Ok(cart.(items := AddLine(cart.items, productId, quantity)))
    ensures db.carts == if r.Ok? then old(db.carts)[user := r.value] else old(db.carts)
    ensures old(db.Valid()) ==> db.Valid()
  {
    if productId == "" || quantity == 0 {
      return Err(MissingFields);
    }
    var cart := if user in db.carts then db.carts[user] else Cart(user, []);
    var itemIndex := FindLine(cart.items, productId);
    if itemIndex.Some? {
      var k := itemIndex.value;
      cart := cart.(items := cart.items[k := cart.items[k].(quantity := cart.items[k].quantity + quantity)]);
    } else {
      if productId !in db.products {
        return Err(ProductNotFound);
      }
      cart := cart.(items := cart.items + [CartLine(productId, quantity)]);
    }
    if db.Valid() {
      AddLinePreservesUnique(CartOrNew(db.carts, user).items, productId, quantity);
    }
    db.carts := db.carts[user := cart];
    r := Ok(cart);
  }

  /** Remove every line for `productId` from the user's cart. */
  method RemoveFromCart(db: Db, user: UserId, productId: ProductId) returns (r: Result<Cart, CartError>)
    modifies db
    ensures db.products == old(db.products) && db.orders == old(db.orders) && db.payments == old(db.payments)
    ensures user !in old(db.carts) ==> r == Err(CartNotFound)
    ensures user in old(db.carts) ==>
      var cart := old(db.carts)[user];
      r == Ok(cart.(items := RemoveLines(cart.items, productId)))
    ensures db.carts == if r.Ok? then old(db.carts)[user := r.value] else old(db.carts)
    ensures old(db.Valid()) ==> db.Valid()
  {
    if user !in db.carts {
      return Err(CartNotFound);
    }
    var cart := db.carts[user];
    if db.Valid() {
      RemoveLinesPreservesUnique(cart.items, productId);
    }
    cart := cart.(items := RemoveLines(cart.items, productId));
    db.carts := db.carts[user := cart];
    r := Ok(cart);
  }

  /** Empty the user's cart if there is one; with no cart nothing is written. */
  method ClearCart(db: Db, user: UserId)
    modifies db
    ensures db.products == old(db.products) && db.orders == old(db.orders) && db.payments == old(db.payments)
    ensures user in old(db.carts) ==> db.carts == old(db.carts)[user := old(db.carts)[user].(items := [])]
    ensures user !in old(db.carts) ==> db.carts == old(db.carts)
    ensures old(db.Valid()) ==> db.Valid()
  {
    if user in db.carts {
      db.carts := db.carts[user := db.carts[user].(items := [])];
    }
  }
}
