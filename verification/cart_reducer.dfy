/**
 * The client's cart state and its reducer. `total` and `itemCount` are derived
 * from `items`; the reducer recomputes them on every action that changes the items.
 */
module CartReducer {
  import opened Wrappers

  /** A product as the client sees it, when populated; `price` may be absent. */
  datatype ProductInfo = ProductInfo(id: string, price: Option<int>)

  /** A cart item: `productId` is set on items the client adds itself, `product` on
      items populated by the server. */
  datatype CartItem = CartItem(productId: Option<string>, product: Option<ProductInfo>, quantity: int)

  datatype CartState = CartState(items: seq<CartItem>, isLoading: bool, total: int, itemCount: int)

  datatype Action =
    | SetLoading(loading: bool)
    | SetCart(payload: Option<seq<CartItem>>)
    | AddToCart(item: CartItem)
    | RemoveFromCart(productKey: Option<string>)
    | ClearCart
    | Unknown(kind: string)

  const InitialState := CartState([], false, 0, 0)

  /** `item.product?.price || 0`: a missing product or price counts as zero. */
  function ItemPrice(item: CartItem): int
  {
    if item.product.Some? && item.product.value.price.Some? then item.product.value.price.value else 0
  }

  /** `item.product?._id`, the key REMOVE_FROM_CART compares with. */
  function ProductKey(item: CartItem): Option<string>
  {
    if item.product.Some? then Some(item.product.value.id) else None
  }

  function Total(items: seq<CartItem>): int
  {
    if items == [] then 0 else ItemPrice(items[0]) * items[0].quantity + Total(items[1..])
  }

  function ItemCount(items: seq<CartItem>): int
  {
    if items == [] then 0 else items[0].quantity + ItemCount(items[1..])
  }

  /** The derived fields agree with the items. */
  predicate Consistent(s: CartState)
  {
    s.total == Total(s.items) && s.itemCount == ItemCount(s.items)
  }

  /** The index of the first item whose `productId` equals the given one. */
  function FindItem(items: seq<CartItem>, productId: Option<string>): (r: Option<nat>)
    ensures r.Some? ==> r.value < |items| && items[r.value].productId == productId
    ensures r.Some? ==> forall k | 0 <= k < r.value :: items[k].productId != productId
    ensures r.None? <==> forall k | 0 <= k < |items| :: items[k].productId != productId
  {
    if items == [] then None
    else if items[0].productId == productId then Some(0)
    else match FindItem(items[1..], productId)
      case None => None
      case Some(k) => Some(k + 1)
  }

  /** The items ADD_TO_CART produces. */
  function MergeItem(items: seq<CartItem>, item: CartItem): (r: seq<CartItem>)
    ensures FindItem(items, item.productId).Some? ==>
      var k := FindItem(items, item.productId).value;
      && |r| == |items|
      && r[k] == items[k].(quantity := items[k].quantity + item.quantity)
      && forall j | 0 <= j < |items| && j != k :: r[j] == items[j]
    ensures FindItem(items, item.productId).None? ==> r == items + [item]
  {
    match FindItem(items, item.productId)
    case Some(k) => items[k := items[k].(quantity := items[k].quantity + item.quantity)]
    case None => items + [item]
  }

  /** The items REMOVE_FROM_CART keeps: those whose product id differs, in order. */
  function KeepOthers(items: seq<CartItem>, key: Option<string>): (r: seq<CartItem>)
    ensures |r| <= |items|
    ensures forall x | x in r :: x in items && ProductKey(x) != key
    ensures forall x | x in items && ProductKey(x) != key :: x in r
  {
    if items == [] then []
    else if ProductKey(items[0]) == key then KeepOthers(items[1..], key)
    else [items[0]] + KeepOthers(items[1..], key)
  }

  /** A single item is kept exactly when its product id differs from the key. */
  lemma KeepOthersSingle(item: CartItem, key: Option<string>)
    ensures KeepOthers([item], key) == if ProductKey(item) == key then [] else [item]
  {
    assert [item][1..] == [];
  }

  /** Removal works item by item and keeps the survivors in their order. */
  lemma {:induction false} KeepOthersAppend(a: seq<CartItem>, b: seq<CartItem>, key: Option<string>)
    ensures KeepOthers(a + b, key) == KeepOthers(a, key) + KeepOthers(b, key)
  {
    if a == [] {
      assert a + b == b;
    } else {
      var ab := a + b;
      assert ab[0] == a[0] && ab[1..] == a[1..] + b;
      KeepOthersAppend(a[1..], b, key);
      if ProductKey(a[0]) == key {
        assert KeepOthers(ab, key) == KeepOthers(a[1..] + b, key);
      } else {
        assert KeepOthers(ab, key) == [a[0]] + KeepOthers(a[1..] + b, key);
      }
    }
  }

  /** The reducer. SET_CART always clears `isLoading` and SET_LOADING sets it; every
      other action leaves it alone. Every action that touches the items recomputes
      `total` and `itemCount` from them; SET_LOADING and an unknown action keep the items
      and the derived fields. */
  function Reduce(state: CartState, action: Action): (r: CartState)
    ensures r.isLoading == match action
      case SetLoading(loading) => loading
      case SetCart(_) => false
      case _ => state.isLoading
    ensures action.SetLoading? || action.Unknown? ==>
      r.items == state.items && r.total == state.total && r.itemCount == state.itemCount
    ensures action.AddToCart? ==> r.items == MergeItem(state.items, action.item)
    ensures action.RemoveFromCart? ==> r.items == KeepOthers(state.items, action.productKey)
    ensures !(action.SetLoading? || action.Unknown?) ==> Consistent(r)
  {
    match action
    case SetLoading(loading) => state.(isLoading := loading)
    case SetCart(payload) =>
      var items := if payload.Some? then payload.value else [];
      state.(items := items, total := Total(items), itemCount := ItemCount(items), isLoading := false)
    case AddToCart(item) =>
      var items := MergeItem(state.items, item);
      state.(items := items, total := Total(items), itemCount := ItemCount(items))
    case RemoveFromCart(key) =>
      var items := KeepOthers(state.items, key);
      state.(items := items, total := Total(items), itemCount := ItemCount(items))
    case ClearCart => state.(items := [], total := 0, itemCount := 0)
    case Unknown(_) => state
  }

  /** The initial state is empty, not loading, and consistent. */
  lemma InitialStateConsistent()
    ensures InitialState.items == [] && !InitialState.isLoading
    ensures Consistent(InitialState)
  {
  }

  /** The derived fields stay consistent with the items: every action keeps a consistent
      state consistent, and SET_CART and CLEAR_CART make any state consistent. */
  lemma ReducePreservesConsistency(state: CartState, action: Action)
    requires Consistent(state) || action.SetCart? || action.ClearCart?
    ensures Consistent(Reduce(state, action))
  {
  }

  /** SET_LOADING changes only `isLoading`; CLEAR_CART keeps it; an unknown action
      changes nothing. */
  lemma ReduceFrames(state: CartState, action: Action)
    ensures action.SetLoading? ==> Reduce(state, action) == state.(isLoading := action.loading)
    ensures action.ClearCart? ==> Reduce(state, action) == CartState([], state.isLoading, 0, 0)
    ensures action.Unknown? ==> Reduce(state, action) == state
    ensures action.SetCart? ==>
      && !Reduce(state, action).isLoading
      && Reduce(state, action).items == (if action.payload.Some? then action.payload.value else [])
  {
  }

  lemma {:induction false} TotalAppend(items: seq<CartItem>, item: CartItem)
    ensures Total(items + [item]) == Total(items) + ItemPrice(item) * item.quantity
    ensures ItemCount(items + [item]) == ItemCount(items) + item.quantity
  {
    if items != [] {
      assert (items + [item])[1..] == items[1..] + [item];
      TotalAppend(items[1..], item);
    }
  }

  lemma {:induction false} TotalBump(items: seq<CartItem>, k: nat, delta: int)
    requires k < |items|
    ensures var bumped := items[k := items[k].(quantity := items[k].quantity + delta)];
      && Total(bumped) == Total(items) + ItemPrice(items[k]) * delta
      && ItemCount(bumped) == ItemCount(items) + delta
  {
    var bumped := items[k := items[k].(quantity := items[k].quantity + delta)];
    if k > 0 {
      assert bumped[1..] == items[1..][k - 1 := items[k].(quantity := items[k].quantity + delta)];
      TotalBump(items[1..], k - 1, delta);
    }
  }

  /** The price at which ADD_TO_CART counts the added quantity: that of the existing
      item with the same `productId` when there is one, the new item's otherwise. */
  function LandingPrice(items: seq<CartItem>, item: CartItem): int
  {
    match FindItem(items, item.productId)
    case Some(k) => ItemPrice(items[k])
    case None => ItemPrice(item)
  }

  lemma MergeItemSums(items: seq<CartItem>, item: CartItem)
    ensures ItemCount(MergeItem(items, item)) == ItemCount(items) + item.quantity
    ensures Total(MergeItem(items, item)) == Total(items) + LandingPrice(items, item) * item.quantity
  {
    match FindItem(items, item.productId) {
      case Some(k) => TotalBump(items, k, item.quantity);
      case None => TotalAppend(items, item);
    }
  }

  /** ADD_TO_CART raises the item count by exactly the added quantity and the total by
      that quantity at the price of the line it lands on. */
  lemma AddToCartDelta(state: CartState, item: CartItem)
    requires Consistent(state)
    ensures Reduce(state, AddToCart(item)).itemCount == state.itemCount + item.quantity
    ensures Reduce(state, AddToCart(item)).total == state.total + LandingPrice(state.items, item) * item.quantity
  {
    MergeItemSums(state.items, item);
  }

  /** ADD_TO_CART matches on `productId` but REMOVE_FROM_CART on `product._id`: an item
      added by id, without a populated product, survives removal of that id. */
  lemma AddThenRemoveKeepsUnpopulated(state: CartState, id: string, quantity: int)
    requires FindItem(state.items, Some(id)).None?
    ensures var added := Reduce(state, AddToCart(CartItem(Some(id), None, quantity)));
      CartItem(Some(id), None, quantity) in Reduce(added, RemoveFromCart(Some(id))).items
  {
  }
}
