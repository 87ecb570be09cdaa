/**
 * The line-list operations behind the server cart: find the line for a product,
 * merge a quantity into it or append a new line, and filter a product's lines out.
 */
module CartLines {
  import opened Wrappers
  import opened Store

  /** The index of the first line for `product` (`findIndex`, with -1 as None). */
  function FindLine(items: seq<CartLine>, product: ProductId): (r: Option<nat>)
    ensures r.Some? ==> r.value < |items| && items[r.value].product == product
    ensures r.Some? ==> forall k | 0 <= k < r.value :: items[k].product != product
    ensures r.None? <==> forall k | 0 <= k < |items| :: items[k].product != product
  {
    if items == [] then None
    else if items[0].product == product then Some(0)
    else match FindLine(items[1..], product)
      case None => None
      case Some(k) => Some(k + 1)
  }

  /** Merge `quantity` into the product's line, or append a new line when it has none. */
  function AddLine(items: seq<CartLine>, product: ProductId, quantity: int): (r: seq<CartLine>)
    ensures FindLine(items, product).Some? ==>
      var k := FindLine(items, product).value;
      && |r| == |items|
      && r[k] == CartLine(product, items[k].quantity + quantity)
      && forall j | 0 <= j < |items| && j != k :: r[j] == items[j]
    ensures FindLine(items, product).None? ==> r == items + [CartLine(product, quantity)]
  {
    match FindLine(items, product)
    case Some(k) => items[k := items[k].(quantity := items[k].quantity + quantity)]
    case None => items + [CartLine(product, quantity)]
  }

  /** Keep exactly the lines for other products, in their order. */
  function RemoveLines(items: seq<CartLine>, product: ProductId): (r: seq<CartLine>)
    ensures |r| <= |items|
    ensures forall l | l in r :: l in items && l.product != product
    ensures forall l | l in items && l.product != product :: l in r
  {
    if items == [] then []
    else if items[0].product == product then RemoveLines(items[1..], product)
    else [items[0]] + RemoveLines(items[1..], product)
  }

  /** The total quantity the cart holds of `product`, summed over its lines. */
  function QuantityOf(items: seq<CartLine>, product: ProductId): int
  {
    if items == [] then 0
    else (if items[0].product == product then items[0].quantity else 0) + QuantityOf(items[1..], product)
  }

  lemma {:induction false} QuantityOfAppend(items: seq<CartLine>, line: CartLine, product: ProductId)
    ensures QuantityOf(items + [line], product)
         == QuantityOf(items, product) + (if line.product == product then line.quantity else 0)
  {
    if items != [] {
      assert (items + [line])[1..] == items[1..] + [line];
      QuantityOfAppend(items[1..], line, product);
    }
  }

  lemma {:induction false} QuantityOfBump(items: seq<CartLine>, k: nat, delta: int, product: ProductId)
    requires k < |items|
    ensures var bumped := items[k := items[k].(quantity := items[k].quantity + delta)];
      QuantityOf(bumped, product)
      == QuantityOf(items, product) + (if items[k].product == product then delta else 0)
  {
    var bumped := items[k := items[k].(quantity := items[k].quantity + delta)];
    if k > 0 {
      assert bumped[1..] == items[1..][k - 1 := items[k].(quantity := items[k].quantity + delta)];
      QuantityOfBump(items[1..], k - 1, delta, product);
    }
  }

  /** Adding raises the product's quantity by exactly `quantity` and leaves every
      other product's quantity as it was. */
  lemma AddLineQuantities(items: seq<CartLine>, product: ProductId, quantity: int, other: ProductId)
    ensures QuantityOf(AddLine(items, product, quantity), other)
         == QuantityOf(items, other) + (if other == product then quantity else 0)
  {
    match FindLine(items, product)
    case Some(k) => QuantityOfBump(items, k, quantity, other);
    case None => QuantityOfAppend(items, CartLine(product, quantity), other);
  }

  /** Removing drops the product's quantity to zero and keeps every other product's. */
  lemma {:induction false} RemoveLinesQuantities(items: seq<CartLine>, product: ProductId, other: ProductId)
    ensures QuantityOf(RemoveLines(items, product), other)
         == if other == product then 0 else QuantityOf(items, other)
  {
    if items != [] {
      RemoveLinesQuantities(items[1..], product, other);
      if items[0].product != product {
        assert ([items[0]] + RemoveLines(items[1..], product))[1..] == RemoveLines(items[1..], product);
      }
    }
  }

  /** A single line is kept exactly when it is for another product. */
  lemma RemoveLinesSingle(line: CartLine, product: ProductId)
    ensures RemoveLines([line], product) == if line.product == product then [] else [line]
  {
    assert [line][1..] == [];
  }

  /** Removal works line by line: filtering a concatenation filters each part and keeps
      them in order, so the surviving lines keep their relative order. */
  lemma {:induction false} RemoveLinesAppend(a: seq<CartLine>, b: seq<CartLine>, product: ProductId)
    ensures RemoveLines(a + b, product) == RemoveLines(a, product) + RemoveLines(b, product)
  {
    if a == [] {
      assert a + b == b;
    } else {
      var ab := a + b;
      assert ab[0] == a[0] && ab[1..] == a[1..] + b;
      RemoveLinesAppend(a[1..], b, product);
      if a[0].product == product {
        assert RemoveLines(ab, product) == RemoveLines(a[1..] + b, product);
      } else {
        assert RemoveLines(ab, product) == [a[0]] + RemoveLines(a[1..] + b, product);
      }
    }
  }

  /** Adding keeps at most one line per product. */
  lemma AddLinePreservesUnique(items: seq<CartLine>, product: ProductId, quantity: int)
    requires UniqueProducts(items)
    ensures UniqueProducts(AddLine(items, product, quantity))
  {
  }

  /** Removing keeps at most one line per product. */
  lemma {:induction false} RemoveLinesPreservesUnique(items: seq<CartLine>, product: ProductId)
    requires UniqueProducts(items)
    ensures UniqueProducts(RemoveLines(items, product))
  {
    if items != [] {
      var rest := RemoveLines(items[1..], product);
      assert UniqueProducts(items[1..]) by {
        forall i, j | 0 <= i < j < |items[1..]| ensures items[1..][i].product != items[1..][j].product {
          assert items[1..][i] == items[i + 1] && items[1..][j] == items[j + 1];
        }
      }
      RemoveLinesPreservesUnique(items[1..], product);
      if items[0].product != product {
        var r := [items[0]] + rest;
        forall i, j | 0 <= i < j < |r| ensures r[i].product != r[j].product {
          if i == 0 {
            assert r[j] in items[1..];
            var m :| 0 <= m < |items[1..]| && items[1..][m] == r[j];
            assert items[m + 1] == r[j];
          } else {
            assert r[i] == rest[i - 1] && r[j] == rest[j - 1];
          }
        }
      }
    }
  }
}
