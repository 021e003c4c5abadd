/** The quote cart as pure transformations: the per-row quantity selector (a
    map from product number to chosen quantity), the cart list updaters, and
    the derived totals. */
module Cart {
  import opened Catalog

  function Max(a: int, b: int): int { if a >= b then a else b }

  // ---------------------------------------------------------------------------
  // Row quantity selector
  // ---------------------------------------------------------------------------

  /** Every chosen quantity in the selector map is at least 1. */
  predicate PositiveSelectors(quantities: map<int, int>)
  {
    forall id :: id in quantities ==> quantities[id] >= 1
  }

  /** The quantity a row shows and adds, `quantities[id] || 1`: a missing entry,
      like the falsy value 0, reads as 1. */
  function SelectedQuantity(quantities: map<int, int>, id: int): (q: int)
    ensures q != 0
    ensures id in quantities && quantities[id] != 0 ==> q == quantities[id]
    ensures id !in quantities ==> q == 1
    ensures id in quantities && quantities[id] == 0 ==> q == 1
    ensures PositiveSelectors(quantities) ==> q >= 1
  {
    if id in quantities && quantities[id] != 0 then quantities[id] else 1
  }

  /** The row's minus/plus buttons: the row's quantity moves by `delta` but
      never below 1; every other row keeps its entry. */
  function UpdateQuantity(quantities: map<int, int>, id: int, delta: int): (r: map<int, int>)
    ensures r.Keys == quantities.Keys + {id}
    ensures r[id] == Max(1, SelectedQuantity(quantities, id) + delta) && r[id] >= 1
    ensures forall k :: k in quantities && k != id ==> r[k] == quantities[k]
    ensures PositiveSelectors(quantities) ==> PositiveSelectors(r)
  {
    quantities[id := Max(1, SelectedQuantity(quantities, id) + delta)]
  }

  /** The product numbers of a fetched result set. */
  function ProductNos(products: seq<Product>): set<int>
  {
    set p | p in products :: p.productNo
  }

  /** The selector map built on every product fetch: 1 for each fetched product,
      and nothing else. */
  method InitialQuantities(products: seq<Product>) returns (quantities: map<int, int>)
    ensures quantities.Keys == ProductNos(products)
    ensures forall id :: id in quantities ==> quantities[id] == 1
    ensures PositiveSelectors(quantities)
    ensures forall p :: p in products ==> SelectedQuantity(quantities, p.productNo) == 1
  {
    quantities := map[];
    var i := 0;
    while i < |products|
      invariant 0 <= i <= |products|
      invariant quantities.Keys == ProductNos(products[..i])
      invariant forall id :: id in quantities ==> quantities[id] == 1
    {
      assert products[..i + 1] == products[..i] + [products[i]];
      quantities := quantities[products[i].productNo := 1];
      i := i + 1;
    }
    assert products[..i] == products;
  }

  // ---------------------------------------------------------------------------
  // Cart list
  // ---------------------------------------------------------------------------

  function ProductNo(item: CartItem): int { item.product.productNo }

  /** Some entry of the cart is for product `id`. */
  predicate HasProduct(cart: seq<CartItem>, id: int)
  {
    exists i :: 0 <= i < |cart| && ProductNo(cart[i]) == id
  }

  /** The cart's invariant: at most one entry per product number. */
  predicate UniqueIds(cart: seq<CartItem>)
  {
    forall i, j :: 0 <= i < j < |cart| ==> ProductNo(cart[i]) != ProductNo(cart[j])
  }

  /** The other half of the invariant: every entry's quantity is at least 1. */
  predicate PositiveQuantities(cart: seq<CartItem>)
  {
    forall i :: 0 <= i < |cart| ==> cart[i].quantity >= 1
  }

  /** The first entry for product `id`, as `Array.prototype.find` gives it: no
      earlier entry has that product number. */
  function Find(cart: seq<CartItem>, id: int): (r: Option<CartItem>)
    ensures r.Some? <==> HasProduct(cart, id)
    ensures r.Some? ==> r.value in cart && ProductNo(r.value) == id
    ensures r.Some? ==> exists i :: (0 <= i < |cart| && cart[i] == r.value &&
                                     forall j :: 0 <= j < i ==> ProductNo(cart[j]) != id)
    ensures r.Some? && UniqueIds(cart) ==>
      forall i :: 0 <= i < |cart| && ProductNo(cart[i]) == id ==> cart[i] == r.value
  {
    if cart == [] then None
    else if ProductNo(cart[0]) == id then Some(cart[0])
    else
      var r := Find(cart[1..], id);
      assert HasProduct(cart, id) ==> HasProduct(cart[1..], id) by {
        if HasProduct(cart, id) {
          var i :| 0 <= i < |cart| && ProductNo(cart[i]) == id;
          assert i > 0 && ProductNo(cart[1..][i - 1]) == id;
        }
      }
      assert HasProduct(cart[1..], id) ==> HasProduct(cart, id) by {
        if HasProduct(cart[1..], id) {
          var i :| 0 <= i < |cart[1..]| && ProductNo(cart[1..][i]) == id;
          assert ProductNo(cart[i + 1]) == id;
        }
      }
      assert r.Some? ==> exists i :: (0 <= i < |cart| && cart[i] == r.value &&
                                      forall j :: 0 <= j < i ==> ProductNo(cart[j]) != id)
      by {
        if r.Some? {
          var k :| 0 <= k < |cart[1..]| && cart[1..][k] == r.value &&
            forall j :: 0 <= j < k ==> ProductNo(cart[1..][j]) != id;
          assert cart[k + 1] == r.value;
          forall j | 0 <= j < k + 1 ensures ProductNo(cart[j]) != id {
            if j > 0 { assert cart[j] == cart[1..][j - 1]; }
          }
        }
      }
      r
  }

  /** The `map` branch of addToCart: every entry for `id` grows by `qty`. */
  function IncreaseQuantity(cart: seq<CartItem>, id: int, qty: int): (r: seq<CartItem>)
    ensures |r| == |cart|
    ensures forall i :: 0 <= i < |r| ==> r[i].product == cart[i].product
    ensures forall i :: 0 <= i < |r| && ProductNo(cart[i]) == id ==> r[i].quantity == cart[i].quantity + qty
    ensures forall i :: 0 <= i < |r| && ProductNo(cart[i]) != id ==> r[i] == cart[i]
  {
    seq(|cart|, i requires 0 <= i < |cart| =>
      if ProductNo(cart[i]) == id then cart[i].(quantity := cart[i].quantity + qty) else cart[i])
  }

  /** addToCart's cart update: merge into the existing entry for the product,
      or append a new entry at the end. */
  function AddToCart(cart: seq<CartItem>, product: Product, qty: int): (r: seq<CartItem>)
    // merging: same length, the product's entry grows, all others unchanged
    ensures HasProduct(cart, product.productNo) ==>
      && |r| == |cart|
      && (forall i :: 0 <= i < |r| ==> r[i].product == cart[i].product)
      && (forall i :: 0 <= i < |r| && ProductNo(cart[i]) == product.productNo ==>
            r[i].quantity == cart[i].quantity + qty)
      && (forall i :: 0 <= i < |r| && ProductNo(cart[i]) != product.productNo ==> r[i] == cart[i])
    // appending: exactly one new entry, at the end, earlier entries in place
    ensures !HasProduct(cart, product.productNo) ==> r == cart + [CartItem(product, qty)]
    ensures HasProduct(r, product.productNo)
    ensures UniqueIds(cart) ==> UniqueIds(r)
    ensures PositiveQuantities(cart) && qty >= 1 ==> PositiveQuantities(r)
  {
    match Find(cart, product.productNo)
    case Some(_) => IncreaseQuantity(cart, product.productNo, qty)
    case None =>
      var r := cart + [CartItem(product, qty)];
      assert ProductNo(r[|cart|]) == product.productNo;
      r
  }

  /** removeFromCart: the entries whose product is not `id`, in order. */
  function RemoveFromCart(cart: seq<CartItem>, id: int): (r: seq<CartItem>)
    ensures |r| <= |cart|
    ensures forall x :: x in r <==> x in cart && ProductNo(x) != id
  {
    if cart == [] then []
    else if ProductNo(cart[0]) == id then RemoveFromCart(cart[1..], id)
    else [cart[0]] + RemoveFromCart(cart[1..], id)
  }

  /** After removing `id` no entry for it is left, and both halves of the cart
      invariant still hold. */
  lemma RemoveKeepsInvariant(cart: seq<CartItem>, id: int)
    ensures !HasProduct(RemoveFromCart(cart, id), id)
    ensures PositiveQuantities(cart) ==> PositiveQuantities(RemoveFromCart(cart, id))
    ensures UniqueIds(cart) ==> UniqueIds(RemoveFromCart(cart, id))
  {
    var r := RemoveFromCart(cart, id);
    forall j | 0 <= j < |r| ensures ProductNo(r[j]) != id && r[j] in cart {
      assert r[j] in r;
    }
    if PositiveQuantities(cart) {
      forall j | 0 <= j < |r| ensures r[j].quantity >= 1 {
        var k :| 0 <= k < |cart| && cart[k] == r[j];
      }
    }
    if UniqueIds(cart) {
      RemoveKeepsUnique(cart, id);
    }
  }

  lemma {:induction false} RemoveKeepsUnique(cart: seq<CartItem>, id: int)
    requires UniqueIds(cart)
    ensures UniqueIds(RemoveFromCart(cart, id))
  {
    if cart != [] {
      var rest := RemoveFromCart(cart[1..], id);
      RemoveKeepsUnique(cart[1..], id);
      if ProductNo(cart[0]) != id {
        var r := [cart[0]] + rest;
        forall j | 0 < j < |r| ensures ProductNo(r[0]) != ProductNo(r[j]) {
          assert r[j] in rest;
          var k :| 0 <= k < |cart[1..]| && cart[1..][k] == r[j];
          assert cart[k + 1] == r[j];
        }
      }
    }
  }

  /** Removing a product that has no entry leaves the cart unchanged. */
  lemma {:induction false} RemoveAbsent(cart: seq<CartItem>, id: int)
    requires !HasProduct(cart, id)
    ensures RemoveFromCart(cart, id) == cart
  {
    if cart != [] {
      assert ProductNo(cart[0]) != id;
      assert !HasProduct(cart[1..], id) by {
        forall k | 0 <= k < |cart| - 1 ensures ProductNo(cart[1..][k]) != id {
          assert cart[1..][k] == cart[k + 1];
        }
      }
      RemoveAbsent(cart[1..], id);
    }
  }

  /** In a cart that keeps its invariant, removing the product of entry `i`
      takes out exactly that entry. */
  lemma {:induction false} RemovePresent(cart: seq<CartItem>, i: int)
    requires UniqueIds(cart) && 0 <= i < |cart|
    ensures RemoveFromCart(cart, ProductNo(cart[i])) == cart[..i] + cart[i + 1..]
  {
    var id := ProductNo(cart[i]);
    var tail := cart[1..];
    if i == 0 {
      assert !HasProduct(tail, id) by {
        forall k | 0 <= k < |tail| ensures ProductNo(tail[k]) != id {
          assert tail[k] == cart[k + 1];
        }
      }
      RemoveAbsent(tail, id);
    } else {
      assert UniqueIds(tail) by {
        forall a, b | 0 <= a < b < |tail| ensures ProductNo(tail[a]) != ProductNo(tail[b]) {
          assert tail[a] == cart[a + 1] && tail[b] == cart[b + 1];
        }
      }
      assert tail[i - 1] == cart[i];
      RemovePresent(tail, i - 1);
      assert ProductNo(cart[0]) != id;
      assert cart[..i] == [cart[0]] + tail[..i - 1];
      assert cart[i + 1..] == tail[i..];
    }
  }

  /** updateCartQuantity: every entry for `id` moves by `delta`, floored at 1. */
  function UpdateCartQuantity(cart: seq<CartItem>, id: int, delta: int): (r: seq<CartItem>)
    ensures |r| == |cart|
    ensures forall i :: 0 <= i < |r| ==> r[i].product == cart[i].product
    ensures forall i :: 0 <= i < |r| && ProductNo(cart[i]) == id ==>
      r[i].quantity == Max(1, cart[i].quantity + delta) && r[i].quantity >= 1
    ensures forall i :: 0 <= i < |r| && ProductNo(cart[i]) != id ==> r[i] == cart[i]
    ensures !HasProduct(cart, id) ==> r == cart
    ensures UniqueIds(cart) ==> UniqueIds(r)
    ensures PositiveQuantities(cart) ==> PositiveQuantities(r)
  {
    seq(|cart|, i requires 0 <= i < |cart| =>
      if ProductNo(cart[i]) == id then cart[i].(quantity := Max(1, cart[i].quantity + delta)) else cart[i])
  }

  // ---------------------------------------------------------------------------
  // Derived totals
  // ---------------------------------------------------------------------------

  function Subtotal(item: CartItem): int { item.product.price * item.quantity }

  /** totalAmount: the left fold `sum + price * quantity` from 0. */
  function Total(cart: seq<CartItem>): int
  {
    if cart == [] then 0 else Total(cart[..|cart| - 1]) + Subtotal(cart[|cart| - 1])
  }

  /** The summary bar's total quantity: the left fold `sum + quantity` from 0. */
  function TotalQuantity(cart: seq<CartItem>): int
  {
    if cart == [] then 0 else TotalQuantity(cart[..|cart| - 1]) + cart[|cart| - 1].quantity
  }

  /** The total of a concatenation is the sum of the parts' totals. */
  lemma {:induction false} TotalAppend(a: seq<CartItem>, b: seq<CartItem>)
    ensures Total(a + b) == Total(a) + Total(b)
  {
    if b == [] {
      assert a + b == a;
    } else {
      assert (a + b)[..|a + b| - 1] == a + b[..|b| - 1];
      TotalAppend(a, b[..|b| - 1]);
    }
  }

  lemma {:induction false} TotalQuantityAppend(a: seq<CartItem>, b: seq<CartItem>)
    ensures TotalQuantity(a + b) == TotalQuantity(a) + TotalQuantity(b)
  {
    if b == [] {
      assert a + b == a;
    } else {
      assert (a + b)[..|a + b| - 1] == a + b[..|b| - 1];
      TotalQuantityAppend(a, b[..|b| - 1]);
    }
  }

  /** With every quantity at least 1, the total quantity is at least the number
      of entries. */
  lemma {:induction false} TotalQuantityAtLeastCount(cart: seq<CartItem>)
    requires PositiveQuantities(cart)
    ensures TotalQuantity(cart) >= |cart|
  {
    if cart != [] {
      TotalQuantityAtLeastCount(cart[..|cart| - 1]);
    }
  }

  /** The total splits around entry `i`. */
  lemma TotalSplit(cart: seq<CartItem>, i: int)
    requires 0 <= i < |cart|
    ensures Total(cart) == Total(cart[..i]) + Subtotal(cart[i]) + Total(cart[i + 1..])
  {
    var upTo := cart[..i + 1];
    assert cart == upTo + cart[i + 1..];
    TotalAppend(upTo, cart[i + 1..]);
    assert upTo[..i] == cart[..i];
  }

  /** Replacing one entry changes the total by the difference of the two
      entries' subtotals, and by nothing else. */
  lemma SetEntryTotal(cart: seq<CartItem>, i: int, item: CartItem)
    requires 0 <= i < |cart|
    ensures Total(cart[i := item]) == Total(cart) - Subtotal(cart[i]) + Subtotal(item)
  {
    var edited := cart[i := item];
    TotalSplit(cart, i);
    TotalSplit(edited, i);
    assert edited[..i] == cart[..i];
    assert edited[i + 1..] == cart[i + 1..];
  }

  /** Raising a quantity by `qty` raises the subtotal by the price times `qty`. */
  lemma SubtotalGrowth(item: CartItem, qty: int)
    ensures Subtotal(item.(quantity := item.quantity + qty)) == Subtotal(item) + item.product.price * qty
  {
    assert item.product.price * (item.quantity + qty) == item.product.price * item.quantity + item.product.price * qty;
  }

  /** Raising entry `i`'s quantity by `qty` raises the total by that entry's
      price times `qty`. */
  lemma GrowEntryTotal(cart: seq<CartItem>, i: int, qty: int)
    requires 0 <= i < |cart|
    ensures Total(cart[i := cart[i].(quantity := cart[i].quantity + qty)]) ==
      Total(cart) + cart[i].product.price * qty
  {
    SetEntryTotal(cart, i, cart[i].(quantity := cart[i].quantity + qty));
    SubtotalGrowth(cart[i], qty);
  }

  /** Adding a product that already has entry `i` in a cart that keeps its
      invariant changes the total by that entry's new subtotal minus its old
      one, that is, it raises the total by the chosen quantity times the
      stored entry's price. */
  lemma TotalAfterMerge(cart: seq<CartItem>, i: int, product: Product, qty: int)
    requires UniqueIds(cart) && 0 <= i < |cart| && ProductNo(cart[i]) == product.productNo
    ensures Total(AddToCart(cart, product, qty)) ==
      Total(cart) - Subtotal(cart[i]) + Subtotal(cart[i].(quantity := cart[i].quantity + qty))
    ensures Total(AddToCart(cart, product, qty)) == Total(cart) + cart[i].product.price * qty
  {
    MergePresent(cart, i, product, qty);
    SetEntryTotal(cart, i, cart[i].(quantity := cart[i].quantity + qty));
    GrowEntryTotal(cart, i, qty);
  }

  /** Adding a product with no entry raises the total by the chosen quantity
      times the product's price. */
  lemma TotalAfterAppend(cart: seq<CartItem>, product: Product, qty: int)
    requires !HasProduct(cart, product.productNo)
    ensures Total(AddToCart(cart, product, qty)) == Total(cart) + product.price * qty
  {
    TotalAppend(cart, [CartItem(product, qty)]);
    assert [CartItem(product, qty)][..0] == [];
  }

  /** In a cart that keeps its invariant, adding the product of entry `i`
      changes that entry alone, by the chosen quantity. */
  lemma MergePresent(cart: seq<CartItem>, i: int, product: Product, qty: int)
    requires UniqueIds(cart) && 0 <= i < |cart| && ProductNo(cart[i]) == product.productNo
    ensures AddToCart(cart, product, qty) == cart[i := cart[i].(quantity := cart[i].quantity + qty)]
  {
    assert HasProduct(cart, product.productNo);
    assert AddToCart(cart, product, qty) == IncreaseQuantity(cart, product.productNo, qty);
    IncreasePresent(cart, i, qty);
  }

  /** With unique ids, raising entry `i`'s product touches entry `i` alone. */
  lemma IncreasePresent(cart: seq<CartItem>, i: int, qty: int)
    requires UniqueIds(cart) && 0 <= i < |cart|
    ensures IncreaseQuantity(cart, ProductNo(cart[i]), qty) ==
      cart[i := cart[i].(quantity := cart[i].quantity + qty)]
  {
    var r := IncreaseQuantity(cart, ProductNo(cart[i]), qty);
    var edited := cart[i := cart[i].(quantity := cart[i].quantity + qty)];
    forall k | 0 <= k < |cart| ensures r[k] == edited[k] {
      if k != i { assert ProductNo(cart[k]) != ProductNo(cart[i]); }
    }
  }

  /** In a cart that keeps its invariant, adjusting the product of entry `i`
      changes that entry alone. */
  lemma UpdatePresent(cart: seq<CartItem>, i: int, delta: int)
    requires UniqueIds(cart) && 0 <= i < |cart|
    ensures UpdateCartQuantity(cart, ProductNo(cart[i]), delta) ==
      cart[i := cart[i].(quantity := Max(1, cart[i].quantity + delta))]
  {
    var r := UpdateCartQuantity(cart, ProductNo(cart[i]), delta);
    var edited := cart[i := cart[i].(quantity := Max(1, cart[i].quantity + delta))];
    forall k | 0 <= k < |cart| ensures r[k] == edited[k] {
      if k != i { assert ProductNo(cart[k]) != ProductNo(cart[i]); }
    }
  }

  /** Removing a present product from a cart that keeps its invariant lowers the
      total by exactly that entry's subtotal. */
  lemma TotalAfterRemove(cart: seq<CartItem>, i: int)
    requires UniqueIds(cart) && 0 <= i < |cart|
    ensures Total(RemoveFromCart(cart, ProductNo(cart[i]))) == Total(cart) - Subtotal(cart[i])
  {
    RemovePresent(cart, i);
    TotalSplit(cart, i);
    TotalAppend(cart[..i], cart[i + 1..]);
  }

  /** Moving one present product's quantity in a cart that keeps its invariant
      changes the total by the difference of that entry's old and new
      subtotals, the new quantity being max(1, q + delta). */
  lemma TotalAfterUpdate(cart: seq<CartItem>, i: int, delta: int)
    requires UniqueIds(cart) && 0 <= i < |cart|
    ensures Total(UpdateCartQuantity(cart, ProductNo(cart[i]), delta)) ==
      Total(cart) - Subtotal(cart[i]) + Subtotal(cart[i].(quantity := Max(1, cart[i].quantity + delta)))
  {
    UpdatePresent(cart, i, delta);
    SetEntryTotal(cart, i, cart[i].(quantity := Max(1, cart[i].quantity + delta)));
  }

  /** removeFromCart distributes over concatenation, so the kept entries stay in
      their original order. */
  lemma {:induction false} RemoveAppend(a: seq<CartItem>, b: seq<CartItem>, id: int)
    ensures RemoveFromCart(a + b, id) == RemoveFromCart(a, id) + RemoveFromCart(b, id)
  {
    if a == [] {
      assert a + b == b;
    } else {
      assert (a + b)[1..] == a[1..] + b;
      RemoveAppend(a[1..], b, id);
    }
  }

  /** Adding a product that is not yet in the cart twice, with quantities q1
      and q2, leaves one new entry at the end with quantity q1 + q2. */
  lemma AddTwiceMerges(cart: seq<CartItem>, product: Product, q1: int, q2: int)
    requires !HasProduct(cart, product.productNo)
    ensures AddToCart(AddToCart(cart, product, q1), product, q2) ==
      cart + [CartItem(product, q1 + q2)]
  {
    var once := AddToCart(cart, product, q1);
    var twice := AddToCart(once, product, q2);
    assert |twice| == |cart| + 1;
    forall i | 0 <= i < |twice|
      ensures twice[i] == (cart + [CartItem(product, q1 + q2)])[i]
    {
      if i < |cart| {
        assert ProductNo(once[i]) != product.productNo;
      }
    }
  }

  /** An example cart: 1000 won times 2 plus 2500 won times 1. */
  lemma ScenarioTotal(p1: Product, p2: Product)
    requires p1.price == 1000 && p2.price == 2500
    ensures Total([CartItem(p1, 2), CartItem(p2, 1)]) == 4500
  {
    var cart := [CartItem(p1, 2), CartItem(p2, 1)];
    assert cart[..1] == [CartItem(p1, 2)];
    assert cart[..1][..0] == [];
    assert Total(cart[..1]) == 2000;
  }

  /** An example: a 500 won product added with 3 and then with 2 gives one
      entry of quantity 5 and subtotal 2500. */
  lemma ScenarioAddTwice(p: Product)
    requires p.price == 500
    ensures AddToCart(AddToCart([], p, 3), p, 2) == [CartItem(p, 5)]
    ensures Subtotal(CartItem(p, 5)) == 2500
  {
    AddTwiceMerges([], p, 3, 2);
  }
}
