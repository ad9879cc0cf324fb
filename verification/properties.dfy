/** Properties of the cart repository: the store invariants every
    operation keeps, merge-on-add over any number of adds, idempotent
    clearing, and what a reader sees afterwards. */
module CartProperties {
  import opened Wrappers
  import opened Domain
  import opened CartStore
  import opened CartRepository

  // ----- Facts about the item table -----

  lemma OneLineTail(items: seq<CartItem>)
    requires OneLinePerProduct(items) && items != []
    ensures OneLinePerProduct(items[1..])
    ensures forall i :: 1 <= i < |items| && items[i].cartId == items[0].cartId ==>
              items[i].productId != items[0].productId
  {
    var tail := items[1..];
    forall i, j | 0 <= i < j < |tail| && tail[i].cartId == tail[j].cartId
      ensures tail[i].productId != tail[j].productId
    {
      assert tail[i] == items[i + 1] && tail[j] == items[j + 1];
    }
  }

  lemma ConsKeepsOneLine(head: CartItem, rest: seq<CartItem>)
    requires OneLinePerProduct(rest)
    requires forall x :: x in rest && x.cartId == head.cartId ==> x.productId != head.productId
    ensures OneLinePerProduct([head] + rest)
  {
    var r := [head] + rest;
    forall i, j | 0 <= i < j < |r| && r[i].cartId == r[j].cartId
      ensures r[i].productId != r[j].productId
    {
      assert r[j] == rest[j - 1];
      if i > 0 {
        assert r[i] == rest[i - 1];
      } else {
        assert rest[j - 1] in rest;
      }
    }
  }

  lemma {:induction false} FilterKeepsOneLine(items: seq<CartItem>, k: Key, keep: bool)
    requires OneLinePerProduct(items)
    ensures OneLinePerProduct(Filter(items, k, keep))
  {
    if items != [] {
      var tail := items[1..];
      OneLineTail(items);
      FilterKeepsOneLine(tail, k, keep);
      var rest := Filter(tail, k, keep);
      if Matches(k, items[0]) == keep {
        assert Filter(items, k, keep) == [items[0]] + rest;
        forall x | x in rest && x.cartId == items[0].cartId
          ensures x.productId != items[0].productId
        {
          var m :| 0 <= m < |tail| && tail[m] == x;
          assert items[m + 1] == x;
        }
        ConsKeepsOneLine(items[0], rest);
      } else {
        assert Filter(items, k, keep) == rest;
      }
    }
  }

  /** Deleting or selecting by a clause about another cart does not change
      what cart `d` owns. */
  lemma {:induction false} FilterOtherCart(items: seq<CartItem>, k: Key, keep: bool, d: int)
    requires k.cartId != d
    ensures Filter(Filter(items, k, false), ByCart(d), true) == Filter(items, ByCart(d), true)
  {
    if items != [] {
      FilterOtherCart(items[1..], k, keep, d);
      if !Matches(k, items[0]) {
        var rest := Filter(items[1..], k, false);
        assert Filter(items, k, false) == [items[0]] + rest;
        assert ([items[0]] + rest)[1..] == rest;
      }
    }
  }

  lemma {:induction false} QuantitySetOtherCart(before: seq<CartItem>, after: seq<CartItem>, k: Key, q: int, d: int)
    requires QuantitySet(before, after, k, q)
    requires k.cartId != d
    ensures Filter(after, ByCart(d), true) == Filter(before, ByCart(d), true)
  {
    if before != [] {
      assert QuantitySet(before[1..], after[1..], k, q) by {
        forall i | 0 <= i < |before[1..]| ensures after[1..][i] == if Matches(k, before[1..][i]) then before[1..][i].(quantity := q) else before[1..][i] {
          assert after[1..][i] == after[i + 1] && before[1..][i] == before[i + 1];
        }
      }
      QuantitySetOtherCart(before[1..], after[1..], k, q, d);
      assert after[0].cartId == before[0].cartId;
      if before[0].cartId == d {
        assert after[0] == before[0];
      }
    }
  }

  /** Nothing a DELETE left behind matches its WHERE clause. */
  lemma DeletedNotSelected(items: seq<CartItem>, k: Key)
    ensures Filter(Filter(items, k, false), k, true) == []
  {
    var r := Filter(items, k, false);
    forall i | 0 <= i < |r| ensures !Matches(k, r[i]) {
      assert r[i] in r;
    }
  }

  lemma {:induction false} FilterSplits(items: seq<CartItem>, k: Key)
    ensures |Filter(items, k, true)| + |Filter(items, k, false)| == |items|
  {
    if items != [] {
      FilterSplits(items[1..], k);
    }
  }

  /** With one line per product, a (cart, product) clause matches at most one row. */
  lemma {:induction false} AtMostOneLine(items: seq<CartItem>, c: int, p: int)
    requires OneLinePerProduct(items)
    ensures |Filter(items, ByLine(c, p), true)| <= 1
  {
    if items != [] {
      var tail := items[1..];
      OneLineTail(items);
      AtMostOneLine(tail, c, p);
      if Matches(ByLine(c, p), items[0]) {
        forall i | 0 <= i < |tail| ensures !Matches(ByLine(c, p), tail[i]) {
          assert tail[i] == items[i + 1];
        }
      }
    }
  }

  // ----- Keeping totals current -----

  /** If only cart `c`'s lines changed and its total was recomputed, every
      stored total is current again. */
  lemma RefreshKeepsTotals(before: Store, after: Store, c: int)
    requires TotalsCurrent(before)
    requires TotalRefreshed(before.carts, after, c)
    requires forall d :: d != c ==> Filter(after.items, ByCart(d), true) == Filter(before.items, ByCart(d), true)
    ensures TotalsCurrent(after)
  {
    forall i | 0 <= i < |after.carts|
      ensures after.carts[i].totalAmount == Amount(Filter(after.items, ByCart(after.carts[i].id), true))
    {
      var d := before.carts[i].id;
      if d != c {
        assert Filter(after.items, ByCart(d), true) == Filter(before.items, ByCart(d), true);
      }
    }
  }

  /** Cart rows that only had totals rewritten still name the same carts. */
  lemma RefreshKeepsCarts(before: seq<CartRow>, after: Store, c: int, d: int)
    requires TotalRefreshed(before, after, c)
    requires HasCart(before, d)
    ensures HasCart(after.carts, d)
  {
    var i :| 0 <= i < |before| && before[i].id == d;
    assert after.carts[i].id == d;
  }

  // ----- Every repository operation keeps the store consistent -----

  lemma EmptyIsConsistent()
    ensures Consistent(Empty)
  {
  }

  /** The new cart has an identity no existing cart has, and owns no lines. */
  lemma CreateCartIsFresh(s: Store, userId: int)
    requires Consistent(s)
    ensures var r := CreateCart(s, userId);
      && (forall i :: 0 <= i < |s.carts| ==> s.carts[i].id != r.result.value.id)
      && GetCartItems(r.store, r.result.value.id) == []
  {
    var r := CreateCart(s, userId);
    forall i | 0 <= i < |s.items| ensures s.items[i].cartId != r.result.value.id {
      var j :| 0 <= j < |s.carts| && s.carts[j].id == s.items[i].cartId;
    }
  }

  lemma CreateCartKeepsReferences(s: Store, userId: int)
    requires ItemsHaveCarts(s)
    ensures ItemsHaveCarts(CreateCart(s, userId).store)
  {
    var s' := CreateCart(s, userId).store;
    forall i | 0 <= i < |s'.items| ensures HasCart(s'.carts, s'.items[i].cartId) {
      var j :| 0 <= j < |s.carts| && s.carts[j].id == s.items[i].cartId;
      assert s'.carts[j] == s.carts[j];
    }
  }

  lemma CreateCartKeepsTotals(s: Store, userId: int)
    requires Consistent(s)
    ensures TotalsCurrent(CreateCart(s, userId).store)
  {
    var r := CreateCart(s, userId);
    CreateCartIsFresh(s, userId);
    var s' := r.store;
    forall i | 0 <= i < |s'.carts|
      ensures s'.carts[i].totalAmount == Amount(Filter(s'.items, ByCart(s'.carts[i].id), true))
    {
      if i < |s.carts| {
        assert s'.carts[i] == s.carts[i];
      }
    }
  }

  lemma CreateCartKeepsConsistent(s: Store, userId: int)
    requires Consistent(s)
    ensures Consistent(CreateCart(s, userId).store)
  {
    CreateCartKeepsReferences(s, userId);
    CreateCartKeepsTotals(s, userId);
  }

  /** A user with no active cart who creates one then reads back exactly
      that cart, empty and with total 0. */
  lemma CreateThenGet(s: Store, userId: int)
    requires Consistent(s)
    requires GetCartByUserID(s, userId).Err?
    ensures var r := CreateCart(s, userId);
      GetCartByUserID(r.store, userId) == Ok(Cart(r.result.value.id, userId, 0, [], true))
  {
    var r := CreateCart(s, userId);
    CreateCartIsFresh(s, userId);
    assert r.store.carts[|s.carts|] == CartRow(r.result.value.id, userId, 0, true);
    assert FindActive(r.store.carts, userId) == Some(|s.carts|) by {
      forall j | 0 <= j < |s.carts| ensures !ActiveFor(r.store.carts[j], userId) {
        assert r.store.carts[j] == s.carts[j];
      }
    }
  }

  /** In a consistent store, the total a reader sees is the sum over the
      lines it sees: the stored total never drifts. */
  lemma ReadTotalIsRecomputed(s: Store, userId: int)
    requires Consistent(s)
    requires GetCartByUserID(s, userId).Ok?
    ensures var cart := GetCartByUserID(s, userId).value;
      cart.totalAmount == Amount(cart.items)
  {
  }

  lemma QuantitySetKeepsOneLine(before: seq<CartItem>, after: seq<CartItem>, k: Key, q: int)
    requires OneLinePerProduct(before)
    requires QuantitySet(before, after, k, q)
    ensures OneLinePerProduct(after)
  {
    forall i, j | 0 <= i < j < |after| && after[i].cartId == after[j].cartId
      ensures after[i].productId != after[j].productId
    {
      assert after[i].cartId == before[i].cartId && after[i].productId == before[i].productId;
      assert after[j].cartId == before[j].cartId && after[j].productId == before[j].productId;
    }
  }

  lemma AppendKeepsOneLine(items: seq<CartItem>, item: CartItem)
    requires OneLinePerProduct(items)
    requires forall i :: 0 <= i < |items| ==> !Matches(ByLine(item.cartId, item.productId), items[i])
    ensures OneLinePerProduct(items + [item])
  {
    var r := items + [item];
    forall i, j | 0 <= i < j < |r| && r[i].cartId == r[j].cartId
      ensures r[i].productId != r[j].productId
    {
      if j == |items| {
        assert !Matches(ByLine(item.cartId, item.productId), items[i]);
      } else {
        assert r[i] == items[i] && r[j] == items[j];
      }
    }
  }

  /** Adding never creates a second line for a (cart, product) pair: a line
      is inserted only when the lookup found none. */
  lemma AddItemKeepsOneLine(s: Store, cartId: int, productId: int, quantity: int, price: int)
    requires OneLinePerProduct(s.items)
    ensures OneLinePerProduct(AddItemToCart(s, cartId, productId, quantity, price).store.items)
  {
    var r := AddItemToCart(s, cartId, productId, quantity, price);
    match Find(s.items, ByLine(cartId, productId))
    case Some(i) =>
      var merged := s.items[i].quantity + quantity;
      if merged > 0 {
        QuantitySetKeepsOneLine(s.items, r.store.items, ByLine(cartId, productId), merged);
      } else {
        assert r.store == s;
      }
    case None =>
      AppendKeepsOneLine(s.items, r.result.value);
  }

  lemma EditKeepsTotals(s: Store, s': Store, cartId: int, productId: int, q: int)
    requires TotalsCurrent(s)
    requires QuantitySet(s.items, s'.items, ByLine(cartId, productId), q)
    requires TotalRefreshed(s.carts, s', cartId)
    ensures TotalsCurrent(s')
  {
    forall d | d != cartId
      ensures Filter(s'.items, ByCart(d), true) == Filter(s.items, ByCart(d), true)
    {
      QuantitySetOtherCart(s.items, s'.items, ByLine(cartId, productId), q, d);
    }
    RefreshKeepsTotals(s, s', cartId);
  }

  lemma EditKeepsReferences(s: Store, s': Store, cartId: int, productId: int, q: int)
    requires ItemsHaveCarts(s)
    requires QuantitySet(s.items, s'.items, ByLine(cartId, productId), q)
    requires TotalRefreshed(s.carts, s', cartId)
    ensures ItemsHaveCarts(s')
  {
    forall i | 0 <= i < |s'.items| ensures HasCart(s'.carts, s'.items[i].cartId) {
      RefreshKeepsCarts(s.carts, s', cartId, s.items[i].cartId);
    }
  }

  lemma EditKeepsIdsAndQuantities(s: Store, s': Store, cartId: int, productId: int, q: int)
    requires IdsFresh(s) && QuantitiesPositive(s.items)
    requires QuantitySet(s.items, s'.items, ByLine(cartId, productId), q) && q > 0
    requires TotalRefreshed(s.carts, s', cartId)
    requires s'.nextCartId == s.nextCartId && s'.nextItemId == s.nextItemId
    ensures IdsFresh(s') && QuantitiesPositive(s'.items)
  {
    forall i | 0 <= i < |s'.items| ensures s'.items[i].quantity > 0 && s'.items[i].id < s'.nextItemId {
      assert s'.items[i].id == s.items[i].id;
    }
    forall i | 0 <= i < |s'.carts| ensures s'.carts[i].id < s'.nextCartId {
      assert s'.carts[i].id == s.carts[i].id;
    }
  }

  lemma EditKeepsConsistent(s: Store, s': Store, cartId: int, productId: int, q: int)
    requires Consistent(s)
    requires QuantitySet(s.items, s'.items, ByLine(cartId, productId), q) && q > 0
    requires TotalRefreshed(s.carts, s', cartId)
    requires s'.nextCartId == s.nextCartId && s'.nextItemId == s.nextItemId
    ensures Consistent(s')
  {
    EditKeepsTotals(s, s', cartId, productId, q);
    EditKeepsReferences(s, s', cartId, productId, q);
    QuantitySetKeepsOneLine(s.items, s'.items, ByLine(cartId, productId), q);
    EditKeepsIdsAndQuantities(s, s', cartId, productId, q);
  }

  // Appending a new line for a product the cart did not hold, then
  // refreshing that cart's total: the insert path of AddItemToCart.

  lemma InsertKeepsTotals(s: Store, s': Store, item: CartItem)
    requires TotalsCurrent(s)
    requires s'.items == s.items + [item]
    requires TotalRefreshed(s.carts, s', item.cartId)
    ensures TotalsCurrent(s')
  {
    forall d | d != item.cartId
      ensures Filter(s'.items, ByCart(d), true) == Filter(s.items, ByCart(d), true)
    {
      FilterAppend(s.items, item, ByCart(d), true);
    }
    RefreshKeepsTotals(s, s', item.cartId);
  }

  lemma InsertKeepsReferences(s: Store, s': Store, item: CartItem)
    requires ItemsHaveCarts(s) && HasCart(s.carts, item.cartId)
    requires s'.items == s.items + [item]
    requires TotalRefreshed(s.carts, s', item.cartId)
    ensures ItemsHaveCarts(s')
  {
    forall i | 0 <= i < |s'.items| ensures HasCart(s'.carts, s'.items[i].cartId) {
      if i < |s.items| {
        assert s'.items[i] == s.items[i];
      }
      RefreshKeepsCarts(s.carts, s', item.cartId, s'.items[i].cartId);
    }
  }

  lemma InsertKeepsIdsAndQuantities(s: Store, s': Store, item: CartItem)
    requires IdsFresh(s) && QuantitiesPositive(s.items)
    requires s'.items == s.items + [item] && item.quantity > 0 && item.id == s.nextItemId
    requires s'.nextItemId == s.nextItemId + 1 && s'.nextCartId == s.nextCartId
    requires TotalRefreshed(s.carts, s', item.cartId)
    ensures IdsFresh(s') && QuantitiesPositive(s'.items)
  {
    forall i | 0 <= i < |s'.items| ensures s'.items[i].quantity > 0 && s'.items[i].id < s'.nextItemId {
      if i < |s.items| {
        assert s'.items[i] == s.items[i];
      }
    }
    forall i | 0 <= i < |s'.carts| ensures s'.carts[i].id < s'.nextCartId {
      assert s'.carts[i].id == s.carts[i].id;
    }
  }

  lemma InsertKeepsConsistent(s: Store, s': Store, item: CartItem)
    requires Consistent(s) && HasCart(s.carts, item.cartId)
    requires forall i :: 0 <= i < |s.items| ==> !Matches(ByLine(item.cartId, item.productId), s.items[i])
    requires s'.items == s.items + [item] && item.quantity > 0 && item.id == s.nextItemId
    requires s'.nextItemId == s.nextItemId + 1 && s'.nextCartId == s.nextCartId
    requires TotalRefreshed(s.carts, s', item.cartId)
    ensures Consistent(s')
  {
    InsertKeepsTotals(s, s', item);
    InsertKeepsReferences(s, s', item);
    AppendKeepsOneLine(s.items, item);
    InsertKeepsIdsAndQuantities(s, s', item);
  }

  /** A merging add is an edit of the line's quantity to the summed amount. */
  lemma AddItemMergeIsEdit(s: Store, cartId: int, productId: int, quantity: int, price: int, i: nat)
    requires Find(s.items, ByLine(cartId, productId)) == Some(i)
    requires s.items[i].quantity + quantity > 0
    ensures var s' := AddItemToCart(s, cartId, productId, quantity, price).store;
      && QuantitySet(s.items, s'.items, ByLine(cartId, productId), s.items[i].quantity + quantity)
      && TotalRefreshed(s.carts, s', cartId)
      && s'.nextCartId == s.nextCartId && s'.nextItemId == s.nextItemId
  {
  }

  lemma AddItemMergeKeepsConsistent(s: Store, cartId: int, productId: int, quantity: int, price: int, i: nat)
    requires Consistent(s)
    requires Find(s.items, ByLine(cartId, productId)) == Some(i)
    requires s.items[i].quantity + quantity > 0
    ensures Consistent(AddItemToCart(s, cartId, productId, quantity, price).store)
  {
    AddItemMergeIsEdit(s, cartId, productId, quantity, price, i);
    EditKeepsConsistent(s, AddItemToCart(s, cartId, productId, quantity, price).store,
                        cartId, productId, s.items[i].quantity + quantity);
  }

  lemma AddItemInsertKeepsConsistent(s: Store, cartId: int, productId: int, quantity: int, price: int)
    requires Consistent(s) && HasCart(s.carts, cartId) && quantity > 0
    requires Find(s.items, ByLine(cartId, productId)).None?
    ensures Consistent(AddItemToCart(s, cartId, productId, quantity, price).store)
  {
    var r := AddItemToCart(s, cartId, productId, quantity, price);
    InsertKeepsConsistent(s, r.store, r.result.value);
  }

  /** Adding a positive quantity to an existing cart keeps every invariant. */
  lemma AddItemKeepsConsistent(s: Store, cartId: int, productId: int, quantity: int, price: int)
    requires Consistent(s)
    requires HasCart(s.carts, cartId)
    requires quantity > 0
    ensures Consistent(AddItemToCart(s, cartId, productId, quantity, price).store)
  {
    match Find(s.items, ByLine(cartId, productId))
    case Some(i) =>
      assert s.items[i].quantity > 0;
      AddItemMergeKeepsConsistent(s, cartId, productId, quantity, price, i);
    case None => AddItemInsertKeepsConsistent(s, cartId, productId, quantity, price);
  }

  /** Adding a product the cart does not hold yet raises the cart's stored
      total by quantity × price and its units by the quantity. */
  lemma AddNewProductGrowsCart(s: Store, cartId: int, productId: int, quantity: int, price: int, i: nat)
    requires TotalsCurrent(s)
    requires i < |s.carts| && s.carts[i].id == cartId
    requires Find(s.items, ByLine(cartId, productId)).None?
    ensures var after := AddItemToCart(s, cartId, productId, quantity, price).store;
      && after.carts[i].totalAmount == s.carts[i].totalAmount + quantity * price
      && Units(GetCartItems(after, cartId)) == Units(GetCartItems(s, cartId)) + quantity
  {
    var r := AddItemToCart(s, cartId, productId, quantity, price);
    var item := r.result.value;
    var before := Filter(s.items, ByCart(cartId), true);
    FilterAppend(s.items, item, ByCart(cartId), true);
    AmountAppend(before, [item]);
    UnitsAppend(before, [item]);
  }

  lemma UpdateCartItemKeepsConsistent(s: Store, cartId: int, productId: int, quantity: int)
    requires Consistent(s)
    ensures Consistent(UpdateCartItem(s, cartId, productId, quantity).store)
  {
    var r := UpdateCartItem(s, cartId, productId, quantity);
    if r.result.Ok? {
      EditKeepsConsistent(s, r.store, cartId, productId, quantity);
    }
  }

  lemma RemoveItemKeepsTotals(s: Store, cartId: int, productId: int)
    requires TotalsCurrent(s)
    ensures TotalsCurrent(RemoveItemFromCart(s, cartId, productId).store)
  {
    var r := RemoveItemFromCart(s, cartId, productId);
    if r.result.Ok? {
      var k := ByLine(cartId, productId);
      assert r.store.items == Filter(s.items, k, false);
      forall d | d != cartId
        ensures Filter(r.store.items, ByCart(d), true) == Filter(s.items, ByCart(d), true)
      {
        FilterOtherCart(s.items, k, false, d);
      }
      RefreshKeepsTotals(s, r.store, cartId);
    }
  }

  lemma RemoveItemKeepsReferences(s: Store, cartId: int, productId: int)
    requires ItemsHaveCarts(s)
    ensures ItemsHaveCarts(RemoveItemFromCart(s, cartId, productId).store)
  {
    var r := RemoveItemFromCart(s, cartId, productId);
    if r.result.Ok? {
      forall i | 0 <= i < |r.store.items| ensures HasCart(r.store.carts, r.store.items[i].cartId) {
        assert r.store.items[i] in s.items;
        RefreshKeepsCarts(s.carts, r.store, cartId, r.store.items[i].cartId);
      }
    }
  }

  lemma RemoveItemKeepsOneLine(s: Store, cartId: int, productId: int)
    requires OneLinePerProduct(s.items)
    ensures OneLinePerProduct(RemoveItemFromCart(s, cartId, productId).store.items)
  {
    var r := RemoveItemFromCart(s, cartId, productId);
    if r.result.Ok? {
      assert r.store.items == Filter(s.items, ByLine(cartId, productId), false);
      FilterKeepsOneLine(s.items, ByLine(cartId, productId), false);
    }
  }

  lemma RemoveItemKeepsIdsAndQuantities(s: Store, cartId: int, productId: int)
    requires IdsFresh(s) && QuantitiesPositive(s.items)
    ensures var s' := RemoveItemFromCart(s, cartId, productId).store;
      IdsFresh(s') && QuantitiesPositive(s'.items)
  {
    var r := RemoveItemFromCart(s, cartId, productId);
    if r.result.Ok? {
      forall i | 0 <= i < |r.store.items|
        ensures r.store.items[i].quantity > 0 && r.store.items[i].id < r.store.nextItemId
      {
        assert r.store.items[i] in s.items;
      }
    }
  }

  lemma RemoveItemKeepsConsistent(s: Store, cartId: int, productId: int)
    requires Consistent(s)
    ensures Consistent(RemoveItemFromCart(s, cartId, productId).store)
  {
    RemoveItemKeepsTotals(s, cartId, productId);
    RemoveItemKeepsReferences(s, cartId, productId);
    RemoveItemKeepsOneLine(s, cartId, productId);
    RemoveItemKeepsIdsAndQuantities(s, cartId, productId);
  }

  /** With one line per product, a successful removal deletes exactly one row. */
  lemma RemoveDeletesOneLine(s: Store, cartId: int, productId: int)
    requires OneLinePerProduct(s.items)
    requires RemoveItemFromCart(s, cartId, productId).result.Ok?
    ensures |RemoveItemFromCart(s, cartId, productId).store.items| == |s.items| - 1
  {
    AtMostOneLine(s.items, cartId, productId);
    FilterSplits(s.items, ByLine(cartId, productId));
  }

  lemma UpdateCartTotalKeepsConsistent(s: Store, cartId: int)
    requires Consistent(s)
    ensures Consistent(UpdateCartTotal(s, cartId))
  {
    var s' := UpdateCartTotal(s, cartId);
    RefreshKeepsTotals(s, s', cartId);
    forall i | 0 <= i < |s'.items| ensures HasCart(s'.carts, s'.items[i].cartId) {
      RefreshKeepsCarts(s.carts, s', cartId, s.items[i].cartId);
    }
  }

  lemma ClearCartKeepsTotals(s: Store, cartId: int)
    requires TotalsCurrent(s)
    ensures TotalsCurrent(ClearCart(s, cartId))
  {
    var s' := ClearCart(s, cartId);
    var k := ByCart(cartId);
    assert s'.items == Filter(s.items, k, false);
    forall i | 0 <= i < |s'.carts|
      ensures s'.carts[i].totalAmount == Amount(Filter(s'.items, ByCart(s'.carts[i].id), true))
    {
      var d := s.carts[i].id;
      if d != cartId {
        FilterOtherCart(s.items, k, false, d);
      } else {
        DeletedNotSelected(s.items, k);
      }
    }
  }

  lemma ClearCartKeepsReferences(s: Store, cartId: int)
    requires ItemsHaveCarts(s)
    ensures ItemsHaveCarts(ClearCart(s, cartId))
  {
    var s' := ClearCart(s, cartId);
    forall i | 0 <= i < |s'.items| ensures HasCart(s'.carts, s'.items[i].cartId) {
      assert s'.items[i] in s.items;
      var j :| 0 <= j < |s.carts| && s.carts[j].id == s'.items[i].cartId;
      assert s'.carts[j].id == s.carts[j].id;
    }
  }

  lemma ClearCartKeepsOneLine(s: Store, cartId: int)
    requires OneLinePerProduct(s.items)
    ensures OneLinePerProduct(ClearCart(s, cartId).items)
  {
    assert ClearCart(s, cartId).items == Filter(s.items, ByCart(cartId), false);
    FilterKeepsOneLine(s.items, ByCart(cartId), false);
  }

  lemma ClearCartKeepsIdsAndQuantities(s: Store, cartId: int)
    requires IdsFresh(s) && QuantitiesPositive(s.items)
    ensures var s' := ClearCart(s, cartId);
      IdsFresh(s') && QuantitiesPositive(s'.items)
  {
    var s' := ClearCart(s, cartId);
    forall i | 0 <= i < |s'.items| ensures s'.items[i].quantity > 0 && s'.items[i].id < s'.nextItemId {
      assert s'.items[i] in s.items;
    }
  }

  lemma ClearCartKeepsConsistent(s: Store, cartId: int)
    requires Consistent(s)
    ensures Consistent(ClearCart(s, cartId))
  {
    ClearCartKeepsTotals(s, cartId);
    ClearCartKeepsReferences(s, cartId);
    ClearCartKeepsOneLine(s, cartId);
    ClearCartKeepsIdsAndQuantities(s, cartId);
  }

  lemma DeleteCartKeepsTotals(s: Store, cartId: int)
    requires TotalsCurrent(s)
    ensures TotalsCurrent(DeleteCart(s, cartId).store)
  {
    var s' := DeleteCart(s, cartId).store;
    var k := ByCart(cartId);
    assert s'.items == Filter(s.items, k, false);
    forall i | 0 <= i < |s'.carts|
      ensures s'.carts[i].totalAmount == Amount(Filter(s'.items, ByCart(s'.carts[i].id), true))
    {
      var row := s'.carts[i];
      assert row in s.carts;
      FilterOtherCart(s.items, k, false, row.id);
    }
  }

  lemma DeleteCartKeepsReferences(s: Store, cartId: int)
    requires ItemsHaveCarts(s)
    ensures ItemsHaveCarts(DeleteCart(s, cartId).store)
  {
    var s' := DeleteCart(s, cartId).store;
    forall i | 0 <= i < |s'.items| ensures HasCart(s'.carts, s'.items[i].cartId) {
      var item := s'.items[i];
      assert item in s.items;
      var j :| 0 <= j < |s.carts| && s.carts[j].id == item.cartId;
      assert s.carts[j] in s'.carts;
      var m :| 0 <= m < |s'.carts| && s'.carts[m] == s.carts[j];
    }
  }

  lemma DeleteCartKeepsOneLine(s: Store, cartId: int)
    requires OneLinePerProduct(s.items)
    ensures OneLinePerProduct(DeleteCart(s, cartId).store.items)
  {
    assert DeleteCart(s, cartId).store.items == Filter(s.items, ByCart(cartId), false);
    FilterKeepsOneLine(s.items, ByCart(cartId), false);
  }

  lemma DeleteCartKeepsIdsAndQuantities(s: Store, cartId: int)
    requires IdsFresh(s) && QuantitiesPositive(s.items)
    ensures var s' := DeleteCart(s, cartId).store;
      IdsFresh(s') && QuantitiesPositive(s'.items)
  {
    var s' := DeleteCart(s, cartId).store;
    forall i | 0 <= i < |s'.items| ensures s'.items[i].quantity > 0 && s'.items[i].id < s'.nextItemId {
      assert s'.items[i] in s.items;
    }
    forall i | 0 <= i < |s'.carts| ensures s'.carts[i].id < s'.nextCartId {
      assert s'.carts[i] in s.carts;
    }
  }

  lemma DeleteCartKeepsConsistent(s: Store, cartId: int)
    requires Consistent(s)
    ensures Consistent(DeleteCart(s, cartId).store)
  {
    DeleteCartKeepsTotals(s, cartId);
    DeleteCartKeepsReferences(s, cartId);
    DeleteCartKeepsOneLine(s, cartId);
    DeleteCartKeepsIdsAndQuantities(s, cartId);
  }

  // ----- Clearing -----

  /** Clearing a cart twice leaves the same store as clearing it once. */
  lemma ClearCartIdempotent(s: Store, cartId: int)
    ensures ClearCart(ClearCart(s, cartId), cartId) == ClearCart(s, cartId)
  {
    var once := ClearCart(s, cartId);
    var twice := ClearCart(once, cartId);
    assert twice.items == once.items;
    assert twice.carts == once.carts;
  }

  /** Two cart tables that agree on which rows are the user's active carts
      yield the same first active cart. */
  lemma FindActiveAgrees(a: seq<CartRow>, b: seq<CartRow>, userId: int)
    requires |a| == |b|
    requires forall j :: 0 <= j < |a| ==> ActiveFor(a[j], userId) == ActiveFor(b[j], userId)
    ensures FindActive(a, userId) == FindActive(b, userId)
  {
    match FindActive(a, userId)
    case None =>
    case Some(i) =>
      assert ActiveFor(b[i], userId);
      var j := FindActive(b, userId).value;
      assert !(j < i) && !(i < j);
  }

  /** Clearing rewrites only totals, so every user's active cart is found
      at the same position as before. */
  lemma ClearKeepsActiveCarts(s: Store, cartId: int, userId: int)
    ensures FindActive(ClearCart(s, cartId).carts, userId) == FindActive(s.carts, userId)
  {
    var after := ClearCart(s, cartId).carts;
    forall j | 0 <= j < |s.carts| ensures ActiveFor(after[j], userId) == ActiveFor(s.carts[j], userId) {
    }
    FindActiveAgrees(after, s.carts, userId);
  }

  /** After clearing the cart a reader gets, it reads back with no lines
      and total 0. */
  lemma ClearThenGet(s: Store, userId: int)
    requires GetCartByUserID(s, userId).Ok?
    ensures var cart := GetCartByUserID(s, userId).value;
      GetCartByUserID(ClearCart(s, cart.id), userId) == Ok(cart.(items := [], totalAmount := 0))
  {
    var cart := GetCartByUserID(s, userId).value;
    ClearKeepsActiveCarts(s, cart.id, userId);
    DeletedNotSelected(s.items, ByCart(cart.id));
  }

  // ----- Merge-on-add over any number of adds -----

  /** The arguments of one AddItemToCart call for a fixed (cart, product). */
  datatype Addition = Addition(quantity: int, price: int)

  /** Issues the adds one after another, each on the store the previous left. */
  function AddAll(s: Store, cartId: int, productId: int, adds: seq<Addition>): Store
    decreases |adds|
  {
    if adds == [] then s
    else AddAll(AddItemToCart(s, cartId, productId, adds[0].quantity, adds[0].price).store,
                cartId, productId, adds[1..])
  }

  function QuantityOf(adds: seq<Addition>): int
  {
    if adds == [] then 0 else adds[0].quantity + QuantityOf(adds[1..])
  }

  /** One add onto an existing line keeps the line in place as the first
      match and only raises its quantity. */
  lemma MergeStep(s: Store, cartId: int, productId: int, quantity: int, price: int, i: nat)
    requires Find(s.items, ByLine(cartId, productId)) == Some(i)
    requires s.items[i].quantity + quantity > 0
    ensures var after := AddItemToCart(s, cartId, productId, quantity, price).store.items;
      && Find(after, ByLine(cartId, productId)) == Some(i)
      && after[i] == s.items[i].(quantity := s.items[i].quantity + quantity)
  {
    var k := ByLine(cartId, productId);
    var after := AddItemToCart(s, cartId, productId, quantity, price).store.items;
    AddItemMergeIsEdit(s, cartId, productId, quantity, price, i);
    assert forall j :: 0 <= j < |s.items| ==> Matches(k, after[j]) == Matches(k, s.items[j]);
    FindAgrees(after, s.items, k);
  }

  /** Once a line exists, every further positive add merges into it: the
      line stays where it is, its quantity grows by the sum of the added
      quantities and its price never changes. */
  lemma {:induction false} MergeAccumulates(s: Store, cartId: int, productId: int, adds: seq<Addition>, i: nat)
    requires Find(s.items, ByLine(cartId, productId)) == Some(i)
    requires s.items[i].quantity > 0
    requires forall j :: 0 <= j < |adds| ==> adds[j].quantity > 0
    ensures var after := AddAll(s, cartId, productId, adds).items;
      && Find(after, ByLine(cartId, productId)) == Some(i)
      && after[i] == s.items[i].(quantity := s.items[i].quantity + QuantityOf(adds))
    decreases |adds|
  {
    if adds != [] {
      var s1 := AddItemToCart(s, cartId, productId, adds[0].quantity, adds[0].price).store;
      MergeStep(s, cartId, productId, adds[0].quantity, adds[0].price, i);
      assert forall j :: 0 <= j < |adds[1..]| ==> adds[1..][j] == adds[j + 1];
      MergeAccumulates(s1, cartId, productId, adds[1..], i);
      var after := AddAll(s1, cartId, productId, adds[1..]).items;
      assert AddAll(s, cartId, productId, adds).items == after;
      assert s1.items[i].quantity + QuantityOf(adds[1..]) == s.items[i].quantity + QuantityOf(adds);
      assert after[i] == s.items[i].(quantity := s.items[i].quantity + QuantityOf(adds));
    }
  }

  /** Adding the same product n times to a cart that did not hold it leaves
      one line at the end of the table, with the first add's identity and
      price and the sum of all the quantities. */
  lemma RepeatedAddsMerge(s: Store, cartId: int, productId: int, adds: seq<Addition>)
    requires Find(s.items, ByLine(cartId, productId)).None?
    requires |adds| > 0
    requires forall j :: 0 <= j < |adds| ==> adds[j].quantity > 0
    ensures var after := AddAll(s, cartId, productId, adds).items;
      && Find(after, ByLine(cartId, productId)) == Some(|s.items|)
      && after[|s.items|] == CartItem(s.nextItemId, cartId, productId, QuantityOf(adds), adds[0].price)
  {
    var s1 := AddItemToCart(s, cartId, productId, adds[0].quantity, adds[0].price).store;
    InsertIsFirstMatch(s, cartId, productId, adds[0].quantity, adds[0].price);
    assert forall j :: 0 <= j < |adds[1..]| ==> adds[1..][j] == adds[j + 1];
    MergeAccumulates(s1, cartId, productId, adds[1..], |s.items|);
    assert AddAll(s, cartId, productId, adds) == AddAll(s1, cartId, productId, adds[1..]);
  }

  /** A first add of a product appends its line, which is then the line
      the (cart, product) lookup finds. */
  lemma InsertIsFirstMatch(s: Store, cartId: int, productId: int, quantity: int, price: int)
    requires Find(s.items, ByLine(cartId, productId)).None?
    ensures var after := AddItemToCart(s, cartId, productId, quantity, price).store.items;
      && Find(after, ByLine(cartId, productId)) == Some(|s.items|)
      && after[|s.items|] == CartItem(s.nextItemId, cartId, productId, quantity, price)
  {
    var item := CartItem(s.nextItemId, cartId, productId, quantity, price);
    assert AddItemToCart(s, cartId, productId, quantity, price).store.items == s.items + [item];
    FindAppended(s.items, item, ByLine(cartId, productId));
  }

  /** A row appended to a table with no match is the first match. */
  lemma FindAppended(items: seq<CartItem>, item: CartItem, k: Key)
    requires Find(items, k).None?
    requires Matches(k, item)
    ensures Find(items + [item], k) == Some(|items|)
  {
    var after := items + [item];
    assert after[|items|] == item;
    var j := Find(after, k).value;
    assert forall i :: 0 <= i < |items| ==> after[i] == items[i];
  }
}
