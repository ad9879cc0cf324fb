/** The cart repository: each method is a transition from a store and its
    arguments to a result (or an error) and the store it leaves behind.
    Storage itself never fails here; only the repository's own error
    conditions are modelled. */
module CartRepository {
  import opened Wrappers
  import opened Domain
  import opened CartStore

  /** The errors the repository raises itself. */
  datatype Error = CartNotFound | ItemNotFound | NonPositiveQuantity

  function Message(e: Error): string
  {
    match e
    case CartNotFound => "cart not found"
    case ItemNotFound => "item not found in cart"
    case NonPositiveQuantity => "quantity must be greater than 0"
  }

  /** What a mutating call returns, together with the store it leaves. */
  datatype Outcome<T> = Outcome(result: Result<T, Error>, store: Store)

  /** Inserts an active, empty cart with a fresh identity. No check is made
      for another active cart of the same user. */
  function CreateCart(s: Store, userId: int): (r: Outcome<Cart>)
    ensures r.result.Ok?
    ensures var cart := r.result.value;
      && cart.userId == userId && cart.totalAmount == 0 && cart.items == [] && cart.isActive
      && r.store.items == s.items
      && r.store.nextItemId == s.nextItemId
      && cart.id == s.nextCartId
      && r.store.nextCartId == s.nextCartId + 1
      && r.store.carts == s.carts + [CartRow(cart.id, userId, 0, true)]
  {
    var row := CartRow(s.nextCartId, userId, 0, true);
    Outcome(Ok(Cart(row.id, userId, 0, [], true)),
            s.(carts := s.carts + [row], nextCartId := s.nextCartId + 1))
  }

  /** `SELECT ... FROM CartItem WHERE CartID = ?`: the lines of a cart, each
      once, in the order the rows are stored. */
  function GetCartItems(s: Store, cartId: int): (items: seq<CartItem>)
    ensures forall item :: item in items <==> item in s.items && item.cartId == cartId
    ensures items == Filter(s.items, ByCart(cartId), true)
  {
    Filter(s.items, ByCart(cartId), true)
  }

  /** The user's first active cart row, with its lines attached; fails with
      "cart not found" when the user has no active cart. */
  function GetCartByUserID(s: Store, userId: int): (r: Result<Cart, Error>)
    ensures r.Err? <==> forall i :: 0 <= i < |s.carts| ==> !ActiveFor(s.carts[i], userId)
    ensures r.Err? ==> r.error == CartNotFound
    ensures r.Ok? ==>
      && r.value.userId == userId && r.value.isActive
      && HasCart(s.carts, r.value.id)
      && (forall item :: item in r.value.items <==> item in s.items && item.cartId == r.value.id)
      && r.value.items == GetCartItems(s, r.value.id)
      && exists i :: 0 <= i < |s.carts| && s.carts[i] == CartRow(r.value.id, userId, r.value.totalAmount, true)
                     && forall j :: 0 <= j < i ==> !ActiveFor(s.carts[j], userId)
  {
    match FindActive(s.carts, userId)
    case None => Err(CartNotFound)
    case Some(i) =>
      var row := s.carts[i];
      Ok(Cart(row.id, row.userId, row.totalAmount, GetCartItems(s, row.id), row.isActive))
  }

  /** Recomputes a cart's total from its current lines and stores it;
      every other row is left as it was. */
  function UpdateCartTotal(s: Store, cartId: int): (s': Store)
    ensures s'.items == s.items && s'.nextCartId == s.nextCartId && s'.nextItemId == s.nextItemId
    ensures TotalRefreshed(s.carts, s', cartId)
  {
    var total := SumWhere(s.items, ByCart(cartId));
    s.(carts := SetTotal(s.carts, cartId, total))
  }

  /** Sets the quantity of the (cart, product) line. Rejects a non-positive
      quantity, fails with "item not found in cart" when no line matches,
      and otherwise returns the line as re-read after the update. */
  function UpdateCartItem(s: Store, cartId: int, productId: int, quantity: int): (r: Outcome<CartItem>)
    ensures quantity <= 0 ==> r == Outcome(Err(NonPositiveQuantity), s)
    ensures r.result.Ok? <==> quantity > 0 && Find(s.items, ByLine(cartId, productId)).Some?
    ensures r.result.Err? ==> r.store == s
    ensures quantity > 0 && r.result.Err? ==> r.result.error == ItemNotFound
    ensures r.result.Ok? ==>
      && r.result.value == s.items[Find(s.items, ByLine(cartId, productId)).value].(quantity := quantity)
      && QuantitySet(s.items, r.store.items, ByLine(cartId, productId), quantity)
      && r.store.nextCartId == s.nextCartId && r.store.nextItemId == s.nextItemId
      && TotalRefreshed(s.carts, r.store, cartId)
  {
    if quantity <= 0 then Outcome(Err(NonPositiveQuantity), s)
    else
      var k := ByLine(cartId, productId);
      var updated := s.(items := SetQuantity(s.items, k, quantity));
      if |Filter(s.items, k, true)| == 0 then
        // no row matched, so the UPDATE changed nothing
        Outcome(Err(ItemNotFound), updated)
      else
        // the re-read after the update always finds the line it just set
        SetQuantityKeepsFind(s.items, k, quantity);
        var i := Find(updated.items, k).value;
        Outcome(Ok(updated.items[i]), UpdateCartTotal(updated, cartId))
  }

  /** Setting the quantity of a line the lookup found: refused when the
      quantity is not positive, otherwise that line with its new quantity. */
  lemma UpdateFoundLine(s: Store, cartId: int, productId: int, quantity: int, i: nat)
    requires Find(s.items, ByLine(cartId, productId)) == Some(i)
    ensures var r := UpdateCartItem(s, cartId, productId, quantity);
      if quantity <= 0 then r == Outcome(Err(NonPositiveQuantity), s)
      else
        && r.result.Ok? && r.result.value == s.items[i].(quantity := quantity)
        && QuantitySet(s.items, r.store.items, ByLine(cartId, productId), quantity)
        && r.store.nextItemId == s.nextItemId
        && r.store.nextCartId == s.nextCartId
        && TotalRefreshed(s.carts, r.store, cartId)
  {
  }

  /** Adds units of a product to a cart. A product already in the cart is
      merged into its line: the quantities add up and the stored unit price
      is kept (the supplied one is ignored). Otherwise a new line is
      appended. Either way the cart's total is recomputed. */
  function AddItemToCart(s: Store, cartId: int, productId: int, quantity: int, price: int): (r: Outcome<CartItem>)
    ensures Find(s.items, ByLine(cartId, productId)).None? ==>
      && r.result == Ok(CartItem(s.nextItemId, cartId, productId, quantity, price))
      && r.store.items == s.items + [r.result.value]
      && r.store.nextItemId == s.nextItemId + 1
      && r.store.nextCartId == s.nextCartId
      && TotalRefreshed(s.carts, r.store, cartId)
    ensures Find(s.items, ByLine(cartId, productId)).Some? ==>
      var i := Find(s.items, ByLine(cartId, productId)).value;
      var merged := s.items[i].quantity + quantity;
      if merged <= 0 then r == Outcome(Err(NonPositiveQuantity), s)
      else
        && r.result.Ok? && r.result.value == s.items[i].(quantity := merged)
        && QuantitySet(s.items, r.store.items, ByLine(cartId, productId), merged)
        && r.store.nextItemId == s.nextItemId
        && r.store.nextCartId == s.nextCartId
        && TotalRefreshed(s.carts, r.store, cartId)
  {
    var k := ByLine(cartId, productId);
    match Find(s.items, k)
    case Some(i) =>
      UpdateFoundLine(s, cartId, productId, s.items[i].quantity + quantity, i);
      UpdateCartItem(s, cartId, productId, s.items[i].quantity + quantity)
    case None =>
      var item := CartItem(s.nextItemId, cartId, productId, quantity, price);
      var inserted := s.(items := s.items + [item], nextItemId := s.nextItemId + 1);
      Outcome(Ok(item), UpdateCartTotal(inserted, cartId))
  }

  /** Deletes the (cart, product) line. Fails with "item not found in cart"
      when no row was deleted; otherwise recomputes the cart's total. */
  function RemoveItemFromCart(s: Store, cartId: int, productId: int): (r: Outcome<()>)
    ensures r.result.Err? <==> forall i :: 0 <= i < |s.items| ==> !Matches(ByLine(cartId, productId), s.items[i])
    ensures r.result.Err? ==> r.result.error == ItemNotFound && r.store == s
    ensures r.result.Ok? ==>
      && |r.store.items| < |s.items|
      && r.store.items == Filter(s.items, ByLine(cartId, productId), false)
      && (forall item :: item in r.store.items <==>
            item in s.items && !(item.cartId == cartId && item.productId == productId))
      && r.store.nextCartId == s.nextCartId && r.store.nextItemId == s.nextItemId
      && TotalRefreshed(s.carts, r.store, cartId)
  {
    var k := ByLine(cartId, productId);
    var remaining := Filter(s.items, k, false);
    var after := s.(items := remaining);
    if |s.items| - |remaining| == 0 then Outcome(Err(ItemNotFound), after)
    else Outcome(Ok(()), UpdateCartTotal(after, cartId))
  }

  /** Deletes every line of the cart and resets its total to 0. */
  function ClearCart(s: Store, cartId: int): (s': Store)
    ensures forall item :: item in s'.items <==> item in s.items && item.cartId != cartId
    ensures s'.items == Filter(s.items, ByCart(cartId), false)
    ensures |s'.carts| == |s.carts|
    ensures forall i :: 0 <= i < |s.carts| ==>
              s'.carts[i] == if s.carts[i].id == cartId then s.carts[i].(totalAmount := 0) else s.carts[i]
    ensures s'.nextCartId == s.nextCartId && s'.nextItemId == s.nextItemId
  {
    var purged := s.(items := Filter(s.items, ByCart(cartId), false));
    purged.(carts := SetTotal(purged.carts, cartId, 0))
  }

  /** Deletes the cart's lines, then the cart row. Fails with "cart not
      found" when no cart row was deleted, by which time the lines are
      already gone. */
  function DeleteCart(s: Store, cartId: int): (r: Outcome<()>)
    ensures r.result.Err? <==> !HasCart(s.carts, cartId)
    ensures r.result.Err? ==> r.result.error == CartNotFound
    ensures forall item :: item in r.store.items <==> item in s.items && item.cartId != cartId
    ensures forall row :: row in r.store.carts <==> row in s.carts && row.id != cartId
    ensures r.store.items == Filter(s.items, ByCart(cartId), false)
    ensures r.store.carts == DropCart(s.carts, cartId)
    ensures r.store.nextCartId == s.nextCartId && r.store.nextItemId == s.nextItemId
  {
    var purged := s.(items := Filter(s.items, ByCart(cartId), false));
    var remaining := DropCart(purged.carts, cartId);
    var after := purged.(carts := remaining);
    if |purged.carts| - |remaining| == 0 then Outcome(Err(CartNotFound), after)
    else Outcome(Ok(()), after)
  }
}
