/** Properties of the cart service surface: what a cart response counts,
    that its numbers agree, that every handler keeps the store consistent,
    and so that every store reachable by requests is consistent. */
module ServiceProperties {
  import opened Wrappers
  import opened Domain
  import opened CartStore
  import opened CartRepository
  import opened CartProperties
  import opened CartHandler

  // ----- The response projection -----

  lemma {:induction false} UnitsAtLeastLines(items: seq<CartItem>)
    requires forall j :: 0 <= j < |items| ==> items[j].quantity >= 1
    ensures Units(items) >= |items|
    ensures Units(items) == |items| <==> forall j :: 0 <= j < |items| ==> items[j].quantity == 1
  {
    if items != [] {
      assert forall j :: 0 <= j < |items[1..]| ==> items[1..][j] == items[j + 1];
      UnitsAtLeastLines(items[1..]);
    }
  }

  /** TotalItems counts units, not distinct lines: with positive quantities
      it is at least the number of lines, and equals it exactly when every
      line holds a single unit. */
  lemma TotalItemsCountsUnits(cart: Cart)
    requires forall j :: 0 <= j < |cart.items| ==> cart.items[j].quantity >= 1
    ensures var r := BuildCartResponse(cart);
      && r.totalItems >= |r.items|
      && (r.totalItems == |r.items| <==> forall j :: 0 <= j < |cart.items| ==> cart.items[j].quantity == 1)
  {
    UnitsAtLeastLines(cart.items);
  }

  /** Sum of the subtotals shown on a response's lines. */
  function SubtotalSum(lines: seq<CartItemResponse>): int
  {
    if lines == [] then 0 else lines[0].subtotal + SubtotalSum(lines[1..])
  }

  lemma {:induction false} SubtotalSumIsAmount(lines: seq<CartItemResponse>, items: seq<CartItem>)
    requires |lines| == |items|
    requires forall j :: 0 <= j < |items| ==> lines[j].subtotal == Subtotal(items[j])
    ensures SubtotalSum(lines) == Amount(items)
  {
    if items != [] {
      assert forall j :: 0 <= j < |items[1..]| ==> lines[1..][j] == lines[j + 1] && items[1..][j] == items[j + 1];
      SubtotalSumIsAmount(lines[1..], items[1..]);
    }
  }

  /** The subtotals of a response add up to quantity × price over the cart's lines. */
  lemma SubtotalsAddUp(cart: Cart)
    ensures SubtotalSum(BuildCartResponse(cart).items) == Amount(cart.items)
  {
    SubtotalSumIsAmount(BuildCartResponse(cart).items, cart.items);
  }

  /** Read from a consistent store, a cart response's total equals the sum
      of the subtotals it shows. */
  lemma ReadBackTotalsAgree(s: Store, userId: int)
    requires Consistent(s)
    requires GetCartHandler(s, userId).reply.Success?
    ensures var body := GetCartHandler(s, userId).reply.body;
      body.totalAmount == SubtotalSum(body.items)
  {
    var cart := GetCartByUserID(s, userId).value;
    ReadTotalIsRecomputed(s, userId);
    SubtotalsAddUp(cart);
  }

  // ----- Every handler keeps the store consistent -----

  lemma AddToCartHandlerKeepsConsistent(s: Store, req: AddToCartRequest)
    requires Consistent(s)
    ensures Consistent(AddToCartHandler(s, req).store)
  {
    if ValidAdd(req) && GetCartByUserID(s, req.userId).Ok? {
      var cart := GetCartByUserID(s, req.userId).value;
      AddItemKeepsConsistent(s, cart.id, req.productId, req.quantity, req.price);
    }
  }

  lemma RemoveFromCartHandlerKeepsConsistent(s: Store, req: RemoveFromCartRequest)
    requires Consistent(s)
    ensures Consistent(RemoveFromCartHandler(s, req).store)
  {
    if ValidRemove(req) && GetCartByUserID(s, req.userId).Ok? {
      RemoveItemKeepsConsistent(s, GetCartByUserID(s, req.userId).value.id, req.productId);
    }
  }

  lemma UpdateCartItemHandlerKeepsConsistent(s: Store, req: UpdateCartRequest)
    requires Consistent(s)
    ensures Consistent(UpdateCartItemHandler(s, req).store)
  {
    if ValidUpdate(req) && GetCartByUserID(s, req.userId).Ok? {
      UpdateCartItemKeepsConsistent(s, GetCartByUserID(s, req.userId).value.id, req.productId, req.quantity);
    }
  }

  lemma ClearCartHandlerKeepsConsistent(s: Store, userId: int)
    requires Consistent(s)
    ensures Consistent(ClearCartHandler(s, userId).store)
  {
    if GetCartByUserID(s, userId).Ok? {
      ClearCartKeepsConsistent(s, GetCartByUserID(s, userId).value.id);
    }
  }

  // ----- When the handlers succeed -----

  /** A store step that only refreshes one cart's total leaves every user's
      active cart where it was. */
  lemma RefreshKeepsActiveCart(before: seq<CartRow>, after: Store, cartId: int, userId: int)
    requires TotalRefreshed(before, after, cartId)
    ensures FindActive(after.carts, userId) == FindActive(before, userId)
  {
    forall j | 0 <= j < |before| ensures ActiveFor(after.carts[j], userId) == ActiveFor(before[j], userId) {
    }
    FindActiveAgrees(after.carts, before, userId);
  }

  /** With positive stored quantities, a positive add always lands and
      leaves only the cart's total refreshed among the cart rows. */
  lemma AddRefreshesTotal(s: Store, cartId: int, productId: int, quantity: int, price: int)
    requires QuantitiesPositive(s.items)
    requires quantity > 0
    ensures var added := AddItemToCart(s, cartId, productId, quantity, price);
      added.result.Ok? && TotalRefreshed(s.carts, added.store, cartId)
  {
    match Find(s.items, ByLine(cartId, productId))
    case None =>
    case Some(i) => assert s.items[i].quantity > 0;
  }

  /** A request past the add guard always lands in the repository when the
      stored quantities are positive: on the line of that (cart, product),
      which then holds at least the units asked for. */
  lemma GuardedAddLands(s: Store, cartId: int, req: AddToCartRequest)
    requires QuantitiesPositive(s.items)
    requires ValidAdd(req)
    ensures var r := AddItemToCart(s, cartId, req.productId, req.quantity, req.price);
      && r.result.Ok?
      && r.result.value.cartId == cartId && r.result.value.productId == req.productId
      && r.result.value.quantity >= req.quantity > 0
  {
    match Find(s.items, ByLine(cartId, req.productId))
    case None =>
    case Some(i) => assert s.items[i].quantity > 0;
  }

  /** Past the update guard, the repository refuses an update only because
      the cart holds no line for the product. */
  lemma GuardedUpdateMissesOnlyLines(s: Store, cartId: int, req: UpdateCartRequest)
    requires ValidUpdate(req)
    ensures var r := UpdateCartItem(s, cartId, req.productId, req.quantity);
      r.result.Err? ==> r.result.error == ItemNotFound && Find(s.items, ByLine(cartId, req.productId)).None?
  {
  }

  /** On a consistent store, a well-formed add for a user who has a cart
      always succeeds, and the cart it shows has a total equal to the sum of
      its subtotals. */
  lemma AddToCartSucceeds(s: Store, req: AddToCartRequest)
    requires Consistent(s)
    requires ValidAdd(req)
    requires GetCartByUserID(s, req.userId).Ok?
    ensures var h := AddToCartHandler(s, req);
      && h.reply.Success?
      && h.reply.body.cartId == GetCartByUserID(s, req.userId).value.id
      && h.reply.body.totalAmount == SubtotalSum(h.reply.body.items)
  {
    var cart := GetCartByUserID(s, req.userId).value;
    var added := AddItemToCart(s, cart.id, req.productId, req.quantity, req.price);
    AddRefreshesTotal(s, cart.id, req.productId, req.quantity, req.price);
    RefreshKeepsActiveCart(s.carts, added.store, cart.id, req.userId);
    AddItemKeepsConsistent(s, cart.id, req.productId, req.quantity, req.price);
    ReadBackTotalsAgree(added.store, req.userId);
    assert GetCartByUserID(added.store, req.userId).value.id == cart.id;
  }

  /** For a well-formed update of a user who has a cart, the handler
      succeeds exactly when the cart holds a line for the product. */
  lemma UpdateSucceedsIffLineExists(s: Store, req: UpdateCartRequest)
    requires ValidUpdate(req)
    requires GetCartByUserID(s, req.userId).Ok?
    ensures var cart := GetCartByUserID(s, req.userId).value;
      UpdateCartItemHandler(s, req).reply.Success? <==> Find(s.items, ByLine(cart.id, req.productId)).Some?
  {
    var cart := GetCartByUserID(s, req.userId).value;
    var updated := UpdateCartItem(s, cart.id, req.productId, req.quantity);
    if updated.result.Ok? {
      RefreshKeepsActiveCart(s.carts, updated.store, cart.id, req.userId);
    }
  }

  /** For a well-formed removal of a user who has a cart, the handler
      succeeds exactly when the cart holds a line for the product. */
  lemma RemoveSucceedsIffLineExists(s: Store, req: RemoveFromCartRequest)
    requires ValidRemove(req)
    requires GetCartByUserID(s, req.userId).Ok?
    ensures var cart := GetCartByUserID(s, req.userId).value;
      RemoveFromCartHandler(s, req).reply.Success? <==>
        exists i :: 0 <= i < |s.items| && Matches(ByLine(cart.id, req.productId), s.items[i])
  {
    var cart := GetCartByUserID(s, req.userId).value;
    var removed := RemoveItemFromCart(s, cart.id, req.productId);
    if removed.result.Ok? {
      RefreshKeepsActiveCart(s.carts, removed.store, cart.id, req.userId);
    }
  }

  // ----- A worked example: two adds of one product -----

  /** User 7's fresh cart, then after adding two units of product 10 at
      9.99, then after adding three more at 5.00. */
  const CartCreated := Store([CartRow(1, 7, 0, true)], [], 2, 1)
  const FirstAdded := Store([CartRow(1, 7, 1998, true)], [CartItem(1, 1, 10, 2, 999)], 2, 2)
  const SecondAdded := Store([CartRow(1, 7, 4995, true)], [CartItem(1, 1, 10, 5, 999)], 2, 2)

  lemma ExampleCreate()
    ensures CreateCartHandler(Empty, 7)
            == Handled(Success(StatusCreated, CartResponse(1, 7, [], 0, 0)), CartCreated)
  {
  }

  lemma ExampleFirstAdd()
    ensures AddToCartHandler(CartCreated, AddToCartRequest(7, 10, 2, 999)).store == FirstAdded
  {
    var s := CartCreated;
    assert GetCartByUserID(s, 7) == Ok(Cart(1, 7, 0, [], true)) by {
      assert FindActive(s.carts, 7) == Some(0);
    }
    assert Find(s.items, ByLine(1, 10)) == None;
    var added := AddItemToCart(s, 1, 10, 2, 999);
    assert added.store.items == [CartItem(1, 1, 10, 2, 999)];
    assert Amount(Filter(added.store.items, ByCart(1), true)) == 1998 by {
      assert Filter(added.store.items, ByCart(1), true) == added.store.items;
    }
    assert added.store.carts[0] == CartRow(1, 7, 1998, true);
  }

  lemma ExampleMerge()
    ensures AddItemToCart(FirstAdded, 1, 10, 3, 500) == Outcome(Ok(CartItem(1, 1, 10, 5, 999)), SecondAdded)
  {
    var s := FirstAdded;
    assert Find(s.items, ByLine(1, 10)) == Some(0);
    var added := AddItemToCart(s, 1, 10, 3, 500);
    assert added.store.items == [CartItem(1, 1, 10, 5, 999)];
    assert Amount(Filter(added.store.items, ByCart(1), true)) == 4995 by {
      assert Filter(added.store.items, ByCart(1), true) == added.store.items;
    }
  }

  lemma ExampleResponse()
    ensures BuildCartResponse(Cart(1, 7, 4995, SecondAdded.items, true))
            == CartResponse(1, 7, [CartItemResponse(1, 10, 5, 999, 4995)], 4995, 5)
  {
    var r := BuildCartResponse(Cart(1, 7, 4995, SecondAdded.items, true));
    assert r.items[0] == CartItemResponse(1, 10, 5, 999, 4995);
  }

  /** The add handler's reply when every step succeeds: the cart as read
      back after the add. */
  lemma AddToCartReply(s: Store, req: AddToCartRequest, cart: Cart, added: Outcome<CartItem>, after: Cart)
    requires ValidAdd(req)
    requires GetCartByUserID(s, req.userId) == Ok(cart)
    requires AddItemToCart(s, cart.id, req.productId, req.quantity, req.price) == added
    requires added.result.Ok?
    requires GetCartByUserID(added.store, req.userId) == Ok(after)
    ensures AddToCartHandler(s, req) == Handled(Success(StatusOK, BuildCartResponse(after)), added.store)
  {
  }

  lemma ExampleSecondAdd()
    ensures AddToCartHandler(FirstAdded, AddToCartRequest(7, 10, 3, 500))
            == Handled(Success(StatusOK, CartResponse(1, 7, [CartItemResponse(1, 10, 5, 999, 4995)], 4995, 5)),
                       SecondAdded)
  {
    var cart := Cart(1, 7, 1998, FirstAdded.items, true);
    assert GetCartByUserID(FirstAdded, 7) == Ok(cart) by {
      assert FindActive(FirstAdded.carts, 7) == Some(0);
      assert GetCartItems(FirstAdded, 1) == FirstAdded.items;
    }
    ExampleMerge();
    var after := Cart(1, 7, 4995, SecondAdded.items, true);
    assert GetCartByUserID(SecondAdded, 7) == Ok(after) by {
      assert FindActive(SecondAdded.carts, 7) == Some(0);
      assert GetCartItems(SecondAdded, 1) == SecondAdded.items;
    }
    AddToCartReply(FirstAdded, AddToCartRequest(7, 10, 3, 500), cart,
                   AddItemToCart(FirstAdded, 1, 10, 3, 500), after);
    ExampleResponse();
  }

  /** User 7 creates a cart, adds two units of product 10 at 9.99, then three
      more at 5.00: the second add merges into the first line, keeps the
      first price, and the cart shows 5 units totalling 49.95. */
  lemma TwoAddsExample()
    ensures var s1 := CreateCartHandler(Empty, 7).store;
      var s2 := AddToCartHandler(s1, AddToCartRequest(7, 10, 2, 999)).store;
      AddToCartHandler(s2, AddToCartRequest(7, 10, 3, 500)).reply
        == Success(StatusOK, CartResponse(1, 7, [CartItemResponse(1, 10, 5, 999, 4995)], 4995, 5))
  {
    ExampleCreate();
    ExampleFirstAdd();
    ExampleSecondAdd();
  }

  // ----- Any sequence of requests -----

  datatype Request =
    | CreateCartRequest(userId: int)
    | GetCartRequest(userId: int)
    | AddRequest(add: AddToCartRequest)
    | RemoveRequest(remove: RemoveFromCartRequest)
    | UpdateRequest(update: UpdateCartRequest)
    | ClearRequest(userId: int)

  /** Dispatches a request to its handler. */
  function Handle(s: Store, req: Request): (h: Handled)
    ensures req.CreateCartRequest? ==> h == CreateCartHandler(s, req.userId)
    ensures req.GetCartRequest? ==> h == GetCartHandler(s, req.userId)
    ensures req.AddRequest? ==> h == AddToCartHandler(s, req.add)
    ensures req.RemoveRequest? ==> h == RemoveFromCartHandler(s, req.remove)
    ensures req.UpdateRequest? ==> h == UpdateCartItemHandler(s, req.update)
    ensures req.ClearRequest? ==> h == ClearCartHandler(s, req.userId)
  {
    match req
    case CreateCartRequest(u) => CreateCartHandler(s, u)
    case GetCartRequest(u) => GetCartHandler(s, u)
    case AddRequest(a) => AddToCartHandler(s, a)
    case RemoveRequest(r) => RemoveFromCartHandler(s, r)
    case UpdateRequest(r) => UpdateCartItemHandler(s, r)
    case ClearRequest(u) => ClearCartHandler(s, u)
  }

  /** Serves the requests one after another. */
  function Serve(s: Store, reqs: seq<Request>): Store
    decreases |reqs|
  {
    if reqs == [] then s else Serve(Handle(s, reqs[0]).store, reqs[1..])
  }

  /** Every kind of request leaves a consistent store consistent. */
  lemma HandleKeepsConsistent(s: Store, req: Request)
    requires Consistent(s)
    ensures Consistent(Handle(s, req).store)
  {
    match req
    case CreateCartRequest(u) => CreateCartKeepsConsistent(s, u);
    case GetCartRequest(_) =>
    case AddRequest(a) => AddToCartHandlerKeepsConsistent(s, a);
    case RemoveRequest(r) => RemoveFromCartHandlerKeepsConsistent(s, r);
    case UpdateRequest(r) => UpdateCartItemHandlerKeepsConsistent(s, r);
    case ClearRequest(u) => ClearCartHandlerKeepsConsistent(s, u);
  }

  /** Whatever requests arrive, one at a time, the store stays consistent:
      in particular every stored total equals its recomputed sum and no
      cart holds two lines for one product. */
  lemma {:induction false} ServeKeepsConsistent(s: Store, reqs: seq<Request>)
    requires Consistent(s)
    ensures Consistent(Serve(s, reqs))
    decreases |reqs|
  {
    if reqs != [] {
      HandleKeepsConsistent(s, reqs[0]);
      ServeKeepsConsistent(Handle(s, reqs[0]).store, reqs[1..]);
    }
  }

  /** Every store reachable from an empty database is consistent. */
  lemma ReachableStoresAreConsistent(reqs: seq<Request>)
    ensures Consistent(Serve(Empty, reqs))
  {
    EmptyIsConsistent();
    ServeKeepsConsistent(Empty, reqs);
  }
}
