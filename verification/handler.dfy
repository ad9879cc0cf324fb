/** The cart service surface: request guards, the projection of a cart
    into its response, and each handler's flow from a parsed request to a
    reply. Transport details (HTTP methods, JSON, headers) are not modelled;
    a reply carries the status code and either the response or the error
    text the handler writes. */
module CartHandler {
  import opened Wrappers
  import opened Domain
  import opened CartStore
  import opened CartRepository

  datatype AddToCartRequest = AddToCartRequest(userId: int, productId: int, quantity: int, price: int)
  datatype RemoveFromCartRequest = RemoveFromCartRequest(userId: int, productId: int)
  datatype UpdateCartRequest = UpdateCartRequest(userId: int, productId: int, quantity: int)

  datatype CartItemResponse = CartItemResponse(id: int, productId: int, quantity: int, price: int, subtotal: int)

  datatype CartResponse = CartResponse(cartId: int, userId: int, items: seq<CartItemResponse>,
                                       totalAmount: int, totalItems: int)

  const StatusOK := 200
  const StatusCreated := 201
  const StatusBadRequest := 400
  const StatusNotFound := 404
  const StatusInternalServerError := 500

  datatype Reply = Success(status: int, body: CartResponse) | Failure(status: int, message: string)

  /** A reply together with the store the request left behind. */
  datatype Handled = Handled(reply: Reply, store: Store)

  // ----- Input guards -----

  /** The add guard. The handler refuses a request with a zero user or
      product id, a quantity ≤ 0 or a price ≤ 0. */
  predicate ValidAdd(req: AddToCartRequest)
  {
    req.userId != 0 && req.productId != 0 && req.quantity > 0 && req.price > 0
  }

  /** The remove guard: both ids must be non-zero. */
  predicate ValidRemove(req: RemoveFromCartRequest)
  {
    req.userId != 0 && req.productId != 0
  }

  /** The update guard: both ids must be non-zero and the quantity positive. */
  predicate ValidUpdate(req: UpdateCartRequest)
  {
    req.userId != 0 && req.productId != 0 && req.quantity > 0
  }

  // ----- Response projection -----

  function LineResponse(item: CartItem): CartItemResponse
  {
    CartItemResponse(item.id, item.productId, item.quantity, item.price, Subtotal(item))
  }

  /** The loop of buildCartResponse from position `i` on, with the lines
      built so far in `lines` and the units counted so far in `totalItems`. */
  function BuildLoop(items: seq<CartItem>, i: nat, lines: seq<CartItemResponse>, totalItems: int)
    : (r: (seq<CartItemResponse>, int))
    requires i <= |items|
    ensures |r.0| == |lines| + |items| - i
    ensures forall j :: 0 <= j < |lines| ==> r.0[j] == lines[j]
    ensures forall j :: i <= j < |items| ==> r.0[|lines| + j - i] == LineResponse(items[j])
    ensures r.1 == totalItems + Units(items[i..])
    decreases |items| - i
  {
    if i == |items| then (lines, totalItems)
    else
      assert items[i..][1..] == items[i + 1..];
      BuildLoop(items, i + 1, lines + [LineResponse(items[i])], totalItems + items[i].quantity)
  }

  /** The response for a cart: one line per item, in order, each with its
      subtotal; the stored total copied as is; and the number of units. */
  function BuildCartResponse(cart: Cart): (r: CartResponse)
    ensures r.cartId == cart.id && r.userId == cart.userId
    ensures r.totalAmount == cart.totalAmount
    ensures |r.items| == |cart.items|
    ensures forall j :: 0 <= j < |cart.items| ==>
              var item := cart.items[j];
              r.items[j] == CartItemResponse(item.id, item.productId, item.quantity, item.price,
                                             item.quantity * item.price)
    ensures r.totalItems == Units(cart.items)
  {
    var (lines, totalItems) := BuildLoop(cart.items, 0, [], 0);
    assert cart.items[0..] == cart.items;
    CartResponse(cart.id, cart.userId, lines, cart.totalAmount, totalItems)
  }

  /** The response written when a cart is known to hold nothing. */
  function EmptyResponse(cartId: int, userId: int): CartResponse
  {
    CartResponse(cartId, userId, [], 0, 0)
  }

  // ----- Handlers -----

  /** A POST that creates a cart for a parsed user id. */
  function CreateCartHandler(s: Store, userId: int): (h: Handled)
    ensures h.reply.Success? && h.reply.status == StatusCreated
    ensures h.reply.body.userId == userId && h.reply.body.items == []
    ensures h.reply.body.totalAmount == 0 && h.reply.body.totalItems == 0
    ensures h.reply.body.cartId == CreateCart(s, userId).result.value.id
    ensures h.store == CreateCart(s, userId).store
  {
    var created := CreateCart(s, userId);
    var cart := created.result.value;
    Handled(Success(StatusCreated, EmptyResponse(cart.id, cart.userId)), created.store)
  }

  /** A GET of the cart of a parsed user id. */
  function GetCartHandler(s: Store, userId: int): (h: Handled)
    ensures h.store == s
    ensures h.reply.Failure? <==> GetCartByUserID(s, userId).Err?
    ensures h.reply.Failure? ==> h.reply == Failure(StatusNotFound, "cart not found")
    ensures h.reply.Success? ==> h.reply.status == StatusOK && h.reply.body.userId == userId
    ensures h.reply.Success? ==> h.reply.body == BuildCartResponse(GetCartByUserID(s, userId).value)
  {
    match GetCartByUserID(s, userId)
    case Err(e) => Handled(Failure(StatusNotFound, Message(e)), s)
    case Ok(cart) => Handled(Success(StatusOK, BuildCartResponse(cart)), s)
  }

  /** A POST that adds a product: validate, find the user's cart, add,
      read it back. */
  function AddToCartHandler(s: Store, req: AddToCartRequest): (h: Handled)
    ensures !ValidAdd(req) ==> h == Handled(Failure(StatusBadRequest, "Invalid product data"), s)
    ensures ValidAdd(req) && GetCartByUserID(s, req.userId).Err? ==>
              h == Handled(Failure(StatusNotFound, "Cart not found"), s)
    ensures ValidAdd(req) && GetCartByUserID(s, req.userId).Ok? ==>
              var cart := GetCartByUserID(s, req.userId).value;
              h.store == AddItemToCart(s, cart.id, req.productId, req.quantity, req.price).store
    ensures h.reply.Success? ==> h.reply.status == StatusOK && h.reply.body.userId == req.userId
    ensures h.reply.Success? ==>
              && GetCartByUserID(h.store, req.userId).Ok?
              && h.reply.body == BuildCartResponse(GetCartByUserID(h.store, req.userId).value)
  {
    if !ValidAdd(req) then Handled(Failure(StatusBadRequest, "Invalid product data"), s)
    else
      match GetCartByUserID(s, req.userId)
      case Err(_) => Handled(Failure(StatusNotFound, "Cart not found"), s)
      case Ok(cart) =>
        var added := AddItemToCart(s, cart.id, req.productId, req.quantity, req.price);
        if added.result.Err? then
          Handled(Failure(StatusInternalServerError, Message(added.result.error)), added.store)
        else
          match GetCartByUserID(added.store, req.userId)
          case Err(e) => Handled(Failure(StatusInternalServerError, Message(e)), added.store)
          case Ok(updated) => Handled(Success(StatusOK, BuildCartResponse(updated)), added.store)
  }

  /** A DELETE of a cart line: validate, find the user's cart, remove the line,
      read the cart back. */
  function RemoveFromCartHandler(s: Store, req: RemoveFromCartRequest): (h: Handled)
    ensures !ValidRemove(req) ==>
              h == Handled(Failure(StatusBadRequest, "User ID and Product ID required"), s)
    ensures ValidRemove(req) && GetCartByUserID(s, req.userId).Err? ==>
              h == Handled(Failure(StatusNotFound, "Cart not found"), s)
    ensures ValidRemove(req) && GetCartByUserID(s, req.userId).Ok? ==>
              var cart := GetCartByUserID(s, req.userId).value;
              var removed := RemoveItemFromCart(s, cart.id, req.productId);
              && h.store == removed.store
              && (removed.result.Err? ==> h == Handled(Failure(StatusBadRequest, "item not found in cart"), s))
    ensures h.reply.Success? ==> h.reply.status == StatusOK && h.reply.body.userId == req.userId
    ensures h.reply.Success? ==>
              && GetCartByUserID(h.store, req.userId).Ok?
              && h.reply.body == BuildCartResponse(GetCartByUserID(h.store, req.userId).value)
  {
    if !ValidRemove(req) then Handled(Failure(StatusBadRequest, "User ID and Product ID required"), s)
    else
      match GetCartByUserID(s, req.userId)
      case Err(_) => Handled(Failure(StatusNotFound, "Cart not found"), s)
      case Ok(cart) =>
        var removed := RemoveItemFromCart(s, cart.id, req.productId);
        if removed.result.Err? then
          Handled(Failure(StatusBadRequest, Message(removed.result.error)), removed.store)
        else
          match GetCartByUserID(removed.store, req.userId)
          case Err(e) => Handled(Failure(StatusInternalServerError, Message(e)), removed.store)
          case Ok(updated) => Handled(Success(StatusOK, BuildCartResponse(updated)), removed.store)
  }

  /** A PUT that sets a line's quantity: validate, find the user's cart, set the quantity,
      read the cart back. */
  function UpdateCartItemHandler(s: Store, req: UpdateCartRequest): (h: Handled)
    ensures !ValidUpdate(req) ==> h == Handled(Failure(StatusBadRequest, "Invalid request data"), s)
    ensures ValidUpdate(req) && GetCartByUserID(s, req.userId).Err? ==>
              h == Handled(Failure(StatusNotFound, "Cart not found"), s)
    ensures ValidUpdate(req) && GetCartByUserID(s, req.userId).Ok? ==>
              var cart := GetCartByUserID(s, req.userId).value;
              var updated := UpdateCartItem(s, cart.id, req.productId, req.quantity);
              && h.store == updated.store
              && (updated.result.Err? ==> h == Handled(Failure(StatusBadRequest, "item not found in cart"), s))
    ensures h.reply.Success? ==> h.reply.status == StatusOK && h.reply.body.userId == req.userId
    ensures h.reply.Success? ==>
              && GetCartByUserID(h.store, req.userId).Ok?
              && h.reply.body == BuildCartResponse(GetCartByUserID(h.store, req.userId).value)
  {
    if !ValidUpdate(req) then Handled(Failure(StatusBadRequest, "Invalid request data"), s)
    else
      match GetCartByUserID(s, req.userId)
      case Err(_) => Handled(Failure(StatusNotFound, "Cart not found"), s)
      case Ok(cart) =>
        var updated := UpdateCartItem(s, cart.id, req.productId, req.quantity);
        if updated.result.Err? then
          Handled(Failure(StatusBadRequest, Message(updated.result.error)), updated.store)
        else
          match GetCartByUserID(updated.store, req.userId)
          case Err(e) => Handled(Failure(StatusInternalServerError, Message(e)), updated.store)
          case Ok(after) => Handled(Success(StatusOK, BuildCartResponse(after)), updated.store)
  }

  /** A POST that clears the cart of a parsed user id: the reply is always an empty
      cart, whatever the cart held. */
  function ClearCartHandler(s: Store, userId: int): (h: Handled)
    ensures h.reply.Failure? <==> GetCartByUserID(s, userId).Err?
    ensures h.reply.Failure? ==> h == Handled(Failure(StatusNotFound, "Cart not found"), s)
    ensures h.reply.Success? ==>
      && h.reply.status == StatusOK
      && h.reply.body.userId == userId
      && h.reply.body.cartId == GetCartByUserID(s, userId).value.id
      && h.reply.body.items == [] && h.reply.body.totalAmount == 0 && h.reply.body.totalItems == 0
      && h.store == ClearCart(s, h.reply.body.cartId)
  {
    match GetCartByUserID(s, userId)
    case Err(_) => Handled(Failure(StatusNotFound, "Cart not found"), s)
    case Ok(cart) => Handled(Success(StatusOK, EmptyResponse(cart.id, userId)), ClearCart(s, cart.id))
  }
}
